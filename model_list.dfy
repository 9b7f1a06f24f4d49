/**
 * The user-editable, ordered list of model names and the four editor operations that change
 * it in place. Each JavaScript array operation is given as a function on sequences; the store
 * class applies them to its `options` field.
 */
module ModelList {

  /** The three model names the list starts with and is reset to. */
  const DefaultModelOptions: seq<string> := ["gemini-2.5-flash", "gemini-2.5-flash-lite", "gemini-3-flash"]

  /** `list.push(model)`. */
  function Pushed(s: seq<string>, model: string): (r: seq<string>)
    ensures |r| == |s| + 1
    ensures r[|s|] == model
    ensures forall j :: 0 <= j < |s| ==> r[j] == s[j]
  {
    s + [model]
  }

  /**
   * The position `splice(start, 1)` removes from a list of length `len`: a negative start counts
   * back from the end and is clamped at 0. A result of `len` or more removes nothing.
   */
  function SpliceStart(len: nat, start: int): (k: nat)
    ensures 0 <= start ==> k == start
    ensures start < 0 && len > 0 ==> k < len
    ensures 0 <= len + start && start < 0 ==> k == len + start
    ensures len + start < 0 ==> k == 0
  {
    if start >= 0 then start
    else if len + start >= 0 then len + start
    else 0
  }

  /** `list.splice(start, 1)`. */
  function Spliced(s: seq<string>, start: int): (r: seq<string>)
    ensures var k := SpliceStart(|s|, start);
      k < |s| ==>
        && |r| == |s| - 1
        && (forall j :: 0 <= j < |r| ==> r[j] == s[if j < k then j else j + 1])
        && multiset(r) + multiset{s[k]} == multiset(s)
    ensures SpliceStart(|s|, start) >= |s| ==> r == s
  {
    var k := SpliceStart(|s|, start);
    if k < |s| then
      assert s == s[..k] + [s[k]] + s[k + 1..];
      s[..k] + s[k + 1..]
    else
      s
  }

  /**
   * `list[index] = model` for an index inside the list or just past its end: the element at
   * `index` becomes `model`; at the end the list grows by one.
   */
  function Assigned(s: seq<string>, index: nat, model: string): (r: seq<string>)
    requires index <= |s|
    ensures |r| == if index < |s| then |s| else |s| + 1
    ensures r[index] == model
    ensures forall j :: 0 <= j < |s| && j != index ==> r[j] == s[j]
  {
    if index < |s| then s[index := model] else s + [model]
  }

  /** Removing the entry just added gives the list back. */
  lemma {:induction false} SplicedUndoesPushed(s: seq<string>, model: string)
    ensures Spliced(Pushed(s, model), |s|) == s
  {
  }

  /** Writing back the old entry undoes an update. */
  lemma {:induction false} AssignedUndo(s: seq<string>, index: nat, model: string)
    requires index < |s|
    ensures Assigned(Assigned(s, index, model), index, s[index]) == s
  {
  }

  /** The persisted `modelOptions` list and the editor operations on it. */
  class ModelOptionsStore {
    var options: seq<string>

    /** The list as loaded at start-up. */
    constructor (initial: seq<string>)
      ensures options == initial
    {
      options := initial;
    }

    /** Appends `model` at the end. */
    method AddModel(model: string)
      modifies this
      ensures options == Pushed(old(options), model)
    {
      options := options + [model];
    }

    /** Removes the entry at `index`; an index past the end changes nothing. */
    method RemoveModel(index: int)
      modifies this
      ensures options == Spliced(old(options), index)
      ensures 0 <= index < |old(options)| ==>
        options == old(options)[..index] + old(options)[index + 1..]
      ensures index >= |old(options)| ==> options == old(options)
    {
      var k := SpliceStart(|options|, index);
      if k < |options| {
        options := options[..k] + options[k + 1..];
      }
    }

    /** Replaces the entry at `index` with `model`. */
    method UpdateModel(index: nat, model: string)
      requires index <= |options|
      modifies this
      ensures options == Assigned(old(options), index, model)
      ensures index < |old(options)| ==> options == old(options)[index := model]
    {
      if index < |options| {
        options := options[index := model];
      } else {
        options := options + [model];
      }
    }

    /** Replaces the whole list with a copy of the default list. */
    method ResetModelOptions()
      modifies this
      ensures options == DefaultModelOptions
    {
      options := DefaultModelOptions;
    }
  }

}
