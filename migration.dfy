/**
 * The one-shot conversion of the stored model list from its legacy shape (an array of objects
 * with a `value` field) to plain names, run when the list is first loaded. Storage is a map from
 * keys to stored text; JSON.parse and JSON.stringify are parameters.
 */
module Migration {

  import opened Wrappers
  import opened Json
  import ModelList

  type Storage = map<string, string>

  const ModelOptionsKey: string := "model-options"

  /** The result of evaluating a JavaScript expression that may throw. */
  datatype Completion<T> = Throws | Normal(value: T)

  /** What the migration hands back: the list and the storage after it. */
  datatype Migrated = Migrated(options: seq<Option<string>>, storage: Storage)

  /** A list of names as a JavaScript array whose entries are all defined. */
  function Lifted(s: seq<string>): (r: seq<Option<string>>)
  {
    seq(|s|, i requires 0 <= i < |s| => Some(s[i]))
  }

  /** The default list, copied into a fresh array. */
  function Fallback(storage: Storage): (r: Migrated)
    ensures r.options == [Some("gemini-2.5-flash"), Some("gemini-2.5-flash-lite"), Some("gemini-3-flash")]
    ensures r.storage == storage
  {
    Migrated(Lifted(ModelList.DefaultModelOptions), storage)
  }

  /**
   * The guard `Array.isArray(parsed) && parsed.length > 0 && typeof parsed[0] === 'object' &&
   * parsed[0].value`, reduced to its truthiness; probing the `value` of a `null` first element throws.
   */
  function LegacyProbe(parsed: JVal): (r: Completion<bool>)
    ensures r == Throws <==> parsed.JArr? && |parsed.elems| > 0 && parsed.elems[0] == JNull
    ensures r == Normal(true) <==>
      && parsed.JArr? && |parsed.elems| > 0
      && parsed.elems[0].JObj? && parsed.elems[0].value.Some? && parsed.elems[0].value.value != ""
  {
    match parsed
    case JArr(elems) =>
      if |elems| == 0 then Normal(false)
      else (
        match elems[0]
        case JNull => Throws
        case JObj(value) => Normal(value.Some? && value.value != "")
        // a string or scalar is not an object; an array is, but its `value` is undefined
        case _ => Normal(false)
      )
    case _ => Normal(false)
  }

  /** `item.value` when it does not throw: an object's field, otherwise `undefined`. */
  function ValueOf(item: JVal): (r: Option<string>)
    ensures item.JObj? ==> r == item.value
    ensures r.Some? ==> item == JObj(r)
  {
    if item.JObj? then item.value else None
  }

  /** `items.map(item => item.value)`: throws as soon as an element is `null`. */
  function MapValues(items: seq<JVal>): (r: Completion<seq<Option<string>>>)
    ensures r.Throws? <==> JNull in items
    ensures r.Normal? ==>
      |r.value| == |items| && forall i :: 0 <= i < |items| ==> r.value[i] == ValueOf(items[i])
  {
    if items == [] then Normal([])
    else if items[0] == JNull then Throws
    else (
      match MapValues(items[1..])
      case Throws => Throws
      case Normal(rest) => Normal([ValueOf(items[0])] + rest)
    )
  }

  /**
   * The stored text is in the legacy shape the migration converts: present and non-empty, it
   * parses to a non-empty array whose first element is an object with a non-empty `value`, and
   * no element is `null`.
   */
  ghost predicate IsLegacy(storage: Storage, parse: string -> ParseResult)
  {
    && ModelOptionsKey in storage
    && storage[ModelOptionsKey] != ""
    && var p := parse(storage[ModelOptionsKey]);
    && p.Parsed?
    && p.v.JArr?
    && |p.v.elems| > 0
    && p.v.elems[0].JObj?
    && p.v.elems[0].value.Some?
    && p.v.elems[0].value.value != ""
    && JNull !in p.v.elems
  }

  /** migrateModelOptions: no parse or probe error escapes; each falls back to the default list. */
  function Migrate(storage: Storage, parse: string -> ParseResult,
                   stringify: seq<Option<string>> -> string): (r: Migrated)
    ensures IsLegacy(storage, parse) ==>
      var items := parse(storage[ModelOptionsKey]).v.elems;
      && |r.options| == |items|
      && (forall i :: 0 <= i < |items| ==> r.options[i] == ValueOf(items[i]))
      && r.storage == storage[ModelOptionsKey := stringify(r.options)]
    ensures !IsLegacy(storage, parse) ==>
      r.options == Lifted(ModelList.DefaultModelOptions) && r.storage == storage
  {
    if ModelOptionsKey !in storage || storage[ModelOptionsKey] == "" then
      Fallback(storage)
    else
      match parse(storage[ModelOptionsKey])
      case ParseError => Fallback(storage)
      case Parsed(parsed) =>
        if LegacyProbe(parsed) != Normal(true) then Fallback(storage)
        else (
          match MapValues(parsed.elems)
          case Throws => Fallback(storage)
          case Normal(migrated) => Migrated(migrated, storage[ModelOptionsKey := stringify(migrated)])
        )
  }

  /**
   * Running the migration again on what it wrote falls back to the default list and writes
   * nothing: the rewritten array starts with a string, which the guard rejects.
   */
  lemma {:induction false} MigrateIsOneShot(storage: Storage, parse: string -> ParseResult,
                                            stringify: seq<Option<string>> -> string)
    requires IsLegacy(storage, parse)
    requires RoundTrips(parse, stringify, Migrate(storage, parse, stringify).options)
    ensures var first := Migrate(storage, parse, stringify);
      Migrate(first.storage, parse, stringify) == Fallback(first.storage)
  {
  }

  /**
   * Stored text that is already a non-empty array of names is not returned as it is: the
   * migration falls back to the default list and leaves storage alone.
   */
  lemma {:induction false} CurrentShapeFallsBack(storage: Storage, parse: string -> ParseResult,
                                                 stringify: seq<Option<string>> -> string,
                                                 names: seq<string>)
    requires ModelOptionsKey in storage
    requires |names| > 0
    requires parse(storage[ModelOptionsKey]) == Parsed(JArr(EncodeAll(Lifted(names))))
    ensures Migrate(storage, parse, stringify) == Fallback(storage)
  {
  }

}
