/**
 * The vendor-SDK client handle kept beside the stored API key. A handle is abstracted to the key
 * it was built with; `None` is `null`. Changing the key rebuilds the handle; assigning the same
 * key again is not a change and leaves everything as it was.
 */
module Client {

  import opened Wrappers

  type Handle = Option<string>

  /** The handle the key watcher builds: none for the empty key, else a client for this key. */
  function HandleFor(key: string): (h: Handle)
    ensures h.None? <==> key == ""
    ensures h.Some? ==> h.value == key
  {
    if key == "" then None else Some(key)
  }

  /** The stored API key and the current handle. */
  datatype State = State(apiKey: string, ai: Handle)

  /** The state at load time: a client is built from the stored key even when that key is empty. */
  function Initial(storedKey: string): (s: State)
    ensures s.apiKey == storedKey && s.ai.Some? && s.ai.value == storedKey
    ensures s.ai == HandleFor(s.apiKey) <==> storedKey != ""
  {
    State(storedKey, Some(storedKey))
  }

  /** Assigning `key` to the stored API key; the watcher runs only when the value changes. */
  function SetKey(s: State, key: string): (t: State)
    ensures t.apiKey == key
    ensures key != s.apiKey ==> (t.ai.None? <==> key == "") && (t.ai.Some? ==> t.ai.value == key)
    ensures key == s.apiKey ==> t == s
  {
    if key == s.apiKey then s else State(key, HandleFor(key))
  }

  /** The state after assigning each key of `keys` in turn. */
  function Replay(s: State, keys: seq<string>): (t: State)
    decreases |keys|
  {
    if keys == [] then s else Replay(SetKey(s, keys[0]), keys[1..])
  }

  /** The handle is the one the watcher would build for the current key. */
  ghost predicate Synced(s: State)
  {
    s.ai == HandleFor(s.apiKey)
  }

  /**
   * After a run of key assignments the handle matches the key exactly when it matched at the
   * start or some assignment actually changed the key.
   */
  lemma {:induction false} ReplaySynced(s: State, keys: seq<string>)
    ensures Synced(Replay(s, keys)) <==> Synced(s) || exists j :: 0 <= j < |keys| && keys[j] != s.apiKey
    decreases |keys|
  {
    if keys != [] {
      var t := SetKey(s, keys[0]);
      ReplaySynced(t, keys[1..]);
    }
  }

  /**
   * From load time, the handle matches the key exactly when the stored key was non-empty or
   * some later assignment set a non-empty key. In particular, an empty stored key leaves a
   * client built with the empty key in place until the key first changes.
   */
  lemma {:induction false} HandleMatchesKeyFromLoad(storedKey: string, keys: seq<string>)
    ensures var s := Replay(Initial(storedKey), keys);
      (s.ai == HandleFor(s.apiKey)) <==> storedKey != "" || exists j :: 0 <= j < |keys| && keys[j] != ""
  {
    ReplaySynced(Initial(storedKey), keys);
  }

  /** The stored `google-api-key` value together with the `ai` handle. */
  class Connection {
    var googleApiKey: string
    var ai: Handle

    /** Load time: the key read from storage and a client built from it unconditionally. */
    constructor (storedKey: string)
      ensures State(googleApiKey, ai) == Initial(storedKey)
      ensures ai == Some(storedKey)
    {
      googleApiKey := storedKey;
      ai := Some(storedKey);
    }

    /** Assigns the API key; on a change the watcher replaces the handle. */
    method SetApiKey(key: string)
      modifies this
      ensures State(googleApiKey, ai) == SetKey(old(State(googleApiKey, ai)), key)
      ensures key != old(googleApiKey) ==> ai == HandleFor(key)
    {
      if key != googleApiKey {
        googleApiKey := key;
        ai := if key != "" then Some(key) else None;
      }
    }
  }

}
