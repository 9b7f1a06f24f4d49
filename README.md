# Model of the settings logic of a generative-AI client adapter

The adapter keeps a stored API key, a user-editable list of model names and a handle to the
vendor SDK's client. This project models the three local pieces of `src/logic/index.ts`:

- **Model-list editor** (`ModelList`): the default list of three names and the four operations
  that change the list in place (`push`, `splice(i, 1)`, `list[i] = m`, and reassigning a copy
  of the default). Each array operation is a function on sequences whose contract states its
  effect position by position; the class `ModelOptionsStore` holds the list in a `seq<string>`
  field and its methods are proved to perform exactly those functions.
- **Legacy-shape migration** (`Migration`): `migrateModelOptions` as a function from storage
  (a map from keys to stored text), a JSON parser and a JSON serialiser to the list it returns
  and the storage after it. The parsed value is an abstract `Json.JVal`; the exceptions the
  code catches are modelled by `Completion.Throws`.
- **Client handle** (`Client`): the handle is abstracted to the key it was built with. A pure
  state machine (`SetKey`, `Replay`) and a class `Connection` whose methods follow it.

Points where the code's behaviour is easy to misread:

- The migration does not return a stored list that already holds plain names: it returns a
  fresh copy of the default list and leaves storage alone (`Migration.CurrentShapeFallsBack`).
  The real list is then read back from storage by the persistence layer, which is not modelled.
- A handle exists at load time even for an empty key, since line 9 builds it unconditionally.
  Because a Vue watcher only runs when the value changes, that handle stays until the key is
  first changed (`Client.HandleMatchesKeyFromLoad`).
- `item.value` on an element that is not an object gives `undefined`, so the migrated list is a
  sequence of `Option<string>` (`None` is `undefined`); a `null` element anywhere makes the
  whole migration fall back to the default.
- The stored text `""` is falsy, so it falls back to the default without being parsed.

The default list (src/logic/index.ts:16-20) is the constant `ModelList.DefaultModelOptions`,
`["gemini-2.5-flash", "gemini-2.5-flash-lite", "gemini-3-flash"]`; its value is stated by the
contracts of `ModelList.ModelOptionsStore.ResetModelOptions` and `Migration.Fallback`.

## Model

| member | source | states |
|---|---|---|
| ModelList.Pushed | src/logic/index.ts:43-45 | push grows the list by exactly one, puts the name last and keeps every earlier entry |
| ModelList.SpliceStart | src/logic/index.ts:48 | a non-negative start is used as given; a negative start counts back from the end, is clamped at 0, and on a non-empty list always names an existing entry |
| ModelList.Spliced | src/logic/index.ts:47-49 | splice(start, 1) at an in-range position removes exactly that entry: one shorter, the others in their old order, the multiset loses only that entry; a position at or past the end leaves the list unchanged; a negative start counts back from the end, clamped at 0 |
| ModelList.Assigned | src/logic/index.ts:51-53 | index assignment puts the name at the index and changes no other entry; the length is kept inside the list and grows by one at the end |
| ModelList.SplicedUndoesPushed | src/logic/index.ts:43-49 | removing the entry just added restores the list |
| ModelList.AssignedUndo | src/logic/index.ts:51-53 | writing back the old entry undoes an update |
| ModelList.ModelOptionsStore.constructor | src/logic/index.ts:41 | the store starts from the loaded list |
| ModelList.ModelOptionsStore.AddModel | src/logic/index.ts:43-45 | the new list is the old one with the name appended |
| ModelList.ModelOptionsStore.RemoveModel | src/logic/index.ts:47-49 | the new list is the old one spliced at the index; for 0 <= i < length it is the old list without position i, past the end it is unchanged |
| ModelList.ModelOptionsStore.UpdateModel | src/logic/index.ts:51-53 | the new list is the old one with the index assigned; inside the list only that position changes |
| ModelList.ModelOptionsStore.ResetModelOptions | src/logic/index.ts:55-57 | the list equals the three default names afterwards; the constant itself is immutable |
| Migration.LegacyProbe | src/logic/index.ts:28 | probing throws exactly when the value is a non-empty array whose first element is `null`; the guard is true exactly when it is a non-empty array whose first element is an object with a non-empty string `value` |
| Migration.ValueOf | src/logic/index.ts:29 | `item.value` of an object is its field; a defined value comes only from an object carrying it, anything else gives `undefined` |
| Migration.MapValues | src/logic/index.ts:29 | the map throws exactly when some element is `null`; otherwise it gives, element by element, the object's `value` or `undefined` |
| Migration.Fallback | src/logic/index.ts:38 | the fallback result is a copy of the three default names and storage is unchanged |
| Migration.Migrate | src/logic/index.ts:23-39 | on stored text in the legacy shape it returns exactly the element-wise `value` list and writes that same list back; in every other case (nothing stored, empty text, parse error, not an array, empty array, first element not an object or with a falsy `value`, a `null` element) it returns a copy of the default and leaves storage untouched; no parse or probe error escapes |
| Migration.MigrateIsOneShot | src/logic/index.ts:28-31 | when JSON round-trips, running the migration again on its own output falls back to the default and writes nothing |
| Migration.CurrentShapeFallsBack | src/logic/index.ts:28-38 | a stored non-empty array of names is answered with the default list and storage is left alone |
| Client.HandleFor | src/logic/index.ts:12 | the handle is absent exactly for the empty key, and otherwise built with that key |
| Client.SetKey | src/logic/index.ts:11-13 | after a change of key the handle is absent exactly when the new key is empty, otherwise built with it; assigning the same key changes nothing |
| Client.ReplaySynced | src/logic/index.ts:11-13 | after any run of key assignments, the handle matches the key exactly when it matched before or some assignment changed the key |
| Client.HandleMatchesKeyFromLoad | src/logic/index.ts:8-13 | from load time, the handle matches the key exactly when the stored key was non-empty or a later assignment set a non-empty key |
| Client.Initial | src/logic/index.ts:8-9 | at load the key is the stored one and a client is built with it; that handle is the one the watcher would build exactly when the stored key is non-empty |
| Client.Connection.constructor | src/logic/index.ts:8-9 | at load the key is the stored one and a client is built with it, even when it is empty |
| Client.Connection.SetApiKey | src/logic/index.ts:11-13 | the key and handle move as `SetKey` says; on a change the handle is the one built for the new key |

## Left out

- `generateContent` and `uploadFileToAPI` (src/logic/index.ts:59-83): direct calls into the vendor SDK; the only local content is a constant safety-settings literal.
- `fileToBase64` (src/logic/index.ts:85-97): asynchronous browser file reading; the base64 text comes from the platform's data-URL producer, and the resolve-then-reject double settlement is a promise-runtime matter.
- `isDark` and `toggleDark` (src/logic/index.ts:6-7): UI theme state.
- Persistence: the real `localStorage`, `useStorage` (its serialiser, write-back on every change, reading an existing stored list instead of the migration's result, and updates from other tabs) are not modelled; storage is a map and the stores start from a given value. The store holds only strings, so a migrated list with `undefined` entries, which storage would give back as `null`, is not representable in it.
- JSON.parse and JSON.stringify are parameters; numbers and booleans are one abstract scalar, and an object's `value` is modelled only as an absent or string field (numeric or other truthy values are not).
- Migration.Migrate: reading storage is modelled as always succeeding; in the code the read at src/logic/index.ts:24 comes before the `try`, so a throwing `localStorage.getItem` (storage blocked, or no `localStorage` at all) escapes the migration and the load at line 41.
- A failing `localStorage.setItem` inside the migration (for instance a full quota) would also be caught and fall back to the default; storage writes are modelled as always succeeding.
- Vue's watcher scheduling: it runs after the current tick, so several assignments in one tick count as one change; the model runs the watcher after every assignment.
- ModelList.ModelOptionsStore.UpdateModel: the index is required to be at most the list's length; negative indices (which set a non-element property) and writes further past the end (which leave holes) are not modelled.
- ModelList.ModelOptionsStore.RemoveModel: a non-integer or infinite index is not modelled; the index is an integer.
- The client handle is abstracted to the key it was built with; SDK client objects and their identity are not modelled.
