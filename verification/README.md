# DataObject change tracking, modelled in Dafny

`DataObject` (src/objects/data-object.js) is the change-tracking record used by
the Facebook Ads JavaScript SDK objects. A record exposes caller-supplied
fields as plain properties on itself, keeps a separate persisted snapshot, and
an ordered list of tracked field names. It offers seven operations: install a
whole data set (`setData`), set and commit one field (`set`), read fields
(`getData`), read the snapshot (`getPersistedData`), diff live values against
the snapshot (`getChangedData`), commit (`persistData`) and revert
(`resetData`). Field names live in the same namespace as those seven
operations, so a field named after one of them is refused with an exception.

The model is functional. `DataObject.State` holds the live values, the
snapshot and the field list; every operation is a pure function from a state
to the next state or to a result. A thrown exception becomes
`NameConflict(name, state)`, carrying the state as the exception leaves it, so
the partial application of `setData` is kept. A property that was never
assigned reads as `Undefined`; reading an operation's name yields the
operation itself (`Method(name)`), which is what `getData(["set"])` returns in
JavaScript. `Valid` (no tracked field and no live property is named after an
operation) holds of the fresh record and is preserved by every operation; the
operations that write properties require it.

Files:

- `js_values.dfy` (module `JsValues`): the observable JavaScript values, `Absent` (what `!= undefined` rejects) and `Get` (reading a missing property).
- `sequences.dfy` (module `Sequences`): `Reverse`.
- `data_object.dfy` (module `DataObject`): state, reserved names, and the seven operations plus a plain property write; each loop of the source is a recursive function that walks the list from its last element, as the source's `for (i = length - 1; i >= 0; i--)` loops do.
- `data_object_laws.dfy` (module `DataObjectLaws`): how commit, revert, diff and `set` relate, and the documented example runs.

`setData` is not atomic, and the model keeps it that way: one might expect
every key to be checked for a conflict before any is assigned, but the code
assigns keys from the last one backwards and throws at the first reserved key
it meets, leaving the later keys assigned and tracked and the snapshot not
replaced (`SetData`, `ConflictKeepsLaterKeys`).

## Model

| member | source | states |
|---|---|---|
| DataObject.Install | src/objects/data-object.js:21-30 | the backward loop succeeds exactly when no key is reserved, then all keys are assigned, tracked in reverse and the snapshot becomes the data; otherwise it stops at the last reserved key, with exactly the keys after it assigned and tracked and the snapshot untouched |
| DataObject.InstalledStep | src/objects/data-object.js:23-29 | one iteration (assign the last pending key, append it to the field list) followed by the loop over the remaining keys is the loop over all keys |
| DataObject.SetData | src/objects/data-object.js:19-32 | `setData` fails iff some key is an operation name; on success live is old live overridden by the data, snapshot equals the data, field list is the keys reversed (untracked old values kept); on failure the reported name is the last reserved key, the snapshot is kept, and only the keys after it are assigned and tracked; the record stays valid either way |
| DataObject.Set | src/objects/data-object.js:40-47 | `set` fails iff the name is an operation name and then changes nothing; otherwise it appends the name (duplicates kept), gives it the value both live and in the snapshot, and leaves every other property and snapshot entry as it was |
| DataObject.Assign | src/objects/data-object.js:4-8 | fields are plain properties of the record: writing one directly changes only that property's value, leaves snapshot and field list untouched, and keeps the record valid |
| DataObject.Collect | src/objects/data-object.js:57-60 | the `getData` loop returns a name iff it was requested and its value is neither undefined nor null, with that value, and warns exactly about the requested names whose value is undefined or null |
| DataObject.GetData | src/objects/data-object.js:54-62 | with no list the tracked fields are read; a requested name is in the result iff its value is not undefined/null, each result value is the property's value, the rest are warned about, and the call never fails |
| DataObject.GetPersistedData | src/objects/data-object.js:67-69 | `getPersistedData` never fails and returns the snapshot the other operations compare against: a tracked field is in `getChangedData()` exactly when its value differs from the returned entry, and after `resetData` every tracked field reads as the returned entry (undefined if missing) |
| DataObject.Diff | src/objects/data-object.js:77-80 | the `getChangedData` loop returns exactly the listed names whose value differs from the snapshot's, mapped to their live values |
| DataObject.GetChangedData | src/objects/data-object.js:75-82 | the change set is exactly the tracked fields whose live value differs from the snapshot, with their live values |
| DataObject.Commit | src/objects/data-object.js:89-91 | the `persistData` loop makes the snapshot hold every listed field's live value, keeps other snapshot entries, and leaves live and the field list alone |
| DataObject.PersistData | src/objects/data-object.js:88-93 | after `persistData` the snapshot agrees with live on every tracked field; live, field list and untracked snapshot entries are unchanged |
| DataObject.Revert | src/objects/data-object.js:100-102 | the `resetData` loop gives every listed field its snapshot value (undefined if absent), keeps other properties, and leaves snapshot and field list alone |
| DataObject.ResetData | src/objects/data-object.js:99-104 | after `resetData` each tracked field holds its snapshot value or undefined; untracked properties, snapshot and field list are unchanged; the record stays valid |
| DataObjectLaws.FreshIsValid | src/objects/data-object.js:9-13 | a new record is valid, tracks nothing, reads as empty and has no changes |
| DataObjectLaws.SetDataLeavesNothingChanged | src/objects/data-object.js:27-30 | right after a successful `setData`, `getChangedData` is empty |
| DataObjectLaws.ResetAfterSetDataIsNoOp | src/objects/data-object.js:99-104 | `resetData` right after a successful `setData` leaves the record exactly as it was |
| DataObjectLaws.ConflictNeverTracked | src/objects/data-object.js:25-26 | a failed `setData` names one of the data's keys, and that name is neither tracked nor returned by `getData()` |
| DataObjectLaws.ConflictKeepsLaterKeys | src/objects/data-object.js:21-30 | installing `{set: x, a: y}` with `Object.keys` giving `["set", a]` throws on `set` after `a` was assigned: `a` is the only tracked field, the snapshot is the old one, and `a` is reported changed iff `y` differs from its old snapshot value |
| DataObjectLaws.SetCommitsField | src/objects/data-object.js:44-45 | a successful `set` removes its field from the change set, keeps every other field's change status, and the snapshot maps the field to the value |
| DataObjectLaws.AssignReportsChange | src/objects/data-object.js:75-82 | after a plain write to a field, the change set gains the field with its new value iff the field is tracked and the value differs from the snapshot, and otherwise loses it |
| DataObjectLaws.PersistLeavesNothingChanged | src/objects/data-object.js:88-93 | after `persistData`, `getChangedData` is empty |
| DataObjectLaws.PersistIdempotent | src/objects/data-object.js:88-93 | `persistData` twice equals `persistData` once |
| DataObjectLaws.ResetLeavesNothingChanged | src/objects/data-object.js:99-104 | after `resetData`, `getChangedData` is empty |
| DataObjectLaws.ResetIdempotent | src/objects/data-object.js:99-104 | `resetData` twice equals `resetData` once |
| DataObjectLaws.PersistThenResetKeepsLive | src/objects/data-object.js:88-104 | `persistData` then `resetData` leaves every property reading as before, with the committed snapshot and the same field list |
| DataObjectLaws.ReadMissingField | src/objects/data-object.js:57-60 | reading a never-assigned field returns an empty object and one warning for it, not an error |
| DataObjectLaws.ReadOperationName | src/objects/data-object.js:58 | asking `getData` for an operation's name returns the operation itself, because it is a property of the record |
| DataObjectLaws.PersistedReflectsLastCommit | src/objects/data-object.js:67-69 | after installing `{a: 1}` and `set("b", 2)`, the persisted data is `{a: 1, b: 2}` |
| DataObjectLaws.EditAndRevertScenario | src/objects/data-object.js:40-47 | install `{name: "X", qty: 5}`, `set("qty", 7)`: no changes; write `qty = 9`: only `qty` changed, to 9; `resetData()`: `qty` reads 7 again |

## Left out

- The module wrapper that exports `DataObject` or attaches it to the SDK namespace (lines 1-2, 118-120): environment plumbing.
- The constructor's `data` argument is ignored by the source (line 9); `Fresh` is the record it builds.
- The scan that collects operation names (lines 109-113) is replaced by the constant `Reserved` set of the seven operations. The scan runs lazily on the first `setData` or `set`, so in JavaScript it would also pick up methods that an object built on top of the record adds before then, and any function-valued property written directly before then; neither is modelled.
- `console.warn` (line 59) is modelled as the returned `warned` list, not as output.
- DataObject.GetData: states which names are warned about but not the order or repetition of the warnings, since they are log output.
- JavaScript loose equality (lines 58, 78) is replaced by structural equality on `Value`, keeping only the rule that `undefined` and `null` are both absent for `getData`; coercions such as `"5" == 5` and `NaN != NaN` are out of scope, and numbers are integers.
- `persistedData = newData` (line 30) shares the caller's object, and `getPersistedData` returns that object itself; the model copies values, so later mutation through either reference is not reflected.
- Error message contents (lines 26, 43) are not modelled; the error carries only the conflicting name.
- Properties inherited from `Object.prototype` (`toString`, `constructor`, `__proto__`, ...) read as `Undefined` in the model, whereas JavaScript resolves them through the prototype chain.
- DataObject.SetData: takes `Object.keys(newData)` as its `keys` argument; how `Object.keys` orders keys (integer-like keys first) is not modelled.
- `setData(undefined)` and `setData(null)` throw a TypeError from `Object.keys` (line 21) before the field list is reset, leaving the record as it was; the model's `data` argument is always a map and cannot express that input.
- `getData` called with a truthy non-array argument (a string, say) is not modelled; only "no list" and an explicit list are.
- DataObject.Assign: requires the name not to be an operation name; overwriting one of the record's own operations by a plain property write is not modelled.
- DataObject.Set, DataObject.SetData, DataObject.ResetData, DataObject.PersistData, DataObject.Assign: require `Valid`, which every reachable record satisfies; behaviour on records whose fields shadow an operation (reachable only by the unmodelled writes above) is not stated.
- Concurrent use of one record: the source is single-threaded and synchronous.
