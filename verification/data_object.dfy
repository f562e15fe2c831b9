/** The change-tracking record `DataObject`.

    A record keeps three pieces of per-instance state: the live field values
    (properties on the object itself), the persisted snapshot, and the ordered
    list of tracked field names. Field names share one namespace with the
    record's own operations, so a field may never be named after one of them.

    Every operation is a pure transition: it takes a `State` and returns the
    next one. An operation that throws in JavaScript returns `NameConflict`
    carrying the state as it was when the exception left the call. */
module DataObject {
  import opened JsValues
  import opened Sequences

  /** The record's own operations. `setOwnPublicMethods` collects them by
      scanning the instance for function-valued properties on the first
      `setData` or `set`; at that moment exactly these seven exist. */
  const Reserved: set<string> :=
    {"setData", "set", "getData", "getPersistedData", "getChangedData", "persistData", "resetData"}

  datatype State = State(
    live: map<string, Value>,   // field values stored as properties on the record
    snap: map<string, Value>,   // the persisted snapshot
    fields: seq<string>         // tracked field names, duplicates allowed
  )

  /** A freshly constructed record: no fields, empty snapshot. */
  const Fresh: State := State(map[], map[], [])

  /** What every reachable state satisfies: no field shadows an operation. */
  predicate Valid(s: State) {
    && (forall f :: f in s.fields ==> f !in Reserved)
    && Reserved !! s.live.Keys
  }

  /** The value of property `k` on the record: an operation name reads as
      the operation itself, anything else as its live value. */
  function Lookup(s: State, k: string): Value {
    if k in Reserved then Method(k) else Get(s.live, k)
  }

  /** Field `k` differs from its snapshot value (`_this[k] != persistedData[k]`). */
  predicate Changed(s: State, k: string) {
    Lookup(s, k) != Get(s.snap, k)
  }

  datatype Outcome =
    | Ok(state: State)
    | NameConflict(name: string, state: State)   // the thrown error, with the state it leaves behind

  // ---------------------------------------------------------------------
  // setData

  /** `keys` lists the own keys of `data`, as `Object.keys(data)` does.
      (`Object.keys` never repeats a key; nothing below depends on that.) */
  ghost predicate ObjectKeys(keys: seq<string>, data: map<string, Value>) {
    forall k :: k in keys <==> k in data
  }

  /** The entries of `data` whose keys are among `done`. */
  function Applied(data: map<string, Value>, done: seq<string>): map<string, Value> {
    map k | k in done && k in data :: data[k]
  }

  /** The state after the keys `done` of `data` were assigned, last key first. */
  function Partial(s: State, done: seq<string>, data: map<string, Value>): State {
    State(s.live + Applied(data, done), s.snap, s.fields + Reverse(done))
  }

  /** `keys[j]` is the conflict the backward loop over `keys` meets first. */
  predicate ConflictAt(keys: seq<string>, j: int) {
    && 0 <= j < |keys|
    && keys[j] in Reserved
    && forall i :: j < i < |keys| ==> keys[i] !in Reserved
  }

  lemma PartialNone(s: State, data: map<string, Value>)
    ensures Partial(s, [], data) == s
  {
    assert Applied(data, []) == map[];
    assert s.live + map[] == s.live;
  }

  lemma AppliedSnoc(data: map<string, Value>, done: seq<string>, p: string)
    requires p in data
    ensures Applied(data, done + [p]) == Applied(data, done)[p := data[p]]
  {
    var a, b := Applied(data, done + [p]), Applied(data, done)[p := data[p]];
    assert forall k :: k in a <==> k in b;
  }

  lemma LiveStep(live: map<string, Value>, p: string, done: seq<string>, data: map<string, Value>)
    requires p in data
    ensures live[p := data[p]] + Applied(data, done) == live + Applied(data, done + [p])
  {
    AppliedSnoc(data, done, p);
    var a := live[p := data[p]] + Applied(data, done);
    var b := live + Applied(data, done + [p]);
    assert a.Keys == b.Keys;
    assert forall k :: k in a ==> a[k] == b[k];
  }

  lemma PartialStep(s: State, p: string, done: seq<string>, data: map<string, Value>)
    requires p in data
    ensures Partial(State(s.live[p := data[p]], s.snap, s.fields + [p]), done, data)
            == Partial(s, done + [p], data)
  {
    var ext := done + [p];
    assert ext[..|ext| - 1] == done;
    assert Reverse(ext) == [p] + Reverse(done);
    LiveStep(s.live, p, done, data);
  }

  /** What the loop of `setData` over `pending` leaves behind, starting
      from `s`: if no key of `pending` is reserved, all of them assigned and
      the snapshot replaced by `data`; otherwise the keys after the last
      reserved one assigned, and the snapshot untouched. */
  ghost predicate Installed(s: State, pending: seq<string>, data: map<string, Value>, r: Outcome) {
    && (r.Ok? <==> forall k :: k in pending ==> k !in Reserved)
    && (r.Ok? ==> r.state == Partial(s, pending, data).(snap := data))
    && (r.NameConflict? ==>
          var j := |pending| - 1 - (|r.state.fields| - |s.fields|);
          && ConflictAt(pending, j)
          && r.name == pending[j]
          && r.state == Partial(s, pending[j + 1..], data))
  }

  lemma ConflictStep(rest: seq<string>, p: string, j: int)
    requires p !in Reserved
    requires ConflictAt(rest, j)
    ensures ConflictAt(rest + [p], j)
    ensures (rest + [p])[j] == rest[j]
    ensures (rest + [p])[j + 1..] == rest[j + 1..] + [p]
  {
    var pending := rest + [p];
    assert forall i :: 0 <= i < |rest| ==> pending[i] == rest[i];
  }

  /** One iteration of the `setData` loop: assigning the last pending key
      `p` and then running the loop over the rest is the loop over all. */
  lemma InstalledStep(s: State, p: string, rest: seq<string>, data: map<string, Value>, r: Outcome)
    requires p in data && p !in Reserved
    requires Installed(State(s.live[p := data[p]], s.snap, s.fields + [p]), rest, data, r)
    ensures Installed(s, rest + [p], data, r)
  {
    if r.Ok? {
      InstalledStepOk(s, p, rest, data, r);
    } else {
      InstalledStepConflict(s, p, rest, data, r);
    }
  }

  lemma InstalledStepOk(s: State, p: string, rest: seq<string>, data: map<string, Value>, r: Outcome)
    requires p in data && p !in Reserved && r.Ok?
    requires Installed(State(s.live[p := data[p]], s.snap, s.fields + [p]), rest, data, r)
    ensures Installed(s, rest + [p], data, r)
  {
    var pending := rest + [p];
    assert forall k :: k in pending ==> k in rest || k == p;
    PartialStep(s, p, rest, data);
  }

  lemma InstalledStepConflict(s: State, p: string, rest: seq<string>, data: map<string, Value>, r: Outcome)
    requires p in data && p !in Reserved && r.NameConflict?
    requires Installed(State(s.live[p := data[p]], s.snap, s.fields + [p]), rest, data, r)
    ensures Installed(s, rest + [p], data, r)
  {
    var pending := rest + [p];
    var j := |rest| - 1 - (|r.state.fields| - |s.fields| - 1);
    ConflictStep(rest, p, j);
    PartialStep(s, p, rest[j + 1..], data);
    assert r.state == Partial(s, pending[j + 1..], data);
    assert |r.state.fields| == |s.fields| + |pending| - 1 - j;
    assert r.name == pending[j] && pending[j] in Reserved;
    assert pending[j] in pending;
  }

  /** The loop of `setData`: walks `pending` from its last key to its first,
      assigning each key and appending it to the field list, and throws at
      the first reserved key it meets; on completion the snapshot becomes
      `data`. */
  function Install(s: State, pending: seq<string>, data: map<string, Value>): (r: Outcome)
    requires forall k :: k in pending ==> k in data
    ensures Installed(s, pending, data, r)
    decreases |pending|
  {
    PartialNone(s, data);
    if pending == [] then
      Ok(s.(snap := data))
    else
      var p := pending[|pending| - 1];
      if p in Reserved then
        assert pending[|pending|..] == [];
        NameConflict(p, s)
      else
        var rest := pending[..|pending| - 1];
        assert pending == rest + [p];
        var r := Install(State(s.live[p := data[p]], s.snap, s.fields + [p]), rest, data);
        InstalledStep(s, p, rest, data, r);
        r
  }

  lemma AppliedAll(keys: seq<string>, data: map<string, Value>)
    requires ObjectKeys(keys, data)
    ensures Applied(data, keys) == data
  {
  }

  lemma PartialValid(s: State, done: seq<string>, data: map<string, Value>)
    requires Valid(s)
    requires forall k :: k in done ==> k !in Reserved
    ensures Valid(Partial(s, done, data))
  {
    assert Applied(data, done).Keys <= (set k | k in done);
  }

  lemma AfterConflictClean(keys: seq<string>, j: int)
    requires ConflictAt(keys, j)
    ensures forall k :: k in keys[j + 1..] ==> k !in Reserved
  {
    forall k | k in keys[j + 1..]
      ensures k !in Reserved
    {
      var i :| 0 <= i < |keys[j + 1..]| && keys[j + 1..][i] == k;
      assert keys[j + 1 + i] == k;
    }
  }

  /** `setData(newData)`, with `keys` the order `Object.keys` gives.

      On success the field list is the keys in reverse order, every key holds
      its new value, other live values stay (untracked), and the snapshot is
      the new data. On a conflict the snapshot is not replaced, but the keys
      after the conflicting one (in key order) have already been assigned and
      are the only tracked fields. */
  function SetData(s: State, keys: seq<string>, data: map<string, Value>): (r: Outcome)
    requires Valid(s)
    requires ObjectKeys(keys, data)
    ensures Valid(r.state)
    ensures r.Ok? <==> Reserved !! data.Keys
    ensures r.Ok? ==> r.state == State(s.live + data, data, Reverse(keys))
    ensures r.NameConflict? ==>
      var j := |keys| - 1 - |r.state.fields|;
      && ConflictAt(keys, j)
      && r.name == keys[j]
      && r.state.snap == s.snap
      && r.state.fields == Reverse(keys[j + 1..])
      && r.state.live == s.live + Applied(data, keys[j + 1..])
  {
    var s0 := s.(fields := []);
    assert Valid(s0);
    var r := Install(s0, keys, data);
    if r.NameConflict? then
      var j := |keys| - 1 - |r.state.fields|;
      assert ConflictAt(keys, j);
      AfterConflictClean(keys, j);
      PartialValid(s0, keys[j + 1..], data);
      assert [] + Reverse(keys[j + 1..]) == Reverse(keys[j + 1..]);
      assert keys[j] in data;
      r
    else
      AppliedAll(keys, data);
      PartialValid(s0, keys, data);
      assert [] + Reverse(keys) == Reverse(keys);
      assert r.state == State(s.live + data, data, Reverse(keys));
      r
  }

  // ---------------------------------------------------------------------
  // set

  /** `set(name, value)`: assigns one field and commits it at once. */
  function Set(s: State, name: string, v: Value): (r: Outcome)
    requires Valid(s)
    ensures Valid(r.state)
    ensures r.NameConflict? <==> name in Reserved
    ensures r.NameConflict? ==> r.name == name && r.state == s
    ensures r.Ok? ==> r.state.fields == s.fields + [name]
    ensures r.Ok? ==> Lookup(r.state, name) == v && Get(r.state.snap, name) == v
    ensures r.Ok? ==> forall k :: k != name ==>
      Get(r.state.live, k) == Get(s.live, k) && Get(r.state.snap, k) == Get(s.snap, k)
  {
    if name in Reserved then NameConflict(name, s)
    else Ok(State(s.live[name := v], s.snap[name := v], s.fields + [name]))
  }

  /** A plain property write `record[name] = v`, outside the tracked mutators. */
  function Assign(s: State, name: string, v: Value): (r: State)
    requires Valid(s)
    requires name !in Reserved
    ensures Valid(r)
    ensures r.snap == s.snap && r.fields == s.fields
    ensures Lookup(r, name) == v
    ensures forall k :: k != name ==> Lookup(r, k) == Lookup(s, k)
  {
    s.(live := s.live[name := v])
  }

  // ---------------------------------------------------------------------
  // getData

  /** The `fields` argument of `getData`: omitted (or `null`) means the
      tracked field list; any array, even an empty one, is used as given. */
  datatype FieldList = Tracked | Only(names: seq<string>)

  /** The returned object, and the names reported through `console.warn`. */
  datatype Fetched = Fetched(data: map<string, Value>, warned: seq<string>)

  function Requested(s: State, which: FieldList): seq<string> {
    match which
    case Tracked => s.fields
    case Only(names) => names
  }

  /** The loop of `getData` over `names`, last name first. */
  function Collect(s: State, names: seq<string>): (r: Fetched)
    ensures forall k :: k in r.data <==> k in names && !Absent(Lookup(s, k))
    ensures forall k :: k in r.data ==> r.data[k] == Lookup(s, k)
    ensures forall k :: k in r.warned <==> k in names && Absent(Lookup(s, k))
    decreases |names|
  {
    if names == [] then Fetched(map[], [])
    else
      var n := names[|names| - 1];
      var rest := names[..|names| - 1];
      assert names == rest + [n];
      var later := Collect(s, rest);
      var v := Lookup(s, n);
      if Absent(v) then Fetched(later.data, [n] + later.warned)
      else Fetched(later.data[n := v], later.warned)
  }

  /** `getData(fields)`: the requested names whose value is neither
      `undefined` nor `null`, with their values; the others are only warned
      about, never an error. */
  function GetData(s: State, which: FieldList): (r: Fetched)
    ensures forall k :: k in r.data <==> k in Requested(s, which) && !Absent(Lookup(s, k))
    ensures forall k :: k in r.data ==> r.data[k] == Lookup(s, k)
    ensures forall k :: k in r.warned <==> k in Requested(s, which) && Absent(Lookup(s, k))
  {
    Collect(s, Requested(s, which))
  }

  // ---------------------------------------------------------------------
  // getPersistedData, getChangedData

  /** `getPersistedData()`: the snapshot itself, never an error. It is the
      reference the other operations work against: a tracked field is in the
      change set exactly when its value differs from what this returns, and
      `resetData` brings every tracked field back to what this returns. */
  function GetPersistedData(s: State): (r: map<string, Value>)
    ensures forall k :: k in s.fields ==> (k in GetChangedData(s) <==> Lookup(s, k) != Get(r, k))
    ensures Valid(s) ==> forall k :: k in s.fields ==> Lookup(ResetData(s), k) == Get(r, k)
  {
    s.snap
  }

  /** The loop of `getChangedData` over `names`, last name first. */
  function Diff(s: State, names: seq<string>): (r: map<string, Value>)
    ensures forall k :: k in r <==> k in names && Changed(s, k)
    ensures forall k :: k in r ==> r[k] == Lookup(s, k)
    decreases |names|
  {
    if names == [] then map[]
    else
      var n := names[|names| - 1];
      var rest := names[..|names| - 1];
      assert names == rest + [n];
      var later := Diff(s, rest);
      if Changed(s, n) then later[n := Lookup(s, n)] else later
  }

  /** `getChangedData()`: exactly the tracked fields whose live value
      differs from the snapshot, mapped to their live values. */
  function GetChangedData(s: State): (r: map<string, Value>)
    ensures forall k :: k in r <==> k in s.fields && Changed(s, k)
    ensures forall k :: k in r ==> r[k] == Lookup(s, k)
  {
    Diff(s, s.fields)
  }

  // ---------------------------------------------------------------------
  // persistData, resetData

  /** The loop of `persistData` over `names`, last name first. */
  function Commit(s: State, names: seq<string>): (r: State)
    ensures r.live == s.live && r.fields == s.fields
    ensures r.snap.Keys == s.snap.Keys + (set k | k in names)
    ensures forall k :: k in r.snap ==> r.snap[k] == if k in names then Lookup(s, k) else s.snap[k]
    decreases |names|
  {
    if names == [] then s
    else
      var n := names[|names| - 1];
      var rest := names[..|names| - 1];
      assert names == rest + [n];
      Commit(s.(snap := s.snap[n := Lookup(s, n)]), rest)
  }

  /** `persistData()`: copies every tracked field's live value into the
      snapshot; snapshot entries of untracked names stay. */
  function PersistData(s: State): (r: State)
    requires Valid(s)
    ensures Valid(r)
    ensures r.live == s.live && r.fields == s.fields
    ensures r.snap.Keys == s.snap.Keys + (set k | k in s.fields)
    ensures forall k :: k in r.snap ==> r.snap[k] == if k in s.fields then Lookup(s, k) else s.snap[k]
  {
    Commit(s, s.fields)
  }

  /** The loop of `resetData` over `names`, last name first. */
  function Revert(s: State, names: seq<string>): (r: State)
    ensures r.snap == s.snap && r.fields == s.fields
    ensures r.live.Keys == s.live.Keys + (set k | k in names)
    ensures forall k :: k in r.live ==> r.live[k] == if k in names then Get(s.snap, k) else s.live[k]
    decreases |names|
  {
    if names == [] then s
    else
      var n := names[|names| - 1];
      var rest := names[..|names| - 1];
      assert names == rest + [n];
      Revert(s.(live := s.live[n := Get(s.snap, n)]), rest)
  }

  /** `resetData()`: every tracked field takes its snapshot value, or
      `undefined` when the snapshot lacks it; untracked fields stay. */
  function ResetData(s: State): (r: State)
    requires Valid(s)
    ensures Valid(r)
    ensures r.snap == s.snap && r.fields == s.fields
    ensures r.live.Keys == s.live.Keys + (set k | k in s.fields)
    ensures forall k :: k in r.live ==> r.live[k] == if k in s.fields then Get(s.snap, k) else s.live[k]
  {
    Revert(s, s.fields)
  }
}
