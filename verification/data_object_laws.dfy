/** How the data object's operations relate to one another: commit, revert
    and diff, the single-field `set`, and the examples of the record's
    documented behaviour. */
module DataObjectLaws {
  import opened JsValues
  import opened Sequences
  import opened DataObject

  // ---------------------------------------------------------------------
  // Reachable states

  lemma FreshIsValid()
    ensures Valid(Fresh)
    ensures GetData(Fresh, Tracked) == Fetched(map[], [])
    ensures GetChangedData(Fresh) == map[]
  {
    assert GetData(Fresh, Tracked).warned == [];
    assert GetChangedData(Fresh) == map[];
  }

  // ---------------------------------------------------------------------
  // setData

  lemma NothingChangedInstalled(live: map<string, Value>, data: map<string, Value>, fields: seq<string>)
    requires Valid(State(live + data, data, fields))
    requires forall f :: f in fields ==> f in data
    ensures GetChangedData(State(live + data, data, fields)) == map[]
  {
    var t := State(live + data, data, fields);
    forall k | k in t.fields
      ensures !Changed(t, k)
    {
    }
    assert GetChangedData(t).Keys == {};
  }

  /** Right after a successful `setData` nothing is reported as changed. */
  lemma SetDataLeavesNothingChanged(s: State, keys: seq<string>, data: map<string, Value>)
    requires Valid(s) && ObjectKeys(keys, data)
    requires SetData(s, keys, data).Ok?
    ensures GetChangedData(SetData(s, keys, data).state) == map[]
  {
    var t := SetData(s, keys, data).state;
    assert t == State(s.live + data, data, Reverse(keys));
    NothingChangedInstalled(s.live, data, Reverse(keys));
  }

  lemma ResetInstalled(live: map<string, Value>, data: map<string, Value>, fields: seq<string>)
    requires Valid(State(live + data, data, fields))
    requires forall f :: f in fields ==> f in data
    ensures ResetData(State(live + data, data, fields)) == State(live + data, data, fields)
  {
    var t := State(live + data, data, fields);
    var u := ResetData(t);
    assert u.live.Keys == t.live.Keys;
  }

  /** `resetData` right after a successful `setData` changes nothing: the
      live values already are the snapshot's. */
  lemma ResetAfterSetDataIsNoOp(s: State, keys: seq<string>, data: map<string, Value>)
    requires Valid(s) && ObjectKeys(keys, data)
    requires SetData(s, keys, data).Ok?
    ensures ResetData(SetData(s, keys, data).state) == SetData(s, keys, data).state
  {
    var t := SetData(s, keys, data).state;
    assert t == State(s.live + data, data, Reverse(keys));
    ResetInstalled(s.live, data, Reverse(keys));
  }

  /** A conflicting `setData` never leaves the conflicting name tracked, so
      reading the tracked fields does not report it. */
  lemma ConflictNeverTracked(s: State, keys: seq<string>, data: map<string, Value>)
    requires Valid(s) && ObjectKeys(keys, data)
    requires SetData(s, keys, data).NameConflict?
    ensures SetData(s, keys, data).name in data
    ensures SetData(s, keys, data).name !in SetData(s, keys, data).state.fields
    ensures SetData(s, keys, data).name !in GetData(SetData(s, keys, data).state, Tracked).data
  {
  }

  /** The change set of a record tracking the single field `a`. */
  lemma ChangedOfOne(s: State, a: string)
    requires s.fields == [a]
    ensures GetChangedData(s) == if Changed(s, a) then map[a := Lookup(s, a)] else map[]
  {
  }

  /** The reverse-order loop assigns the keys after the conflicting one
      before it throws: installing `{set: x, a: y}`, with `Object.keys`
      giving `["set", a]` (so `a` is not an array index), leaves `a` assigned and
      tracked alone, and the snapshot not replaced, so `a` reads as changed
      whenever `y` differs from its old snapshot value. */
  lemma ConflictKeepsLaterKeys(s: State, a: string, x: Value, y: Value)
    requires Valid(s)
    requires a !in Reserved
    ensures
      var r := SetData(s, ["set", a], map["set" := x, a := y]);
      && r == NameConflict("set", State(s.live[a := y], s.snap, [a]))
      && GetChangedData(r.state) == if y != Get(s.snap, a) then map[a := y] else map[]
  {
    var keys, data := ["set", a], map["set" := x, a := y];
    var s0 := s.(fields := []);
    var s1 := State(s.live[a := y], s.snap, [a]);
    assert keys[..1] == ["set"];
    assert "set" in Reserved;
    assert Install(s1, ["set"], data) == NameConflict("set", s1);
    assert Install(s0, keys, data) == NameConflict("set", s1);
    assert SetData(s, keys, data) == NameConflict("set", s1);
    ChangedOfOne(s1, a);
  }

  // ---------------------------------------------------------------------
  // set and plain assignment

  lemma SetFrame(s: State, name: string, v: Value, k: string)
    requires k != name
    ensures var t := State(s.live[name := v], s.snap[name := v], s.fields + [name]);
      && (k in t.fields <==> k in s.fields)
      && Lookup(t, k) == Lookup(s, k)
      && (Changed(t, k) <==> Changed(s, k))
  {
  }

  lemma ChangedAfterSet(s: State, name: string, v: Value)
    requires Valid(s) && name !in Reserved
    ensures GetChangedData(State(s.live[name := v], s.snap[name := v], s.fields + [name]))
            == GetChangedData(s) - {name}
  {
    var t := State(s.live[name := v], s.snap[name := v], s.fields + [name]);
    var a, b := GetChangedData(t), GetChangedData(s) - {name};
    assert !Changed(t, name);
    forall k
      ensures k in a <==> k in b
      ensures k in a ==> a[k] == b[k]
    {
      if k != name {
        SetFrame(s, name, v, k);
      }
    }
    assert a.Keys == b.Keys;
  }

  /** `set` commits its field: the field drops out of the change set and
      every other field's change status is kept; the snapshot holds the value. */
  lemma SetCommitsField(s: State, name: string, v: Value)
    requires Valid(s)
    requires name !in Reserved
    ensures GetChangedData(Set(s, name, v).state) == GetChangedData(s) - {name}
    ensures name in GetPersistedData(Set(s, name, v).state)
    ensures GetPersistedData(Set(s, name, v).state)[name] == v
  {
    var t := Set(s, name, v).state;
    assert t == State(s.live[name := v], s.snap[name := v], s.fields + [name]);
    ChangedAfterSet(s, name, v);
  }

  /** A direct property write on a tracked field shows up in the change set
      exactly when it differs from the snapshot. */
  lemma AssignReportsChange(s: State, name: string, v: Value)
    requires Valid(s)
    requires name !in Reserved
    ensures GetChangedData(Assign(s, name, v)) ==
      if name in s.fields && v != Get(s.snap, name)
      then GetChangedData(s)[name := v]
      else GetChangedData(s) - {name}
  {
    var t := Assign(s, name, v);
    var a := GetChangedData(t);
    var b := if name in s.fields && v != Get(s.snap, name)
             then GetChangedData(s)[name := v]
             else GetChangedData(s) - {name};
    forall k
      ensures k in a <==> k in b
    {
      if k != name {
        assert Changed(t, k) <==> Changed(s, k);
      }
    }
    assert a.Keys == b.Keys;
  }

  // ---------------------------------------------------------------------
  // persistData and resetData

  /** After `persistData` the snapshot agrees with every tracked field. */
  lemma PersistLeavesNothingChanged(s: State)
    requires Valid(s)
    ensures GetChangedData(PersistData(s)) == map[]
  {
    var t := PersistData(s);
    forall k | k in t.fields
      ensures !Changed(t, k)
    {
      assert k in t.snap;
    }
    assert GetChangedData(t).Keys == {};
  }

  lemma PersistIdempotent(s: State)
    requires Valid(s)
    ensures PersistData(PersistData(s)) == PersistData(s)
  {
    var t := PersistData(s);
    var u := PersistData(t);
    assert u.snap.Keys == t.snap.Keys;
    forall k | k in u.snap
      ensures u.snap[k] == t.snap[k]
    {
    }
  }

  /** After `resetData` every tracked field agrees with the snapshot. */
  lemma ResetLeavesNothingChanged(s: State)
    requires Valid(s)
    ensures GetChangedData(ResetData(s)) == map[]
  {
    var t := ResetData(s);
    forall k | k in t.fields
      ensures !Changed(t, k)
    {
      assert k in t.live;
    }
    assert GetChangedData(t).Keys == {};
  }

  lemma ResetIdempotent(s: State)
    requires Valid(s)
    ensures ResetData(ResetData(s)) == ResetData(s)
  {
    var t := ResetData(s);
    var u := ResetData(t);
    assert u.live.Keys == t.live.Keys;
    forall k | k in u.live
      ensures u.live[k] == t.live[k]
    {
    }
  }

  /** `persistData` then `resetData` leaves every property reading as it did
      before the commit (a tracked field that never had a value becomes an
      explicit `undefined`, which reads the same). */
  lemma PersistThenResetKeepsLive(s: State)
    requires Valid(s)
    ensures forall k :: Lookup(ResetData(PersistData(s)), k) == Lookup(s, k)
    ensures ResetData(PersistData(s)).snap == PersistData(s).snap
    ensures ResetData(PersistData(s)).fields == s.fields
  {
    var t := PersistData(s);
    var u := ResetData(t);
    forall k
      ensures Lookup(u, k) == Lookup(s, k)
    {
      if k !in Reserved && k in s.fields {
        assert k in t.snap;
      }
    }
  }

  // ---------------------------------------------------------------------
  // getData, getPersistedData

  /** Asking for a field that was never assigned yields an empty result and
      one warning, not an error. */
  lemma ReadMissingField(s: State, x: string)
    requires x !in Reserved && x !in s.live
    ensures GetData(s, Only([x])) == Fetched(map[], [x])
  {
    assert [x][..0] == [];
    assert Collect(s, []) == Fetched(map[], []);
    assert Collect(s, [x]) == Fetched(map[], [x]);
  }

  /** An operation's name is a property of the record too, so `getData`
      returns the operation itself for it. */
  lemma ReadOperationName(s: State, op: string)
    requires op in Reserved
    ensures GetData(s, Only([op])) == Fetched(map[op := Method(op)], [])
  {
    assert [op][..0] == [];
    assert Collect(s, []) == Fetched(map[], []);
  }

  /** The snapshot reflects the last commit: after installing `{a: 1}` and
      setting `b` to 2, it holds both. */
  lemma PersistedReflectsLastCommit()
    ensures
      var r := SetData(Fresh, ["a"], map["a" := Number(1)]);
      && r.Ok?
      && Set(r.state, "b", Number(2)).Ok?
      && GetPersistedData(Set(r.state, "b", Number(2)).state) == map["a" := Number(1), "b" := Number(2)]
  {
    var keys, data := ["a"], map["a" := Number(1)];
    assert "a" !in Reserved && "b" !in Reserved;
    assert Valid(Fresh) && ObjectKeys(keys, data);
    var r := SetData(Fresh, keys, data);
    assert r.Ok?;
    assert r.state.snap == data;
    var t := Set(r.state, "b", Number(2));
    assert t.Ok?;
    assert t.state.snap == data["b" := Number(2)];
  }

  /** Install `{name: "X", qty: 5}`, `set("qty", 7)`, nothing changed; write
      `qty = 9` directly, only `qty` changed; `resetData()` brings back 7. */
  lemma EditAndRevertScenario()
    ensures
      var data := map["name" := Text("X"), "qty" := Number(5)];
      var r1 := SetData(Fresh, ["name", "qty"], data);
      && r1.Ok?
      && Set(r1.state, "qty", Number(7)).Ok?
      && var s2 := Set(r1.state, "qty", Number(7)).state;
      && GetChangedData(s2) == map[]
      && var s3 := Assign(s2, "qty", Number(9));
      && GetChangedData(s3) == map["qty" := Number(9)]
      && Lookup(ResetData(s3), "qty") == Number(7)
  {
    var keys, data := ["name", "qty"], map["name" := Text("X"), "qty" := Number(5)];
    assert "name" !in Reserved && "qty" !in Reserved;
    assert Valid(Fresh) && ObjectKeys(keys, data);
    assert Reserved !! data.Keys;
    var r1 := SetData(Fresh, keys, data);
    assert r1.Ok?;
    var t := r1.state;
    SetDataLeavesNothingChanged(Fresh, keys, data);
    assert GetChangedData(t) == map[];
    var r2 := Set(t, "qty", Number(7));
    assert r2.Ok?;
    var s2 := r2.state;
    SetCommitsField(t, "qty", Number(7));
    assert GetChangedData(s2) == map[];
    assert "qty" in s2.fields;
    assert Get(s2.snap, "qty") == Number(7);
    var s3 := Assign(s2, "qty", Number(9));
    AssignReportsChange(s2, "qty", Number(9));
    assert GetChangedData(s3) == map["qty" := Number(9)];
    assert Get(s3.snap, "qty") == Number(7);
    assert "qty" in ResetData(s3).live;
  }
}
