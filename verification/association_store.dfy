/** The host's persistence primitive: records addressed by association tags.
    A store is the sequence of its records in insertion order. Reading by a set
    of tags returns every record whose tags include them; updating with upsert
    overwrites every such record, or appends a new one when there is none. */
module AssociationStore {
  import opened Js

  datatype Model = RoomModel | UserModel | MiscModel

  /** One tag: a scope and an identifier within it. */
  datatype Association = Association(model: Model, id: string)

  datatype Record<V> = Record(tags: set<Association>, value: V)

  type Store<V> = seq<Record<V>>

  predicate Matches<V>(r: Record<V>, q: set<Association>) {
    q <= r.tags
  }

  /** `a` is `b` with some elements left out, order kept. */
  predicate IsSubsequence<T(==)>(a: seq<T>, b: seq<T>)
    decreases |b|
  {
    if |a| == 0 then true
    else if |b| == 0 then false
    else if a[|a| - 1] == b[|b| - 1] then IsSubsequence(a[..|a| - 1], b[..|b| - 1])
    else IsSubsequence(a, b[..|b| - 1])
  }

  /** `readByAssociations`: the records carrying all of `q`, in insertion order. */
  function Read<V>(s: Store<V>, q: set<Association>): Store<V>
    decreases |s|
  {
    if |s| == 0 then []
    else
      var rest := Read(s[..|s| - 1], q);
      if Matches(s[|s| - 1], q) then rest + [s[|s| - 1]] else rest
  }

  /** How many records of `s` carry `q`, duplicates included. */
  function MatchCount<V>(s: Store<V>, q: set<Association>): nat
    decreases |s|
  {
    if |s| == 0 then 0
    else MatchCount(s[..|s| - 1], q) + (if Matches(s[|s| - 1], q) then 1 else 0)
  }

  /** Every record read carries `q`, every record carrying `q` is read, and
      the order of the store is kept; a record stored twice is read twice, so
      the read is exactly the matching records of the store, in order. */
  lemma {:induction false} ReadSpec<V>(s: Store<V>, q: set<Association>)
    ensures forall r :: r in Read(s, q) ==> r in s && Matches(r, q)
    ensures forall i :: 0 <= i < |s| && Matches(s[i], q) ==> s[i] in Read(s, q)
    ensures IsSubsequence(Read(s, q), s)
    ensures |Read(s, q)| == MatchCount(s, q)
    decreases |s|
  {
    if |s| > 0 {
      var init, last := s[..|s| - 1], s[|s| - 1];
      ReadSpec(init, q);
      var rest := Read(init, q);
      assert forall i :: 0 <= i < |init| ==> init[i] == s[i];
      assert forall r :: r in init ==> r in s;
      if Matches(last, q) {
        assert (rest + [last])[..|rest|] == rest;
      } else {
        assert |rest| > 0 ==> rest[|rest| - 1] in rest;
      }
    }
  }

  /** A store in which no record carries `q` reads nothing. */
  lemma {:induction false} ReadNoMatch<V>(s: Store<V>, q: set<Association>)
    requires forall j :: 0 <= j < |s| ==> !Matches(s[j], q)
    ensures Read(s, q) == []
    decreases |s|
  {
    if |s| > 0 {
      ReadNoMatch(s[..|s| - 1], q);
    }
  }

  /** The first record read is the earliest record of the store carrying `q`. */
  lemma {:induction false} ReadHead<V>(s: Store<V>, q: set<Association>, i: nat)
    requires i < |s| && Matches(s[i], q)
    requires forall j :: 0 <= j < i ==> !Matches(s[j], q)
    ensures |Read(s, q)| > 0 && Read(s, q)[0] == s[i]
    decreases |s|
  {
    var init := s[..|s| - 1];
    if i == |s| - 1 {
      ReadNoMatch(init, q);
    } else {
      ReadHead(init, q, i);
    }
  }

  /** A store holding a record that carries `q` has an earliest such record. */
  lemma {:induction false} EarliestMatch<V>(s: Store<V>, q: set<Association>, k: nat) returns (i: nat)
    requires k < |s| && Matches(s[k], q)
    ensures i <= k && Matches(s[i], q)
    ensures forall j :: 0 <= j < i ==> !Matches(s[j], q)
    decreases k
  {
    if exists j :: 0 <= j < k && Matches(s[j], q) {
      var j :| 0 <= j < k && Matches(s[j], q);
      i := EarliestMatch(s, q, j);
    } else {
      i := k;
    }
  }

  /** Every record carrying `q` gets value `v`; tags are kept. */
  function Overwrite<V>(s: Store<V>, q: set<Association>, v: V): Store<V>
    decreases |s|
  {
    if |s| == 0 then []
    else
      var last := s[|s| - 1];
      Overwrite(s[..|s| - 1], q, v) + [if Matches(last, q) then Record(last.tags, v) else last]
  }

  lemma {:induction false} OverwriteSpec<V>(s: Store<V>, q: set<Association>, v: V)
    ensures |Overwrite(s, q, v)| == |s|
    ensures forall i :: 0 <= i < |s| ==> Overwrite(s, q, v)[i].tags == s[i].tags
    ensures forall i :: 0 <= i < |s| ==>
      Overwrite(s, q, v)[i].value == (if Matches(s[i], q) then v else s[i].value)
    decreases |s|
  {
    if |s| > 0 {
      OverwriteSpec(s[..|s| - 1], q, v);
    }
  }

  /** `updateByAssociations(q, v, true)`: overwrite the records carrying `q`,
      or append one when there is none. */
  function Update<V>(s: Store<V>, q: set<Association>, v: V): Store<V> {
    if |Read(s, q)| > 0 then Overwrite(s, q, v) else s + [Record(q, v)]
  }

  /** An update keeps every existing record's tags, leaves the records not
      carrying `q` alone, gives `v` to every record that does, and grows the
      store only when nothing carried `q`. */
  lemma UpdateSpec<V>(s: Store<V>, q: set<Association>, v: V)
    ensures |Read(s, q)| > 0 ==> |Update(s, q, v)| == |s|
    ensures |Read(s, q)| == 0 ==> Update(s, q, v) == s + [Record(q, v)]
    ensures forall i :: 0 <= i < |s| ==> Update(s, q, v)[i].tags == s[i].tags
    ensures forall i :: 0 <= i < |s| && !Matches(s[i], q) ==> Update(s, q, v)[i] == s[i]
    ensures forall i :: 0 <= i < |Update(s, q, v)| && Matches(Update(s, q, v)[i], q) ==>
      Update(s, q, v)[i].value == v
  {
    OverwriteSpec(s, q, v);
    ReadSpec(s, q);
  }

  /** The value of the first record carrying `q`: `const [result] = read(q)`. */
  function First<V>(s: Store<V>, q: set<Association>): Option<V> {
    var rs := Read(s, q);
    if |rs| > 0 then Some(rs[0].value) else None
  }

  /** Something is found exactly when some record carries `q`, and what is
      found is the value of the earliest such record. */
  lemma FirstSpec<V>(s: Store<V>, q: set<Association>)
    ensures First(s, q).Some? <==> exists i :: 0 <= i < |s| && Matches(s[i], q)
    ensures First(s, q).Some? ==>
      exists i :: 0 <= i < |s| && Matches(s[i], q) && First(s, q) == Some(s[i].value)
                  && forall j :: 0 <= j < i ==> !Matches(s[j], q)
  {
    ReadSpec(s, q);
    var rs := Read(s, q);
    if |rs| > 0 {
      assert rs[0] in rs;
      var k :| 0 <= k < |s| && s[k] == rs[0];
      var i := EarliestMatch(s, q, k);
      ReadHead(s, q, i);
    }
  }

  // ---------------------------------------------------------------------------
  // Algebra of reads over updates
  // ---------------------------------------------------------------------------

  lemma ReadAppend<V>(s: Store<V>, r: Record<V>, q: set<Association>)
    ensures Read(s + [r], q) == Read(s, q) + (if Matches(r, q) then [r] else [])
  {
    assert (s + [r])[..|s|] == s;
  }

  /** Reading commutes with overwriting, because overwriting keeps tags. */
  lemma {:induction false} ReadOverwrite<V>(s: Store<V>, t: set<Association>, v: V, q: set<Association>)
    ensures Read(Overwrite(s, t, v), q) == Overwrite(Read(s, q), t, v)
    decreases |s|
  {
    if |s| > 0 {
      var init, last := s[..|s| - 1], s[|s| - 1];
      var o := Overwrite(s, t, v);
      ReadOverwrite(init, t, v, q);
      assert o[..|o| - 1] == Overwrite(init, t, v);
      var rest := Read(init, q);
      if Matches(last, q) {
        assert (rest + [last])[..|rest|] == rest;
      }
    }
  }

  /** Overwriting records none of which carries `t` changes nothing. */
  lemma OverwriteNoMatch<V>(s: Store<V>, t: set<Association>, v: V)
    requires forall i :: 0 <= i < |s| ==> !Matches(s[i], t)
    ensures Overwrite(s, t, v) == s
  {
    var o := Overwrite(s, t, v);
    OverwriteSpec(s, t, v);
    assert forall i :: 0 <= i < |s| ==> o[i] == s[i];
  }

  /** After an update, every record carrying the written tags holds the written
      value, and there is at least one. */
  lemma ReadAfterUpdate<V>(s: Store<V>, t: set<Association>, v: V)
    ensures |Read(Update(s, t, v), t)| > 0
    ensures forall r :: r in Read(Update(s, t, v), t) ==> r.value == v
    ensures First(Update(s, t, v), t) == Some(v)
  {
    var s' := Update(s, t, v);
    if |Read(s, t)| > 0 {
      ReadOverwrite(s, t, v, t);
      var rs := Read(s, t);
      ReadSpec(s, t);
      var o := Overwrite(rs, t, v);
      OverwriteSpec(rs, t, v);
      assert forall r :: r in o ==> r.value == v by {
        forall r | r in o ensures r.value == v {
          var i :| 0 <= i < |o| && o[i] == r;
          assert rs[i] in rs;
        }
      }
    } else {
      ReadAppend(s, Record(t, v), t);
    }
  }

  /** An update leaves a read untouched when no record carries both tag sets and
      the written tags do not include the read ones. */
  lemma UpdateFrame<V>(s: Store<V>, t: set<Association>, v: V, q: set<Association>)
    requires forall i :: 0 <= i < |s| ==> !(Matches(s[i], t) && Matches(s[i], q))
    requires !(q <= t)
    ensures Read(Update(s, t, v), q) == Read(s, q)
  {
    if |Read(s, t)| > 0 {
      ReadOverwrite(s, t, v, q);
      var rs := Read(s, q);
      ReadSpec(s, q);
      assert forall i :: 0 <= i < |rs| ==> !Matches(rs[i], t) by {
        forall i | 0 <= i < |rs| ensures !Matches(rs[i], t) {
          assert rs[i] in rs;
        }
      }
      OverwriteNoMatch(rs, t, v);
    } else {
      ReadAppend(s, Record(t, v), q);
    }
  }

  /** Reading with fewer tags than were written: the first record found stays
      the same record; its value becomes `v` only if it carries the written
      tags, and the written record is found only when nothing was before. */
  lemma FirstAfterWiderUpdate<V>(s: Store<V>, t: set<Association>, v: V, q: set<Association>)
    requires q <= t
    ensures |Read(s, q)| == 0 ==> First(Update(s, t, v), q) == Some(v)
    ensures |Read(s, q)| > 0 ==>
      First(Update(s, t, v), q) == Some(if Matches(Read(s, q)[0], t) then v else Read(s, q)[0].value)
  {
    var rs := Read(s, q);
    ReadSpec(s, q);
    ReadSpec(s, t);
    if |Read(s, t)| > 0 {
      ReadOverwrite(s, t, v, q);
      OverwriteSpec(rs, t, v);
      var r0 := Read(s, t)[0];
      assert r0 in Read(s, t);
      assert r0 in rs;
    } else {
      ReadAppend(s, Record(t, v), q);
      if |rs| > 0 {
        assert (rs + [Record(t, v)])[0] == rs[0];
        assert rs[0] in rs;
        if Matches(rs[0], t) {
          assert false;
        }
      }
    }
  }

  /** Writing the same tags twice overwrites in place: the store does not grow. */
  lemma UpdateTwiceKeepsSize<V>(s: Store<V>, t: set<Association>, v1: V, v2: V)
    ensures |Update(Update(s, t, v1), t, v2)| == |Update(s, t, v1)|
  {
    ReadAfterUpdate(s, t, v1);
    UpdateSpec(Update(s, t, v1), t, v2);
  }
}
