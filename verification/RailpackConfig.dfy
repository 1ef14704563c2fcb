/** The merge of nested configuration arrays: ordered maps whose keys are unique, where two maps under one
    key are merged and anything else is replaced. */
module RailpackConfig {

  datatype Key = Num(n: int) | Name(name: string)

  datatype Value = Scalar(text: string) | Arr(entries: seq<Entry>)

  datatype Entry = Entry(key: Key, value: Value)

  // ------------------------------------------------------------- arrays

  predicate Has(a: seq<Entry>, key: Key) {
    exists i :: 0 <= i < |a| && a[i].key == key
  }

  function Get(a: seq<Entry>, key: Key): (value: Value)
    requires Has(a, key)
    ensures exists i :: 0 <= i < |a| && a[i] == Entry(key, value)
  {
    if a[0].key == key then a[0].value else Get(a[1..], key)
  }

  predicate Unique(a: seq<Entry>) {
    forall i, j :: 0 <= i < j < |a| ==> a[i].key != a[j].key
  }

  /** Keys are unique on every level. */
  predicate Wf(a: seq<Entry>)
    decreases Arr(a), 0
  {
    Unique(a) && forall i :: 0 <= i < |a| ==> WfValue(a[i].value)
  }

  predicate WfValue(v: Value)
    decreases v, 1
  {
    v.Arr? ==> Wf(v.entries)
  }

  /** The keys are 0, 1, 2, ... in this order. */
  predicate IsList(a: seq<Entry>) {
    forall i :: 0 <= i < |a| ==> a[i].key == Num(i)
  }

  predicate IsAssoc(a: seq<Entry>) {
    a != [] && !IsList(a)
  }

  predicate AssocValue(v: Value) {
    v.Arr? && IsAssoc(v.entries)
  }

  /** The assignment $a[key] = value: in place if the key is there, else at the end. */
  function Put(a: seq<Entry>, key: Key, value: Value): seq<Entry> {
    if a == [] then [Entry(key, value)]
    else if a[0].key == key then [Entry(key, value)] + a[1..]
    else [a[0]] + Put(a[1..], key, value)
  }

  // ------------------------------------------------------------- the merge, key by key

  function Combine(x: Value, y: Value): Value
    decreases x, 3
  {
    if AssocValue(x) && AssocValue(y) then Arr(Merge(x.entries, y.entries)) else y
  }

  /** The entries of `a`, where `b` overrides some. */
  function Overridden(a: seq<Entry>, b: seq<Entry>): (r: seq<Entry>)
    ensures |r| == |a|
    decreases Arr(a), 1
  {
    seq(|a|, i requires 0 <= i < |a| => Entry(a[i].key, At(a, b, i)))
  }

  function At(a: seq<Entry>, b: seq<Entry>, i: nat): Value
    requires i < |a|
    decreases Arr(a), 0
  {
    if Has(b, a[i].key) then Combine(a[i].value, Get(b, a[i].key)) else a[i].value
  }

  /** The entries of `b` that `a` does not have. */
  function Added(a: seq<Entry>, b: seq<Entry>): seq<Entry> {
    if b == [] then []
    else if Has(a, b[0].key) then Added(a, b[1..])
    else [b[0]] + Added(a, b[1..])
  }

  function Merge(a: seq<Entry>, b: seq<Entry>): seq<Entry>
    decreases Arr(a), 2
  {
    Overridden(a, b) + Added(a, b)
  }

  // ------------------------------------------------------------- lookups in a merge

  lemma OverriddenTail(a: seq<Entry>, b: seq<Entry>)
    requires a != []
    ensures Overridden(a, b) == [Entry(a[0].key, At(a, b, 0))] + Overridden(a[1..], b)
  {
    forall i | 0 < i < |a| ensures Overridden(a, b)[i] == Overridden(a[1..], b)[i - 1] {
      assert At(a, b, i) == At(a[1..], b, i - 1);
    }
  }

  lemma {:induction false} AddedIn(a: seq<Entry>, b: seq<Entry>)
    ensures forall e :: e in Added(a, b) <==> e in b && !Has(a, e.key)
  {
    if b != [] {
      AddedIn(a, b[1..]);
      assert forall e :: e in b <==> e == b[0] || e in b[1..];
    }
  }

  lemma HasIn(a: seq<Entry>, key: Key)
    ensures Has(a, key) <==> exists e :: e in a && e.key == key
  {
    if Has(a, key) {
      var i :| 0 <= i < |a| && a[i].key == key;
      assert a[i] in a;
    }
  }

  lemma OverriddenHas(a: seq<Entry>, b: seq<Entry>, key: Key)
    ensures Has(Overridden(a, b), key) <==> Has(a, key)
  {
    assert forall i :: 0 <= i < |a| ==> Overridden(a, b)[i].key == a[i].key;
    if Has(a, key) {
      var i :| 0 <= i < |a| && a[i].key == key;
      assert Overridden(a, b)[i].key == key;
    }
  }

  lemma AddedHas(a: seq<Entry>, b: seq<Entry>, key: Key)
    ensures Has(Added(a, b), key) <==> Has(b, key) && !Has(a, key)
  {
    AddedIn(a, b);
    HasIn(Added(a, b), key);
    HasIn(b, key);
  }

  lemma HasConcat(a: seq<Entry>, b: seq<Entry>, key: Key)
    ensures Has(a + b, key) <==> Has(a, key) || Has(b, key)
  {
    if Has(b, key) {
      var i :| 0 <= i < |b| && b[i].key == key;
      assert (a + b)[|a| + i].key == key;
    }
    if Has(a, key) {
      var i :| 0 <= i < |a| && a[i].key == key;
      assert (a + b)[i].key == key;
    }
  }

  /** A merge has the keys of both. */
  lemma MergeHas(a: seq<Entry>, b: seq<Entry>, key: Key)
    ensures Has(Merge(a, b), key) <==> Has(a, key) || Has(b, key)
  {
    OverriddenHas(a, b, key);
    AddedHas(a, b, key);
    HasConcat(Overridden(a, b), Added(a, b), key);
  }

  lemma {:induction false} GetConcat(a: seq<Entry>, b: seq<Entry>, key: Key)
    requires Has(a + b, key)
    ensures Has(a, key) || Has(b, key)
    ensures Get(a + b, key) == if Has(a, key) then Get(a, key) else Get(b, key)
  {
    HasConcat(a, b, key);
    if a == [] {
      assert a + b == b;
    } else if a[0].key != key {
      assert (a + b)[1..] == a[1..] + b;
      HasTail(a, key);
      HasTail(a + b, key);
      GetConcat(a[1..], b, key);
    }
  }

  lemma HasTail(a: seq<Entry>, key: Key)
    requires a != [] && a[0].key != key
    ensures Has(a, key) <==> Has(a[1..], key)
  {
    if Has(a, key) {
      var i :| 0 <= i < |a| && a[i].key == key;
      assert a[1..][i - 1].key == key;
    }
  }

  lemma {:induction false} GetOverridden(a: seq<Entry>, b: seq<Entry>, key: Key)
    requires Has(a, key)
    ensures Has(Overridden(a, b), key)
    ensures Get(Overridden(a, b), key) == if Has(b, key) then Combine(Get(a, key), Get(b, key)) else Get(a, key)
  {
    OverriddenHas(a, b, key);
    OverriddenTail(a, b);
    if a[0].key != key {
      HasTail(a, key);
      GetOverridden(a[1..], b, key);
    }
  }

  lemma {:induction false} GetAdded(a: seq<Entry>, b: seq<Entry>, key: Key)
    requires Has(b, key) && !Has(a, key)
    ensures Has(Added(a, b), key) && Get(Added(a, b), key) == Get(b, key)
  {
    AddedHas(a, b, key);
    if b[0].key != key {
      HasTail(b, key);
      GetAdded(a, b[1..], key);
      var r := Added(a, b);
      if !Has(a, b[0].key) {
        assert r[1..] == Added(a, b[1..]);
      }
    }
  }

  /** What a merge holds under a key, whatever the order of the entries. */
  lemma MergeGet(a: seq<Entry>, b: seq<Entry>, key: Key)
    requires Has(a, key) || Has(b, key)
    ensures Has(Merge(a, b), key)
    ensures Get(Merge(a, b), key)
         == if !Has(a, key) then Get(b, key)
            else if Has(b, key) then Combine(Get(a, key), Get(b, key))
            else Get(a, key)
  {
    MergeHas(a, b, key);
    GetConcat(Overridden(a, b), Added(a, b), key);
    OverriddenHas(a, b, key);
    if Has(a, key) {
      GetOverridden(a, b, key);
    } else {
      GetAdded(a, b, key);
    }
  }

  /** The keys of the base come first, in their order. */
  lemma BaseKeysComeFirst(a: seq<Entry>, b: seq<Entry>, i: nat)
    requires i < |a|
    ensures i < |Merge(a, b)| && Merge(a, b)[i].key == a[i].key
  {
  }

  /** So a map never becomes a list. */
  lemma MapStaysMap(a: seq<Entry>, b: seq<Entry>)
    requires IsAssoc(a)
    ensures IsAssoc(Merge(a, b))
  {
    var i :| 0 <= i < |a| && a[i].key != Num(i);
    BaseKeysComeFirst(a, b, i);
    assert Merge(a, b)[i].key != Num(i);
  }

  lemma GetUnique(a: seq<Entry>, i: nat)
    requires Unique(a) && i < |a|
    ensures Has(a, a[i].key) && Get(a, a[i].key) == a[i].value
  {
    assert Has(a, a[i].key);
    var j :| 0 <= j < |a| && a[j] == Entry(a[i].key, Get(a, a[i].key));
    assert i == j;
  }

  // ------------------------------------------------------------- the loop

  lemma {:induction false} PutHas(a: seq<Entry>, key: Key, value: Value)
    ensures Put(a, key, value) == if Has(a, key) then Put(a, key, value) else a + [Entry(key, value)]
  {
    if a != [] && a[0].key != key {
      HasTail(a, key);
      PutHas(a[1..], key, value);
    } else if a != [] {
      assert Has(a, key);
    }
  }

  lemma PutSkips(first: Entry, rest: seq<Entry>, key: Key, value: Value)
    requires first.key != key
    ensures Put([first] + rest, key, value) == [first] + Put(rest, key, value)
    ensures Has([first] + rest, key) <==> Has(rest, key)
  {
    assert ([first] + rest)[1..] == rest;
    HasTail([first] + rest, key);
  }

  lemma PutHits(first: Entry, rest: seq<Entry>, value: Value)
    ensures Put([first] + rest, first.key, value) == [Entry(first.key, value)] + rest
    ensures Has([first] + rest, first.key)
  {
    assert ([first] + rest)[1..] == rest;
    assert ([first] + rest)[0].key == first.key;
  }

  predicate PutsApart(a: seq<Entry>, b: seq<Entry>, key: Key, value: Value) {
    Put(a + b, key, value) == if Has(a, key) then Put(a, key, value) + b else a + Put(b, key, value)
  }

  lemma PutsApartStep(first: Entry, rest: seq<Entry>, b: seq<Entry>, key: Key, value: Value)
    requires PutsApart(rest, b, key, value)
    ensures PutsApart([first] + rest, b, key, value)
  {
    hide Has, Put;
    assert ([first] + rest) + b == [first] + (rest + b);
    if first.key == key {
      PutHits(first, rest, value);
      PutHits(first, rest + b, value);
    } else {
      PutSkips(first, rest, key, value);
      PutSkips(first, rest + b, key, value);
    }
  }

  lemma {:induction false} PutConcat(a: seq<Entry>, b: seq<Entry>, key: Key, value: Value)
    ensures PutsApart(a, b, key, value)
  {
    if a == [] {
      assert a + b == b && a + Put(b, key, value) == Put(b, key, value);
    } else {
      hide PutsApart;
      PutConcat(a[1..], b, key, value);
      PutsApartStep(a[0], a[1..], b, key, value);
      assert [a[0]] + a[1..] == a;
    }
  }

  lemma {:induction false} AddedSnoc(a: seq<Entry>, b: seq<Entry>, e: Entry)
    ensures Added(a, b + [e]) == Added(a, b) + if Has(a, e.key) then [] else [e]
  {
    if b == [] {
      assert b + [e] == [e];
      assert Added(a, [e][1..]) == [];
    } else {
      assert (b + [e])[1..] == b[1..] + [e];
      AddedSnoc(a, b[1..], e);
    }
  }

  lemma GetSnoc(b: seq<Entry>, e: Entry, key: Key)
    requires !Has(b, e.key)
    ensures Has(b + [e], key) <==> Has(b, key) || key == e.key
    ensures Has(b + [e], key) ==> Get(b + [e], key) == if key == e.key then e.value else Get(b, key)
  {
    HasConcat(b, [e], key);
    assert Has([e], key) <==> key == e.key by { if key == e.key { assert [e][0].key == key; } }
    if Has(b + [e], key) {
      GetConcat(b, [e], key);
    }
  }

  /** One more override changes one entry, or none. */
  lemma {:induction false} OverriddenSnoc(a: seq<Entry>, b: seq<Entry>, e: Entry)
    requires Unique(a) && !Has(b, e.key)
    ensures Overridden(a, b + [e])
         == if Has(a, e.key) then Put(Overridden(a, b), e.key, Combine(Get(a, e.key), e.value)) else Overridden(a, b)
  {
    if a != [] {
      var key := a[0].key;
      GetSnoc(b, e, key);
      OverriddenSnoc(a[1..], b, e);
      OverriddenTail(a, b);
      OverriddenTail(a, b + [e]);
      if key == e.key {
        forall i | 0 <= i < |a| - 1 ensures a[1..][i].key != key {}
      } else {
        HasTail(a, e.key);
      }
    }
  }

  /** One turn of the loop. */
  lemma MergeSnoc(a: seq<Entry>, b: seq<Entry>, e: Entry)
    requires Unique(a) && !Has(b, e.key)
    ensures Has(Merge(a, b), e.key) <==> Has(a, e.key)
    ensures Has(a, e.key) ==> Get(Merge(a, b), e.key) == Get(a, e.key)
    ensures Merge(a, b + [e])
         == Put(Merge(a, b), e.key, if Has(a, e.key) then Combine(Get(a, e.key), e.value) else e.value)
  {
    MergeHas(a, b, e.key);
    if Has(a, e.key) { MergeGet(a, b, e.key); }
    OverriddenSnoc(a, b, e);
    AddedSnoc(a, b, e);
    OverriddenHas(a, b, e.key);
    AddedHas(a, b, e.key);
    var value := if Has(a, e.key) then Combine(Get(a, e.key), e.value) else e.value;
    PutConcat(Overridden(a, b), Added(a, b), e.key, value);
    PutHas(Added(a, b), e.key, value);
  }

  lemma HasPrefix(b: seq<Entry>, i: nat)
    requires Unique(b) && i < |b|
    ensures !Has(b[..i], b[i].key)
  {
  }

  lemma GetWf(a: seq<Entry>, key: Key)
    requires Wf(a) && Has(a, key)
    ensures WfValue(Get(a, key))
  {
  }

  /** The loop over the overrides, which updates the base entry by entry, computes the merge. */
  method MergeRailpackConfig(base: seq<Entry>, overrides: seq<Entry>) returns (merged: seq<Entry>)
    requires Wf(base) && Wf(overrides)
    ensures merged == Merge(base, overrides)
    decreases Arr(overrides)
  {
    merged := base;
    NothingToMerge(base);
    for i := 0 to |overrides|
      invariant merged == Merge(base, overrides[..i])
    {
      var e := overrides[i];
      HasPrefix(overrides, i);
      MergeSnoc(base, overrides[..i], e);
      assert overrides[..i + 1] == overrides[..i] + [e];
      if Has(merged, e.key) && AssocValue(Get(merged, e.key)) && AssocValue(e.value) {
        GetWf(base, e.key);
        var inner := MergeRailpackConfig(Get(merged, e.key).entries, e.value.entries);
        merged := Put(merged, e.key, Arr(inner));
      } else {
        merged := Put(merged, e.key, e.value);
      }
    }
    assert overrides[..|overrides|] == overrides;
  }

  lemma NothingToMerge(a: seq<Entry>)
    ensures Merge(a, []) == a
  {
    assert Overridden(a, []) == a;
  }

  // ------------------------------------------------------------- laws

  lemma {:induction false} NothingAdded(a: seq<Entry>, b: seq<Entry>)
    requires forall i :: 0 <= i < |b| ==> Has(a, b[i].key)
    ensures Added(a, b) == []
  {
    if b != [] {
      assert forall i :: 0 <= i < |b| - 1 ==> b[1..][i] == b[i + 1];
      NothingAdded(a, b[1..]);
    }
  }

  /** Merging an array with itself changes nothing. */
  lemma {:induction false} MergeSelf(a: seq<Entry>)
    requires Wf(a)
    ensures Merge(a, a) == a
    decreases Arr(a), 0
  {
    NothingAdded(a, a);
    forall i | 0 <= i < |a| ensures Overridden(a, a)[i] == a[i] {
      GetUnique(a, i);
      CombineSelf(a[i].value);
    }
    assert Overridden(a, a) == a;
  }

  lemma {:induction false} CombineSelf(v: Value)
    requires WfValue(v)
    ensures Combine(v, v) == v
    decreases v, 1
  {
    if AssocValue(v) {
      MergeSelf(v.entries);
    }
  }

  lemma {:induction false} CombineAgain(x: Value, y: Value)
    requires WfValue(x) && WfValue(y)
    ensures Combine(Combine(x, y), y) == Combine(x, y)
    decreases x, 1
  {
    if AssocValue(x) && AssocValue(y) {
      MapStaysMap(x.entries, y.entries);
      MergeAbsorbs(x.entries, y.entries);
    } else {
      CombineSelf(y);
    }
  }

  /** Merging the same overrides again changes nothing. */
  lemma {:induction false} MergeAbsorbs(a: seq<Entry>, b: seq<Entry>)
    requires Wf(a) && Wf(b)
    ensures Merge(Merge(a, b), b) == Merge(a, b)
    decreases Arr(a), 0
  {
    var m := Merge(a, b);
    forall i | 0 <= i < |b| ensures Has(m, b[i].key) {
      assert Has(b, b[i].key);
      MergeHas(a, b, b[i].key);
    }
    NothingAdded(m, b);
    forall i | 0 <= i < |m| ensures At(m, b, i) == m[i].value {
      if i < |a| {
        assert m[i] == Overridden(a, b)[i];
        if Has(b, a[i].key) {
          GetWf(b, a[i].key);
          CombineAgain(a[i].value, Get(b, a[i].key));
        }
      } else {
        AddedStays(a, b, i - |a|);
        assert m[i] == Added(a, b)[i - |a|];
        assert At(m, b, i) == At(Added(a, b), b, i - |a|);
      }
    }
    assert Overridden(m, b) == m;
  }

  lemma AddedStays(a: seq<Entry>, b: seq<Entry>, i: nat)
    requires Wf(b) && i < |Added(a, b)|
    ensures At(Added(a, b), b, i) == Added(a, b)[i].value
  {
    AddedIn(a, b);
    var e := Added(a, b)[i];
    assert e in b;
    var j :| 0 <= j < |b| && b[j] == e;
    GetUnique(b, j);
    CombineSelf(e.value);
  }

  lemma {:induction false} AddedUnique(a: seq<Entry>, b: seq<Entry>)
    requires Unique(b)
    ensures Unique(Added(a, b))
  {
    if b != [] {
      AddedUnique(a, b[1..]);
      AddedIn(a, b[1..]);
      var rest := Added(a, b[1..]);
      forall i | 0 <= i < |rest| ensures rest[i].key != b[0].key {
        assert rest[i] in b[1..];
      }
    }
  }

  /** A merge of well-formed arrays is well-formed: no key occurs twice on any level. */
  lemma {:induction false} MergeWf(a: seq<Entry>, b: seq<Entry>)
    requires Wf(a) && Wf(b)
    ensures Wf(Merge(a, b))
    decreases Arr(a), 0
  {
    var m := Merge(a, b);
    MergeUnique(a, b);
    forall i | 0 <= i < |m| ensures WfValue(m[i].value) {
      if i >= |a| {
        AddedIn(a, b);
        assert m[i] == Added(a, b)[i - |a|];
        assert m[i] in b;
      } else if Has(b, a[i].key) {
        assert m[i] == Overridden(a, b)[i];
        GetWf(b, a[i].key);
        CombineWf(a[i].value, Get(b, a[i].key));
      } else {
        assert m[i] == Overridden(a, b)[i];
      }
    }
  }

  lemma {:induction false} CombineWf(x: Value, y: Value)
    requires WfValue(x) && WfValue(y)
    ensures WfValue(Combine(x, y))
    decreases x, 1
  {
    if AssocValue(x) && AssocValue(y) {
      MergeWf(x.entries, y.entries);
    }
  }

  lemma MergeUnique(a: seq<Entry>, b: seq<Entry>)
    requires Unique(a) && Unique(b)
    ensures Unique(Merge(a, b))
  {
    var m, added := Merge(a, b), Added(a, b);
    AddedUnique(a, b);
    AddedIn(a, b);
    assert forall i :: 0 <= i < |a| ==> m[i] == Overridden(a, b)[i];
    forall i, j | 0 <= i < j < |m| ensures m[i].key != m[j].key {
      if j >= |a| {
        assert m[j] == added[j - |a|] && added[j - |a|] in added;
        if i >= |a| {
          assert m[i] == added[i - |a|];
        } else {
          assert m[i].key == a[i].key;
          assert !Has(a, m[j].key);
        }
      }
    }
  }

  // ------------------------------------------------------------- associativity

  /** The keys of `x` are the first keys of `z`, in the same order, and so on for the maps that both hold. */
  predicate Leads(x: seq<Entry>, z: seq<Entry>)
    decreases Arr(x), 0
  {
    |x| <= |z| && forall i :: 0 <= i < |x| ==> x[i].key == z[i].key && ValueLeads(x[i].value, z[i].value)
  }

  predicate ValueLeads(v: Value, w: Value)
    decreases v, 1
  {
    AssocValue(v) && AssocValue(w) ==> Leads(v.entries, w.entries)
  }

  lemma {:induction false} AddedBehind(x: seq<Entry>, z: seq<Entry>, n: nat)
    requires n <= |z| && forall i :: 0 <= i < |z| ==> (Has(x, z[i].key) <==> i < n)
    ensures Added(x, z) == z[n..]
    decreases |z|
  {
    hide Has;
    if z != [] {
      var m := if n == 0 then 0 else n - 1;
      forall i | 0 <= i < |z| - 1 ensures Has(x, z[1..][i].key) <==> i < m { assert z[1..][i] == z[i + 1]; }
      AddedBehind(x, z[1..], m);
      assert Has(x, z[0].key) <==> 0 < n;
    }
  }

  lemma SameFirstKeys(x: seq<Entry>, z: seq<Entry>, j: nat)
    requires Unique(z) && |x| <= |z| && forall i :: 0 <= i < |x| ==> x[i].key == z[i].key
    requires j < |z|
    ensures Has(x, z[j].key) <==> j < |x|
  {
    if j < |x| {
      assert x[j].key == z[j].key;
    }
  }

  /** The merge gives the second map exactly if the first one leads it. */
  lemma {:induction false} MergeLeads(x: seq<Entry>, z: seq<Entry>)
    requires Wf(z)
    ensures Merge(x, z) == z <==> Leads(x, z)
    decreases Arr(x), 0
  {
    var m := Merge(x, z);
    if |x| <= |z| && forall i :: 0 <= i < |x| ==> x[i].key == z[i].key {
      forall i | 0 <= i < |x| ensures m[i] == z[i] <==> ValueLeads(x[i].value, z[i].value) {
        GetUnique(z, i);
        CombineLeads(x[i].value, z[i].value);
        assert m[i] == Overridden(x, z)[i] == Entry(z[i].key, Combine(x[i].value, z[i].value));
        assert z[i] == Entry(z[i].key, z[i].value);
      }
      forall j | 0 <= j < |z| ensures Has(x, z[j].key) <==> j < |x| {
        SameFirstKeys(x, z, j);
      }
      AddedBehind(x, z, |x|);
      assert m[|x|..] == z[|x|..];
      SameInParts(m, z, |x|);
    } else if m == z {
      forall i | 0 <= i < |x| ensures x[i].key == z[i].key {
        BaseKeysComeFirst(x, z, i);
      }
    }
  }

  lemma SameInParts(m: seq<Entry>, z: seq<Entry>, n: nat)
    requires n <= |m| == |z| && m[n..] == z[n..]
    ensures m == z <==> forall i :: 0 <= i < n ==> m[i] == z[i]
  {
    if forall i :: 0 <= i < n ==> m[i] == z[i] {
      forall i | 0 <= i < |m| ensures m[i] == z[i] {
        if i >= n { assert m[n..][i - n] == z[n..][i - n]; }
      }
    }
  }

  lemma {:induction false} CombineLeads(v: Value, w: Value)
    requires WfValue(w)
    ensures Combine(v, w) == w <==> ValueLeads(v, w)
    decreases v, 1
  {
    if AssocValue(v) && AssocValue(w) {
      MergeLeads(v.entries, w.entries);
    }
  }

  /** The middle value replaces a map that the last value would have been merged into. */
  predicate ValueClash(x: Value, y: Value, z: Value)
    decreases x, 1
  {
    && AssocValue(x) && AssocValue(z)
    && if AssocValue(y) then Clash(x.entries, y.entries, z.entries) else !Leads(x.entries, z.entries)
  }

  predicate Clash(a: seq<Entry>, b: seq<Entry>, c: seq<Entry>)
    decreases Arr(a), 0
  {
    exists i :: 0 <= i < |a| && Has(b, a[i].key) && Has(c, a[i].key)
             && ValueClash(a[i].value, Get(b, a[i].key), Get(c, a[i].key))
  }

  lemma OverriddenConcat(a: seq<Entry>, b: seq<Entry>, c: seq<Entry>)
    ensures Overridden(a + b, c) == Overridden(a, c) + Overridden(b, c)
  {
    forall i | 0 <= i < |a| + |b|
      ensures Overridden(a + b, c)[i] == (Overridden(a, c) + Overridden(b, c))[i]
    {
      assert At(a + b, c, i) == if i < |a| then At(a, c, i) else At(b, c, i - |a|);
    }
  }

  lemma {:induction false} AddedConcat(a: seq<Entry>, b: seq<Entry>, c: seq<Entry>)
    ensures Added(a, b + c) == Added(a, b) + Added(a, c)
  {
    if b == [] {
      assert b + c == c;
    } else {
      assert (b + c)[1..] == b[1..] + c;
      AddedConcat(a, b[1..], c);
    }
  }

  lemma {:induction false} AddedOverridden(a: seq<Entry>, b: seq<Entry>, c: seq<Entry>)
    ensures Overridden(Added(a, b), c) == Added(a, Overridden(b, c))
    decreases b
  {
    if b != [] {
      AddedOverridden(a, b[1..], c);
      OverriddenTail(b, c);
      if !Has(a, b[0].key) {
        OverriddenTail(Added(a, b), c);
        assert At(Added(a, b), c, 0) == At(b, c, 0);
      }
    }
  }

  lemma {:induction false} AddedTwice(a: seq<Entry>, b: seq<Entry>, c: seq<Entry>)
    ensures Added(Merge(a, b), c) == Added(a, Added(b, c))
    decreases c
  {
    if c != [] {
      MergeHas(a, b, c[0].key);
      AddedTwice(a, b, c[1..]);
      if !Has(b, c[0].key) {
        assert Added(b, c)[1..] == Added(b, c[1..]);
      }
    }
  }

  /** Both ways of merging three arrays, cut at the entries of the first. */
  lemma MergeThree(a: seq<Entry>, b: seq<Entry>, c: seq<Entry>)
    ensures var tail := Overridden(Added(a, b), c) + Added(Merge(a, b), c);
      && Merge(Merge(a, b), c) == Overridden(Overridden(a, b), c) + tail
      && Merge(a, Merge(b, c)) == Overridden(a, Merge(b, c)) + tail
  {
    hide Overridden, Added;
    OverriddenConcat(Overridden(a, b), Added(a, b), c);
    AddedConcat(a, Overridden(b, c), Added(b, c));
    AddedOverridden(a, b, c);
    AddedTwice(a, b, c);
  }

  lemma {:induction false} ValueAssociative(x: Value, y: Value, z: Value)
    requires WfValue(z)
    ensures Combine(Combine(x, y), z) == Combine(x, Combine(y, z)) <==> !ValueClash(x, y, z)
    decreases x, 2
  {
    if AssocValue(x) && AssocValue(y) && AssocValue(z) {
      MapStaysMap(x.entries, y.entries);
      MapStaysMap(y.entries, z.entries);
      MergeAssociativeUnlessClash(x.entries, y.entries, z.entries);
    } else if AssocValue(x) && AssocValue(z) {
      MergeLeads(x.entries, z.entries);
    }
  }

  lemma {:induction false} EntryAssociative(a: seq<Entry>, b: seq<Entry>, c: seq<Entry>, i: nat)
    requires i < |a| && Wf(c)
    ensures Overridden(Overridden(a, b), c)[i] == Overridden(a, Merge(b, c))[i]
       <==> !(Has(b, a[i].key) && Has(c, a[i].key) && ValueClash(a[i].value, Get(b, a[i].key), Get(c, a[i].key)))
    decreases Arr(a), 0
  {
    var key := a[i].key;
    MergeHas(b, c, key);
    if Has(b, key) || Has(c, key) {
      MergeGet(b, c, key);
      if Has(b, key) && Has(c, key) {
        GetWf(c, key);
        ValueAssociative(a[i].value, Get(b, key), Get(c, key));
      }
    }
  }

  /** The merge is associative exactly when no map is replaced by something else and then merged with
      another map that it does not lead. */
  lemma {:induction false} MergeAssociativeUnlessClash(a: seq<Entry>, b: seq<Entry>, c: seq<Entry>)
    requires Wf(c)
    ensures Merge(Merge(a, b), c) == Merge(a, Merge(b, c)) <==> !Clash(a, b, c)
    decreases Arr(a), 1
  {
    var left, right := Overridden(Overridden(a, b), c), Overridden(a, Merge(b, c));
    MergeThree(a, b, c);
    forall i | 0 <= i < |a|
      ensures left[i] == right[i]
         <==> !(Has(b, a[i].key) && Has(c, a[i].key) && ValueClash(a[i].value, Get(b, a[i].key), Get(c, a[i].key)))
    {
      EntryAssociative(a, b, c, i);
    }
    var tail := Overridden(Added(a, b), c) + Added(Merge(a, b), c);
    assert left + tail == right + tail <==> left == right by { CancelTail(left, right, tail); }
  }

  lemma CancelTail(left: seq<Entry>, right: seq<Entry>, tail: seq<Entry>)
    requires |left| == |right|
    ensures left + tail == right + tail <==> left == right
  {
    assert (left + tail)[..|left|] == left;
    assert (right + tail)[..|right|] == right;
  }

  /** A map, then a scalar under the same key, then another map: the order of merging shows. */
  lemma NotAssociative(key: Key, text: string, p: Entry, q: Entry)
    requires IsAssoc([p]) && IsAssoc([q]) && p.key != q.key
    ensures var a, b, c := [Entry(key, Arr([p]))], [Entry(key, Scalar(text))], [Entry(key, Arr([q]))];
      Merge(Merge(a, b), c) != Merge(a, Merge(b, c))
  {
    var a, b, c := [Entry(key, Arr([p]))], [Entry(key, Scalar(text))], [Entry(key, Arr([q]))];
    GetUnique(a, 0);
    GetUnique(b, 0);
    GetUnique(c, 0);
    MergeGet(a, b, key);
    MergeGet(Merge(a, b), c, key);
    MergeGet(b, c, key);
    MergeGet(a, Merge(b, c), key);
    BaseKeysComeFirst([p], [q], 0);
    assert Merge([p], [q]) != [q];
  }
}
