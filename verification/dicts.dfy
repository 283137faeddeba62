/** Python dictionaries with string keys: insertion-ordered association
    lists. Assigning to a key that is present keeps its position; a new key
    goes to the end; `del` removes the entry and keeps the others in order. */
module Dicts {
  import opened Errors

  type Dict<V> = seq<(string, V)>

  function Keys<V>(d: Dict<V>): (ks: seq<string>)
    ensures |ks| == |d|
    ensures forall i :: 0 <= i < |d| ==> ks[i] == d[i].0
  {
    if d == [] then [] else [d[0].0] + Keys(d[1..])
  }

  predicate Distinct(ks: seq<string>)
  {
    forall i, j :: 0 <= i < j < |ks| ==> ks[i] != ks[j]
  }

  /** Every key occurs once, as in any Python dict. */
  predicate Valid<V>(d: Dict<V>)
  {
    Distinct(Keys(d))
  }

  /** `d.get(k)`, with `None` for a missing key. */
  function Get<V>(d: Dict<V>, k: string): (r: Option<V>)
    ensures r.Some? <==> k in Keys(d)
  {
    if d == [] then None else if d[0].0 == k then Some(d[0].1) else Get(d[1..], k)
  }

  /** `d[k] = v`. */
  function Put<V>(d: Dict<V>, k: string, v: V): (r: Dict<V>)
    ensures Keys(r) == if k in Keys(d) then Keys(d) else Keys(d) + [k]
    ensures Valid(d) ==> Valid(r)
    ensures Get(r, k) == Some(v)
    ensures forall j :: j != k ==> Get(r, j) == Get(d, j)
  {
    if d == [] then [(k, v)]
    else if d[0].0 == k then
      assert d == [d[0]] + d[1..];
      KeysCons(d[0], d[1..]);
      KeysCons((k, v), d[1..]);
      [(k, v)] + d[1..]
    else
      var rest := Put(d[1..], k, v);
      PutCons(d, k, v, rest);
      [d[0]] + rest
  }

  /** Putting a key that is not first into a dict is putting it into the
      rest and keeping the first entry. */
  lemma PutCons<V>(d: Dict<V>, k: string, v: V, rest: Dict<V>)
    requires d != [] && d[0].0 != k
    requires Keys(rest) == if k in Keys(d[1..]) then Keys(d[1..]) else Keys(d[1..]) + [k]
    requires Valid(d[1..]) ==> Valid(rest)
    requires Get(rest, k) == Some(v)
    requires forall j :: j != k ==> Get(rest, j) == Get(d[1..], j)
    ensures Keys([d[0]] + rest) == if k in Keys(d) then Keys(d) else Keys(d) + [k]
    ensures Valid(d) ==> Valid([d[0]] + rest)
    ensures Get([d[0]] + rest, k) == Some(v)
    ensures forall j :: j != k ==> Get([d[0]] + rest, j) == Get(d, j)
  {
    var r := [d[0]] + rest;
    assert d == [d[0]] + d[1..];
    assert Keys(r) == if k in Keys(d) then Keys(d) else Keys(d) + [k] by {
      KeysCons(d[0], rest);
      KeysCons(d[0], d[1..]);
      AppendAssoc([d[0].0], Keys(d[1..]), [k]);
    }
    assert Valid(d) ==> Valid(r) by {
      KeysCons(d[0], d[1..]);
      ValidCons(d[0], d[1..]);
      ValidCons(d[0], rest);
    }
    assert r[1..] == rest;
    forall j | j != k ensures Get(r, j) == Get(d, j) {
      if j != d[0].0 {
        assert Get(r, j) == Get(rest, j);
      }
    }
  }

  /** `d.update(e)`: the entries of `e` are put into `d` one by one. */
  function Update<V>(d: Dict<V>, e: Dict<V>): Dict<V>
    decreases |e|
  {
    if e == [] then d else Update(Put(d, e[0].0, e[0].1), e[1..])
  }

  /** `del d[k]`. */
  function Remove<V>(d: Dict<V>, k: string): (r: Dict<V>)
    ensures Valid(d) ==> Valid(r)
    ensures Get(r, k) == None
    ensures forall j :: j != k ==> Get(r, j) == Get(d, j)
    ensures forall j :: j in Keys(r) <==> j in Keys(d) && j != k
  {
    if d == [] then []
    else if d[0].0 == k then Remove(d[1..], k)
    else
      var rest := Remove(d[1..], k);
      var r := [d[0]] + rest;
      ValidCons(d[0], d[1..]);
      ValidCons(d[0], rest);
      assert d == [d[0]] + d[1..];
      r
  }

  /** The keys of `ks` that are not in `existing`, in order. */
  function Fresh(ks: seq<string>, existing: seq<string>): (r: seq<string>)
    ensures forall x :: x in r <==> x in ks && x !in existing
  {
    if ks == [] then []
    else if ks[0] in existing then Fresh(ks[1..], existing)
    else [ks[0]] + Fresh(ks[1..], existing)
  }

  /** `dict(pairs)`, or a loop `d[k] = v` over the pairs: a repeated key
      keeps its first position and takes its last value. */
  function FromPairs<V>(ps: seq<(string, V)>): (r: Dict<V>)
    ensures Valid(r)
    ensures forall k :: k in Keys(r) <==> k in Keys(ps)
    decreases |ps|
  {
    if ps == [] then []
    else
      var init := ps[..|ps| - 1];
      assert Keys(ps) == Keys(init) + [ps[|ps| - 1].0];
      Put(FromPairs(init), ps[|ps| - 1].0, ps[|ps| - 1].1)
  }

  /** The keys in the order of their first occurrence. */
  function Dedup(ks: seq<string>): (r: seq<string>)
    decreases |ks|
  {
    if ks == [] then []
    else
      var init := Dedup(ks[..|ks| - 1]);
      if ks[|ks| - 1] in init then init else init + [ks[|ks| - 1]]
  }

  /** The keys of `dict(pairs)` are the keys of the pairs, each at its first
      occurrence. */
  lemma {:induction false} FromPairsKeys<V>(ps: seq<(string, V)>)
    ensures Keys(FromPairs(ps)) == Dedup(Keys(ps))
    decreases |ps|
  {
    if ps != [] {
      var init := ps[..|ps| - 1];
      FromPairsKeys(init);
      assert Keys(ps)[..|ps| - 1] == Keys(init);
    }
  }

  /** Without repetitions nothing is dropped. */
  lemma {:induction false} DedupDistinct(ks: seq<string>)
    requires Distinct(ks)
    ensures Dedup(ks) == ks
    decreases |ks|
  {
    if ks != [] {
      var init := ks[..|ks| - 1];
      DedupDistinct(init);
      assert ks == init + [ks[|ks| - 1]];
    }
  }

  /** Pair `i` is the last one with its key. */
  predicate LastOf<V>(ps: seq<(string, V)>, i: nat)
    requires i < |ps|
  {
    forall j :: i < j < |ps| ==> ps[j].0 != ps[i].0
  }

  /** A key takes the value of its last pair. */
  lemma {:induction false} FromPairsLast<V>(ps: seq<(string, V)>, i: nat)
    requires i < |ps| && LastOf(ps, i)
    ensures Get(FromPairs(ps), ps[i].0) == Some(ps[i].1)
    decreases |ps|
  {
    if i < |ps| - 1 {
      var init := ps[..|ps| - 1];
      FromPairsLast(init, i);
    }
  }

  /** `dict(pairs)` keeps each key at its first position with the value of
      its last pair. */
  lemma FromPairsSpec<V>(ps: seq<(string, V)>)
    ensures Keys(FromPairs(ps)) == Dedup(Keys(ps))
    ensures forall i :: 0 <= i < |ps| && LastOf(ps, i) ==> Get(FromPairs(ps), ps[i].0) == Some(ps[i].1)
  {
    FromPairsKeys(ps);
    forall i | 0 <= i < |ps| && LastOf(ps, i)
      ensures Get(FromPairs(ps), ps[i].0) == Some(ps[i].1)
    {
      FromPairsLast(ps, i);
    }
  }

  /** Looking a key up finds the value stored with it. */
  lemma {:induction false} GetAt<V>(d: Dict<V>, i: nat)
    requires Valid(d) && i < |d|
    ensures Get(d, d[i].0) == Some(d[i].1)
  {
    if i > 0 {
      assert d == [d[0]] + d[1..];
      ValidCons(d[0], d[1..]);
      assert Keys(d)[0] != Keys(d)[i];
      GetAt(d[1..], i - 1);
    }
  }

  /** A key absent from the list does not change what is fresh. */
  lemma {:induction false} FreshIgnores(ks: seq<string>, existing: seq<string>, x: string)
    requires x !in ks
    ensures Fresh(ks, existing + [x]) == Fresh(ks, existing)
  {
    if ks != [] {
      FreshIgnores(ks[1..], existing, x);
    }
  }

  /** `update` keeps the existing keys in their places and appends the new
      keys of `e` in the order of `e`. */
  lemma {:induction false} UpdateKeys<V>(d: Dict<V>, e: Dict<V>)
    requires Valid(e)
    ensures Keys(Update(d, e)) == Keys(d) + Fresh(Keys(e), Keys(d))
    decreases |e|
  {
    if e != [] {
      assert Valid(e[1..]) && e[0].0 !in Keys(e[1..]) by {
        assert e == [e[0]] + e[1..];
        ValidCons(e[0], e[1..]);
      }
      UpdateKeys(Put(d, e[0].0, e[0].1), e[1..]);
      UpdateKeysStep(d, e);
    }
  }

  /** One step of `update`: the first key of `e` is appended when it is new,
      and it is then no longer fresh for the rest of `e`. */
  lemma UpdateKeysStep<V>(d: Dict<V>, e: Dict<V>)
    requires e != [] && e[0].0 !in Keys(e[1..])
    requires var d' := Put(d, e[0].0, e[0].1);
      Keys(Update(d', e[1..])) == Keys(d') + Fresh(Keys(e[1..]), Keys(d'))
    ensures Keys(Update(d, e)) == Keys(d) + Fresh(Keys(e), Keys(d))
  {
    var k := e[0].0;
    var rest := e[1..];
    var d' := Put(d, k, e[0].1);
    assert Update(d, e) == Update(d', rest);
    var f := Fresh(Keys(rest), Keys(d));
    assert Keys(e) == [k] + Keys(rest);
    if k !in Keys(d) {
      FreshIgnores(Keys(rest), Keys(d), k);
      assert Fresh(Keys(e), Keys(d)) == [k] + f;
      assert Keys(d') == Keys(d) + [k];
      AppendAssoc(Keys(d), [k], f);
    } else {
      assert Fresh(Keys(e), Keys(d)) == f;
      assert Keys(d') == Keys(d);
    }
  }

  /** After `update`, a key of `e` holds its value from `e`; any other key
      keeps its value from `d`. */
  lemma {:induction false} UpdateGet<V>(d: Dict<V>, e: Dict<V>, k: string)
    requires Valid(e)
    ensures Get(Update(d, e), k) == if k in Keys(e) then Get(e, k) else Get(d, k)
    decreases |e|
  {
    if e != [] {
      assert Keys(e) == [e[0].0] + Keys(e[1..]);
      assert e == [e[0]] + e[1..];
      ValidCons(e[0], e[1..]);
      UpdateGet(Put(d, e[0].0, e[0].1), e[1..], k);
    }
  }

  /** `update` keeps a dict valid. */
  lemma {:induction false} UpdateValid<V>(d: Dict<V>, e: Dict<V>)
    requires Valid(d)
    ensures Valid(Update(d, e))
    decreases |e|
  {
    if e != [] {
      UpdateValid(Put(d, e[0].0, e[0].1), e[1..]);
    }
  }

  lemma AppendAssoc<T>(a: seq<T>, b: seq<T>, c: seq<T>)
    ensures (a + b) + c == a + (b + c)
  {
  }

  /** The keys of a dict with a first entry. */
  lemma KeysCons<V>(x: (string, V), d: Dict<V>)
    ensures Keys([x] + d) == [x.0] + Keys(d)
  {
    assert ([x] + d)[1..] == d;
  }

  /** A dict with a first entry is valid exactly when the rest is valid and
      does not repeat the first key. */
  lemma ValidCons<V>(x: (string, V), d: Dict<V>)
    ensures Valid([x] + d) <==> x.0 !in Keys(d) && Valid(d)
  {
    var ks := Keys([x] + d);
    assert ks == [x.0] + Keys(d);
    if Valid([x] + d) {
      forall a, b | 0 <= a < b < |d| ensures Keys(d)[a] != Keys(d)[b] {
        assert ks[a + 1] != ks[b + 1];
      }
      forall b | 0 <= b < |d| ensures Keys(d)[b] != x.0 {
        assert ks[0] != ks[b + 1];
      }
    }
  }
}
