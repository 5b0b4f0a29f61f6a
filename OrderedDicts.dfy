/** A Python `dict` with string keys: a map together with the order in which
    its keys were first inserted. Assigning to a key that is already present
    replaces its value but keeps its position; a new key goes to the end. */
module OrderedDicts {

  datatype OrderedDict<V> = OrderedDict(entries: map<string, V>, keys: seq<string>)

  datatype Option<T> = None | Some(value: T)

  /** The representation invariant: the key order lists every key exactly once. */
  ghost predicate Valid<V>(d: OrderedDict<V>) {
    && (forall i, j :: 0 <= i < j < |d.keys| ==> d.keys[i] != d.keys[j])
    && (forall k :: k in d.entries <==> k in d.keys)
  }

  function Empty<V>(): (d: OrderedDict<V>)
    ensures Valid(d) && d.entries == map[] && d.keys == []
  {
    OrderedDict(map[], [])
  }

  /** `d[k] = v` */
  function Put<V>(d: OrderedDict<V>, k: string, v: V): (r: OrderedDict<V>)
    ensures Valid(d) ==> Valid(r)
    ensures k in r.entries && r.entries[k] == v
    ensures forall j :: j != k ==> (j in r.entries <==> j in d.entries)
    ensures forall j :: j != k && j in d.entries ==> r.entries[j] == d.entries[j]
    ensures |d.keys| <= |r.keys| <= |d.keys| + 1 && r.keys[..|d.keys|] == d.keys
    ensures Valid(d) && k in d.entries ==> r.keys == d.keys
  {
    if k in d.entries then OrderedDict(d.entries[k := v], d.keys)
    else OrderedDict(d.entries[k := v], d.keys + [k])
  }

  /** The assignments `d[k] = v` for each pair of kvs, in order. */
  function PutAll<V>(d: OrderedDict<V>, kvs: seq<(string, V)>): OrderedDict<V>
    decreases |kvs|
  {
    if kvs == [] then d
    else
      var last := kvs[|kvs| - 1];
      Put(PutAll(d, kvs[..|kvs| - 1]), last.0, last.1)
  }

  lemma PutAllOne<V>(d: OrderedDict<V>, kvs: seq<(string, V)>, k: string, v: V)
    ensures PutAll(d, kvs + [(k, v)]) == Put(PutAll(d, kvs), k, v)
  {
    assert (kvs + [(k, v)])[..|kvs|] == kvs;
  }

  /** Two batches of assignments in a row are one batch. */
  lemma {:induction false} PutAllAppend<V>(d: OrderedDict<V>, a: seq<(string, V)>, b: seq<(string, V)>)
    ensures PutAll(d, a + b) == PutAll(PutAll(d, a), b)
    decreases |b|
  {
    if b == [] {
      assert a + b == a;
    } else {
      var last := b[|b| - 1];
      var b' := b[..|b| - 1];
      assert a + b == (a + b') + [last];
      assert b == b' + [last];
      PutAllOne(d, a + b', last.0, last.1);
      PutAllOne(PutAll(d, a), b', last.0, last.1);
      PutAllAppend(d, a, b');
    }
  }

  lemma {:induction false} PutAllValid<V>(d: OrderedDict<V>, kvs: seq<(string, V)>)
    requires Valid(d)
    ensures Valid(PutAll(d, kvs))
    decreases |kvs|
  {
    if kvs != [] {
      PutAllValid(d, kvs[..|kvs| - 1]);
    }
  }

  /** After the assignments, a key is present exactly when it was present
      before or some assignment names it. */
  lemma {:induction false} PutAllKeys<V>(d: OrderedDict<V>, kvs: seq<(string, V)>, k: string)
    ensures k in PutAll(d, kvs).entries <==> k in d.entries || exists j :: 0 <= j < |kvs| && kvs[j].0 == k
    decreases |kvs|
  {
    if kvs != [] {
      var n := |kvs| - 1;
      PutAllKeys(d, kvs[..n], k);
      if exists j :: 0 <= j < |kvs| && kvs[j].0 == k {
        var j :| 0 <= j < |kvs| && kvs[j].0 == k;
        if j < n {
          assert kvs[..n][j].0 == k;
        }
      }
    }
  }

  /** The value of a key is the one given by the last assignment to it. */
  lemma {:induction false} PutAllLastWins<V>(d: OrderedDict<V>, kvs: seq<(string, V)>, j: nat)
    requires j < |kvs|
    requires forall i :: j < i < |kvs| ==> kvs[i].0 != kvs[j].0
    ensures kvs[j].0 in PutAll(d, kvs).entries && PutAll(d, kvs).entries[kvs[j].0] == kvs[j].1
    decreases |kvs|
  {
    var n := |kvs| - 1;
    if j < n {
      assert forall i :: j < i < n ==> kvs[..n][i].0 != kvs[..n][j].0;
      PutAllLastWins(d, kvs[..n], j);
    }
  }

  /** A key no assignment names keeps its value. */
  lemma {:induction false} PutAllUntouched<V>(d: OrderedDict<V>, kvs: seq<(string, V)>, k: string)
    requires k in d.entries
    requires forall i :: 0 <= i < |kvs| ==> kvs[i].0 != k
    ensures k in PutAll(d, kvs).entries && PutAll(d, kvs).entries[k] == d.entries[k]
    decreases |kvs|
  {
    if kvs != [] {
      PutAllUntouched(d, kvs[..|kvs| - 1], k);
    }
  }

  /** Assignments never move the keys that were already there. */
  lemma {:induction false} PutAllKeepsOrder<V>(d: OrderedDict<V>, kvs: seq<(string, V)>)
    ensures |d.keys| <= |PutAll(d, kvs).keys| && PutAll(d, kvs).keys[..|d.keys|] == d.keys
    decreases |kvs|
  {
    if kvs != [] {
      var n := |kvs| - 1;
      PutAllKeepsOrder(d, kvs[..n]);
      var m := PutAll(d, kvs[..n]);
      var r := Put(m, kvs[n].0, kvs[n].1);
      assert r.keys[..|m.keys|] == m.keys;
      assert r.keys[..|d.keys|] == r.keys[..|m.keys|][..|d.keys|];
    }
  }

  /** The key order lists as many keys as the dictionary holds: `len(d)`. */
  lemma {:induction false} SizeMatchesOrder<V>(d: OrderedDict<V>)
    requires Valid(d)
    ensures |d.keys| == |d.entries|
  {
    DistinctSeqSize(d.keys);
    assert d.entries.Keys == set k | k in d.keys;
  }

  lemma {:induction false} DistinctSeqSize(s: seq<string>)
    requires forall i, j :: 0 <= i < j < |s| ==> s[i] != s[j]
    ensures |set k | k in s| == |s|
    decreases |s|
  {
    if s != [] {
      var t := s[..|s| - 1];
      var x := s[|s| - 1];
      DistinctSeqSize(t);
      assert (set k | k in s) == (set k | k in t) + {x};
      assert x !in (set k | k in t);
    }
  }

  /** The value the last assignment to k in kvs gives, if any. */
  function Find<V>(kvs: seq<(string, V)>, k: string): (r: Option<V>)
    ensures r.Some? <==> exists j :: 0 <= j < |kvs| && kvs[j].0 == k
    decreases |kvs|
  {
    if kvs == [] then None
    else if kvs[|kvs| - 1].0 == k then Some(kvs[|kvs| - 1].1)
    else
      var r := Find(kvs[..|kvs| - 1], k);
      assert forall j :: 0 <= j < |kvs| - 1 ==> kvs[..|kvs| - 1][j] == kvs[j];
      r
  }

  lemma {:induction false} FindAppend<V>(a: seq<(string, V)>, b: seq<(string, V)>, k: string)
    ensures Find(a + b, k) == if Find(b, k).Some? then Find(b, k) else Find(a, k)
    decreases |b|
  {
    if b == [] {
      assert a + b == a;
    } else {
      assert (a + b)[..|a + b| - 1] == a + b[..|b| - 1];
      FindAppend(a, b[..|b| - 1], k);
    }
  }

  /** After the assignments, a key holds the value its last assignment gave,
      or its old value when no assignment names it. */
  lemma {:induction false} PutAllFind<V>(d: OrderedDict<V>, kvs: seq<(string, V)>, k: string)
    ensures Find(kvs, k).Some? ==> k in PutAll(d, kvs).entries && PutAll(d, kvs).entries[k] == Find(kvs, k).value
    ensures Find(kvs, k).None? ==>
      (k in PutAll(d, kvs).entries <==> k in d.entries) &&
      (k in d.entries ==> PutAll(d, kvs).entries[k] == d.entries[k])
    decreases |kvs|
  {
    if kvs != [] {
      PutAllFind(d, kvs[..|kvs| - 1], k);
    }
  }

  /** Several batches of assignments, one after the other. */
  function Concat<V>(batches: seq<seq<(string, V)>>): seq<(string, V)>
    decreases |batches|
  {
    if batches == [] then [] else Concat(batches[..|batches| - 1]) + batches[|batches| - 1]
  }

  /** Starting from an empty dictionary, a key is present after the batches
      exactly when one of them assigns it. */
  lemma {:induction false} PutAllConcat<V>(batches: seq<seq<(string, V)>>, k: string)
    ensures k in PutAll(Empty(), Concat(batches)).entries <==>
      exists i :: 0 <= i < |batches| && Find(batches[i], k).Some?
    decreases |batches|
  {
    if batches != [] {
      var n := |batches| - 1;
      var init := Concat(batches[..n]);
      PutAllConcat(batches[..n], k);
      PutAllAppend(Empty(), init, batches[n]);
      PutAllFind(PutAll(Empty(), init), batches[n], k);
      if exists i :: 0 <= i < |batches| && Find(batches[i], k).Some? {
        var i :| 0 <= i < |batches| && Find(batches[i], k).Some?;
        if i < n {
          assert batches[..n][i] == batches[i];
        }
      }
    }
  }
}
