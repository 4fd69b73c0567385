/** The map object itself, with its real loops, refining one abstract map over key classes. */
module ShardedTable {
  import opened Options
  import opened Buckets
  import opened MapSpec
  import opened MapMachine

  /** Every entry sits in shard `hash % n` under its own hash, buckets are duplicate-free, and no bucket
      list is left empty. */
  ghost predicate Tidy(ts: seq<Table>) {
    && |ts| > 0
    && (forall i, h :: 0 <= i < |ts| && h in ts[i] ==> h % |ts| == i && ts[i][h] != [] && Unique(ts[i][h]))
    && (forall i :: 0 <= i < |ts| ==> Placed(ts[i]))
  }

  function Slot(ts: seq<Table>, h: Hash): Bucket
    requires |ts| > 0
  {
    At(ts[h % |ts|], h)
  }

  ghost predicate Refines(ts: seq<Table>, m: AMap) {
    Tidy(ts) && forall c: Class :: Get(m, c) == Find(Slot(ts, c.hash), c)
  }

  /** Store a bucket list, dropping the hash when the list has become empty. */
  function PutBucket(t: Table, h: Hash, b: Bucket): Table {
    if b == [] then t - {h} else t[h := b]
  }

  function Assign(m: AMap, c: Class, v: Option<Val>): AMap {
    match v case None => m - {c} case Some(x) => m[c := x]
  }

  lemma SlotTidy(ts: seq<Table>, h: Hash)
    requires Tidy(ts)
    ensures Unique(Slot(ts, h))
    ensures forall i :: 0 <= i < |Slot(ts, h)| ==> Slot(ts, h)[i].key.cls.hash == h
  {
    assert Placed(ts[h % |ts|]);
  }

  lemma PutTidy(ts: seq<Table>, h: Hash, b: Bucket)
    requires Tidy(ts) && Unique(b) && forall i :: 0 <= i < |b| ==> b[i].key.cls.hash == h
    ensures var i := h % |ts|; Tidy(ts[i := PutBucket(ts[i], h, b)])
  {
    var i := h % |ts|;
    PutPlaced(ts[i], h, b);
  }

  lemma PutSlot(ts: seq<Table>, h: Hash, b: Bucket, g: Hash)
    requires Tidy(ts)
    ensures var i := h % |ts|;
            Slot(ts[i := PutBucket(ts[i], h, b)], g) == if g == h then b else Slot(ts, g)
  {
  }

  lemma PutMeaning(ts: seq<Table>, m: AMap, b: Bucket, c: Class, v: Option<Val>, d: Class)
    requires Tidy(ts) && Get(m, d) == Find(Slot(ts, d.hash), d)
    requires Find(b, d) == if d == c then v else Find(Slot(ts, c.hash), d)
    ensures var i := c.hash % |ts|;
            Get(Assign(m, c, v), d) == Find(Slot(ts[i := PutBucket(ts[i], c.hash, b)], d.hash), d)
  {
    PutSlot(ts, c.hash, b, d.hash);
  }

  lemma PutRefines(ts: seq<Table>, m: AMap, b: Bucket, c: Class, v: Option<Val>)
    requires Refines(ts, m) && Unique(b)
    requires forall i :: 0 <= i < |b| ==> b[i].key.cls.hash == c.hash
    requires forall d :: Find(b, d) == if d == c then v else Find(Slot(ts, c.hash), d)
    ensures var i := c.hash % |ts|; Refines(ts[i := PutBucket(ts[i], c.hash, b)], Assign(m, c, v))
  {
    var i := c.hash % |ts|;
    var ts' := ts[i := PutBucket(ts[i], c.hash, b)];
    PutTidy(ts, c.hash, b);
    forall d: Class ensures Get(Assign(m, c, v), d) == Find(Slot(ts', d.hash), d) {
      assert Get(m, d) == Find(Slot(ts, d.hash), d);
      PutMeaning(ts, m, b, c, v, d);
    }
  }

  lemma PutPlaced(t: Table, h: Hash, b: Bucket)
    requires Placed(t) && forall i :: 0 <= i < |b| ==> b[i].key.cls.hash == h
    ensures Placed(PutBucket(t, h, b))
  {
  }

  // ------------------------------------------------------------------ listings

  /** `out` lists the map: one entry per class, with its value. */
  ghost predicate ListsMap(out: seq<Entry>, m: AMap) {
    Unique(out) && forall c: Class :: Find(out, c) == Get(m, c)
  }

  function ClassesOf(out: seq<Entry>): set<Class> {
    set e | e in out :: e.key.cls
  }

  lemma {:induction false} UniqueSize(out: seq<Entry>)
    requires Unique(out)
    ensures |ClassesOf(out)| == |out|
  {
    if out == [] {
      assert ClassesOf(out) == {};
    } else {
      var n := |out| - 1;
      UniqueSize(out[..n]);
      assert forall e :: e in out <==> e in out[..n] || e == out[n];
      assert ClassesOf(out) == ClassesOf(out[..n]) + {out[n].key.cls};
      assert out[n].key.cls !in ClassesOf(out[..n]);
    }
  }

  lemma ListedSize(out: seq<Entry>, m: AMap)
    requires ListsMap(out, m)
    ensures |out| == |m|
  {
    UniqueSize(out);
    forall c ensures c in ClassesOf(out) <==> c in m.Keys {
      assert Find(out, c) == Get(m, c);
      assert HasClass(out, c) <==> c in ClassesOf(out);
    }
    assert ClassesOf(out) == m.Keys;
  }

  /** The entries of shards below `i`, and of shard `i` except the hashes still to visit. */
  ghost predicate Collected(ts: seq<Table>, i: nat, left: set<Hash>, out: seq<Entry>)
    requires |ts| > 0
  {
    && Unique(out)
    && forall e :: e in out <==>
         e in Slot(ts, e.key.cls.hash)
         && (e.key.cls.hash % |ts| < i || (e.key.cls.hash % |ts| == i && e.key.cls.hash !in left))
  }

  lemma CollectBucket(ts: seq<Table>, i: nat, left: set<Hash>, h: Hash, out: seq<Entry>)
    requires Tidy(ts) && i < |ts| && h in left && h in ts[i] && Collected(ts, i, left, out)
    ensures Collected(ts, i, left - {h}, out + ts[i][h])
  {
    var b := ts[i][h];
    assert Slot(ts, h) == b && Placed(ts[i]);
    assert forall e :: e in b ==> e.key.cls.hash == h;
    assert forall x :: 0 <= x < |out| ==> out[x] in out && out[x].key.cls.hash != h;
    assert forall e :: e in out + b <==> e in out || e in b;
  }

  lemma CollectNext(ts: seq<Table>, i: nat, out: seq<Entry>)
    requires Tidy(ts) && i < |ts| && Collected(ts, i, {}, out)
    ensures i + 1 < |ts| ==> Collected(ts, i + 1, ts[i + 1].Keys, out)
    ensures i + 1 == |ts| ==> Collected(ts, i + 1, {}, out)
  {
    assert forall h: Hash :: h % |ts| == i + 1 && i + 1 < |ts| && h !in ts[i + 1].Keys ==> Slot(ts, h) == [];
  }

  lemma AllCollected(ts: seq<Table>, m: AMap, out: seq<Entry>)
    requires Refines(ts, m) && Collected(ts, |ts|, {}, out)
    ensures ListsMap(out, m)
  {
    forall c: Class ensures Find(out, c) == Get(m, c) {
      var b := Slot(ts, c.hash);
      SlotTidy(ts, c.hash);
      assert Get(m, c) == Find(b, c);
      SameEntries(out, b, c);
    }
  }

  lemma SameEntries(p: seq<Entry>, q: seq<Entry>, c: Class)
    requires Unique(p) && Unique(q) && forall e: Entry :: e.key.cls == c ==> (e in p <==> e in q)
    ensures Find(p, c) == Find(q, c)
  {
    if HasClass(p, c) { SameEntry(p, q, c); }
    if HasClass(q, c) { SameEntry(q, p, c); }
  }

  lemma SameEntry(p: seq<Entry>, q: seq<Entry>, c: Class)
    requires Unique(p) && Unique(q) && HasClass(p, c) && forall e: Entry :: e.key.cls == c && e in p ==> e in q
    ensures Find(p, c) == Find(q, c)
  {
    var i :| 0 <= i < |p| && p[i].key.cls == c;
    assert p[i] in p && p[i] in q;
    var x :| 0 <= x < |q| && q[x] == p[i];
    FindEntry(p, i);
    FindEntry(q, x);
  }
}

module ConcurrentMaps {
  import opened Options
  import opened Buckets
  import opened MapSpec
  import opened MapMachine
  import opened ShardedTable

  class ConcurrentMap {
    var shards: array<Table>
    ghost var M: AMap

    ghost predicate Valid()
      reads this, shards
    {
      Refines(shards[..], M)
    }

    constructor (n: nat)
      requires n > 0
      ensures Valid() && fresh(shards) && shards.Length == n && M == map[]
    {
      shards := new Table[n](_ => map[]);
      M := map[];
      new;
      assert forall i :: 0 <= i < n ==> shards[..][i] == map[];
    }

    /** `ConcurrentMap(shard_count)`: None is the ValueError for a zero count. */
    static method New(count: Option<nat>, fallback: nat) returns (m: Option<ConcurrentMap>)
      requires fallback >= 16
      ensures m.None? <==> count == Some(0)
      ensures m.Some? ==> fresh(m.value) && fresh(m.value.shards) && m.value.Valid() && m.value.M == map[]
      ensures m.Some? ==> m.value.shards.Length == if count.Some? then count.value else fallback
    {
      if count == Some(0) { return None; }
      var made := new ConcurrentMap(if count.Some? then count.value else fallback);
      m := Some(made);
    }

    /** The bucket of a hash, as found under the shard lock. */
    function Bucket(h: Hash): Bucket
      requires shards.Length > 0
      reads this, shards
    {
      At(shards[h % shards.Length], h)
    }

    /** A write under the shard lock: replace the bucket of class `c`; only that class may change. */
    method Write(b: Bucket, ghost c: Class, h: Hash, ghost v: Option<Val>)
      requires Valid() && h == c.hash && Unique(b)
      requires forall i :: 0 <= i < |b| ==> b[i].key.cls.hash == h
      requires forall d :: Find(b, d) == if d == c then v else Find(Bucket(h), d)
      modifies this`M, shards
      ensures Valid() && M == Assign(old(M), c, v)
    {
      var i := h % shards.Length;
      ghost var ts := shards[..];
      PutRefines(ts, M, b, c, v);
      shards[i] := PutBucket(shards[i], h, b);
      assert shards[..] == ts[i := PutBucket(ts[i], h, b)];
      M := Assign(M, c, v);
    }

    lemma BucketTidy(h: Hash)
      requires Valid()
      ensures Unique(Bucket(h)) && forall i :: 0 <= i < |Bucket(h)| ==> Bucket(h)[i].key.cls.hash == h
      ensures forall c: Class :: c.hash == h ==> Get(M, c) == Find(Bucket(h), c)
    {
      SlotTidy(shards[..], h);
      assert Slot(shards[..], h) == Bucket(h);
    }

    /** A bucket without the class answers for the whole map. */
    lemma SeesAbsence(c: Class)
      requires Valid() && !HasClass(Bucket(c.hash), c)
      ensures Get(M, c) == None && M - {c} == M
    {
      BucketTidy(c.hash);
      assert Get(M, c) == Find(Bucket(c.hash), c);
      assert c !in M;
    }

    /** `list[p].1 = v` under the lock. */
    method OverwriteAt(h: Hash, p: nat, v: Val)
      requires Valid() && p < |Bucket(h)|
      modifies this`M, shards
      ensures Valid() && M == old(M)[old(Bucket(h))[p].key.cls := v]
    {
      BucketTidy(h);
      UpdateMeaning(Bucket(h), p, v);
      Write(Update(Bucket(h), p, v), Bucket(h)[p].key.cls, h, Some(v));
    }

    /** `list.remove(p)` under the lock, dropping the bucket when it becomes empty. */
    method TakeAt(h: Hash, p: nat) returns (v: Val)
      requires Valid() && p < |Bucket(h)|
      modifies this`M, shards
      ensures Valid() && M == old(M) - {old(Bucket(h))[p].key.cls}
      ensures Get(old(M), old(Bucket(h))[p].key.cls) == Some(v)
    {
      BucketTidy(h);
      RemoveMeaning(Bucket(h), p);
      FindEntry(Bucket(h), p);
      v := Bucket(h)[p].val;
      Write(RemoveAt(Bucket(h), p), Bucket(h)[p].key.cls, h, None);
    }

    /** `list.push((key, v))` under the lock. */
    method Push(key: Obj, v: Val)
      requires Valid() && !HasClass(Bucket(key.cls.hash), key.cls)
      modifies this`M, shards
      ensures Valid() && key.cls !in old(M) && M == old(M)[key.cls := v]
    {
      var h := key.cls.hash;
      BucketTidy(h);
      assert Get(M, key.cls) == Find(Bucket(h), key.cls);
      PushMeaning(Bucket(h), Entry(key, v));
      Write(Bucket(h) + [Entry(key, v)], key.cls, h, Some(v));
    }

    /** `get` / `get_val`: snapshot, then compare outside the lock. */
    method GetVal(key: Obj) returns (r: Option<Val>)
      requires Valid()
      ensures (M, Found(r)) == Spec(M, Lookup(key), shards.Length)
    {
      BucketTidy(key.cls.hash);
      var list := Bucket(key.cls.hash);
      for i := 0 to |list|
        invariant forall j :: 0 <= j < i ==> !Eq(list[j].key, key)
      {
        if Eq(list[i].key, key) {
          FindEntry(list, i);
          return Some(list[i].val);
        }
      }
      return None;
    }

    method ContainsKey(key: Obj) returns (r: bool)
      requires Valid()
      ensures r <==> key.cls in M
    {
      BucketTidy(key.cls.hash);
      var list := Bucket(key.cls.hash);
      assert Get(M, key.cls) == Find(list, key.cls);
      for i := 0 to |list|
        invariant forall j :: 0 <= j < i ==> !Eq(list[j].key, key)
      {
        if Eq(list[i].key, key) { return true; }
      }
      return false;
    }

    /** The comparison loop of step 2: stop at the first equal candidate, recording what was compared. */
    method Compare(key: Obj, cands: Bucket, checked: set<Obj>) returns (hit: Option<Entry>, seen: set<Obj>)
      ensures hit.Some? ==> hit.value in cands && Eq(hit.value.key, key)
      ensures hit.None? ==> forall e :: e in cands ==> e.key in seen && !Eq(e.key, key)
      ensures checked <= seen
      ensures hit.None? ==> forall k :: k in seen ==> k in checked || !Eq(k, key)
    {
      seen := checked;
      for i := 0 to |cands|
        invariant checked <= seen
        invariant forall j :: 0 <= j < i ==> cands[j].key in seen && !Eq(cands[j].key, key)
        invariant forall k :: k in seen ==> k in checked || !Eq(k, key)
      {
        seen := seen + {cands[i].key};
        if Eq(cands[i].key, key) { return Some(cands[i]), seen; }
      }
      return None, seen;
    }

    /** One iteration of `get_or_insert`'s loop; None is its `continue`. Undisturbed, it is never taken. */
    method GetOrInsertRound(key: Obj, dflt: Val, checked: set<Obj>) returns (r: Option<Val>, seen: set<Obj>)
      requires Valid() && forall k :: k in checked ==> !Eq(k, key)
      modifies this`M, shards
      ensures Valid() && r.Some?
      ensures (M, Value(r.value)) == Spec(old(M), Op.GetOrInsert(key, dflt), shards.Length)
    {
      var h := key.cls.hash;
      BucketTidy(h);
      var hit;
      hit, seen := Compare(key, Fresh(Bucket(h), checked), checked);
      if hit.Some? {
        var i :| 0 <= i < |Bucket(h)| && Bucket(h)[i] == hit.value;
        FindEntry(Bucket(h), i);
        r := Some(hit.value.val);
      } else if Covered(Bucket(h), seen) {
        Push(key, dflt);
        r := Some(dflt);
      } else {
        r := None;
      }
    }

    method GetOrInsert(key: Obj, dflt: Val) returns (r: Val)
      requires Valid()
      modifies this`M, shards
      ensures Valid()
      ensures (M, Value(r)) == Spec(old(M), Op.GetOrInsert(key, dflt), shards.Length)
    {
      var checked: set<Obj> := {};
      var res: Option<Val> := None;
      while res.None?
        invariant Valid()
        invariant res.None? ==> M == old(M) && forall k :: k in checked ==> !Eq(k, key)
        invariant res.Some? ==> (M, Value(res.value)) == Spec(old(M), Op.GetOrInsert(key, dflt), shards.Length)
        decreases res.None?
      {
        res, checked := GetOrInsertRound(key, dflt, checked);
      }
      r := res.value;
    }

    /** One iteration of the slow path of `set`; `done` would be false at its `continue`. */
    method SetRound(key: Obj, value: Val, checked: set<Obj>) returns (done: bool, seen: set<Obj>)
      requires Valid() && forall k :: k in checked ==> !Eq(k, key)
      modifies this`M, shards
      ensures Valid() && done && M == old(M)[key.cls := value]
    {
      var h := key.cls.hash;
      var hit;
      hit, seen := Compare(key, Fresh(Bucket(h), checked), checked);
      if hit.Some? {
        assert hit.value in Bucket(h);
        var q := Pos(Bucket(h), hit.value.key);
        OverwriteAt(h, q, value);
        done := true;
      } else {
        done := Covered(Bucket(h), seen);
        if done { Push(key, value); }
      }
    }

    method Set(key: Obj, value: Val)
      requires Valid()
      modifies this`M, shards
      ensures Valid() && (M, Unit) == Spec(old(M), Op.Set(key, value), shards.Length)
    {
      var h := key.cls.hash;
      if Bucket(h) == [] {
        Push(key, value);
        return;
      }
      var p := Pos(Bucket(h), key);
      if p < |Bucket(h)| {
        OverwriteAt(h, p, value);
        return;
      }
      var checked: set<Obj> := {};
      var done := false;
      while !done
        invariant Valid()
        invariant !done ==> M == old(M) && forall k :: k in checked ==> !Eq(k, key)
        invariant done ==> M == old(M)[key.cls := value]
        decreases !done
      {
        done, checked := SetRound(key, value, checked);
      }
    }

    /** One iteration of the slow path of `pop_val`. */
    method PopRound(key: Obj, checked: set<Obj>) returns (done: bool, r: Option<Val>, seen: set<Obj>)
      requires Valid() && forall k :: k in checked ==> !Eq(k, key)
      modifies this`M, shards
      ensures Valid() && done && r == Get(old(M), key.cls) && M == old(M) - {key.cls}
    {
      var h := key.cls.hash;
      var hit;
      hit, seen := Compare(key, Fresh(Bucket(h), checked), checked);
      if hit.Some? {
        assert hit.value in Bucket(h);
        var q := Pos(Bucket(h), hit.value.key);
        var v := TakeAt(h, q);
        done, r := true, Some(v);
      } else {
        done, r := Covered(Bucket(h), seen), None;
        if done { SeesAbsence(key.cls); }
      }
    }

    /** `pop_val`; `delete` is the same code answering `r.Some?`. */
    method PopVal(key: Obj) returns (r: Option<Val>)
      requires Valid()
      modifies this`M, shards
      ensures Valid() && (M, Found(r)) == Spec(old(M), Pop(key), shards.Length)
    {
      var h := key.cls.hash;
      if Bucket(h) == [] {
        SeesAbsence(key.cls);
        return None;
      }
      var p := Pos(Bucket(h), key);
      if p < |Bucket(h)| {
        var v := TakeAt(h, p);
        return Some(v);
      }
      var checked: set<Obj> := {};
      var done := false;
      r := None;
      while !done
        invariant Valid()
        invariant !done ==> M == old(M) && forall k :: k in checked ==> !Eq(k, key)
        invariant done ==> r == Get(old(M), key.cls) && M == old(M) - {key.cls}
        decreases !done
      {
        done, r, checked := PopRound(key, checked);
      }
    }

    method Clear()
      requires Valid()
      modifies this`M, shards
      ensures Valid() && M == map[]
    {
      for i := 0 to shards.Length
        invariant forall j :: 0 <= j < i ==> shards[j] == map[]
      {
        shards[i] := map[];
      }
      M := map[];
      assert forall j :: 0 <= j < shards.Length ==> shards[..][j] == map[];
    }

    /** `items()`: shard by shard, bucket by bucket, in whatever order the hash table iterates. */
    method Items() returns (out: seq<Entry>)
      requires Valid()
      ensures ListsMap(out, M)
    {
      out := [];
      ghost var ts := shards[..];
      for i := 0 to shards.Length
        invariant i < |ts| ==> Collected(ts, i, ts[i].Keys, out)
        invariant i == |ts| ==> Collected(ts, i, {}, out)
      {
        var left := shards[i].Keys;
        while left != {}
          invariant left <= ts[i].Keys && Collected(ts, i, left, out)
          decreases |left|
        {
          var h :| h in left;
          CollectBucket(ts, i, left, h, out);
          out := out + shards[i][h];
          left := left - {h};
        }
        CollectNext(ts, i, out);
      }
      AllCollected(ts, M, out);
    }

    /** `len()`: the number of classes in the map. */
    method Len() returns (total: nat)
      requires Valid()
      ensures total == |M|
    {
      total := 0;
      ghost var out := [];
      ghost var ts := shards[..];
      for i := 0 to shards.Length
        invariant total == |out|
        invariant i < |ts| ==> Collected(ts, i, ts[i].Keys, out)
        invariant i == |ts| ==> Collected(ts, i, {}, out)
      {
        var left := shards[i].Keys;
        while left != {}
          invariant total == |out| && left <= ts[i].Keys && Collected(ts, i, left, out)
          decreases |left|
        {
          var h :| h in left;
          CollectBucket(ts, i, left, h, out);
          out := out + shards[i][h];
          total := total + |shards[i][h]|;
          left := left - {h};
        }
        CollectNext(ts, i, out);
      }
      AllCollected(ts, M, out);
      ListedSize(out, M);
    }
  }
}
