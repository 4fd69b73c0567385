/** Shard-by-shard scans (`items`, `keys`, `values`, `len`) under concurrent mutation. */
module MapScan {
  import opened Buckets
  import opened MapMachine
  import opened MapUniqueness

  /** `order` is some enumeration of the hashes stored in shard `i` (the iteration order of the
      underlying hash table is unspecified). */
  ghost predicate Enumerates(t: Table, i: nat, shards: nat, order: seq<Hash>)
    requires 0 < shards
  {
    && (forall h :: h in order <==> h in t && h % shards == i)
    && (forall x, y :: 0 <= x < y < |order| ==> order[x] != order[y])
  }

  /** What one visit to a shard appends to the result. */
  function Visit(t: Table, order: seq<Hash>): seq<Entry> {
    if order == [] then [] else At(t, order[0]) + Visit(t, order[1..])
  }

  /** The result of a scan that visits shard `i` at instant `visits[i]`. */
  function Scan(H: seq<Table>, visits: seq<nat>, orders: seq<seq<Hash>>): seq<Entry>
    requires |orders| == |visits| && forall i :: 0 <= i < |visits| ==> visits[i] < |H|
  {
    if visits == [] then []
    else
      var n := |visits| - 1;
      Scan(H, visits[..n], orders[..n]) + Visit(H[visits[n]], orders[n])
  }

  /** `len` adds up the sizes instead of collecting entries. */
  function SizeOf(t: Table, order: seq<Hash>): nat {
    if order == [] then 0 else |At(t, order[0])| + SizeOf(t, order[1..])
  }

  lemma UniqueConcat(p: seq<Entry>, q: seq<Entry>)
    requires Unique(p) && Unique(q)
    requires forall i, j :: 0 <= i < |p| && 0 <= j < |q| ==> p[i].key.cls != q[j].key.cls
    ensures Unique(p + q)
  {
  }

  /** One visit lists exactly the entries of its shard, without equal keys. */
  lemma {:induction false} VisitMeaning(t: Table, order: seq<Hash>)
    requires UniqueTable(t) && Placed(t)
    requires forall x, y :: 0 <= x < y < |order| ==> order[x] != order[y]
    ensures Unique(Visit(t, order))
    ensures forall e :: e in Visit(t, order) <==> e.key.cls.hash in order && e in At(t, e.key.cls.hash)
  {
    if order != [] {
      var h := order[0];
      var b, rest := At(t, h), Visit(t, order[1..]);
      VisitMeaning(t, order[1..]);
      assert forall i :: 0 <= i < |b| ==> b[i].key.cls.hash == h;
      assert h !in order[1..];
      assert forall j :: 0 <= j < |rest| ==> rest[j] in rest;
      UniqueConcat(b, rest);
      forall e ensures e in b + rest <==> e.key.cls.hash in order && e in At(t, e.key.cls.hash) {
        assert e in b + rest <==> e in b || e in rest;
        assert e.key.cls.hash in order <==> e.key.cls.hash == h || e.key.cls.hash in order[1..];
      }
    }
  }

  /** What a scan visits: shard by shard, at instants of its own choosing. */
  ghost predicate Visits(H: seq<Table>, shards: nat, visits: seq<nat>, orders: seq<seq<Hash>>)
    requires 0 < shards
  {
    && |orders| == |visits| <= shards
    && (forall i :: 0 <= i < |visits| ==> visits[i] < |H|)
    && (forall i :: 0 <= i < |visits| ==> Enumerates(H[visits[i]], i, shards, orders[i]))
  }

  lemma {:induction false} ScanMeaning(H: seq<Table>, shards: nat, visits: seq<nat>, orders: seq<seq<Hash>>)
    requires 0 < shards && Visits(H, shards, visits, orders) && UniqueRun(H)
    requires forall i :: 0 <= i < |H| ==> Placed(H[i])
    ensures Unique(Scan(H, visits, orders))
    ensures forall e :: e in Scan(H, visits, orders) <==>
              e.key.cls.hash % shards < |visits|
              && e in At(H[visits[e.key.cls.hash % shards]], e.key.cls.hash)
  {
    if visits != [] {
      var n := |visits| - 1;
      var p, q := Scan(H, visits[..n], orders[..n]), Visit(H[visits[n]], orders[n]);
      ScanMeaning(H, shards, visits[..n], orders[..n]);
      assert Enumerates(H[visits[n]], n, shards, orders[n]);
      VisitMeaning(H[visits[n]], orders[n]);
      forall i, j | 0 <= i < |p| && 0 <= j < |q| ensures p[i].key.cls != q[j].key.cls {
        assert p[i] in p && q[j] in q;
      }
      UniqueConcat(p, q);
      forall e
        ensures e in p + q <==>
          e.key.cls.hash % shards <= n && e in At(H[visits[e.key.cls.hash % shards]], e.key.cls.hash)
      {
        assert e in p + q <==> e in p || e in q;
        if e.key.cls.hash % shards == n && e in At(H[visits[n]], e.key.cls.hash) {
          assert e.key.cls.hash in H[visits[n]];
        }
      }
    }
  }

  /** The weak snapshot `items()` returns in a run that keeps keys unique, whatever other threads do: no two
      equal keys; every pair was live when its shard was visited; and a key object that stays in the map
      throughout the scan is listed exactly once. */
  lemma WeakSnapshot(shards: nat, ls: seq<Label>, visits: seq<nat>, orders: seq<seq<Hash>>)
    requires 0 < shards == |visits|
    requires UniqueRun(Run(shards, ls).hist) && Visits(Run(shards, ls).hist, shards, visits, orders)
    ensures var H := Run(shards, ls).hist;
            var out := Scan(H, visits, orders);
            && Unique(out)
            && (forall e :: e in out ==> e in At(H[visits[e.key.cls.hash % shards]], e.key.cls.hash))
            && (forall k: Obj :: (forall i :: 0 <= i < shards ==> HasKey(At(H[visits[i]], k.cls.hash), k)) ==>
                  exists x :: 0 <= x < |out| && out[x].key == k
                              && forall y :: 0 <= y < |out| && y != x ==> !Eq(out[y].key, k))
  {
    var H := Run(shards, ls).hist;
    var out := Scan(H, visits, orders);
    RunInv(shards, ls);
    ScanMeaning(H, shards, visits, orders);
    forall k: Obj | forall i :: 0 <= i < shards ==> HasKey(At(H[visits[i]], k.cls.hash), k)
      ensures exists x :: 0 <= x < |out| && out[x].key == k
                          && forall y :: 0 <= y < |out| && y != x ==> !Eq(out[y].key, k)
    {
      var b := At(H[visits[k.cls.hash % shards]], k.cls.hash);
      assert HasKey(b, k);
      var i :| 0 <= i < |b| && b[i].key == k;
      assert b[i] in b && b[i] in out;
      var x :| 0 <= x < |out| && out[x] == b[i];
      assert forall y :: 0 <= y < |out| && y != x ==> !Eq(out[y].key, k);
    }
  }

  /** The running total of `len`: shard sizes at their visit times. */
  function LenOf(H: seq<Table>, visits: seq<nat>, orders: seq<seq<Hash>>): nat
    requires |orders| == |visits| && forall i :: 0 <= i < |visits| ==> visits[i] < |H|
  {
    if visits == [] then 0
    else
      var n := |visits| - 1;
      LenOf(H, visits[..n], orders[..n]) + SizeOf(H[visits[n]], orders[n])
  }

  lemma {:induction false} SizeOfVisit(t: Table, order: seq<Hash>)
    ensures SizeOf(t, order) == |Visit(t, order)|
  {
    if order != [] { SizeOfVisit(t, order[1..]); }
  }

  /** `len()` is the number of pairs an `items()` scan with the same visits returns, in every run. */
  lemma {:induction false} LenCountsItems(H: seq<Table>, visits: seq<nat>, orders: seq<seq<Hash>>)
    requires |orders| == |visits| && forall i :: 0 <= i < |visits| ==> visits[i] < |H|
    ensures LenOf(H, visits, orders) == |Scan(H, visits, orders)|
  {
    if visits != [] {
      var n := |visits| - 1;
      LenCountsItems(H, visits[..n], orders[..n]);
      SizeOfVisit(H[visits[n]], orders[n]);
    }
  }
}
