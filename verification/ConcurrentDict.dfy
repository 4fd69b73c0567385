/** The Python-side dictionary above the map. */
module ConcurrentDicts {
  import opened Options
  import opened Buckets
  import opened MapSpec
  import opened ShardedTable
  import opened ConcurrentMaps

  /** What setting the pairs one after the other leaves. */
  function SetAll(m: AMap, pairs: seq<Entry>): AMap
    decreases |pairs|
  {
    if pairs == [] then m
    else SetAll(m, pairs[..|pairs| - 1])[pairs[|pairs| - 1].key.cls := pairs[|pairs| - 1].val]
  }

  predicate Mentions(pairs: seq<Entry>, c: Class) {
    exists j :: 0 <= j < |pairs| && pairs[j].key.cls == c
  }

  lemma UpdateMeans(m: AMap, pairs: seq<Entry>)
    ensures forall c, i: nat :: LastFor(pairs, c, i) ==> Get(SetAll(m, pairs), c) == Some(pairs[i].val)
    ensures forall c :: !Mentions(pairs, c) ==> Get(SetAll(m, pairs), c) == Get(m, c)
  {
    forall c, i: nat | LastFor(pairs, c, i) ensures Get(SetAll(m, pairs), c) == Some(pairs[i].val) {
      LastPairWins(m, pairs, c, i);
    }
    forall c | !Mentions(pairs, c) ensures Get(SetAll(m, pairs), c) == Get(m, c) { OthersKeepTheirs(m, pairs, c); }
  }

  /** The pair at `i` is the last one whose key has class `c`. */
  predicate LastFor(pairs: seq<Entry>, c: Class, i: nat) {
    i < |pairs| && pairs[i].key.cls == c && forall j :: i < j < |pairs| ==> pairs[j].key.cls != c
  }

  /** Assignment overwrites: each class ends with the value of the last pair for it, ... */
  lemma {:induction false} LastPairWins(m: AMap, pairs: seq<Entry>, c: Class, i: nat)
    requires LastFor(pairs, c, i)
    ensures Get(SetAll(m, pairs), c) == Some(pairs[i].val)
  {
    var n := |pairs| - 1;
    if i < n { LastPairWins(m, pairs[..n], c, i); }
  }

  /** ... and keeps its old one if there is none. */
  lemma {:induction false} OthersKeepTheirs(m: AMap, pairs: seq<Entry>, c: Class)
    requires forall j :: 0 <= j < |pairs| ==> pairs[j].key.cls != c
    ensures Get(SetAll(m, pairs), c) == Get(m, c)
  {
    if pairs != [] { OthersKeepTheirs(m, pairs[..|pairs| - 1], c); }
  }

  /** Setting pairs from a listing of `m` one by one builds `m` up class by class. */
  lemma {:induction false} SetAllGets(out: seq<Entry>, c: Class)
    requires Unique(out)
    ensures Get(SetAll(map[], out), c) == Find(out, c)
  {
    if out != [] {
      var n := |out| - 1;
      SetAllGets(out[..n], c);
      PushMeaning(out[..n], out[n]);
      assert out[..n] + [out[n]] == out;
    }
  }

  lemma SetAllListing(out: seq<Entry>, m: AMap)
    requires ListsMap(out, m)
    ensures SetAll(map[], out) == m
  {
    var m' := SetAll(map[], out);
    forall c: Class ensures Get(m', c) == Get(m, c) {
      SetAllGets(out, c);
      assert Find(out, c) == Get(m, c);
    }
    assert forall c :: c in m' <==> c in m by {
      forall c ensures c in m' <==> c in m { assert Get(m', c) == Get(m, c); }
    }
    forall c | c in m ensures m'[c] == m[c] { assert Get(m', c) == Get(m, c); }
  }

  lemma ListedEntry(out: seq<Entry>, m: AMap, i: nat)
    requires ListsMap(out, m) && i < |out|
    ensures Get(m, out[i].key.cls) == Some(out[i].val)
  {
    FindEntry(out, i);
    assert Find(out, out[i].key.cls) == Get(m, out[i].key.cls);
  }

  lemma ListedAll(out: seq<Entry>, m: AMap)
    requires ListsMap(out, m)
    ensures forall j :: 0 <= j < |out| ==> Get(m, out[j].key.cls) == Some(out[j].val)
    ensures out == [] <==> m == map[]
  {
    forall j | 0 <= j < |out| ensures Get(m, out[j].key.cls) == Some(out[j].val) {
      ListedEntry(out, m, j);
    }
    ListedSize(out, m);
  }

  /** Every stored class is listed. */
  lemma ListedClass(out: seq<Entry>, m: AMap, c: Class) returns (i: nat)
    requires ListsMap(out, m) && c in m
    ensures i < |out| && out[i].key.cls == c && out[i].val == m[c]
  {
    assert Find(out, c) == Get(m, c);
    i :| 0 <= i < |out| && out[i].key.cls == c && out[i].val == Find(out, c).value;
  }

  /** One stored pair was taken out of `m`, leaving `m'`. */
  predicate TookOne(r: Option<Entry>, m: AMap, m': AMap) {
    r.Some? && Get(m, r.value.key.cls) == Some(r.value.val) && m' == m - {r.value.key.cls}
  }

  function AllTo(keys: seq<Obj>, value: Val): seq<Entry> {
    seq(|keys|, i requires 0 <= i < |keys| => Entry(keys[i], value))
  }

  /** `fromkeys` stores exactly the classes of the given keys, all with the same value. */
  lemma {:induction false} AllToMeaning(keys: seq<Obj>, value: Val, c: Class)
    ensures Get(SetAll(map[], AllTo(keys, value)), c) ==
            if exists i :: 0 <= i < |keys| && keys[i].cls == c then Some(value) else None
  {
    if keys != [] {
      var n := |keys| - 1;
      AllToMeaning(keys[..n], value, c);
      var pairs := AllTo(keys, value);
      assert pairs[..n] == AllTo(keys[..n], value) && pairs[n] == Entry(keys[n], value);
      assert forall i :: 0 <= i < n ==> keys[..n][i] == keys[i];
    }
  }

  /** The first argument of `update`: missing, something with `keys()` and lookup, or pairs (from `items()` or
      from iterating the argument itself). */
  datatype Source = NoSource | Mapping(keys: seq<Obj>, vals: AMap) | Pairs(pairs: seq<Entry>)

  /** How many keys, from the first on, the mapping can look up. */
  function Known(keys: seq<Obj>, vals: AMap): (n: nat)
    ensures n <= |keys| && (forall i :: 0 <= i < n ==> keys[i].cls in vals)
    ensures n < |keys| ==> keys[n].cls !in vals
  {
    if keys == [] || keys[0].cls !in vals then 0 else 1 + Known(keys[1..], vals)
  }

  /** The pairs `update` reads out of its argument before it ends or a lookup fails. */
  function ReadOut(src: Source): seq<Entry> {
    match src
    case NoSource => []
    case Mapping(keys, vals) =>
      seq(Known(keys, vals), i requires 0 <= i < Known(keys, vals) => Entry(keys[i], vals[keys[i].cls]))
    case Pairs(pairs) => pairs
  }

  /** The pairs of a mapping are its keys in order with the values looked up, up to the first key that cannot be. */
  lemma ReadOutMeans(src: Source)
    ensures src.NoSource? ==> ReadOut(src) == []
    ensures src.Pairs? ==> ReadOut(src) == src.pairs
    ensures src.Mapping? ==>
      var r, n := ReadOut(src), |ReadOut(src)|;
      && n <= |src.keys|
      && (forall i :: 0 <= i < n ==>
            src.keys[i].cls in src.vals && r[i].key == src.keys[i] && r[i].val == src.vals[src.keys[i].cls])
      && (n < |src.keys| ==> src.keys[n].cls !in src.vals)
      && (LookupFails(src) <==> exists i :: 0 <= i < |src.keys| && src.keys[i].cls !in src.vals)
  {
  }

  /** Some key of the mapping cannot be looked up. */
  predicate LookupFails(src: Source) {
    src.Mapping? && Known(src.keys, src.vals) < |src.keys|
  }

  /** What a dictionary is compared with. */
  datatype Comparand = PlainDict(contents: AMap) | Shared(d: ConcurrentDict) | Foreign

  class ConcurrentDict {
    const table: ConcurrentMap

    ghost predicate Valid()
      reads this, table, table.shards
    {
      table.Valid()
    }

    constructor (n: nat)
      requires n > 0
      ensures Valid() && fresh(table) && fresh(table.shards) && table.M == map[]
    {
      table := new ConcurrentMap(n);
    }

    /** `d[key]`: None is KeyError. */
    method GetItem(key: Obj) returns (r: Option<Val>)
      requires Valid()
      ensures r == Get(table.M, key.cls)
    {
      r := table.GetVal(key);
    }

    /** `found, v = self.pop_val(k)`, paired with the key. */
    method TryPop(k: Obj) returns (r: Option<Entry>)
      requires Valid()
      modifies table`M, table.shards
      ensures Valid()
      ensures if k.cls in old(table.M) then TookOne(r, old(table.M), table.M) else r.None? && table.M == old(table.M)
    {
      var v := table.PopVal(k);
      r := if v.Some? then Some(Entry(k, v.value)) else None;
    }

    /** The inner loop of `popitem`: take the first key of the snapshot that is still there. */
    method PopFirst(items: seq<Entry>) returns (r: Option<Entry>)
      requires Valid()
      requires forall j :: 0 <= j < |items| ==> Get(table.M, items[j].key.cls) == Some(items[j].val)
      modifies table`M, table.shards
      ensures Valid()
      ensures items == [] ==> r.None? && table.M == old(table.M)
      ensures items != [] ==> TookOne(r, old(table.M), table.M)
    {
      r := None;
      var i := 0;
      while i < |items| && r.None?
        invariant i <= |items| && (r.None? <==> i == 0)
        invariant Valid()
        invariant r.None? ==> table.M == old(table.M)
        invariant r.Some? ==> TookOne(r, old(table.M), table.M)
        decreases |items| - i
      {
        r := TryPop(items[i].key);
        i := i + 1;
      }
    }

    /** `popitem()`: None is KeyError, raised exactly on the empty dictionary; otherwise one stored pair is
        removed and returned with its own value. */
    method PopItem() returns (r: Option<Entry>)
      requires Valid()
      modifies table`M, table.shards
      ensures Valid()
      ensures if old(table.M) == map[] then r.None? && table.M == map[] else TookOne(r, old(table.M), table.M)
    {
      r := None;
      var looking := true;
      while looking
        invariant Valid()
        invariant looking ==> table.M == old(table.M)
        invariant !looking ==>
          if old(table.M) == map[] then r.None? && table.M == map[] else TookOne(r, old(table.M), table.M)
        decreases looking
      {
        var items := table.Items();
        ListedAll(items, table.M);
        if items == [] {
          r, looking := None, false;
        } else {
          r := PopFirst(items);
          looking := r.None?;
        }
      }
    }

    /** `for k, v in pairs: self.set(k, v)`. */
    method SetPairs(pairs: seq<Entry>)
      requires Valid()
      modifies table`M, table.shards
      ensures Valid() && table.M == SetAll(old(table.M), pairs)
    {
      for i := 0 to |pairs|
        invariant Valid() && table.M == SetAll(old(table.M), pairs[..i])
      {
        table.Set(pairs[i].key, pairs[i].val);
        assert pairs[..i + 1][..i] == pairs[..i];
      }
      assert pairs[..|pairs|] == pairs;
    }

    /** `for k in other.keys(): self.set(k, other[k])`; `ok` is false when a lookup raised KeyError. */
    method SetLookups(keys: seq<Obj>, vals: AMap) returns (ok: bool)
      requires Valid()
      modifies table`M, table.shards
      ensures Valid() && table.M == SetAll(old(table.M), ReadOut(Mapping(keys, vals)))
      ensures ok <==> Known(keys, vals) == |keys|
    {
      ghost var pairs := ReadOut(Mapping(keys, vals));
      var i := 0;
      while i < |keys| && keys[i].cls in vals
        invariant i <= |pairs| && Valid() && table.M == SetAll(old(table.M), pairs[..i])
      {
        assert i < |pairs| && pairs[..i + 1][..i] == pairs[..i] && pairs[i] == Entry(keys[i], vals[keys[i].cls]);
        table.Set(keys[i], vals[keys[i].cls]);
        i := i + 1;
      }
      assert i == |pairs| && pairs[..i] == pairs;
      ok := i == |keys|;
    }

    /** `update(other, **kwargs)`: the pairs are assigned in order, the keyword arguments last; a failing lookup stops
        it after the pairs before. */
    method Update(other: Source, kwargs: seq<Entry>) returns (ok: bool)
      requires Valid()
      modifies table`M, table.shards
      ensures Valid() && (ok <==> !LookupFails(other))
      ensures table.M == SetAll(SetAll(old(table.M), ReadOut(other)), if ok then kwargs else [])
      ensures forall c, i: nat :: ok && LastFor(kwargs, c, i) ==> Get(table.M, c) == Some(kwargs[i].val)
      ensures forall c, i: nat :: LastFor(ReadOut(other), c, i) && !(ok && Mentions(kwargs, c)) ==>
                Get(table.M, c) == Some(ReadOut(other)[i].val)
      ensures forall c :: !Mentions(ReadOut(other), c) && !(ok && Mentions(kwargs, c)) ==>
                Get(table.M, c) == Get(old(table.M), c)
    {
      ok := true;
      match other {
        case NoSource =>
        case Mapping(keys, vals) => ok := SetLookups(keys, vals);
        case Pairs(pairs) => SetPairs(pairs);
      }
      ghost var m1 := table.M;
      if ok { SetPairs(kwargs); }
      UpdateMeans(old(table.M), ReadOut(other));
      UpdateMeans(m1, if ok then kwargs else []);
    }

    /** `copy()`: a new dictionary with the same contents; the original is untouched. */
    method Copy(n: nat) returns (d: ConcurrentDict)
      requires Valid() && n > 0
      ensures fresh(d) && fresh(d.table) && fresh(d.table.shards) && d.Valid() && d.table.M == table.M
    {
      d := new ConcurrentDict(n);
      var items := table.Items();
      d.SetPairs(items);
      SetAllListing(items, table.M);
    }

    /** `fromkeys(keys, value)`. */
    static method FromKeys(keys: seq<Obj>, value: Val, n: nat) returns (d: ConcurrentDict)
      requires n > 0
      ensures fresh(d) && d.Valid() && d.table.M == SetAll(map[], AllTo(keys, value))
    {
      d := new ConcurrentDict(n);
      for i := 0 to |keys|
        invariant d.Valid() && fresh(d.table) && fresh(d.table.shards)
        invariant d.table.M == SetAll(map[], AllTo(keys, value)[..i])
      {
        d.table.Set(keys[i], value);
        assert AllTo(keys, value)[..i + 1][..i] == AllTo(keys, value)[..i];
      }
      assert AllTo(keys, value)[..|keys|] == AllTo(keys, value);
    }

    /** `k in other` and `other[k]`. */
    method LookUpIn(other: Comparand, k: Obj) returns (v: Option<Val>)
      requires other.Shared? ==> other.d.Valid()
      requires !other.Foreign?
      ensures v == Get(Contents(other), k.cls)
    {
      match other {
        case PlainDict(m) => v := if k.cls in m then Some(m[k.cls]) else None;
        case Shared(d) => v := d.table.GetVal(k);
      }
    }

    /** Every listed pair is found, with its value, in the other dictionary. */
    method AllIn(items: seq<Entry>, other: Comparand) returns (r: bool)
      requires other.Shared? ==> other.d.Valid()
      requires !other.Foreign?
      ensures r <==> forall j :: 0 <= j < |items| ==> Get(Contents(other), items[j].key.cls) == Some(items[j].val)
    {
      for i := 0 to |items|
        invariant forall j :: 0 <= j < i ==> Get(Contents(other), items[j].key.cls) == Some(items[j].val)
      {
        var v := LookUpIn(other, items[i].key);
        if v != Some(items[i].val) { return false; }
      }
      return true;
    }

    /** `self == other`: false for anything but a dictionary; otherwise same length and every pair found in the
        other, which is equality of the contents. */
    method Equals(other: Comparand) returns (r: bool)
      requires Valid()
      requires other.Shared? ==> other.d.Valid()
      ensures r <==> !other.Foreign? && table.M == Contents(other)
    {
      if other.Foreign? { return false; }
      var n := table.Len();
      var m;
      match other {
        case PlainDict(contents) => m := |contents|;
        case Shared(d) => m := d.table.Len();
      }
      if n != m { return false; }
      var items := table.Items();
      r := AllIn(items, other);
      SameSizeSubmap(items, table.M, Contents(other));
    }
  }

  /** The map a comparand stands for. */
  ghost function Contents(other: Comparand): AMap
    reads if other.Shared? then {other.d.table} else {}
  {
    match other case PlainDict(m) => m case Shared(d) => d.table.M case Foreign => map[]
  }

  lemma SameSizeSubmap(items: seq<Entry>, m: AMap, m': AMap)
    requires ListsMap(items, m) && |m| == |m'|
    ensures (forall j :: 0 <= j < |items| ==> Get(m', items[j].key.cls) == Some(items[j].val)) <==> m == m'
  {
    if forall j :: 0 <= j < |items| ==> Get(m', items[j].key.cls) == Some(items[j].val) {
      forall c | c in m ensures c in m' && m'[c] == m[c] {
        var i := ListedClass(items, m, c);
      }
      assert m.Keys <= m'.Keys;
      SubsetSameSize(m.Keys, m'.Keys);
    }
    if m == m' {
      forall j | 0 <= j < |items| ensures Get(m', items[j].key.cls) == Some(items[j].val) {
        ListedEntry(items, m, j);
      }
    }
  }

  lemma SubsetSameSize(a: set<Class>, b: set<Class>)
    requires a <= b && |a| == |b|
    ensures a == b
  {
    assert |b - a| == |b| - |a|;
  }
}
