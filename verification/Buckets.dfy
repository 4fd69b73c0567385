/** The plain option type used throughout the project. */
module Options {
  datatype Option<+T> = None | Some(value: T)
}

/** Keys, entries and bucket lists: the data one shard lock protects. */
module Buckets {
  import opened Options

  const TWO_TO_THE_64: nat := 0x1_0000_0000_0000_0000
  type Hash = h: nat | h < TWO_TO_THE_64

  /** An equality class of Python keys, with the hash that all its members share. */
  datatype Class = Class(tag: nat, hash: Hash)

  /** A Python key object. Identity (`is`) is equality of these values; objects are never reused. */
  datatype Obj = Obj(id: nat, cls: Class)

  type Val = nat
  datatype Entry = Entry(key: Obj, val: Val)
  type Bucket = seq<Entry>

  /** User-level `__eq__`: an equivalence that agrees with the hash by construction. */
  predicate Eq(a: Obj, b: Obj) {
    a.cls == b.cls
  }

  predicate HasKey(b: Bucket, k: Obj) {
    exists i :: 0 <= i < |b| && b[i].key == k
  }

  predicate HasClass(b: Bucket, c: Class) {
    exists i :: 0 <= i < |b| && b[i].key.cls == c
  }

  /** No two entries carry equal keys. */
  predicate Unique(b: Bucket) {
    forall i, j :: 0 <= i < j < |b| ==> b[i].key.cls != b[j].key.cls
  }

  /** `list.iter().position(|(k, _)| k.is(key))`; the length of the list stands for None. */
  function Pos(b: Bucket, k: Obj): (p: nat)
    ensures p <= |b|
    ensures p < |b| ==> b[p].key == k
    ensures p < |b| <==> HasKey(b, k)
  {
    if b == [] then 0
    else if b[0].key == k then 0
    else
      var q := Pos(b[1..], k);
      assert q < |b| - 1 ==> b[q + 1].key == k;
      assert HasKey(b, k) ==> HasKey(b[1..], k) by {
        if HasKey(b, k) {
          var i :| 0 <= i < |b| && b[i].key == k;
          assert b[1..][i - 1].key == k;
        }
      }
      1 + q
  }

  /** The candidates a snapshot collects: entries whose key has not been compared yet. */
  function Fresh(b: Bucket, checked: set<Obj>): (r: Bucket)
    ensures forall e :: e in r <==> e in b && e.key !in checked
  {
    if b == [] then []
    else
      assert forall e :: e in b <==> e == b[0] || e in b[1..];
      if b[0].key in checked then Fresh(b[1..], checked) else [b[0]] + Fresh(b[1..], checked)
  }

  /** Negation of `has_unbound_candidate`. */
  predicate Covered(b: Bucket, checked: set<Obj>) {
    forall i :: 0 <= i < |b| ==> b[i].key in checked
  }

  function Update(b: Bucket, p: nat, v: Val): Bucket
    requires p < |b|
  {
    b[p := Entry(b[p].key, v)]
  }

  function RemoveAt(b: Bucket, p: nat): Bucket
    requires p < |b|
  {
    b[..p] + b[p + 1..]
  }

  /** The value the bucket gives to an equality class. */
  function Find(b: Bucket, c: Class): (r: Option<Val>)
    ensures r.Some? <==> HasClass(b, c)
    ensures r.Some? ==> exists i :: 0 <= i < |b| && b[i].key.cls == c && b[i].val == r.value
  {
    if b == [] then None
    else if b[0].key.cls == c then Some(b[0].val)
    else
      var r := Find(b[1..], c);
      assert HasClass(b, c) ==> HasClass(b[1..], c) by {
        if HasClass(b, c) {
          var i :| 0 <= i < |b| && b[i].key.cls == c;
          assert b[1..][i - 1].key.cls == c;
        }
      }
      assert forall i :: 0 <= i < |b| - 1 ==> b[1..][i] == b[i + 1];
      r
  }

  /** In a duplicate-free bucket every entry is the one found for its class. */
  lemma FindEntry(b: Bucket, i: nat)
    requires Unique(b) && i < |b|
    ensures Find(b, b[i].key.cls) == Some(b[i].val)
  {
    assert HasClass(b, b[i].key.cls);
    var j :| 0 <= j < |b| && b[j].key.cls == b[i].key.cls && b[j].val == Find(b, b[i].key.cls).value;
  }

  /** Overwriting one value keeps uniqueness and changes one class only. */
  lemma UpdateMeaning(b: Bucket, p: nat, v: Val)
    requires Unique(b) && p < |b|
    ensures Unique(Update(b, p, v))
    ensures forall c :: Find(Update(b, p, v), c) == if c == b[p].key.cls then Some(v) else Find(b, c)
  {
    var b' := Update(b, p, v);
    forall c ensures Find(b', c) == if c == b[p].key.cls then Some(v) else Find(b, c) {
      if HasClass(b, c) {
        var i :| 0 <= i < |b| && b[i].key.cls == c;
        assert b'[i].key.cls == c;
        FindEntry(b, i);
        FindEntry(b', i);
      }
    }
  }

  /** Removing one entry keeps uniqueness and forgets one class only. */
  lemma RemoveMeaning(b: Bucket, p: nat)
    requires Unique(b) && p < |b|
    ensures Unique(RemoveAt(b, p))
    ensures forall c :: Find(RemoveAt(b, p), c) == if c == b[p].key.cls then None else Find(b, c)
  {
    var b' := RemoveAt(b, p);
    assert forall i :: 0 <= i < p ==> b'[i] == b[i];
    assert forall i :: p < i < |b| ==> b'[i - 1] == b[i];
    assert forall i :: p <= i < |b'| ==> b'[i] == b[i + 1];
    forall c ensures Find(b', c) == if c == b[p].key.cls then None else Find(b, c) {
      if HasClass(b', c) {
        var i :| 0 <= i < |b'| && b'[i].key.cls == c;
        FindEntry(b', i);
        FindEntry(b, if i < p then i else i + 1);
      } else if HasClass(b, c) {
        var i :| 0 <= i < |b| && b[i].key.cls == c;
        assert i == p;
      }
    }
  }

  /** Appending a key keeps uniqueness exactly when its class was absent. */
  lemma PushMeaning(b: Bucket, e: Entry)
    requires Unique(b)
    ensures Unique(b + [e]) <==> !HasClass(b, e.key.cls)
    ensures !HasClass(b, e.key.cls) ==>
      forall c :: Find(b + [e], c) == if c == e.key.cls then Some(e.val) else Find(b, c)
  {
    var b' := b + [e];
    assert b'[|b|] == e;
    if HasClass(b, e.key.cls) {
      var i :| 0 <= i < |b| && b[i].key.cls == e.key.cls;
      assert b'[i] == b[i];
    } else {
      forall c ensures Find(b', c) == if c == e.key.cls then Some(e.val) else Find(b, c) {
        if HasClass(b, c) {
          var i :| 0 <= i < |b| && b[i].key.cls == c;
          assert b'[i] == b[i];
          FindEntry(b, i);
          FindEntry(b', i);
        } else if c == e.key.cls {
          FindEntry(b', |b|);
        }
      }
    }
  }
}
