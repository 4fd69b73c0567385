/** Removals consume entries once: what `pop_val`, and `popitem` above it, rely on. */
module MapConsume {
  import opened Options
  import opened Buckets
  import opened MapSpec
  import opened MapMachine
  import opened MapUniqueness
  import opened MapLinear
  import opened MapScan

  function Classes(t: Table): set<Class> {
    set h, e | h in t && e in t[h] :: e.key.cls
  }

  /** The abstract map of a table; in particular every table has one. */
  function Meaning(t: Table): (a: AMap)
    ensures Denotes(a, t)
  {
    var a := map c | c in Classes(t) && Stored(t, c).Some? :: Stored(t, c).value;
    assert Denotes(a, t) by {
      forall c: Class ensures Get(a, c) == Stored(t, c) {
        if HasClass(At(t, c.hash), c) {
          var b := At(t, c.hash);
          var i :| 0 <= i < |b| && b[i].key.cls == c;
          assert c.hash in t && b[i] in t[c.hash];
        }
      }
    }
    a
  }

  /** The call removed class `c` and reported it. */
  predicate Consumes(call: Call, c: Class) {
    || (call.op.Pop? && call.op.key.cls == c && call.res.Found? && call.res.value.Some?)
    || (call.op.Delete? && call.op.key.cls == c && call.res == Flag(true))
  }

  /** The call reported that class `c` was not there. */
  predicate Misses(call: Call, c: Class) {
    || (call.op.Pop? && call.op.key.cls == c && call.res == Found(None))
    || (call.op.Delete? && call.op.key.cls == c && call.res == Flag(false))
  }

  /** A consuming call is the very step that takes its class from present to absent. */
  lemma ConsumeInstant(shards: nat, ls: seq<Label>, i: nat, c: Class)
    requires 0 < shards && UniqueRun(Run(shards, ls).hist)
    requires i < |Run(shards, ls).calls| && Consumes(Run(shards, ls).calls[i], c)
    ensures var s := Run(shards, ls); var n := s.calls[i].resp;
            0 < n < |s.hist| && Stored(s.hist[n - 1], c).Some? && Stored(s.hist[n], c).None?
  {
    var s := Run(shards, ls);
    EveryCallTakesEffect(shards, ls, i);
    var m :| TakesEffectAt(s.hist, shards, s.calls[i], m);
    ConsumeMeets(s.hist, shards, s.calls[i], m, c);
  }

  lemma ConsumeMeets(H: seq<Table>, shards: nat, call: Call, m: nat, c: Class)
    requires 0 < shards && TakesEffectAt(H, shards, call, m) && Consumes(call, c)
    ensures call.eff && 0 < m == call.resp < |H| && Stored(H[m - 1], c).Some? && Stored(H[m], c).None?
  {
    var t := if call.eff then H[m - 1] else H[m];
    var a := Meaning(t);
    assert Denotes(Spec(a, call.op, shards).0, H[m]);
    assert Get(a, c) == Stored(t, c);
    assert Get(Spec(a, call.op, shards).0, c) == Stored(H[m], c);
  }

  /** A miss is real: at some instant of the call the class was absent. So when `popitem` finds every key
      of its snapshot gone and takes another, each of them was absent at some instant after the snapshot. */
  lemma MissIsReal(shards: nat, ls: seq<Label>, i: nat, c: Class) returns (m: nat)
    requires 0 < shards && UniqueRun(Run(shards, ls).hist)
    requires i < |Run(shards, ls).calls| && Misses(Run(shards, ls).calls[i], c)
    ensures var s := Run(shards, ls);
            s.calls[i].inv <= m <= s.calls[i].resp && m < |s.hist| && Stored(s.hist[m], c).None?
  {
    var s := Run(shards, ls);
    EveryCallTakesEffect(shards, ls, i);
    m :| TakesEffectAt(s.hist, shards, s.calls[i], m);
    MissMeets(s.hist, shards, s.calls[i], m, c);
  }

  lemma MissMeets(H: seq<Table>, shards: nat, call: Call, m: nat, c: Class)
    requires 0 < shards && TakesEffectAt(H, shards, call, m) && Misses(call, c)
    ensures Stored(H[m], c).None?
  {
    var t := if call.eff then H[m - 1] else H[m];
    var a := Meaning(t);
    assert Denotes(Spec(a, call.op, shards).0, H[m]);
    assert Get(Spec(a, call.op, shards).0, c) == Stored(H[m], c);
  }

  lemma {:induction false} RemovedBetween(H: seq<Table>, c: Class, lo: nat, hi: nat) returns (n: nat)
    requires lo <= hi < |H| && Stored(H[lo], c).Some? && Stored(H[hi], c).None?
    ensures lo < n <= hi && Stored(H[n - 1], c).Some? && Stored(H[n], c).None?
    decreases hi
  {
    if Stored(H[hi - 1], c).None? { n := RemovedBetween(H, c, lo, hi - 1); } else { n := hi; }
  }

  /** `popitem` passes over a key of its snapshot, and re-snapshots after passing over all of them, only
      because some step removed that key's class after the scan had read it: no key is skipped for nothing. */
  lemma PopItemSkipsOnlyRemoved(shards: nat, ls: seq<Label>, visits: seq<nat>, orders: seq<seq<Hash>>, j: nat, i: nat)
      returns (n: nat)
    requires 0 < shards == |visits|
    requires var H := Run(shards, ls).hist; UniqueRun(H) && Visits(H, shards, visits, orders)
    requires var s := Run(shards, ls); var out := Scan(s.hist, visits, orders);
             j < |out| && i < |s.calls| && Misses(s.calls[i], out[j].key.cls)
             && visits[out[j].key.cls.hash % shards] <= s.calls[i].inv
    ensures var s := Run(shards, ls); var c := Scan(s.hist, visits, orders)[j].key.cls;
            visits[c.hash % shards] < n <= s.calls[i].resp && n < |s.hist|
            && Stored(s.hist[n - 1], c).Some? && Stored(s.hist[n], c).None?
  {
    var s := Run(shards, ls);
    var out := Scan(s.hist, visits, orders);
    var c := out[j].key.cls;
    WeakSnapshot(shards, ls, visits, orders);
    assert out[j] in out;
    assert HasClass(At(s.hist[visits[c.hash % shards]], c.hash), c);
    var m := MissIsReal(shards, ls, i, c);
    n := RemovedBetween(s.hist, c, visits[c.hash % shards], m);
  }

  // ------------------------------------------------------------------ the ledger of a class

  /** The step to instant `m` brings class `c` into the table or, unless `born`, takes it out. */
  predicate Flips(H: seq<Table>, c: Class, born: bool, m: nat) {
    0 < m < |H| && Stored(H[m - 1], c).Some? != born && Stored(H[m], c).Some? == born
  }

  /** How many steps up to instant `n` do that. */
  function Flipped(H: seq<Table>, c: Class, born: bool, n: nat): nat {
    if n == 0 then 0 else Flipped(H, c, born, n - 1) + (if Flips(H, c, born, n) then 1 else 0)
  }

  /** Insertions equal removals plus the live entry. */
  lemma {:induction false} Conservation(H: seq<Table>, c: Class, n: nat)
    requires n < |H| && Stored(H[0], c).None?
    ensures Flipped(H, c, true, n) == Flipped(H, c, false, n) + (if Stored(H[n], c).Some? then 1 else 0)
  {
    if n > 0 { Conservation(H, c, n - 1); }
  }

  /** A `set` or `get_or_insert` whose last step brought its class in. */
  predicate Inserts(H: seq<Table>, call: Call, c: Class) {
    (call.op.Set? || call.op.GetOrInsert?) && call.op.key.cls == c && Flips(H, c, true, call.resp)
  }

  /** A turn of `clear` that took the class out. */
  predicate Clears(H: seq<Table>, call: Call, c: Class) {
    call.op.ClearShard? && Flips(H, c, false, call.resp)
  }

  function Inserted(H: seq<Table>, calls: seq<Call>, c: Class): nat {
    if calls == [] then 0
    else Inserted(H, calls[..|calls| - 1], c) + (if Inserts(H, calls[|calls| - 1], c) then 1 else 0)
  }

  function Consumed(calls: seq<Call>, c: Class): nat {
    if calls == [] then 0
    else Consumed(calls[..|calls| - 1], c) + (if Consumes(calls[|calls| - 1], c) then 1 else 0)
  }

  function Cleared(H: seq<Table>, calls: seq<Call>, c: Class): nat {
    if calls == [] then 0
    else Cleared(H, calls[..|calls| - 1], c) + (if Clears(H, calls[|calls| - 1], c) then 1 else 0)
  }

  /** The calls whose last step flips the class. */
  function Flippers(H: seq<Table>, calls: seq<Call>, c: Class, born: bool): nat {
    if calls == [] then 0
    else Flippers(H, calls[..|calls| - 1], c, born) + (if Flips(H, c, born, calls[|calls| - 1].resp) then 1 else 0)
  }

  ghost predicate Sorted(calls: seq<Call>) {
    forall i, j :: 0 <= i < j < |calls| ==> calls[i].resp < calls[j].resp
  }

  /** Calls end one at a time, and the class flips only where one of them takes effect. */
  ghost predicate Explains(H: seq<Table>, calls: seq<Call>, c: Class, born: bool, n: nat) {
    && Sorted(calls)
    && (forall i :: 0 <= i < |calls| ==> calls[i].resp <= n)
    && (forall m: nat :: m <= n && Flips(H, c, born, m) ==> SomeEffectAt(calls, m))
  }

  lemma ExplainsLess(H: seq<Table>, calls: seq<Call>, c: Class, born: bool, n: nat)
    requires calls != [] && Explains(H, calls, c, born, n) && calls[|calls| - 1].resp == n > 0
    ensures Explains(H, calls[..|calls| - 1], c, born, n - 1)
  {
    var p := calls[..|calls| - 1];
    forall m: nat | m <= n - 1 && Flips(H, c, born, m) ensures SomeEffectAt(p, m) {
      var i :| 0 <= i < |calls| && calls[i].eff && calls[i].resp == m;
      assert p[i] == calls[i];
    }
  }

  lemma {:induction false} FlippersCount(H: seq<Table>, calls: seq<Call>, c: Class, born: bool, n: nat)
    requires Explains(H, calls, c, born, n)
    ensures Flippers(H, calls, c, born) == Flipped(H, c, born, n)
    decreases n, |calls|
  {
    if n == 0 {
      NoFlippers(H, calls, c, born);
    } else if calls != [] && calls[|calls| - 1].resp == n {
      ExplainsLess(H, calls, c, born, n);
      FlippersCount(H, calls[..|calls| - 1], c, born, n - 1);
    } else {
      assert forall i :: 0 <= i < |calls| ==> calls[i].resp < n;
      FlippersCount(H, calls, c, born, n - 1);
    }
  }

  lemma {:induction false} NoFlippers(H: seq<Table>, calls: seq<Call>, c: Class, born: bool)
    requires forall i :: 0 <= i < |calls| ==> calls[i].resp == 0
    ensures Flippers(H, calls, c, born) == 0
  {
    if calls != [] { NoFlippers(H, calls[..|calls| - 1], c, born); }
  }

  /** What a call whose last step flips the class can be. */
  predicate RightKind(H: seq<Table>, call: Call, c: Class) {
    && (Flips(H, c, true, call.resp) ==> Inserts(H, call, c))
    && (Flips(H, c, false, call.resp) <==> Consumes(call, c) || Clears(H, call, c))
  }

  lemma {:induction false} FlippersByKind(H: seq<Table>, calls: seq<Call>, c: Class)
    requires forall i :: 0 <= i < |calls| ==> RightKind(H, calls[i], c)
    ensures Flippers(H, calls, c, true) == Inserted(H, calls, c)
    ensures Flippers(H, calls, c, false) == Consumed(calls, c) + Cleared(H, calls, c)
  {
    if calls != [] {
      var n := |calls| - 1;
      assert forall i :: 0 <= i < n ==> calls[..n][i] == calls[i];
      FlippersByKind(H, calls[..n], c);
      assert RightKind(H, calls[n], c);
    }
  }

  lemma FlipKind(H: seq<Table>, shards: nat, call: Call, c: Class, born: bool)
    requires 0 < shards && Flips(H, c, born, call.resp)
    requires Meets(H[call.resp - 1], H[call.resp], call.op, call.res, shards)
    ensures if born then Inserts(H, call, c) else Consumes(call, c) || Clears(H, call, c)
  {
    var a := Meaning(H[call.resp - 1]);
    var a' := Spec(a, call.op, shards).0;
    assert Get(a, c) == Stored(H[call.resp - 1], c);
    assert Get(a', c) == Stored(H[call.resp], c);
  }

  lemma RunKinds(shards: nat, ls: seq<Label>, c: Class, i: nat)
    requires 0 < shards && UniqueRun(Run(shards, ls).hist) && i < |Run(shards, ls).calls|
    ensures RightKind(Run(shards, ls).hist, Run(shards, ls).calls[i], c)
  {
    var s := Run(shards, ls);
    var call := s.calls[i];
    RunLin(shards, ls);
    forall born | Flips(s.hist, c, born, call.resp)
      ensures if born then Inserts(s.hist, call, c) else Consumes(call, c) || Clears(s.hist, call, c)
    {
      FlipHasEffect(s, c, born, call.resp);
      var j :| 0 <= j < |s.calls| && s.calls[j].eff && s.calls[j].resp == call.resp;
      assert i == j;
      EveryCallTakesEffect(shards, ls, i);
      var m :| TakesEffectAt(s.hist, shards, call, m);
      FlipKind(s.hist, shards, call, c, born);
    }
    if Consumes(call, c) { ConsumeInstant(shards, ls, i, c); }
  }

  /** A class flips only at a step that ends a call with an effect. */
  lemma FlipHasEffect(s: State, c: Class, born: bool, m: nat)
    requires LinInv(s) && Flips(s.hist, c, born, m)
    ensures SomeEffectAt(s.calls, m)
  {
    assert At(s.hist[m], c.hash) != At(s.hist[m - 1], c.hash);
  }

  lemma RunExplains(shards: nat, ls: seq<Label>, c: Class, born: bool)
    requires 0 < shards
    ensures var s := Run(shards, ls); Explains(s.hist, s.calls, c, born, Now(s))
  {
    var s := Run(shards, ls);
    RunLin(shards, ls);
    CallsEnd(s);
    forall m: nat | m <= Now(s) && Flips(s.hist, c, born, m) ensures SomeEffectAt(s.calls, m) {
      FlipHasEffect(s, c, born, m);
    }
  }

  /** Every entry is accounted for: in each run that keeps keys unique, the calls that inserted a class are as many as
      the calls that consumed it, the turns of `clear` that took it, and the live entry together. So no two
      `pop_val`, `delete` or `popitem` calls ever consume the same entry. */
  lemma ConsumedOnce(shards: nat, ls: seq<Label>, c: Class)
    requires 0 < shards && UniqueRun(Run(shards, ls).hist)
    ensures var s := Run(shards, ls);
            && Inserted(s.hist, s.calls, c) ==
               Consumed(s.calls, c) + Cleared(s.hist, s.calls, c) + (if Stored(Cur(s), c).Some? then 1 else 0)
            && Inserted(s.hist, s.calls, c) == Flipped(s.hist, c, true, Now(s))
  {
    var s := Run(shards, ls);
    StartsWithout(shards, ls, c);
    Conservation(s.hist, c, Now(s));
    RunExplains(shards, ls, c, true);
    RunExplains(shards, ls, c, false);
    FlippersCount(s.hist, s.calls, c, true, Now(s));
    FlippersCount(s.hist, s.calls, c, false, Now(s));
    forall i | 0 <= i < |s.calls| ensures RightKind(s.hist, s.calls[i], c) { RunKinds(shards, ls, c, i); }
    FlippersByKind(s.hist, s.calls, c);
  }

  lemma StartsWithout(shards: nat, ls: seq<Label>, c: Class)
    requires 0 < shards
    ensures Stored(Run(shards, ls).hist[0], c).None?
  {
    RunPrefix(shards, ls, 0);
    assert ls[..0] == [];
    assert Run(shards, ls).hist[0] == Run(shards, ls).hist[..1][0] == map[];
  }

  lemma CallsEnd(s: State)
    requires LinInv(s)
    ensures forall i :: 0 <= i < |s.calls| ==> s.calls[i].resp < |s.hist|
  {
    forall i | 0 <= i < |s.calls| ensures s.calls[i].resp < |s.hist| {
      assert CallOk(s.hist, s.shards, s.calls[i]);
    }
  }
}
