/** From instants to one sequential order of all calls. */
module MapOrder {
  import opened Options
  import opened Buckets
  import opened MapSpec
  import opened MapMachine
  import opened MapUniqueness
  import opened MapLinear

  /** Perform the calls one after the other; None as soon as one answer is not the sequential one. */
  function Replay(a: AMap, calls: seq<Call>, shards: nat): Option<AMap>
    requires 0 < shards
    decreases |calls|
  {
    if calls == [] then Some(a)
    else
      var (a', r) := Spec(a, calls[0].op, shards);
      if r == calls[0].res then Replay(a', calls[1..], shards) else None
  }

  /** A call that ended before another began comes first. */
  ghost predicate RespectsTime(order: seq<Call>) {
    forall i, j :: 0 <= i < j < |order| ==> order[i].inv <= order[j].resp
  }

  lemma {:induction false} ReplayAppend(a: AMap, p: seq<Call>, q: seq<Call>, shards: nat)
    requires 0 < shards && Replay(a, p, shards).Some?
    ensures Replay(a, p + q, shards) == Replay(Replay(a, p, shards).value, q, shards)
    decreases |p|
  {
    if p == [] {
      assert p + q == q;
    } else {
      assert (p + q)[1..] == p[1..] + q;
      ReplayAppend(Spec(a, p[0].op, shards).0, p[1..], q, shards);
    }
  }

  /** An instant for each call. */
  ghost predicate Instants(H: seq<Table>, shards: nat, calls: seq<Call>, at: seq<nat>)
    requires 0 < shards
  {
    |at| == |calls| && forall i :: 0 <= i < |calls| ==> TakesEffectAt(H, shards, calls[i], at[i])
  }

  ghost predicate HasInstant(H: seq<Table>, shards: nat, call: Call)
    requires 0 < shards
  {
    exists m :: TakesEffectAt(H, shards, call, m)
  }

  lemma {:induction false} ChooseInstants(H: seq<Table>, shards: nat, calls: seq<Call>) returns (at: seq<nat>)
    requires 0 < shards
    requires forall i :: 0 <= i < |calls| ==> HasInstant(H, shards, calls[i])
    ensures Instants(H, shards, calls, at)
  {
    if calls == [] {
      at := [];
    } else {
      var n := |calls| - 1;
      assert forall i :: 0 <= i < n ==> calls[..n][i] == calls[i];
      var before := ChooseInstants(H, shards, calls[..n]);
      assert HasInstant(H, shards, calls[n]);
      var m :| TakesEffectAt(H, shards, calls[n], m);
      at := before + [m];
      forall i | 0 <= i < |calls| ensures TakesEffectAt(H, shards, calls[i], at[i]) {
        if i < n { assert calls[..n][i] == calls[i]; }
      }
    }
  }

  /** The calls placed at instant `m`, in completion order, either the effectful or the others. */
  function Ready(calls: seq<Call>, at: seq<nat>, m: nat, eff: bool): seq<Call>
    requires |at| == |calls|
  {
    if calls == [] then []
    else
      var n := |calls| - 1;
      Ready(calls[..n], at[..n], m, eff) + (if at[n] == m && calls[n].eff == eff then [calls[n]] else [])
  }

  /** All calls with an instant below `n`: instant by instant, the effect before the readers. */
  function Order(calls: seq<Call>, at: seq<nat>, n: nat): seq<Call>
    requires |at| == |calls|
  {
    if n == 0 then []
    else Order(calls, at, n - 1) + (Ready(calls, at, n - 1, true) + Ready(calls, at, n - 1, false))
  }

  lemma {:induction false} ReadyIn(calls: seq<Call>, at: seq<nat>, m: nat, eff: bool, x: Call)
    requires |at| == |calls| && x in Ready(calls, at, m, eff)
    ensures exists i :: 0 <= i < |calls| && calls[i] == x && at[i] == m && x.eff == eff
  {
    var n := |calls| - 1;
    if x in Ready(calls[..n], at[..n], m, eff) {
      ReadyIn(calls[..n], at[..n], m, eff, x);
      var i :| 0 <= i < n && calls[..n][i] == x && at[..n][i] == m;
      assert calls[i] == x && at[i] == m;
    } else {
      assert calls[n] == x && at[n] == m;
    }
  }

  // ------------------------------------------------------------------ nothing lost, nothing twice

  lemma ReadySnoc(calls: seq<Call>, at: seq<nat>, c: Call, m: nat, k: nat, eff: bool)
    requires |at| == |calls|
    ensures Ready(calls + [c], at + [m], k, eff) ==
            Ready(calls, at, k, eff) + (if m == k && c.eff == eff then [c] else [])
  {
    assert (calls + [c])[..|calls|] == calls && (at + [m])[..|at|] == at;
  }

  function Only(c: Call, b: bool): multiset<Call> {
    if b then multiset{c} else multiset{}
  }

  /** Both groups of instant `k`, as a multiset. */
  function ReadySet(calls: seq<Call>, at: seq<nat>, k: nat): multiset<Call>
    requires |at| == |calls|
  {
    multiset(Ready(calls, at, k, true)) + multiset(Ready(calls, at, k, false))
  }

  lemma ReadySetSnoc(calls: seq<Call>, at: seq<nat>, c: Call, m: nat, k: nat)
    requires |at| == |calls|
    ensures ReadySet(calls + [c], at + [m], k) == ReadySet(calls, at, k) + Only(c, m == k)
  {
    ReadySnoc(calls, at, c, m, k, true);
    ReadySnoc(calls, at, c, m, k, false);
  }

  function OrderSet(calls: seq<Call>, at: seq<nat>, n: nat): multiset<Call>
    requires |at| == |calls|
  {
    if n == 0 then multiset{} else OrderSet(calls, at, n - 1) + ReadySet(calls, at, n - 1)
  }

  lemma {:induction false} OrderIsSet(calls: seq<Call>, at: seq<nat>, n: nat)
    requires |at| == |calls|
    ensures multiset(Order(calls, at, n)) == OrderSet(calls, at, n)
  {
    if n == 0 {
      OrderIsSetBase(calls, at);
    } else {
      OrderIsSet(calls, at, n - 1);
      OrderIsSetStep(calls, at, n);
    }
  }

  lemma OrderIsSetBase(calls: seq<Call>, at: seq<nat>)
    requires |at| == |calls|
    ensures multiset(Order(calls, at, 0)) == OrderSet(calls, at, 0)
  {
  }

  lemma OrderIsSetStep(calls: seq<Call>, at: seq<nat>, n: nat)
    requires |at| == |calls| && n > 0 && multiset(Order(calls, at, n - 1)) == OrderSet(calls, at, n - 1)
    ensures multiset(Order(calls, at, n)) == OrderSet(calls, at, n)
  {
    var p, q, r := Order(calls, at, n - 1), Ready(calls, at, n - 1, true), Ready(calls, at, n - 1, false);
    AsMultiset(p, q, r);
    assert Order(calls, at, n) == p + (q + r);
    assert OrderSet(calls, at, n) == multiset(p) + (multiset(q) + multiset(r));
  }

  lemma AsMultiset(p: seq<Call>, q: seq<Call>, r: seq<Call>)
    ensures multiset(p + (q + r)) == multiset(p) + (multiset(q) + multiset(r))
  {
  }

  lemma {:induction false} OrderSnoc(calls: seq<Call>, at: seq<nat>, c: Call, m: nat, n: nat)
    requires |at| == |calls|
    ensures OrderSet(calls + [c], at + [m], n) == OrderSet(calls, at, n) + Only(c, m < n)
  {
    if n == 0 {
      OrderSnocBase(calls, at, c, m);
    } else {
      OrderSnoc(calls, at, c, m, n - 1);
      OrderSnocStep(calls, at, c, m, n);
    }
  }

  lemma OrderSnocBase(calls: seq<Call>, at: seq<nat>, c: Call, m: nat)
    requires |at| == |calls|
    ensures OrderSet(calls + [c], at + [m], 0) == OrderSet(calls, at, 0) + Only(c, m < 0)
  {
  }

  lemma OrderSnocStep(calls: seq<Call>, at: seq<nat>, c: Call, m: nat, n: nat)
    requires |at| == |calls| && n > 0
    requires OrderSet(calls + [c], at + [m], n - 1) == OrderSet(calls, at, n - 1) + Only(c, m < n - 1)
    ensures OrderSet(calls + [c], at + [m], n) == OrderSet(calls, at, n) + Only(c, m < n)
  {
    ReadySetSnoc(calls, at, c, m, n - 1);
    var calls', at' := calls + [c], at + [m];
    assert OrderSet(calls', at', n) == OrderSet(calls', at', n - 1) + ReadySet(calls', at', n - 1);
    Regroup(OrderSet(calls, at, n - 1), ReadySet(calls, at, n - 1), c, m, n - 1);
  }

  lemma Regroup(o: multiset<Call>, r: multiset<Call>, c: Call, m: nat, n: nat)
    ensures (o + Only(c, m < n)) + (r + Only(c, m == n)) == o + r + Only(c, m < n + 1)
  {
  }

  lemma {:induction false} OrderComplete(calls: seq<Call>, at: seq<nat>, n: nat)
    requires |at| == |calls| && forall i :: 0 <= i < |at| ==> at[i] < n
    ensures OrderSet(calls, at, n) == multiset(calls)
  {
    if calls == [] {
      OrderOfNone(n);
      OrderIsSet(calls, at, n);
    } else {
      var k := |calls| - 1;
      OrderComplete(calls[..k], at[..k], n);
      OrderSnoc(calls[..k], at[..k], calls[k], at[k], n);
      assert calls[..k] + [calls[k]] == calls && at[..k] + [at[k]] == at;
    }
  }

  lemma {:induction false} OrderOfNone(n: nat)
    ensures Order([], [], n) == []
  {
    if n > 0 { OrderOfNone(n - 1); }
  }

  // ------------------------------------------------------------------ real time

  lemma {:induction false} OrderTimed(H: seq<Table>, shards: nat, calls: seq<Call>, at: seq<nat>, n: nat)
    requires 0 < shards && Instants(H, shards, calls, at)
    ensures RespectsTime(Order(calls, at, n))
    ensures forall i :: 0 <= i < |Order(calls, at, n)| ==> Order(calls, at, n)[i].inv < n
  {
    if n > 0 {
      OrderTimed(H, shards, calls, at, n - 1);
      var p, q := Order(calls, at, n - 1), Ready(calls, at, n - 1, true) + Ready(calls, at, n - 1, false);
      forall i | 0 <= i < |q| ensures q[i].inv <= n - 1 <= q[i].resp {
        var e := i < |Ready(calls, at, n - 1, true)|;
        assert q[i] in Ready(calls, at, n - 1, e);
        ReadyIn(calls, at, n - 1, e, q[i]);
      }
      assert Order(calls, at, n) == p + q;
    }
  }

  // ------------------------------------------------------------------ legality

  /** The calls in completion order, with every other step leaving all buckets alone. */
  ghost predicate Timeline(H: seq<Table>, calls: seq<Call>) {
    && (forall i, j :: 0 <= i < j < |calls| ==> calls[i].resp < calls[j].resp)
    && (forall m :: 0 < m < |H| && !SomeEffectAt(calls, m) ==> SameBuckets(H[m - 1], H[m]))
  }

  /** At most one call has its effect at a given instant. */
  lemma {:induction false} OneEffect(H: seq<Table>, shards: nat, calls: seq<Call>, at: seq<nat>, m: nat)
      returns (i: int)
    requires 0 < shards && Instants(H, shards, calls, at)
    requires forall i, j :: 0 <= i < j < |calls| ==> calls[i].resp < calls[j].resp
    ensures if SomeEffectAt(calls, m)
            then 0 <= i < |calls| && calls[i].eff && calls[i].resp == m && Ready(calls, at, m, true) == [calls[i]]
            else Ready(calls, at, m, true) == []
  {
    i := -1;
    if calls != [] {
      var n := |calls| - 1;
      var p := calls[..n];
      i := OneEffect(H, shards, p, at[..n], m);
      assert TakesEffectAt(H, shards, calls[n], at[n]);
      if calls[n].eff && calls[n].resp == m {
        assert !SomeEffectAt(p, m);
        i := n;
      } else if SomeEffectAt(calls, m) {
        var j :| 0 <= j < |calls| && calls[j].eff && calls[j].resp == m;
        assert p[j] == calls[j];
      }
    }
  }

  /** Readers of instant `m` replay without changing the map. */
  lemma {:induction false} ReplayReaders(t: Table, shards: nat, q: seq<Call>, a: AMap)
    requires 0 < shards && Denotes(a, t)
    requires forall x :: x in q ==> Meets(t, t, x.op, x.res, shards)
    ensures Replay(a, q, shards) == Some(a)
    decreases |q|
  {
    if q != [] {
      assert q[0] in q;
      DenotesOnce(Spec(a, q[0].op, shards).0, a, t);
      ReplayReaders(t, shards, q[1..], a);
    }
  }

  lemma DenotesSame(a: AMap, t: Table, t': Table)
    requires Denotes(a, t) && SameBuckets(t, t')
    ensures Denotes(a, t')
  {
    forall c: Class ensures Get(a, c) == Stored(t', c) {
      assert Get(a, c) == Stored(t, c) && At(t', c.hash) == At(t, c.hash);
    }
  }

  lemma ReplayOne(a: AMap, call: Call, t: Table, t': Table, shards: nat) returns (a': AMap)
    requires 0 < shards && Denotes(a, t) && Meets(t, t', call.op, call.res, shards)
    ensures Replay(a, [call], shards) == Some(a') && Denotes(a', t')
  {
    a' := Spec(a, call.op, shards).0;
    assert [call][1..] == [];
    assert Replay(a', [], shards) == Some(a');
  }

  /** The effect of instant `m` (if any) takes the map of instant `m - 1` to that of instant `m`. */
  lemma ReplayEffect(H: seq<Table>, shards: nat, calls: seq<Call>, at: seq<nat>, m: nat, a: AMap) returns (a': AMap)
    requires 0 < shards && Timeline(H, calls) && Instants(H, shards, calls, at)
    requires 0 < m < |H| && Denotes(a, H[m - 1])
    ensures Replay(a, Ready(calls, at, m, true), shards) == Some(a') && Denotes(a', H[m])
  {
    var i := OneEffect(H, shards, calls, at, m);
    if SomeEffectAt(calls, m) {
      assert TakesEffectAt(H, shards, calls[i], at[i]);
      a' := ReplayOne(a, calls[i], H[m - 1], H[m], shards);
    } else {
      a' := a;
      DenotesSame(a, H[m - 1], H[m]);
    }
  }

  lemma ReadersMeet(H: seq<Table>, shards: nat, calls: seq<Call>, at: seq<nat>, m: nat)
    requires 0 < shards && m < |H| && Instants(H, shards, calls, at)
    ensures forall x :: x in Ready(calls, at, m, false) ==> Meets(H[m], H[m], x.op, x.res, shards)
  {
    forall x | x in Ready(calls, at, m, false) ensures Meets(H[m], H[m], x.op, x.res, shards) {
      ReadyIn(calls, at, m, false, x);
      var i :| 0 <= i < |calls| && calls[i] == x && at[i] == m && !x.eff;
      assert TakesEffectAt(H, shards, calls[i], at[i]);
    }
  }

  lemma ReplayInstant(H: seq<Table>, shards: nat, calls: seq<Call>, at: seq<nat>, m: nat, a: AMap) returns (a': AMap)
    requires 0 < shards && Timeline(H, calls) && Instants(H, shards, calls, at)
    requires 0 < m < |H| && Denotes(a, H[m - 1])
    ensures Replay(a, Ready(calls, at, m, true) + Ready(calls, at, m, false), shards) == Some(a')
    ensures Denotes(a', H[m])
  {
    a' := ReplayEffect(H, shards, calls, at, m, a);
    ReadersMeet(H, shards, calls, at, m);
    ReplayReaders(H[m], shards, Ready(calls, at, m, false), a');
    ReplayAppend(a, Ready(calls, at, m, true), Ready(calls, at, m, false), shards);
  }

  lemma NoEffectAtZero(H: seq<Table>, shards: nat, calls: seq<Call>, at: seq<nat>)
    requires 0 < shards && Instants(H, shards, calls, at)
    ensures Ready(calls, at, 0, true) == []
  {
    forall i | 0 <= i < |calls| ensures !(at[i] == 0 && calls[i].eff) {
      assert TakesEffectAt(H, shards, calls[i], at[i]);
    }
    NoneReady(calls, at, 0, true);
  }

  lemma {:induction false} NoneReady(calls: seq<Call>, at: seq<nat>, m: nat, eff: bool)
    requires |at| == |calls| && forall i :: 0 <= i < |calls| ==> !(at[i] == m && calls[i].eff == eff)
    ensures Ready(calls, at, m, eff) == []
  {
    if calls != [] { NoneReady(calls[..|calls| - 1], at[..|calls| - 1], m, eff); }
  }

  lemma FirstInstant(H: seq<Table>, shards: nat, calls: seq<Call>, at: seq<nat>)
    requires 0 < shards && |H| > 0 && Instants(H, shards, calls, at) && Denotes(map[], H[0])
    ensures Replay(map[], Ready(calls, at, 0, true) + Ready(calls, at, 0, false), shards) == Some(map[])
  {
    NoEffectAtZero(H, shards, calls, at);
    ReadersMeet(H, shards, calls, at, 0);
    var readers := Ready(calls, at, 0, false);
    assert Ready(calls, at, 0, true) + readers == readers;
    ReplayReaders(H[0], shards, readers, map[]);
  }

  lemma {:induction false} ReplayOrder(H: seq<Table>, shards: nat, calls: seq<Call>, at: seq<nat>, n: nat)
      returns (a: AMap)
    requires 0 < shards && |H| > 0 && Timeline(H, calls) && Instants(H, shards, calls, at) && Denotes(map[], H[0])
    requires 0 < n <= |H|
    ensures Replay(map[], Order(calls, at, n), shards) == Some(a) && Denotes(a, H[n - 1])
  {
    var q := Ready(calls, at, n - 1, true) + Ready(calls, at, n - 1, false);
    assert Order(calls, at, n) == Order(calls, at, n - 1) + q;
    if n == 1 {
      a := map[];
      FirstInstant(H, shards, calls, at);
      assert Order(calls, at, n - 1) + q == q;
    } else {
      var b := ReplayOrder(H, shards, calls, at, n - 1);
      a := ReplayInstant(H, shards, calls, at, n - 1, b);
      ReplayAppend(map[], Order(calls, at, n - 1), q, shards);
    }
  }

  lemma RunStartsEmpty(shards: nat, ls: seq<Label>)
    requires 0 < shards
    ensures Denotes(map[], Run(shards, ls).hist[0])
  {
    RunPrefix(shards, ls, 0);
    assert ls[..0] == [];
    assert Run(shards, ls).hist[0] == Run(shards, ls).hist[..1][0] == map[];
  }

  /** Linearizability: for every run that keeps keys unique there is one order of exactly the completed
      calls that respects real time, in which every answer is the sequential map's answer, and which
      ends in the map the table stores. */
  lemma Linearizable(shards: nat, ls: seq<Label>) returns (order: seq<Call>, a: AMap)
    requires 0 < shards && UniqueRun(Run(shards, ls).hist)
    ensures multiset(order) == multiset(Run(shards, ls).calls)
    ensures RespectsTime(order)
    ensures Replay(map[], order, shards) == Some(a)
    ensures Denotes(a, Cur(Run(shards, ls)))
  {
    var s := Run(shards, ls);
    RunLin(shards, ls);
    var at := RunInstants(s);
    order := Order(s.calls, at, |s.hist|);
    assert forall i :: 0 <= i < |at| ==> TakesEffectAt(s.hist, shards, s.calls[i], at[i]);
    OrderComplete(s.calls, at, |s.hist|);
    OrderIsSet(s.calls, at, |s.hist|);
    OrderTimed(s.hist, shards, s.calls, at, |s.hist|);
    RunStartsEmpty(shards, ls);
    a := ReplayOrder(s.hist, shards, s.calls, at, |s.hist|);
  }

  lemma RunInstants(s: State) returns (at: seq<nat>)
    requires LinInv(s) && UniqueRun(s.hist)
    ensures Instants(s.hist, s.shards, s.calls, at) && Timeline(s.hist, s.calls)
  {
    forall i | 0 <= i < |s.calls| ensures HasInstant(s.hist, s.shards, s.calls[i]) {
      assert CallOk(s.hist, s.shards, s.calls[i]);
    }
    at := ChooseInstants(s.hist, s.shards, s.calls);
  }
}
