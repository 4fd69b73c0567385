/** What the worker's history contains, event by event: hooks, executions, and what each future is resolved with. */
module ActorOutcomes {
  import opened Options
  import opened ActorMachine

  /** What a future must get when its message ends as `r`. */
  predicate Outcome(r: Ran, w: Resolution) {
    match w
    case Result(v) => r == Returned(v)
    case NoneResult => r.Raised? && r.handled
    case Exception(e) => r == Raised(e, false)
    case StoppedError => false
  }

  lemma Among(p: seq<Event>, q: seq<Event>, e: Event)
    ensures e in p + q <==> e in p || e in q
  {
  }

  /** The events of one message: it runs, `on_error` sees exactly what it raises, and its future gets the outcome. */
  lemma ExecMeans(m: Msg, r: Ran, e: Event)
    ensures e in Exec(m, r) <==>
      match e
      case Executed(id) => id == m.id
      case OnError(id) => id == m.id && r.Raised?
      case Resolve(f, w) => m.fut == Some(f) && Outcome(r, w)
      case _ => false
  {
    var run := if r.Returned? then [Executed(m.id)] else [Executed(m.id), OnError(m.id)];
    var rest := Exec(m, r)[|run|..];
    assert Exec(m, r) == run + rest;
    Among(run, rest, e);
  }

  /** Event `e` belongs to item `k`. */
  predicate Belongs(items: Items, rans: seq<Ran>, k: nat, e: Event) {
    k < |items| && k < |rans| && items[k].Some? &&
    match e
    case Executed(id) => id == items[k].value.id
    case OnError(id) => id == items[k].value.id && rans[k].Raised?
    case Resolve(f, w) => items[k].value.fut == Some(f) && Outcome(rans[k], w)
    case _ => false
  }

  lemma {:induction false} ExecAllMeans(items: Items, rans: seq<Ran>, e: Event)
    requires |items| == |rans|
    ensures e in ExecAll(items, rans) <==> exists k: nat :: Belongs(items, rans, k, e)
  {
    if items != [] {
      var n := |items| - 1;
      var p, es := ExecAll(items[..n], rans[..n]), if items[n].Some? then Exec(items[n].value, rans[n]) else [];
      ExecAllMeans(items[..n], rans[..n], e);
      Among(p, es, e);
      if items[n].Some? { ExecMeans(items[n].value, rans[n], e); }
      BelongsSplit(items, rans, e);
      assert (items[n].Some? && e in es) <==> Belongs(items, rans, n, e);
    }
  }

  lemma BelongsSplit(items: Items, rans: seq<Ran>, e: Event)
    requires |items| == |rans| > 0
    ensures var n := |items| - 1;
      (exists k: nat :: Belongs(items, rans, k, e)) <==>
      (exists k: nat :: Belongs(items[..n], rans[..n], k, e)) || Belongs(items, rans, n, e)
  {
    var n := |items| - 1;
    if k: nat :| Belongs(items, rans, k, e) {
      assert k < n ==> Belongs(items[..n], rans[..n], k, e);
    }
    if k: nat :| Belongs(items[..n], rans[..n], k, e) { assert Belongs(items, rans, k, e); }
  }

  /** In every run an execution, an `on_error` call or a resolution by the worker is there exactly for an executed
      message it belongs to: the k-th accepted one, whose future gets the value it returned, None if it raised and that
      was handled, and the exception if it was not. */
  lemma WorkerEvents(cap: Option<nat>, ls: seq<Label>, e: Event)
    requires e.Executed? || e.OnError? || e.Resolve?
    ensures var s := Run(cap, ls);
      e in s.trace <==> exists k: nat :: k < |s.rans| && Belongs(s.box.accepted, s.rans, k, e)
  {
    var s := Run(cap, ls);
    var acc, done := s.box.accepted, |s.rans|;
    RunOk(cap, ls);
    var first := if s.pc.Unborn? || s.pc.Opening? then [] else OpeningEvents(s.startFailed);
    var body := ExecAll(acc[..done], s.rans);
    var last := if s.pc.Exited? then [OnStop] else [];
    assert s.trace == first + body + last;
    Among(first + body, last, e);
    Among(first, body, e);
    ExecAllMeans(acc[..done], s.rans, e);
    BelongsPrefix(acc, s.rans, e);
  }

  lemma BelongsPrefix(items: Items, rans: seq<Ran>, e: Event)
    requires |rans| <= |items|
    ensures (exists k: nat :: Belongs(items[..|rans|], rans, k, e)) <==>
            (exists k: nat :: k < |rans| && Belongs(items, rans, k, e))
  {
    if k: nat :| Belongs(items[..|rans|], rans, k, e) { assert k < |rans| && Belongs(items, rans, k, e); }
    if k: nat :| k < |rans| && Belongs(items, rans, k, e) { assert Belongs(items[..|rans|], rans, k, e); }
  }

  /** The future of an executed call, spelled out. */
  lemma FutureGetsOutcome(cap: Option<nat>, ls: seq<Label>, k: nat, f: Fut)
    requires var s := Run(cap, ls);
      k < |s.rans| && k < |s.box.accepted| && s.box.accepted[k].Some? && s.box.accepted[k].value.fut == Some(f)
    ensures var s := Run(cap, ls);
      match s.rans[k]
      case Returned(v) => Resolve(f, Result(v)) in s.trace
      case Raised(e, handled) => Resolve(f, if handled then NoneResult else Exception(e)) in s.trace
  {
    var s := Run(cap, ls);
    var w := match s.rans[k]
      case Returned(v) => Result(v)
      case Raised(e, handled) => if handled then NoneResult else Exception(e);
    assert Belongs(s.box.accepted, s.rans, k, Resolve(f, w));
    WorkerEvents(cap, ls, Resolve(f, w));
  }

  lemma SettlementMeans(x: Option<Msg>, e: Event)
    ensures e in Settlement(x) <==> x.Some? && x.value.fut.Some? && e == Resolve(x.value.fut.value, StoppedError)
  {
  }

  lemma {:induction false} SettlementsMean(refused: Items, e: Event)
    ensures e in Settlements(refused) <==>
      exists k :: 0 <= k < |refused| && refused[k].Some? && refused[k].value.fut.Some?
                  && e == Resolve(refused[k].value.fut.value, StoppedError)
  {
    if refused != [] {
      var n := |refused| - 1;
      SettlementsMean(refused[..n], e);
      Among(Settlements(refused[..n]), Settlement(refused[n]), e);
      SettlementMeans(refused[n], e);
    }
  }

  /** Callers settle exactly the futures of refused calls, and only with the error. */
  lemma CallerEvents(cap: Option<nat>, ls: seq<Label>, e: Event)
    ensures var s := Run(cap, ls);
      e in s.callers.settled <==>
      exists k :: 0 <= k < |s.callers.refused| && s.callers.refused[k].Some? && s.callers.refused[k].value.fut.Some?
                  && e == Resolve(s.callers.refused[k].value.fut.value, StoppedError)
  {
    RunOk(cap, ls);
    SettlementsMean(Run(cap, ls).callers.refused, e);
  }

  // ------------------------------------------------------------------ order

  /** The ids of the executed messages, as the history shows them. */
  function Order(trace: seq<Event>): seq<nat> {
    if trace == [] then []
    else
      var n := |trace| - 1;
      Order(trace[..n]) + (if trace[n].Executed? then [trace[n].id] else [])
  }

  function Ids(items: Items): seq<nat> {
    if items == [] then []
    else
      var n := |items| - 1;
      Ids(items[..n]) + (if items[n].Some? then [items[n].value.id] else [])
  }

  lemma {:induction false} OrderAppend(p: seq<Event>, q: seq<Event>)
    ensures Order(p + q) == Order(p) + Order(q)
  {
    if q == [] {
      assert p + q == p;
    } else {
      assert (p + q)[..|p + q| - 1] == p + q[..|q| - 1];
      OrderAppend(p, q[..|q| - 1]);
    }
  }

  lemma {:induction false} NoneExecuted(es: seq<Event>)
    requires forall i :: 0 <= i < |es| ==> !es[i].Executed?
    ensures Order(es) == []
  {
    if es != [] { NoneExecuted(es[..|es| - 1]); }
  }

  lemma ExecOrder(m: Msg, r: Ran)
    ensures Order(Exec(m, r)) == [m.id]
  {
    var es := Exec(m, r);
    assert es == [es[0]] + es[1..] && [es[0]][..0] == [];
    OrderAppend([es[0]], es[1..]);
    NoneExecuted(es[1..]);
  }

  lemma {:induction false} ExecAllOrder(items: Items, rans: seq<Ran>)
    requires |items| == |rans|
    ensures Order(ExecAll(items, rans)) == Ids(items)
  {
    if items != [] {
      var n := |items| - 1;
      ExecAllOrder(items[..n], rans[..n]);
      if items[n].Some? {
        OrderAppend(ExecAll(items[..n], rans[..n]), Exec(items[n].value, rans[n]));
        ExecOrder(items[n].value, rans[n]);
      } else {
        assert ExecAll(items, rans) == ExecAll(items[..n], rans[..n]);
      }
    }
  }

  /** In every run the executions are those of the first accepted messages, in the order of acceptance. */
  lemma ExecutedInOrder(cap: Option<nat>, ls: seq<Label>)
    ensures var s := Run(cap, ls);
      |s.rans| <= |s.box.accepted| && Order(s.trace) == Ids(s.box.accepted[..|s.rans|])
  {
    var s := Run(cap, ls);
    RunOk(cap, ls);
    TraceOrder(s);
    ExecAllOrder(s.box.accepted[..|s.rans|], s.rans);
  }

  lemma TraceOrder(s: State)
    requires |s.rans| <= |s.box.accepted| && TraceOk(s)
    ensures Order(s.trace) == Order(ExecAll(s.box.accepted[..|s.rans|], s.rans))
  {
    var first := if s.pc.Unborn? || s.pc.Opening? then [] else OpeningEvents(s.startFailed);
    var body := ExecAll(s.box.accepted[..|s.rans|], s.rans);
    var last := if s.pc.Exited? then [OnStop] else [];
    assert s.trace == first + body + last;
    OrderAround(first, body, last);
  }

  lemma OrderAround(first: seq<Event>, body: seq<Event>, last: seq<Event>)
    requires forall i :: 0 <= i < |first| ==> !first[i].Executed?
    requires forall i :: 0 <= i < |last| ==> !last[i].Executed?
    ensures Order(first + body + last) == Order(body)
  {
    OrderAppend(first + body, last);
    OrderAppend(first, body);
    NoneExecuted(first);
    NoneExecuted(last);
  }

  /** The hooks: `on_start` once and first, its `on_error` right after it exactly if it raised, `on_stop` once and last,
      exactly when the worker has exited. */
  lemma HooksInPlace(cap: Option<nat>, ls: seq<Label>)
    ensures var s := Run(cap, ls); var tr := s.trace; var n := |tr|;
      && (s.pc.Unborn? || s.pc.Opening? ==> tr == [])
      && (!s.pc.Unborn? && !s.pc.Opening? ==> n > 0)
      && (forall i :: 0 <= i < n ==> (tr[i].OnStart? <==> i == 0))
      && (forall i :: 0 <= i < n ==> (tr[i].OnStartError? <==> i == 1 && s.startFailed))
      && (forall i :: 0 <= i < n ==> (tr[i].OnStop? <==> i == n - 1 && s.pc.Exited?))
  {
    var s := Run(cap, ls);
    RunOk(cap, ls);
    var body := ExecAll(s.box.accepted[..|s.rans|], s.rans);
    forall i | 0 <= i < |body| ensures !body[i].OnStart? && !body[i].OnStartError? && !body[i].OnStop? {
      assert body[i] in body;
      ExecAllMeans(s.box.accepted[..|s.rans|], s.rans, body[i]);
    }
    if s.pc.Unborn? || s.pc.Opening? { assert ExecAll(s.box.accepted[..0], []) == []; }
    HookPositions(s, body);
  }

  lemma HookPositions(s: State, body: seq<Event>)
    requires forall i :: 0 <= i < |body| ==> !body[i].OnStart? && !body[i].OnStartError? && !body[i].OnStop?
    requires s.pc.Unborn? || s.pc.Opening? ==> body == []
    requires s.trace == (if s.pc.Unborn? || s.pc.Opening? then [] else OpeningEvents(s.startFailed))
                        + body + (if s.pc.Exited? then [OnStop] else [])
    ensures var tr := s.trace; var n := |tr|;
      && (s.pc.Unborn? || s.pc.Opening? ==> tr == [])
      && (!s.pc.Unborn? && !s.pc.Opening? ==> n > 0)
      && (forall i :: 0 <= i < n ==> (tr[i].OnStart? <==> i == 0))
      && (forall i :: 0 <= i < n ==> (tr[i].OnStartError? <==> i == 1 && s.startFailed))
      && (forall i :: 0 <= i < n ==> (tr[i].OnStop? <==> i == n - 1 && s.pc.Exited?))
  {
    var first := if s.pc.Unborn? || s.pc.Opening? then [] else OpeningEvents(s.startFailed);
    var last := if s.pc.Exited? then [OnStop] else [];
    var tr := s.trace;
    assert tr == first + body + last;
    assert forall i :: 0 <= i < |first| ==> tr[i] == first[i];
    assert forall i :: |first| <= i < |first| + |body| ==> tr[i] == body[i - |first|];
    assert s.pc.Exited? ==> tr[|tr| - 1] == OnStop;
  }

  // ------------------------------------------------------------------ what callers' and the worker's steps do

  /** `stop()` refuses all later calls and, if there is a worker, sends it a sentinel. */
  lemma StopSends(s: State)
    ensures var s' := Step(s, Stop);
      && s'.stopped && (forall m :: Step(s', Call(m)) == s')
      && s'.callers.ready == s.callers.ready + (if s.pc.Unborn? then [] else [None])
      && s'.box == s.box && s'.trace == s.trace && s'.pc == s.pc
  {
  }

  /** The worker takes what is in the mailbox from the front; a sentinel ends the drain. */
  lemma TakesFromFront(s: State, r: Ran)
    requires (s.pc.Receiving? || s.pc.Draining?) && s.box.items != []
    ensures var s' := Step(s, Work(r)); var x := s.box.items[0];
      && s'.box == s.box.(items := s.box.items[1..])
      && (s.pc.Receiving? && x.Some? ==> s'.pc == Draining([x]))
      && (s.pc.Receiving? && x.None? ==> s'.pc == Leaving(Sentinel))
      && (s.pc.Draining? && x.Some? ==> s'.pc == Draining(s.pc.batch + [x]))
      && (s.pc.Draining? && x.None? ==> s'.pc == Executing(s.pc.batch + [None]))
  {
  }
}
