/** The actor object: `_run_loop`, the send path and `stop`, as runs of the mailbox protocol. */
module Actors {
  import opened Options
  import opened ActorMachine

  /** What a caller sees of a call: RuntimeError at once; accepted; refused, the returned future already holding the
      error (`tell` raises instead); or still blocked on a full mailbox. */
  datatype Asked = ActorStopped | AskAccepted | AskRefused | AskBlocks

  /** What one look into the mailbox finds. */
  datatype Got = Item(x: Option<Msg>) | Nothing | Closed

  /** `Waiting`: the schedule of the others has ended while the worker is blocked in `recv`. */
  datatype LoopEnd = Done(how: End) | Waiting

  /** The steps of a run that are not the worker's. */
  function OthersOf(ls: seq<Label>): seq<Label> {
    if ls == [] then []
    else
      var n := |ls| - 1;
      OthersOf(ls[..n]) + (if ls[n].Work? then [] else [ls[n]])
  }

  predicate NoWork(sched: seq<Label>) {
    forall i :: 0 <= i < |sched| ==> !sched[i].Work?
  }

  lemma {:induction false} OthersOfAppend(p: seq<Label>, q: seq<Label>)
    ensures OthersOf(p + q) == OthersOf(p) + OthersOf(q)
  {
    if q == [] {
      assert p + q == p;
    } else {
      assert (p + q)[..|p + q| - 1] == p + q[..|q| - 1];
      OthersOfAppend(p, q[..|q| - 1]);
    }
  }

  /** The run `ls` leads from `s` to `s'`; the others took steps `i` up to `j` of their schedule in it. */
  ghost predicate Leads(s: State, s': State, ls: seq<Label>, sched: seq<Label>, i: nat, j: nat) {
    i <= j <= |sched| && s' == RunFrom(s, ls) && OthersOf(ls) == sched[i..j]
  }

  lemma LeadsNowhere(s: State, sched: seq<Label>, i: nat)
    requires i <= |sched|
    ensures Leads(s, s, [], sched, i, i)
  {
  }

  lemma LeadsOn(s: State, s1: State, s2: State, p: seq<Label>, q: seq<Label>, sched: seq<Label>, i: nat, j: nat, k: nat)
    requires Leads(s, s1, p, sched, i, j) && Leads(s1, s2, q, sched, j, k)
    ensures Leads(s, s2, p + q, sched, i, k)
  {
    assert s2 == RunFrom(s, p + q) by { RunFromAppend(s, p, q); }
    assert OthersOf(p + q) == sched[i..k] by {
      OthersOfAppend(p, q);
      assert sched[i..j] + sched[j..k] == sched[i..k];
    }
  }

  lemma LeadsByWork(s: State, s1: State, p: seq<Label>, r: Ran, sched: seq<Label>, i: nat, j: nat)
    requires Leads(s, s1, p, sched, i, j)
    ensures Leads(s, Step(s1, Work(r)), p + [Work(r)], sched, i, j)
  {
    assert (p + [Work(r)])[..|p|] == p;
  }

  lemma LeadsByOther(s: State, s1: State, p: seq<Label>, sched: seq<Label>, i: nat, j: nat)
    requires Leads(s, s1, p, sched, i, j) && j < |sched| && NoWork(sched)
    ensures Leads(s, Step(s1, sched[j]), p + [sched[j]], sched, i, j + 1)
  {
    assert (p + [sched[j]])[..|p|] == p;
    assert sched[i..j + 1] == sched[i..j] + [sched[j]];
  }

  /** Callers and `close` never move the worker, except that a call starts it. */
  lemma OthersLeaveWorker(s: State, l: Label)
    requires !l.Work?
    ensures var s' := Step(s, l);
            && s'.startFailed == s.startFailed && s'.rans == s.rans && s'.trace == s.trace
            && s'.pc == if l.Call? && !s.stopped && s.pc.Unborn? then Opening else s.pc
  {
  }

  class Actor {
    var thread: bool          // _thread is not None
    var stopped: bool         // _stopped
    var box: Box              // _mailbox
    var callers: Callers      // the threads that use the actor
    var pc: Pc                // where the worker is
    var startFailed: bool
    var rans: seq<Ran>
    var trace: seq<Event>

    function State(): State
      reads this
    {
      ActorMachine.State(box, callers, stopped, pc, startFailed, rans, trace)
    }

    ghost predicate Valid()
      reads this
    {
      thread <==> !pc.Unborn?
    }

    constructor (capacity: Option<nat>)
      ensures Valid() && State() == Init(capacity)
    {
      thread, stopped, startFailed := false, false, false;
      box := Box(capacity, true, true, [], [], []);
      callers := Callers([], [], [], []);
      pc, rans, trace := Unborn, [], [];
    }

    /** One step of a caller or of `close`. */
    method Other(l: Label)
      requires Valid() && !l.Work?
      modifies this
      ensures Valid() && State() == Step(old(State()), l)
      ensures old(pc) != Unborn ==> pc == old(pc)
    {
      OthersLeaveWorker(State(), l);
      var s := Step(State(), l);
      box, callers, stopped, pc := s.box, s.callers, s.stopped, s.pc;
      thread := !pc.Unborn?;
    }

    /** `_ensure_thread_started`: however often and from wherever it is called, there is one worker. */
    method EnsureThreadStarted()
      requires thread <==> !pc.Unborn?
      modifies this`thread, this`pc
      ensures thread && pc == if old(pc).Unborn? then Opening else old(pc)
    {
      if thread { return; }
      thread := true;
      pc := Opening;
    }

    /** The path of an intercepted call or property (a message with a future) and of `tell` (one without). On a
        stopped actor nothing happens at all. Otherwise the worker is started and the message is sent: refused
        exactly when the mailbox's sender is gone, and then the caller settles the future; else accepted, or
        blocked with a clone of the sender in hand while the mailbox is full. */
    method Ask(m: Msg) returns (r: Asked, ghost ls: seq<Label>)
      requires Valid()
      modifies this
      ensures Valid() && State() == RunFrom(old(State()), ls) && NoWork(ls)
      ensures r.ActorStopped? <==> old(stopped)
      ensures old(stopped) ==> State() == old(State())
      ensures !old(stopped) ==> thread && callers.asked == old(callers.asked) + [Some(m)]
      ensures r.AskRefused? <==> !old(stopped) && !old(box.open)
      ensures callers.refused == old(callers.refused) + (if r.AskRefused? then [Some(m)] else [])
      ensures callers.settled == old(callers.settled) + (if r.AskRefused? then Settlement(Some(m)) else [])
      ensures box.items == old(box.items) + (if r.AskAccepted? then [Some(m)] else [])
      ensures box.accepted == old(box.accepted) + (if r.AskAccepted? then [Some(m)] else [])
      ensures box.flying == old(box.flying) + (if r.AskBlocks? then [Some(m)] else [])
      ensures !old(stopped) && old(box.open) && old(box.cap.None? || |box.items| < box.cap.value) ==> r.AskAccepted?
      ensures r.AskBlocks? ==> !HasRoom(State())
    {
      ls := [];
      if stopped { return ActorStopped, ls; }
      ghost var s0 := State();
      Other(Call(m));
      ls := [Call(m)];
      assert ls[..0] == [] && State() == RunFrom(s0, ls);
      var i := |callers.ready| - 1;
      LastOut(callers.ready[..i], Some(m));
      Other(Send(i));
      RunFromSnoc(s0, ls, Send(i));
      ls := ls + [Send(i)];
      if !box.open { return AskRefused, ls; }
      var k := |box.flying| - 1;
      if !HasRoom(State()) { return AskBlocks, ls; }
      LastOut(box.flying[..k], Some(m));
      Other(Land(k));
      RunFromSnoc(s0, ls, Land(k));
      ls := ls + [Land(k)];
      r := AskAccepted;
    }

    /** Any number of steps of the others. */
    method Others(sched: seq<Label>, i: nat) returns (j: nat, ghost ls: seq<Label>)
      requires Valid() && i <= |sched| && NoWork(sched)
      modifies this
      ensures Valid() && Leads(old(State()), State(), ls, sched, i, j)
      ensures i == j ==> State() == old(State())
      ensures old(pc) != Unborn ==> pc == old(pc)
    {
      j, ls := i, [];
      while j < |sched|
        invariant Valid() && Leads(old(State()), State(), ls, sched, i, j)
        invariant i == j ==> State() == old(State())
        invariant old(pc) != Unborn ==> pc == old(pc)
      {
        if * { return; }
        LeadsByOther(old(State()), State(), ls, sched, i, j);
        ls := ls + [sched[j]];
        Other(sched[j]);
        j := j + 1;
      }
    }

    /** `on_start()`, and `on_error` if it raises. */
    method CallOnStart() returns (ghost r: Ran)
      requires Valid() && pc.Opening?
      modifies this
      ensures Valid() && State() == Step(old(State()), Work(r))
    {
      var fails: bool := *;
      r := if fails then Raised(0, false) else Returned(0);
      startFailed := fails;
      trace := trace + ([OnStart] + (if fails then [OnStartError] else []));
      pc := Receiving;
    }

    /** `recv()` looks: an item, nothing yet, or closed: the signal gone or the last sender dropped. */
    method LookReceiving() returns (got: Got)
      requires Valid() && pc.Receiving?
      modifies this
      ensures Valid() && forall r :: State() == Step(old(State()), Work(r))
      ensures got.Item? ==> pc == if got.x.None? then Leaving(Sentinel) else Draining([got.x])
      ensures got.Closed? ==> pc == Leaving(AtClose)
      ensures got.Nothing? <==> Blocked(old(State()))
      ensures got.Nothing? ==> State() == old(State())
    {
      if box.items != [] {
        got := Item(box.items[0]);
        pc := if got.x.None? then Leaving(Sentinel) else Draining([got.x]);
        box := box.(items := box.items[1..]);
      } else if !box.signal || Disconnected(box) {
        got := Closed;
        pc := Leaving(AtClose);
      } else {
        got := Nothing;
      }
    }

    /** `recv()`: the others go on while there is nothing to take. */
    method Receive(sched: seq<Label>, i: nat) returns (got: Got, j: nat, ghost ls: seq<Label>)
      requires Valid() && pc.Receiving? && i <= |sched| && NoWork(sched)
      modifies this
      ensures Valid() && Leads(old(State()), State(), ls, sched, i, j)
      ensures got.Item? ==> pc == if got.x.None? then Leaving(Sentinel) else Draining([got.x])
      ensures got.Closed? ==> pc == Leaving(AtClose)
      ensures got.Nothing? ==> Blocked(State()) && j == |sched|
      ensures i == j ==> got.Nothing? || Left(State()) < Left(old(State()))
    {
      j, ls := Others(sched, i);
      while true
        invariant Valid() && pc.Receiving? && Leads(old(State()), State(), ls, sched, i, j)
        invariant i == j ==> State() == old(State())
        decreases |sched| - j
      {
        ghost var s := State();
        got := LookReceiving();
        if !got.Nothing? {
          LeadsByWork(old(State()), s, ls, Returned(0), sched, i, j);
          WorkShrinks(s, Returned(0));
          ls := ls + [Work(Returned(0))];
          return;
        }
        if j == |sched| { return; }
        LeadsByOther(old(State()), s, ls, sched, i, j);
        ls := ls + [sched[j]];
        Other(sched[j]);
        j := j + 1;
      }
    }

    /** `try_recv()` looks: closed only when the last sender, clones included, is gone. */
    method LookDraining(batch: Items) returns (got: Got)
      requires Valid() && pc == Draining(batch)
      modifies this
      ensures Valid() && forall r :: State() == Step(old(State()), Work(r))
      ensures got.Item? ==> pc == if got.x.None? then Executing(batch + [None]) else Draining(batch + [got.x])
      ensures got.Closed? ==> pc == Leaving(Dropped(batch))
      ensures got.Nothing? ==> pc == Executing(batch)
    {
      if box.items != [] {
        got := Item(box.items[0]);
        pc := if got.x.None? then Executing(batch + [got.x]) else Draining(batch + [got.x]);
        box := box.(items := box.items[1..]);
      } else if Disconnected(box) {
        got := Closed;
        pc := Leaving(Dropped(batch));
      } else {
        got := Nothing;
        pc := Executing(batch);
      }
    }

    /** The inner drain loop: `ok` is false when `try_recv` raised ValueError, and the batch is gone. */
    method Drain(first: Option<Msg>, sched: seq<Label>, i: nat)
        returns (batch: Items, ok: bool, j: nat, ghost ls: seq<Label>)
      requires Valid() && pc == Draining([first]) && i <= |sched| && NoWork(sched)
      modifies this
      ensures Valid() && Leads(old(State()), State(), ls, sched, i, j)
      ensures pc == if ok then Executing(batch) else Leaving(Dropped(batch))
      ensures i == j ==> Left(State()) < Left(old(State()))
    {
      batch, ok, j, ls := [first], true, i, [];
      LeadsNowhere(State(), sched, i);
      while true
        invariant Valid() && pc == Draining(batch) && Leads(old(State()), State(), ls, sched, i, j)
        invariant i == j ==> Left(State()) <= Left(old(State()))
        decreases |sched| - j, Left(State())
      {
        ghost var s0 := State();
        ghost var more;
        ghost var i0 := j;
        j, more := Others(sched, j);
        LeadsOn(old(State()), s0, State(), ls, more, sched, i, i0, j);
        ls := ls + more;
        ghost var s := State();
        var got := LookDraining(batch);
        LeadsByWork(old(State()), s, ls, Returned(0), sched, i, j);
        WorkShrinks(s, Returned(0));
        ls := ls + [Work(Returned(0))];
        match got
        case Closed => ok := false; return;
        case Nothing => return;
        case Item(x) =>
          batch := batch + [x];
          if x.None? { return; }
      }
    }

    /** One message: run it, let `on_error` see what it raises, settle its future. */
    method RunOne(m: Msg, ghost rest: Items) returns (ghost r: Ran)
      requires Valid() && pc == Executing([Some(m)] + rest)
      modifies this
      ensures Valid() && State() == Step(old(State()), Work(r)) && pc == Executing(rest)
      ensures r.Returned? ==>
        trace == old(trace) + [Executed(m.id)]
                 + (if m.fut.Some? then [Resolve(m.fut.value, Result(r.v))] else [])
      ensures r.Raised? && r.handled ==>
        trace == old(trace) + [Executed(m.id), OnError(m.id)]
                 + (if m.fut.Some? then [Resolve(m.fut.value, NoneResult)] else [])
      ensures r.Raised? && !r.handled ==>
        trace == old(trace) + [Executed(m.id), OnError(m.id)]
                 + (if m.fut.Some? then [Resolve(m.fut.value, Exception(r.e))] else [])
    {
      var ran: Ran := *;
      r := ran;
      assert ([Some(m)] + rest)[0] == Some(m) && ([Some(m)] + rest)[1..] == rest;
      match ran {
        case Returned(v) =>
          trace := trace + ([Executed(m.id)] + (if m.fut.Some? then [Resolve(m.fut.value, Result(v))] else []));
        case Raised(e, handled) =>
          var settled := if handled then NoneResult else Exception(e);
          var answer := if m.fut.Some? then [Resolve(m.fut.value, settled)] else [];
          trace := trace + ([Executed(m.id), OnError(m.id)] + answer);
      }
      rans := rans + [ran];
      pc := Executing(pc.batch[1..]);
    }

    /** `for item in batch`: run until a sentinel; the others keep sending meanwhile. */
    method RunBatch(batch: Items, sched: seq<Label>, i: nat) returns (exit: bool, j: nat, ghost ls: seq<Label>)
      requires Valid() && pc == Executing(batch) && i <= |sched| && NoWork(sched)
      modifies this
      ensures Valid() && Leads(old(State()), State(), ls, sched, i, j)
      ensures pc == if exit then Leaving(Sentinel) else Receiving
      ensures i == j ==> Left(State()) < Left(old(State()))
    {
      var items := batch;
      j, ls, exit := i, [], false;
      LeadsNowhere(State(), sched, i);
      while items != []
        invariant Valid() && pc == Executing(items) && Leads(old(State()), State(), ls, sched, i, j)
        invariant i == j ==> Left(State()) <= Left(old(State()))
        decreases |items|
      {
        ghost var s0 := State();
        ghost var more;
        ghost var i0 := j;
        j, more := Others(sched, j);
        LeadsOn(old(State()), s0, State(), ls, more, sched, i, i0, j);
        ls := ls + more;
        ghost var s := State();
        if items[0].None? {
          pc := Leaving(Sentinel);
          LeadsByWork(old(State()), s, ls, Returned(0), sched, i, j);
          ls := ls + [Work(Returned(0))];
          exit := true;
          return;
        }
        assert items == [Some(items[0].value)] + items[1..];
        ghost var r := RunOne(items[0].value, items[1..]);
        LeadsByWork(old(State()), s, ls, r, sched, i, j);
        WorkShrinks(s, r);
        ls := ls + [Work(r)];
        items := items[1..];
      }
      LeadsByWork(old(State()), State(), ls, Returned(0), sched, i, j);
      ls := ls + [Work(Returned(0))];
      pc := Receiving;
    }

    /** One turn of `while True`: receive, drain, run the batch. */
    method Turn(sched: seq<Label>, i: nat) returns (go: bool, waiting: bool, j: nat, ghost ls: seq<Label>)
      requires Valid() && pc.Receiving? && i <= |sched| && NoWork(sched)
      modifies this
      ensures Valid() && Leads(old(State()), State(), ls, sched, i, j)
      ensures go ==> pc.Receiving? && (i == j ==> Left(State()) < Left(old(State())))
      ensures !go && waiting ==> Blocked(State()) && j == |sched|
      ensures !go && !waiting ==> pc.Leaving?
    {
      go, waiting := false, false;
      var got;
      got, j, ls := Receive(sched, i);
      match got
      case Nothing => waiting := true; return;
      case Closed => return;
      case Item(x) =>
        if x.None? { return; }
        ghost var more;
        ghost var s1, j1 := State(), j;
        var batch, ok;
        batch, ok, j, more := Drain(x, sched, j);
        LeadsOn(old(State()), s1, State(), ls, more, sched, i, j1, j);
        ls := ls + more;
        if !ok { return; }
        ghost var s2, j2 := State(), j;
        var exit;
        exit, j, more := RunBatch(batch, sched, j);
        LeadsOn(old(State()), s2, State(), ls, more, sched, i, j2, j);
        ls := ls + more;
        go := !exit;
    }

    /** `_run_loop`, while the others take their steps as scheduled: a run of the protocol, in which the worker ends
        blocked at the end of the schedule or exits after `on_stop`. What every run keeps it keeps: the executed
        messages are a prefix of the accepted ones, in order and each once, whatever the batches were. */
    method RunLoop(sched: seq<Label>) returns (end: LoopEnd, j: nat, ghost ls: seq<Label>)
      requires Valid() && pc.Opening? && NoWork(sched)
      modifies this
      ensures Valid() && Leads(old(State()), State(), ls, sched, 0, j)
      ensures Inv(old(State())) ==> Inv(State())
      ensures end.Waiting? ==> Blocked(State()) && j == |sched|
      ensures end.Done? ==> pc == Exited(end.how)
    {
      ghost var s := State();
      ghost var r := CallOnStart();
      LeadsNowhere(s, sched, 0);
      LeadsByWork(s, s, [], r, sched, 0, 0);
      j, ls := 0, [] + [Work(r)];
      var go, waiting := true, false;
      while go
        invariant Valid() && Leads(old(State()), State(), ls, sched, 0, j)
        invariant go ==> pc.Receiving?
        invariant !go && waiting ==> Blocked(State()) && j == |sched|
        invariant !go && !waiting ==> pc.Leaving?
        decreases go, |sched| - j, Left(State())
      {
        ghost var more;
        ghost var s1, j1 := State(), j;
        go, waiting, j, more := Turn(sched, j);
        LeadsOn(old(State()), s1, State(), ls, more, sched, 0, j1, j);
        ls := ls + more;
      }
      if waiting {
        KeepsInv(old(State()), State(), ls);
        return Waiting, j, ls;
      }
      LeadsByWork(old(State()), State(), ls, Returned(0), sched, 0, j);
      ls := ls + [Work(Returned(0))];
      end := Done(pc.how);
      trace := trace + [OnStop];
      pc := Exited(pc.how);
      KeepsInv(old(State()), State(), ls);
    }

    /** The life of the worker after a run `past` of the callers that started it, with `stop()` called without a
        timeout by other threads at any point of the schedule: `stop` joins the worker, and only then closes the
        mailbox. When it returns every message accepted before the first sentinel has run, in order and each once,
        between `on_start` and `on_stop`. */
    method StopAndJoin(sched: seq<Label>, ghost cap: Option<nat>, ghost past: seq<Label>)
        returns (joined: bool, ghost ls: seq<Label>, ghost n: nat)
      requires Valid() && pc.Opening? && NoWork(sched) && State() == Run(cap, past)
      requires ClosedAfterExit(cap, past) && NoClose(sched)
      modifies this
      ensures Valid() && State() == Run(cap, past + ls) && ClosedAfterExit(cap, past + ls) && !Lost(State())
      ensures !joined ==> None !in box.accepted
      ensures joined ==>
        && stopped && !box.open && !box.signal
        && n < |box.accepted| && MessagesUpTo(box.accepted, n) && box.accepted[n].None? && |rans| == n
        && trace == OpeningEvents(startFailed) + ExecAll(box.accepted[..n], rans) + [OnStop]
    {
      n := 0;
      ghost var s1 := State();
      var end, j;
      end, j, ls := RunLoop(sched);
      OpenRun(cap, past, ls, sched, j);
      joined := end.Done?;
      if !joined {
        BlockedSeesNoSentinel(cap, past + ls);
        return;
      }
      Other(CloseSender);
      Other(CloseSignal);
      CloseRun(cap, past + ls);
      assert past + ls + [CloseSender, CloseSignal] == past + (ls + [CloseSender, CloseSignal]);
      ls := ls + [CloseSender, CloseSignal];
      n := StopIsComplete(cap, past + ls);
      SentinelMeansStopped(cap, past + ls);
    }
  }

  /** The life of the worker up to the end of the join: an orderly run that loses nothing. */
  lemma OpenRun(cap: Option<nat>, past: seq<Label>, more: seq<Label>, sched: seq<Label>, j: nat)
    requires ClosedAfterExit(cap, past)
    requires j <= |sched| && NoClose(sched) && OthersOf(more) == sched[0..j]
    ensures var all := past + more;
            && Run(cap, all) == RunFrom(Run(cap, past), more)
            && ClosedAfterExit(cap, all) && !Lost(Run(cap, all))
  {
    assert sched[0..j] == sched[..j];
    RunFromAppend(Init(cap), past, more);
    StopsAreOpen(more, sched, j);
    ClosedLater(cap, past, more);
    OrderlyStopLosesNothing(cap, past + more);
  }

  lemma BlockedSeesNoSentinel(cap: Option<nat>, ls: seq<Label>)
    requires Blocked(Run(cap, ls))
    ensures None !in Run(cap, ls).box.accepted
  {
    RunOk(cap, ls);
    if None in Run(cap, ls).box.accepted { SentinelUnblocks(Run(cap, ls)); }
  }

  /** The close after the join keeps the run orderly. */
  lemma CloseRun(cap: Option<nat>, ls: seq<Label>)
    requires ClosedAfterExit(cap, ls) && Run(cap, ls).pc.Exited?
    ensures var all := ls + [CloseSender, CloseSignal]; var s := Run(cap, ls);
            && Run(cap, all) == Step(Step(s, CloseSender), CloseSignal)
            && ClosedAfterExit(cap, all) && !Lost(Run(cap, all))
  {
    RunPrefix(cap, ls, CloseSender);
    RunPrefix(cap, ls + [CloseSender], CloseSignal);
    assert ls + [CloseSender] + [CloseSignal] == ls + [CloseSender, CloseSignal];
    ClosedLater(cap, ls, [CloseSender, CloseSignal]);
    OrderlyStopLosesNothing(cap, ls + [CloseSender, CloseSignal]);
  }

  lemma KeepsInv(s: State, s': State, ls: seq<Label>)
    requires s' == RunFrom(s, ls)
    ensures Inv(s) ==> Inv(s')
  {
    if Inv(s) { RunFromOk(s, ls); }
  }

  lemma LastOut(items: Items, x: Option<Msg>)
    ensures Without(items + [x], |items|) == items
  {
  }

  lemma RunFromSnoc(s: State, ls: seq<Label>, l: Label)
    ensures RunFrom(s, ls + [l]) == Step(RunFrom(s, ls), l)
  {
    assert (ls + [l])[..|ls|] == ls;
  }

  predicate NoClose(ls: seq<Label>) {
    forall i :: 0 <= i < |ls| ==> !ls[i].CloseSender?
  }

  /** A run closes the mailbox only where the others' schedule does. */
  lemma StopsAreOpen(ls: seq<Label>, sched: seq<Label>, j: nat)
    requires NoClose(sched) && j <= |sched| && OthersOf(ls) == sched[..j]
    ensures NoClose(ls)
  {
    forall i | 0 <= i < |ls| ensures !ls[i].CloseSender? {
      if !ls[i].Work? {
        var k := OtherAt(ls, i);
        assert sched[..j][k] == sched[k];
      }
    }
  }

  lemma {:induction false} OtherAt(ls: seq<Label>, i: nat) returns (k: nat)
    requires i < |ls| && !ls[i].Work?
    ensures k < |OthersOf(ls)| && OthersOf(ls)[k] == ls[i]
  {
    var n := |ls| - 1;
    if i == n { k := |OthersOf(ls[..n])|; } else { k := OtherAt(ls[..n], i); }
  }

  /** Closing is orderly as long as it waits for the worker's exit. */
  lemma ClosedLater(cap: Option<nat>, p: seq<Label>, q: seq<Label>)
    requires ClosedAfterExit(cap, p) && (NoClose(q) || Run(cap, p).pc.Exited?)
    ensures ClosedAfterExit(cap, p + q)
  {
    var all := p + q;
    forall i | 0 <= i < |all| && all[i].CloseSender? ensures Run(cap, all[..i]).pc.Exited? {
      if i < |p| {
        assert all[..i] == p[..i] && all[i] == p[i];
      } else {
        assert all[..i] == p + q[..i - |p|] && all[i] == q[i - |p|];
        RunFromAppend(Init(cap), p, q[..i - |p|]);
        ExitStays(Run(cap, p), q[..i - |p|]);
      }
    }
  }
}

/** Construction of an actor: which `__init__` of a class chain opens the guard on public attributes. */
module ActorInits {
  /** One call of a wrapped `__init__`: the wrapped calls its body makes, in order, and whether the body
      returns without an exception (having caught those it survives). */
  datatype Init = Init(inner: seq<Init>, ok: bool)

  class Guard {
    var depth: int            // _init_depth
    var initialized: bool     // _initialized

    constructor ()
      ensures depth == 0 && !initialized
    {
      depth, initialized := 0, false;
    }

    /** `wrapped`: `_initialized` is set exactly by an outermost call whose body succeeded; the depth comes back
        to what it was whether or not anything raised. */
    method Wrapped(init: Init)
      requires depth >= 0
      modifies this
      ensures depth == old(depth)
      ensures initialized == (old(initialized) || (init.ok && old(depth) == 0))
      decreases init, 1
    {
      depth := depth + 1;
      Body(init);
      depth := depth - 1;
      if init.ok && depth <= 0 { initialized := true; }
    }

    /** The body's own wrapped calls, such as `super().__init__()`, leave the guard closed. */
    method Body(init: Init)
      requires depth > 0
      modifies this
      ensures depth == old(depth) && initialized == old(initialized)
      decreases init, 0
    {
      for i := 0 to |init.inner|
        invariant depth == old(depth) && initialized == old(initialized)
      {
        Wrapped(init.inner[i]);
      }
    }
  }
}
