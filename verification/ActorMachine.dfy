/**
 The actor's mailbox protocol as a step machine: one worker, any number of callers, and closing. The mailbox
 is a channel: `open` is its own sender, `signal` its close signal, and a send in flight holds a clone of
 the sender, so `recv` gives up on the signal while `try_recv` waits for the last clone.
 */
module ActorMachine {
  import opened Options

  type Fut = nat

  /** A message of a call; `fut` is None for `tell`. The mailbox holds Option<Msg>: None is the sentinel. */
  datatype Msg = Msg(id: nat, fut: Option<Fut>)

  /** What running a message does: it returns, or raises and `on_error` says whether it handled that. */
  datatype Ran = Returned(v: nat) | Raised(e: nat, handled: bool)

  datatype Resolution = Result(v: nat) | NoneResult | Exception(e: nat) | StoppedError

  datatype Event =
    | OnStart
    | OnStartError
    | Executed(id: nat)
    | OnError(id: nat)
    | Resolve(fut: Fut, with: Resolution)
    | OnStop

  type Items = seq<Option<Msg>>

  /** `flying`: sends that have cloned the sender and are not accepted yet; `accepted`: all that ever were. */
  datatype Box = Box(cap: Option<nat>, open: bool, signal: bool, items: Items, flying: Items, accepted: Items)

  /** `asked`: every send ever begun; `ready`: callers past the `_stopped` check that have not called `send` yet;
      `refused`: sends that failed; `settled`: the futures their callers settled themselves. */
  datatype Callers = Callers(asked: Items, ready: Items, refused: Items, settled: seq<Event>)

  /** How the worker leaves its loop: at a sentinel; because `recv` found the mailbox closed and empty; or
      because `try_recv` did, with a drained batch in hand. */
  datatype End = Sentinel | AtClose | Dropped(batch: Items)

  datatype Pc =
    | Unborn                      // no thread yet
    | Opening                     // before on_start
    | Receiving                   // before recv()
    | Draining(batch: Items)      // before try_recv()
    | Executing(batch: Items)     // what is left of the batch
    | Leaving(how: End)           // before on_stop
    | Exited(how: End)

  /** `rans` are the outcomes of the messages executed so far, `trace` everything the worker did. */
  datatype State = State(box: Box, callers: Callers, stopped: bool,
                         pc: Pc, startFailed: bool, rans: seq<Ran>, trace: seq<Event>)

  datatype Label =
    | Call(m: Msg)          // an intercepted call or `tell`: the `_stopped` check and the worker's start
    | Stop                  // stop(): sets `_stopped` and, if there is a worker, goes on to send the sentinel
    | Send(i: nat)          // caller i enters send()
    | Land(i: nat)          // send i is accepted
    | Bounce(i: nat)        // send i takes the close arm, or the sentinel's send times out
    | CloseSender           // close(), first step
    | CloseSignal           // close(), second step
    | Work(ran: Ran)        // the worker's next step; `ran` is what the hook or the message does

  function Without<T>(s: seq<T>, i: nat): seq<T>
    requires i < |s|
  {
    s[..i] + s[i + 1..]
  }

  /** Room for one more; a rendezvous mailbox takes an item only from a worker that is asking for one. */
  predicate HasRoom(s: State) {
    || s.box.cap.None? || |s.box.items| < s.box.cap.value
    || (s.box.cap.value == 0 && s.box.items == [] && (s.pc.Receiving? || s.pc.Draining?))
  }

  predicate Disconnected(b: Box) {
    !b.open && b.flying == []
  }

  predicate CanLand(s: State, i: nat) {
    i < |s.box.flying| && HasRoom(s)
  }

  /** The caller whose send failed settles the future itself; `tell` and `stop` have none. */
  function Settlement(x: Option<Msg>): seq<Event> {
    if x.Some? && x.value.fut.Some? then [Resolve(x.value.fut.value, StoppedError)] else []
  }

  function Refuse(c: Callers, x: Option<Msg>): Callers {
    c.(refused := c.refused + [x], settled := c.settled + Settlement(x))
  }

  /** The events of executing one message. */
  function Exec(m: Msg, r: Ran): seq<Event> {
    match r
    case Returned(v) => [Executed(m.id)] + (if m.fut.Some? then [Resolve(m.fut.value, Result(v))] else [])
    case Raised(e, handled) =>
      [Executed(m.id), OnError(m.id)]
      + (if m.fut.Some? then [Resolve(m.fut.value, if handled then NoneResult else Exception(e))] else [])
  }

  /** `on_start`, and `on_error` if it raised. */
  function OpeningEvents(failed: bool): seq<Event> {
    [OnStart] + (if failed then [OnStartError] else [])
  }

  function TakeItem(s: State, pc: Pc): State
    requires s.box.items != []
  {
    s.(box := s.box.(items := s.box.items[1..]), pc := pc)
  }

  function Received(s: State): State {
    if s.box.items != [] then
      TakeItem(s, if s.box.items[0].None? then Leaving(Sentinel) else Draining([s.box.items[0]]))
    else if !s.box.signal || Disconnected(s.box) then s.(pc := Leaving(AtClose))
    else s
  }

  function Drained(s: State, batch: Items): State {
    if s.box.items != [] then
      var longer := batch + [s.box.items[0]];
      TakeItem(s, if s.box.items[0].None? then Executing(longer) else Draining(longer))
    else if Disconnected(s.box) then s.(pc := Leaving(Dropped(batch)))
    else s.(pc := Executing(batch))
  }

  function Processed(s: State, batch: Items, r: Ran): State {
    if batch == [] then s.(pc := Receiving)
    else if batch[0].None? then s.(pc := Leaving(Sentinel))
    else s.(pc := Executing(batch[1..]), rans := s.rans + [r], trace := s.trace + Exec(batch[0].value, r))
  }

  function Worked(s: State, r: Ran): State {
    match s.pc
    case Unborn => s
    case Opening => s.(pc := Receiving, startFailed := r.Raised?, trace := s.trace + OpeningEvents(r.Raised?))
    case Receiving => Received(s)
    case Draining(batch) => Drained(s, batch)
    case Executing(batch) => Processed(s, batch, r)
    case Leaving(how) => s.(pc := Exited(how), trace := s.trace + [OnStop])
    case Exited(_) => s
  }

  function Begin(s: State, x: Option<Msg>): State {
    s.(callers := s.callers.(asked := s.callers.asked + [x], ready := s.callers.ready + [x]))
  }

  /** One step; a label that is not enabled changes nothing. */
  function Step(s: State, l: Label): State {
    match l
    case Call(m) => if s.stopped then s else Begin(s, Some(m)).(pc := if s.pc.Unborn? then Opening else s.pc)
    case Stop => var s' := s.(stopped := true); if s.pc.Unborn? then s' else Begin(s', None)
    case Send(i) =>
      if i >= |s.callers.ready| then s
      else
        var x, c := s.callers.ready[i], s.callers.(ready := Without(s.callers.ready, i));
        if s.box.open then s.(callers := c, box := s.box.(flying := s.box.flying + [x]))
        else s.(callers := Refuse(c, x))
    case Land(i) =>
      if !CanLand(s, i) then s
      else
        var b, x := s.box, s.box.flying[i];
        s.(box := b.(flying := Without(b.flying, i), items := b.items + [x], accepted := b.accepted + [x]))
    case Bounce(i) =>
      if i >= |s.box.flying| || (s.box.signal && s.box.flying[i].Some?) then s
      else
        s.(box := s.box.(flying := Without(s.box.flying, i)), callers := Refuse(s.callers, s.box.flying[i]))
    case CloseSender => s.(box := s.box.(open := false))
    case CloseSignal => if s.box.open then s else s.(box := s.box.(signal := false))
    case Work(r) => Worked(s, r)
  }

  function Init(cap: Option<nat>): State {
    State(Box(cap, true, true, [], [], []), Callers([], [], [], []), false, Unborn, false, [], [])
  }

  function RunFrom(s: State, ls: seq<Label>): State {
    if ls == [] then s else Step(RunFrom(s, ls[..|ls| - 1]), ls[|ls| - 1])
  }

  function Run(cap: Option<nat>, ls: seq<Label>): State {
    RunFrom(Init(cap), ls)
  }

  lemma {:induction false} RunFromAppend(s: State, p: seq<Label>, q: seq<Label>)
    ensures RunFrom(s, p + q) == RunFrom(RunFrom(s, p), q)
  {
    if q == [] {
      assert p + q == p;
    } else {
      assert (p + q)[..|p + q| - 1] == p + q[..|q| - 1];
      RunFromAppend(s, p, q[..|q| - 1]);
    }
  }

  // ------------------------------------------------------------------ the invariant

  predicate AllMessages(items: Items) {
    forall i :: 0 <= i < |items| ==> items[i].Some?
  }

  /** The first `n` items are messages: no sentinel among them. */
  predicate MessagesUpTo(items: Items, n: nat) {
    n <= |items| && forall i :: 0 <= i < n ==> items[i].Some?
  }

  /** The sentinel, if a batch has one, is its last item. */
  predicate OnlyLastMayStop(batch: Items) {
    forall i :: 0 <= i < |batch| - 1 ==> batch[i].Some?
  }

  /** What the worker has taken out of the mailbox and not executed. */
  function InHand(pc: Pc): Items {
    match pc
    case Draining(batch) => batch
    case Executing(batch) => batch
    case Leaving(how) => Held(how)
    case Exited(how) => Held(how)
    case _ => []
  }

  function Held(how: End): Items {
    match how case Sentinel => [None] case AtClose => [] case Dropped(batch) => batch
  }

  /** Executed messages, then what is in hand, then the mailbox: together all that was accepted, in order. */
  ghost predicate QueueOk(s: State) {
    var done := |s.rans|;
    && MessagesUpTo(s.box.accepted, done)
    && s.box.accepted[done..] == InHand(s.pc) + s.box.items
  }

  predicate PcOk(s: State) {
    match s.pc
    case Unborn => s.rans == []
    case Opening => s.rans == []
    case Receiving => true
    case Draining(batch) => batch != [] && AllMessages(batch)
    case Executing(batch) => OnlyLastMayStop(batch)
    case Leaving(how) => HowOk(s.box, how)
    case Exited(how) => HowOk(s.box, how)
  }

  predicate HowOk(b: Box, how: End) {
    match how
    case Sentinel => true
    case AtClose => !b.open
    case Dropped(batch) => !b.open && batch != [] && AllMessages(batch)
  }

  /** Receive one, process one: the events of processing messages in order. */
  function ExecAll(items: Items, rans: seq<Ran>): seq<Event>
    requires |items| == |rans|
  {
    if items == [] then []
    else
      var n := |items| - 1;
      ExecAll(items[..n], rans[..n]) + (if items[n].Some? then Exec(items[n].value, rans[n]) else [])
  }

  /** The worker's whole history: `on_start`, the executed messages one by one, `on_stop`. */
  ghost predicate TraceOk(s: State)
    requires |s.rans| <= |s.box.accepted|
  {
    s.trace == (if s.pc.Unborn? || s.pc.Opening? then [] else OpeningEvents(s.startFailed))
               + ExecAll(s.box.accepted[..|s.rans|], s.rans)
               + (if s.pc.Exited? then [OnStop] else [])
  }

  function Settlements(refused: Items): seq<Event> {
    if refused == [] then []
    else Settlements(refused[..|refused| - 1]) + Settlement(refused[|refused| - 1])
  }

  /** Every send begun is still with its caller, in flight, accepted, or refused: exactly one of these. */
  ghost predicate CallersOk(s: State) {
    && multiset(s.callers.asked) ==
       multiset(s.callers.ready) + multiset(s.box.flying) + multiset(s.box.accepted) + multiset(s.callers.refused)
    && s.callers.settled == Settlements(s.callers.refused)
    && (!s.box.signal ==> !s.box.open)
  }

  ghost predicate Inv(s: State) {
    QueueOk(s) && PcOk(s) && TraceOk(s) && CallersOk(s)
  }

  lemma ExecutesQueue(s: State, batch: Items, r: Ran)
    requires QueueOk(s) && s.pc == Executing(batch) && batch != [] && batch[0].Some?
    ensures |s.rans| < |s.box.accepted| && s.box.accepted[|s.rans|] == batch[0]
    ensures QueueOk(Processed(s, batch, r))
  {
    var acc, done := s.box.accepted, |s.rans|;
    assert acc[done] == acc[done..][0] == batch[0];
    assert acc[done + 1..] == acc[done..][1..] == batch[1..] + s.box.items;
  }

  lemma ExecAllSnoc(items: Items, rans: seq<Ran>, x: Option<Msg>, r: Ran)
    requires |items| == |rans|
    ensures ExecAll(items + [x], rans + [r]) == ExecAll(items, rans) + (if x.Some? then Exec(x.value, r) else [])
  {
    assert (items + [x])[..|items|] == items && (rans + [r])[..|rans|] == rans;
  }

  lemma ExecutesTrace(s: State, batch: Items, r: Ran)
    requires s.pc == Executing(batch) && batch != [] && batch[0].Some? && |s.rans| < |s.box.accepted|
    requires TraceOk(s) && s.box.accepted[|s.rans|] == batch[0]
    ensures TraceOk(Processed(s, batch, r))
  {
    var acc, done := s.box.accepted, |s.rans|;
    assert acc[..done + 1] == acc[..done] + [batch[0]];
    ExecAllSnoc(acc[..done], s.rans, batch[0], r);
    Regroup(OpeningEvents(s.startFailed), ExecAll(acc[..done], s.rans), Exec(batch[0].value, r));
  }

  lemma Regroup(p: seq<Event>, q: seq<Event>, r: seq<Event>)
    ensures (p + q + []) + r == p + (q + r) + []
  {
  }

  lemma TakesOne(s: State, pc: Pc)
    requires QueueOk(s) && s.box.items != [] && InHand(pc) == InHand(s.pc) + [s.box.items[0]]
    ensures QueueOk(TakeItem(s, pc))
  {
    assert InHand(s.pc) + s.box.items == InHand(pc) + s.box.items[1..];
  }

  /** Only the worker's place has changed, and it holds the same items there. */
  lemma MovesOnly(s: State, pc: Pc)
    requires QueueOk(s) && InHand(pc) == InHand(s.pc)
    ensures QueueOk(s.(pc := pc))
  {
  }

  lemma ReceiveQueue(s: State)
    requires QueueOk(s) && s.pc.Receiving?
    ensures QueueOk(Received(s))
  {
    if s.box.items != [] { TakesOne(s, Received(s).pc); } else { MovesOnly(s, Received(s).pc); }
  }

  lemma DrainQueue(s: State, batch: Items)
    requires QueueOk(s) && s.pc == Draining(batch)
    ensures QueueOk(Drained(s, batch))
  {
    if s.box.items != [] { TakesOne(s, Drained(s, batch).pc); } else { MovesOnly(s, Drained(s, batch).pc); }
  }

  lemma ExecuteQueue(s: State, batch: Items, r: Ran)
    requires QueueOk(s) && s.pc == Executing(batch) && OnlyLastMayStop(batch)
    ensures QueueOk(Processed(s, batch, r))
  {
    if batch != [] && batch[0].Some? {
      ExecutesQueue(s, batch, r);
    } else {
      assert batch != [] ==> batch == [None];
      MovesOnly(s, Processed(s, batch, r).pc);
    }
  }

  lemma WorkQueue(s: State, r: Ran)
    requires QueueOk(s) && PcOk(s)
    ensures QueueOk(Worked(s, r))
  {
    match s.pc
    case Receiving => ReceiveQueue(s);
    case Draining(batch) => DrainQueue(s, batch);
    case Executing(batch) => ExecuteQueue(s, batch, r);
    case _ => OtherQueue(s, r);
  }

  lemma OtherQueue(s: State, r: Ran)
    requires QueueOk(s) && (s.pc.Unborn? || s.pc.Opening? || s.pc.Leaving? || s.pc.Exited?)
    ensures QueueOk(Worked(s, r))
  {
  }

  lemma WorkTrace(s: State, r: Ran)
    requires QueueOk(s) && PcOk(s) && TraceOk(s)
    ensures |Worked(s, r).rans| <= |s.box.accepted| && TraceOk(Worked(s, r))
  {
    match s.pc
    case Unborn =>
    case Opening => OpeningTrace(s, r);
    case Receiving => QuietTrace(s, Received(s));
    case Draining(batch) => QuietTrace(s, Drained(s, batch));
    case Executing(batch) => ProcessTrace(s, batch, r);
    case Leaving(how) => ClosingTrace(s, how);
    case Exited(_) =>
  }

  lemma ProcessTrace(s: State, batch: Items, r: Ran)
    requires QueueOk(s) && TraceOk(s) && s.pc == Executing(batch)
    ensures |Processed(s, batch, r).rans| <= |s.box.accepted| && TraceOk(Processed(s, batch, r))
  {
    if batch != [] && batch[0].Some? {
      ExecutesQueue(s, batch, r);
      ExecutesTrace(s, batch, r);
    } else {
      QuietTrace(s, Processed(s, batch, r));
    }
  }

  predicate InLoop(pc: Pc) {
    !pc.Unborn? && !pc.Opening? && !pc.Exited?
  }

  lemma QuietTrace(s: State, s': State)
    requires |s.rans| <= |s.box.accepted| && TraceOk(s) && InLoop(s.pc) && InLoop(s'.pc)
    requires s'.trace == s.trace && s'.rans == s.rans && s'.startFailed == s.startFailed
    requires s'.box.accepted == s.box.accepted
    ensures TraceOk(s')
  {
  }

  lemma ClosingTrace(s: State, how: End)
    requires |s.rans| <= |s.box.accepted| && TraceOk(s) && s.pc == Leaving(how)
    ensures TraceOk(s.(pc := Exited(how), trace := s.trace + [OnStop]))
  {
  }

  lemma OpeningTrace(s: State, r: Ran)
    requires s.pc.Opening? && s.rans == [] && TraceOk(s)
    ensures TraceOk(Worked(s, r))
  {
    assert s.box.accepted[..0] == [] && ExecAll([], []) == [];
  }

  lemma WorkPc(s: State, r: Ran)
    requires PcOk(s) && (!s.box.signal ==> !s.box.open)
    ensures PcOk(Worked(s, r))
  {
  }

  /** The worker touches nothing that callers and close look at. */
  lemma WorkCallers(s: State, r: Ran)
    requires CallersOk(s)
    ensures CallersOk(Worked(s, r))
  {
    var s' := Worked(s, r);
    assert s'.callers == s.callers && s'.box == s.box.(items := s'.box.items);
  }

  lemma WorkOk(s: State, r: Ran)
    requires Inv(s)
    ensures Inv(Worked(s, r))
  {
    WorkQueue(s, r);
    WorkTrace(s, r);
    WorkPc(s, r);
    WorkCallers(s, r);
  }

  lemma WithoutOne<T>(s: seq<T>, i: nat)
    requires i < |s|
    ensures multiset(s) == multiset(Without(s, i)) + multiset{s[i]}
  {
    assert s == s[..i] + [s[i]] + s[i + 1..];
  }

  lemma RefusedOne(c: Callers, x: Option<Msg>)
    requires c.settled == Settlements(c.refused)
    ensures Refuse(c, x).settled == Settlements(Refuse(c, x).refused)
  {
    assert (c.refused + [x])[..|c.refused|] == c.refused;
  }

  lemma LandQueue(s: State, i: nat)
    requires QueueOk(s) && PcOk(s) && TraceOk(s) && CanLand(s, i)
    ensures var s' := Step(s, Land(i)); QueueOk(s') && PcOk(s') && TraceOk(s')
  {
    var acc, x, done := s.box.accepted, s.box.flying[i], |s.rans|;
    assert (acc + [x])[..done] == acc[..done];
    assert (acc + [x])[done..] == acc[done..] + [x];
  }

  lemma LandCallers(s: State, i: nat)
    requires CallersOk(s) && CanLand(s, i)
    ensures CallersOk(Step(s, Land(i)))
  {
    WithoutOne(s.box.flying, i);
  }

  lemma LandOk(s: State, i: nat)
    requires Inv(s) && CanLand(s, i)
    ensures Inv(Step(s, Land(i)))
  {
    LandQueue(s, i);
    LandCallers(s, i);
  }

  /** Callers and `close` leave the worker, the mailbox and its history alone. */
  lemma CallerStepQueue(s: State, l: Label)
    requires QueueOk(s) && PcOk(s) && TraceOk(s) && !l.Work? && !l.Land?
    ensures var s' := Step(s, l); QueueOk(s') && PcOk(s') && TraceOk(s')
  {
    var s' := Step(s, l);
    assert s'.rans == s.rans && s'.trace == s.trace && s'.box.accepted == s.box.accepted && s'.box.items == s.box.items;
    assert s'.pc == s.pc || (s.pc == Unborn && s'.pc == Opening);
  }

  lemma SendCallers(s: State, i: nat)
    requires CallersOk(s)
    ensures CallersOk(Step(s, Send(i)))
  {
    if i < |s.callers.ready| {
      WithoutOne(s.callers.ready, i);
      RefusedOne(s.callers, s.callers.ready[i]);
    }
  }

  lemma BounceCallers(s: State, i: nat)
    requires CallersOk(s)
    ensures CallersOk(Step(s, Bounce(i)))
  {
    if i < |s.box.flying| {
      WithoutOne(s.box.flying, i);
      RefusedOne(s.callers, s.box.flying[i]);
    }
  }

  lemma OtherCallers(s: State, l: Label)
    requires CallersOk(s) && (l.Call? || l.Stop? || l.CloseSender? || l.CloseSignal?)
    ensures CallersOk(Step(s, l))
  {
  }

  lemma CallerStepOk(s: State, l: Label)
    requires Inv(s) && !l.Work? && !l.Land?
    ensures Inv(Step(s, l))
  {
    CallerStepQueue(s, l);
    match l
    case Send(i) => SendCallers(s, i);
    case Bounce(i) => BounceCallers(s, i);
    case _ => OtherCallers(s, l);
  }

  lemma StepOk(s: State, l: Label)
    requires Inv(s)
    ensures Inv(Step(s, l))
  {
    match l
    case Work(r) => WorkOk(s, r);
    case Land(i) => if CanLand(s, i) { LandOk(s, i); }
    case _ => CallerStepOk(s, l);
  }

  /** In every run the worker's history is `on_start`, then a prefix of the accepted messages in order and each
      once, then `on_stop`; what it has not executed is in hand or in the mailbox; and no send is lost track of. */
  lemma RunOk(cap: Option<nat>, ls: seq<Label>)
    ensures Inv(Run(cap, ls))
  {
    assert ExecAll([], []) == [];
    RunFromOk(Init(cap), ls);
  }

  lemma {:induction false} RunFromOk(s: State, ls: seq<Label>)
    requires Inv(s)
    ensures Inv(RunFrom(s, ls))
  {
    if ls != [] {
      RunFromOk(s, ls[..|ls| - 1]);
      StepOk(RunFrom(s, ls[..|ls| - 1]), ls[|ls| - 1]);
    }
  }

  // ------------------------------------------------------------------ messages that never run

  predicate Ended(pc: Pc) {
    pc.Leaving? || pc.Exited?
  }

  /** Once the worker has left its loop nothing is executed any more, whatever is accepted. */
  lemma EndIsFinal(s: State, l: Label)
    requires Ended(s.pc)
    ensures var s' := Step(s, l);
            && Ended(s'.pc) && s'.pc.how == s.pc.how && s'.rans == s.rans && s.box.accepted <= s'.box.accepted
            && (s'.trace == s.trace || (s.pc.Leaving? && s'.trace == s.trace + [OnStop]))
  {
  }

  /** The worker has left, and a message that was accepted before any sentinel is not among those executed. */
  ghost predicate Lost(s: State) {
    Ended(s.pc) && exists k :: |s.rans| < k && MessagesUpTo(s.box.accepted, k)
  }

  /** The two ways to lose a message: `try_recv` finds the mailbox empty without a live sender while a batch is in
      hand; or a send still in flight is accepted after `recv` has given up on the closed mailbox. */
  predicate LosesAt(s: State, l: Label) {
    || (l.Work? && s.pc.Draining? && s.box.items == [] && Disconnected(s.box))
    || (l.Land? && CanLand(s, l.i) && s.box.flying[l.i].Some?
        && Ended(s.pc) && s.pc.how.AtClose? && MessagesUpTo(s.box.accepted, |s.box.accepted|))
  }

  lemma LostMeansNext(s: State)
    requires QueueOk(s)
    ensures Lost(s) <==> Ended(s.pc) && |s.rans| < |s.box.accepted| && s.box.accepted[|s.rans|].Some?
  {
    var acc, done := s.box.accepted, |s.rans|;
    if Ended(s.pc) && done < |acc| && acc[done].Some? {
      assert MessagesUpTo(acc, done + 1);
    }
  }

  /** The next accepted item after those executed is the first one in hand, or else the first in the mailbox. */
  lemma NextItem(s: State)
    requires QueueOk(s)
    ensures |s.rans| < |s.box.accepted| <==> InHand(s.pc) + s.box.items != []
    ensures |s.rans| < |s.box.accepted| ==> s.box.accepted[|s.rans|] == (InHand(s.pc) + s.box.items)[0]
  {
    var acc, done := s.box.accepted, |s.rans|;
    if done < |acc| { assert acc[done] == acc[done..][0]; }
  }

  /** Lost, in terms of what the worker left behind. */
  predicate LeftBehind(s: State) {
    Ended(s.pc) && (s.pc.how.Dropped? || (s.pc.how.AtClose? && s.box.items != [] && s.box.items[0].Some?))
  }

  lemma LostMeansLeft(s: State)
    requires QueueOk(s) && PcOk(s)
    ensures Lost(s) <==> LeftBehind(s)
  {
    LostMeansNext(s);
    NextItem(s);
  }

  lemma AfterClose(s: State)
    requires QueueOk(s) && Ended(s.pc) && s.pc.how.AtClose?
    ensures s.box.items == [] ==> MessagesUpTo(s.box.accepted, |s.box.accepted|)
    ensures MessagesUpTo(s.box.accepted, |s.box.accepted|) && s.box.items != [] ==> s.box.items[0].Some?
  {
    NextItem(s);
  }

  lemma LossWork(s: State, r: Ran)
    requires PcOk(s)
    ensures LeftBehind(Worked(s, r)) <==> LeftBehind(s) || LosesAt(s, Work(r))
  {
  }

  lemma LossLand(s: State, i: nat)
    requires QueueOk(s) && PcOk(s)
    ensures LeftBehind(Step(s, Land(i))) <==> LeftBehind(s) || LosesAt(s, Land(i))
  {
    if CanLand(s, i) && Ended(s.pc) && s.pc.how.AtClose? { AfterClose(s); }
  }

  lemma LossElsewhere(s: State, l: Label)
    requires !l.Work? && !l.Land?
    ensures LeftBehind(Step(s, l)) <==> LeftBehind(s)
  {
  }

  lemma LossStep(s: State, l: Label)
    requires Inv(s)
    ensures Lost(Step(s, l)) <==> Lost(s) || LosesAt(s, l)
  {
    StepOk(s, l);
    LostMeansLeft(s);
    LostMeansLeft(Step(s, l));
    match l
    case Work(r) => LossWork(s, r);
    case Land(i) => LossLand(s, i);
    case _ => LossElsewhere(s, l);
  }

  lemma RunPrefix(cap: Option<nat>, ls: seq<Label>, l: Label)
    ensures Run(cap, ls + [l]) == Step(Run(cap, ls), l)
  {
    assert (ls + [l])[..|ls|] == ls;
  }

  /** Some step of the run is a losing one. */
  ghost predicate TakesLosingStep(cap: Option<nat>, ls: seq<Label>) {
    exists i :: 0 <= i < |ls| && LosesAt(Run(cap, ls[..i]), ls[i])
  }

  lemma LosingStepSplit(cap: Option<nat>, ls: seq<Label>, l: Label)
    ensures TakesLosingStep(cap, ls + [l]) <==> TakesLosingStep(cap, ls) || LosesAt(Run(cap, ls), l)
  {
    var all := ls + [l];
    assert all[..|ls|] == ls && all[|ls|] == l;
    assert forall i :: 0 <= i < |ls| ==> all[..i] == ls[..i] && all[i] == ls[i];
  }

  /** A message accepted before the first sentinel is lost if and only if one of the two losing steps is taken. */
  lemma {:induction false} LostExactly(cap: Option<nat>, ls: seq<Label>)
    ensures Lost(Run(cap, ls)) <==> TakesLosingStep(cap, ls)
  {
    if ls == [] {
      LostMeansNext(Run(cap, ls));
    } else {
      var p, l := ls[..|ls| - 1], ls[|ls| - 1];
      assert p + [l] == ls;
      LostExactly(cap, p);
      RunOk(cap, p);
      LossStep(Run(cap, p), l);
      LosingStepSplit(cap, p, l);
    }
  }

  /** No stop closes the mailbox before the worker has exited: what `stop()` without a timeout, called by another
      thread, does, since it joins first. In particular the mailbox may never be closed at all. */
  ghost predicate ClosedAfterExit(cap: Option<nat>, ls: seq<Label>) {
    forall i :: 0 <= i < |ls| && ls[i].CloseSender? ==> Run(cap, ls[..i]).pc.Exited?
  }

  lemma {:induction false} OpenUntilExit(cap: Option<nat>, ls: seq<Label>)
    requires ClosedAfterExit(cap, ls)
    ensures var s := Run(cap, ls);
            && (!s.pc.Exited? ==> s.box.open)
            && (Ended(s.pc) ==> s.pc.how.Sentinel?)
  {
    if ls != [] {
      var p, l := ls[..|ls| - 1], ls[|ls| - 1];
      ClosedAfterExitSplit(cap, ls);
      OpenUntilExit(cap, p);
      RunOk(cap, p);
      StaysOpen(Run(cap, p), l);
    }
  }

  lemma ClosedAfterExitSplit(cap: Option<nat>, ls: seq<Label>)
    requires ls != [] && ClosedAfterExit(cap, ls)
    ensures var p, l := ls[..|ls| - 1], ls[|ls| - 1];
            ClosedAfterExit(cap, p) && (l.CloseSender? ==> Run(cap, p).pc.Exited?)
  {
    var p := ls[..|ls| - 1];
    assert forall i :: 0 <= i < |p| ==> p[..i] == ls[..i] && p[i] == ls[i];
  }

  lemma StaysOpen(s: State, l: Label)
    requires CallersOk(s) && (!s.pc.Exited? ==> s.box.open) && (Ended(s.pc) ==> s.pc.how.Sentinel?)
    requires l.CloseSender? ==> s.pc.Exited?
    ensures var s' := Step(s, l);
            (!s'.pc.Exited? ==> s'.box.open) && (Ended(s'.pc) ==> s'.pc.how.Sentinel?)
  {
  }

  /** The condition callers can keep: if the mailbox is not closed before the worker has exited, no message
      accepted before the first sentinel is lost. */
  lemma OrderlyStopLosesNothing(cap: Option<nat>, ls: seq<Label>)
    requires ClosedAfterExit(cap, ls)
    ensures !Lost(Run(cap, ls))
  {
    OpenUntilExit(cap, ls);
    RunOk(cap, ls);
    LostMeansLeft(Run(cap, ls));
  }

  /** Stop is complete: when the worker of such a run has exited, so that `stop()` returns, it has run exactly the
      messages accepted before the first sentinel, in order and each once, after `on_start` and before `on_stop`. */
  lemma StopIsComplete(cap: Option<nat>, ls: seq<Label>) returns (n: nat)
    requires ClosedAfterExit(cap, ls) && Run(cap, ls).pc.Exited?
    ensures var s := Run(cap, ls); var acc := s.box.accepted;
            && n < |acc| && MessagesUpTo(acc, n) && acc[n].None? && |s.rans| == n
            && s.trace == OpeningEvents(s.startFailed) + ExecAll(acc[..n], s.rans) + [OnStop]
  {
    var s := Run(cap, ls);
    n := |s.rans|;
    OpenUntilExit(cap, ls);
    RunOk(cap, ls);
    NextItem(s);
  }

  /** Nothing accepted behind a sentinel is ever run. */
  lemma BehindSentinelNeverRuns(cap: Option<nat>, ls: seq<Label>, i: nat)
    requires i < |Run(cap, ls).box.accepted| && Run(cap, ls).box.accepted[i].None?
    ensures |Run(cap, ls).rans| <= i
  {
    RunOk(cap, ls);
  }

  lemma {:induction false} OnlyStopAsksForTheEnd(cap: Option<nat>, ls: seq<Label>)
    ensures None in Run(cap, ls).callers.asked ==> Run(cap, ls).stopped
  {
    if ls != [] { OnlyStopAsksForTheEnd(cap, ls[..|ls| - 1]); }
  }

  /** A sentinel is in the mailbox's history only once `stop` has been called: new calls are refused from then on. */
  lemma SentinelMeansStopped(cap: Option<nat>, ls: seq<Label>)
    requires None in Run(cap, ls).box.accepted
    ensures Run(cap, ls).stopped
  {
    var s := Run(cap, ls);
    RunOk(cap, ls);
    assert None in multiset(s.box.accepted) && None in multiset(s.callers.asked);
    OnlyStopAsksForTheEnd(cap, ls);
  }

  // ------------------------------------------------------------------ futures

  /** How often future `f` was resolved. */
  function Resolutions(trace: seq<Event>, f: Fut): nat {
    if trace == [] then 0
    else
      var e := trace[|trace| - 1];
      Resolutions(trace[..|trace| - 1], f) + (if e.Resolve? && e.fut == f then 1 else 0)
  }

  function Asks1(x: Option<Msg>, f: Fut): nat {
    if x.Some? && x.value.fut == Some(f) then 1 else 0
  }

  /** How many of the items carry future `f`. */
  function Asks(items: Items, f: Fut): nat {
    if items == [] then 0 else Asks(items[..|items| - 1], f) + Asks1(items[|items| - 1], f)
  }

  lemma {:induction false} ResolutionsAppend(p: seq<Event>, q: seq<Event>, f: Fut)
    ensures Resolutions(p + q, f) == Resolutions(p, f) + Resolutions(q, f)
  {
    if q == [] {
      assert p + q == p;
    } else {
      assert (p + q)[..|p + q| - 1] == p + q[..|q| - 1];
      ResolutionsAppend(p, q[..|q| - 1], f);
    }
  }

  lemma {:induction false} AsksAppend(p: Items, q: Items, f: Fut)
    ensures Asks(p + q, f) == Asks(p, f) + Asks(q, f)
  {
    if q == [] {
      assert p + q == p;
    } else {
      assert (p + q)[..|p + q| - 1] == p + q[..|q| - 1];
      AsksAppend(p, q[..|q| - 1], f);
    }
  }

  lemma AsksWithout(items: Items, i: nat, f: Fut)
    requires i < |items|
    ensures Asks(items, f) == Asks(Without(items, i), f) + Asks1(items[i], f)
  {
    AsksAppend(items[..i + 1], items[i + 1..], f);
    AsksAppend(items[..i], items[i + 1..], f);
    assert items == items[..i + 1] + items[i + 1..] && items[..i + 1][..i] == items[..i];
  }

  lemma {:induction false} AsksPermute(p: Items, q: Items, f: Fut)
    requires multiset(p) == multiset(q)
    ensures Asks(p, f) == Asks(q, f)
  {
    if p == [] {
      assert |multiset(q)| == |q|;
    } else {
      var n := |p| - 1;
      assert p == p[..n] + [p[n]];
      assert p[n] in multiset(q);
      var i :| 0 <= i < |q| && q[i] == p[n];
      AsksWithout(q, i, f);
      WithoutOne(q, i);
      assert multiset(p[..n]) == multiset(p) - multiset{p[n]} == multiset(Without(q, i));
      AsksPermute(p[..n], Without(q, i), f);
    }
  }

  lemma ExecResolves(m: Msg, r: Ran, f: Fut)
    ensures Resolutions(Exec(m, r), f) == Asks1(Some(m), f)
  {
    var quiet := if r.Returned? then [Executed(m.id)] else [Executed(m.id), OnError(m.id)];
    QuietEvents(quiet, f);
    if m.fut.Some? {
      var e := Exec(m, r)[|quiet|];
      assert Exec(m, r) == quiet + [e] && Exec(m, r)[..|quiet|] == quiet;
    } else {
      assert Exec(m, r) == quiet;
    }
  }

  lemma {:induction false} QuietEvents(es: seq<Event>, f: Fut)
    requires forall e :: e in es ==> !e.Resolve?
    ensures Resolutions(es, f) == 0
  {
    if es != [] {
      assert es[|es| - 1] in es;
      QuietEvents(es[..|es| - 1], f);
    }
  }

  lemma {:induction false} ExecAllResolves(items: Items, rans: seq<Ran>, f: Fut)
    requires |items| == |rans|
    ensures Resolutions(ExecAll(items, rans), f) == Asks(items, f)
  {
    if items != [] {
      var n := |items| - 1;
      ExecAllResolves(items[..n], rans[..n], f);
      var es := if items[n].Some? then Exec(items[n].value, rans[n]) else [];
      ResolutionsAppend(ExecAll(items[..n], rans[..n]), es, f);
      if items[n].Some? { ExecResolves(items[n].value, rans[n], f); }
    }
  }

  lemma {:induction false} SettlementsResolve(refused: Items, f: Fut)
    ensures Resolutions(Settlements(refused), f) == Asks(refused, f)
  {
    if refused != [] {
      var n := |refused| - 1;
      SettlementsResolve(refused[..n], f);
      ResolutionsAppend(Settlements(refused[..n]), Settlement(refused[n]), f);
      assert forall e: Event :: [e][..0] == [];
    }
  }

  lemma ResolutionsAround(first: seq<Event>, body: seq<Event>, last: seq<Event>, f: Fut)
    requires (forall e :: e in first ==> !e.Resolve?) && (forall e :: e in last ==> !e.Resolve?)
    ensures Resolutions(first + body + last, f) == Resolutions(body, f)
  {
    ResolutionsAppend(first, body, f);
    ResolutionsAppend(first + body, last, f);
    QuietEvents(first, f);
    QuietEvents(last, f);
  }

  lemma TraceResolves(s: State, f: Fut)
    requires |s.rans| <= |s.box.accepted| && TraceOk(s)
    ensures Resolutions(s.trace, f) == Asks(s.box.accepted[..|s.rans|], f)
  {
    var first := if s.pc.Unborn? || s.pc.Opening? then [] else OpeningEvents(s.startFailed);
    var body := ExecAll(s.box.accepted[..|s.rans|], s.rans);
    var last := if s.pc.Exited? then [OnStop] else [];
    assert s.trace == first + body + last;
    ResolutionsAround(first, body, last, f);
    ExecAllResolves(s.box.accepted[..|s.rans|], s.rans, f);
  }

  lemma AskedIsSomewhere(s: State, f: Fut)
    requires CallersOk(s)
    ensures Asks(s.callers.asked, f) ==
            Asks(s.callers.ready, f) + Asks(s.box.flying, f) + Asks(s.box.accepted, f) + Asks(s.callers.refused, f)
  {
    var a, b, c, d := s.callers.ready, s.box.flying, s.box.accepted, s.callers.refused;
    AsksAppend(a, b, f);
    AsksAppend(a + b, c, f);
    AsksAppend(a + b + c, d, f);
    AsksPermute(s.callers.asked, a + b + c + d, f);
  }

  lemma AcceptedSplit(s: State, f: Fut)
    requires |s.rans| <= |s.box.accepted|
    ensures var acc, done := s.box.accepted, |s.rans|;
            Asks(acc, f) == Asks(acc[..done], f) + Asks(acc[done..], f)
  {
    var acc, done := s.box.accepted, |s.rans|;
    AsksAppend(acc[..done], acc[done..], f);
    assert acc == acc[..done] + acc[done..];
  }

  /** Future `f` is accounted for: it has been resolved as often as messages carrying it were executed, by the worker,
      or refused, by the caller; the other calls that asked for it are still on their way or unexecuted. */
  ghost predicate Accounted(s: State, f: Fut) {
    && |s.rans| <= |s.box.accepted|
    && Resolutions(s.trace, f) == Asks(s.box.accepted[..|s.rans|], f)
    && Resolutions(s.callers.settled, f) == Asks(s.callers.refused, f)
    && Asks(s.callers.asked, f) ==
       Resolutions(s.trace, f) + Resolutions(s.callers.settled, f)
       + Asks(s.callers.ready, f) + Asks(s.box.flying, f) + Asks(s.box.accepted[|s.rans|..], f)
  }

  /** Every run accounts for every future. So the future of one call is never resolved twice. */
  lemma FuturesAccount(cap: Option<nat>, ls: seq<Label>, f: Fut)
    ensures Accounted(Run(cap, ls), f)
  {
    RunOk(cap, ls);
    InvAccounts(Run(cap, ls), f);
  }

  lemma InvAccounts(s: State, f: Fut)
    requires Inv(s)
    ensures Accounted(s, f)
  {
    TraceResolves(s, f);
    SettlementsResolve(s.callers.refused, f);
    AskedIsSomewhere(s, f);
    AcceptedSplit(s, f);
  }

  // ------------------------------------------------------------------ the worker reaches its end

  /** A bound on the worker's remaining steps before it blocks or exits. */
  function Left(s: State): nat {
    8 * |s.box.items| +
    match s.pc
    case Unborn => 4
    case Opening => 3
    case Receiving => 2
    case Draining(batch) => 3 * |batch| + 4
    case Executing(batch) => 2 * |batch| + 3
    case Leaving(_) => 1
    case Exited(_) => 0
  }

  predicate Blocked(s: State) {
    s.pc.Receiving? && s.box.items == [] && s.box.signal && !Disconnected(s.box)
  }

  lemma WorkShrinks(s: State, r: Ran)
    requires !s.pc.Unborn? && !s.pc.Exited? && !Blocked(s)
    ensures Left(Worked(s, r)) < Left(s)
  {
  }

  /** With a sentinel accepted and not executed past, the worker is never blocked. */
  lemma SentinelUnblocks(s: State)
    requires QueueOk(s) && None in s.box.accepted
    ensures !Blocked(s)
  {
    var acc, done := s.box.accepted, |s.rans|;
    var i :| 0 <= i < |acc| && acc[i].None?;
    assert i >= done && |acc[done..]| == |InHand(s.pc) + s.box.items|;
  }

  lemma WorkAccepts(s: State, r: Ran)
    ensures Worked(s, r).box.accepted == s.box.accepted && (!s.pc.Unborn? ==> !Worked(s, r).pc.Unborn?)
  {
  }

  lemma SentinelWork(s: State, r: Ran)
    requires QueueOk(s) && !s.pc.Unborn? && !s.pc.Exited? && None in s.box.accepted
    ensures var s' := Step(s, Work(r));
            !s'.pc.Unborn? && None in s'.box.accepted && Left(s') < Left(s)
  {
    SentinelUnblocks(s);
    WorkShrinks(s, r);
    WorkAccepts(s, r);
    assert Step(s, Work(r)) == Worked(s, r);
  }

  lemma RunFromCons(s: State, ls: seq<Label>)
    requires ls != []
    ensures RunFrom(s, ls) == RunFrom(Step(s, ls[0]), ls[1..])
  {
    assert ls == [ls[0]] + ls[1..] && [ls[0]][..0] == [];
    RunFromAppend(s, [ls[0]], ls[1..]);
  }

  /** The join of `stop()` ends: once its sentinel is accepted, `Left` steps of the worker bring it to its exit,
      whatever the messages do, as long as each returns. */
  lemma {:induction false} SentinelEndsWorker(s: State, ls: seq<Label>)
    requires Inv(s) && !s.pc.Unborn? && None in s.box.accepted
    requires |ls| >= Left(s) && forall i :: 0 <= i < |ls| ==> ls[i].Work?
    ensures RunFrom(s, ls).pc.Exited?
    decreases |ls|
  {
    if s.pc.Exited? {
      ExitStays(s, ls);
    } else {
      SentinelWork(s, ls[0].ran);
      StepOk(s, ls[0]);
      RunFromCons(s, ls);
      SentinelEndsWorker(Step(s, ls[0]), ls[1..]);
    }
  }

  lemma {:induction false} ExitStays(s: State, ls: seq<Label>)
    requires s.pc.Exited?
    ensures RunFrom(s, ls).pc.Exited?
  {
    if ls != [] { ExitStays(s, ls[..|ls| - 1]); }
  }

  // ------------------------------------------------------------------ one run for each way to lose a message

  lemma RunFour(cap: Option<nat>, ls: seq<Label>, a: Label, b: Label, c: Label, d: Label)
    ensures Run(cap, ls + [a, b, c, d]) == Step(Step(Step(Step(Run(cap, ls), a), b), c), d)
  {
    RunTwo(cap, ls, a, b);
    RunTwo(cap, ls + [a, b], c, d);
    assert ls + [a, b] + [c, d] == ls + [a, b, c, d];
  }

  lemma RunTwo(cap: Option<nat>, ls: seq<Label>, a: Label, b: Label)
    ensures Run(cap, ls + [a, b]) == Step(Step(Run(cap, ls), a), b)
  {
    RunPrefix(cap, ls, a);
    RunPrefix(cap, ls + [a], b);
    assert ls + [a] + [b] == ls + [a, b];
  }

  const OK := Returned(0)

  /** One call is in flight and the worker waits for it. */
  function Sending(m: Msg): seq<Label> {
    [Call(m), Work(OK), Send(0), Work(OK)]
  }

  lemma AfterSending(cap: Option<nat>, m: Msg)
    ensures var s := Run(cap, Sending(m));
            && s.pc.Receiving? && s.rans == [] && s.callers.ready == []
            && s.box == Box(cap, true, true, [], [Some(m)], [])
  {
    RunFour(cap, [], Call(m), Work(OK), Send(0), Work(OK));
    assert [] + Sending(m) == Sending(m);
    assert Without([Some(m)], 0) == [];
  }

  /** The send lands, the worker takes the message and starts draining, the mailbox closes, and the drain sees it. */
  function DropRun(m: Msg): seq<Label> {
    Sending(m) + [Land(0), Work(OK), CloseSender, Work(OK)]
  }

  lemma DropRunLoses(cap: Option<nat>, m: Msg)
    ensures var s := Run(cap, DropRun(m));
            s.pc == Leaving(Dropped([Some(m)])) && s.box.accepted == [Some(m)] && s.rans == [] && Lost(s)
  {
    AfterSending(cap, m);
    RunFour(cap, Sending(m), Land(0), Work(OK), CloseSender, Work(OK));
    var s0 := Run(cap, Sending(m));
    var s1 := Step(s0, Land(0));
    assert Without([Some(m)], 0) == [];
    assert HasRoom(s0) || cap == Some(0);
    assert s1.box == Box(cap, true, true, [Some(m)], [], [Some(m)]);
    var s2 := Step(s1, Work(OK));
    assert s2.pc == Draining([Some(m)]) && s2.box.items == [];
    var s := Run(cap, DropRun(m));
    assert MessagesUpTo(s.box.accepted, 1);
  }

  /** The mailbox closes under the waiting worker, which gives up although the send is in flight; it lands later. */
  function StrandRun(m: Msg): seq<Label> {
    Sending(m) + [CloseSender, CloseSignal, Work(OK), Land(0)]
  }

  /** (A rendezvous mailbox has no room for an item that nobody asks for.) */
  lemma StrandRunLoses(cap: Option<nat>, m: Msg)
    requires cap != Some(0)
    ensures var s := Run(cap, StrandRun(m));
            s.pc == Leaving(AtClose) && s.box.accepted == [Some(m)] && s.rans == [] && Lost(s)
  {
    AfterSending(cap, m);
    RunFour(cap, Sending(m), CloseSender, CloseSignal, Work(OK), Land(0));
    assert Without([Some(m)], 0) == [];
    var s := Run(cap, StrandRun(m));
    assert MessagesUpTo(s.box.accepted, 1);
  }

  /** Stopping does not wait for later messages: one accepted behind the sentinel is never run. */
  function LateRun(m: Msg): seq<Label> {
    Sending(m) + [Stop, Send(0), Land(1), Land(0)]
  }

  lemma LateRunLeaves(cap: Option<nat>, m: Msg, r: Ran)
    requires cap.None? || cap.value > 1
    ensures var s := Run(cap, LateRun(m) + [Work(r)]);
            s.pc == Leaving(Sentinel) && s.box.accepted == [None, Some(m)] && s.rans == [] && !Lost(s)
  {
    AfterSending(cap, m);
    RunFour(cap, Sending(m), Stop, Send(0), Land(1), Land(0));
    var sentinel: Items := [None];
    assert Without(sentinel, 0) == [] && Without([Some(m), None], 1) == [Some(m)] && Without([Some(m)], 0) == [];
    RunPrefix(cap, LateRun(m), Work(r));
  }
}
