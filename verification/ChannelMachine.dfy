/** What channel operations are given: items and timeouts. */
module ChannelTypes {
  type Item = nat
  datatype Timeout = Untimed | Timed | Negative
}

/**
 Channels, blocking operations and `select` as one step machine. A blocked `send`, `recv` or `select` is
 a thread waiting on arms; every arm also watches its channel's close signal. The queue is an atomic
 FIFO with live sender handles; which ready arm fires is left open, as is when a timeout fires.
 */
module Channels {
  import opened Options
  import opened ChannelTypes

  type ChId = nat
  type Tid = nat
  type OpId = nat
  type CallId = nat

  /** An item on its way: the call (and the arm of that call) that sends it, and the instant at which the
      sender handle it travels on, or the one that handle was cloned from, left the channel object. */
  datatype Msg = Msg(call: CallId, arm: nat, item: Item, born: nat)

  /** `open` is `sender` being Some, `signal` is `close_tx` being Some. `accepted`, `delivered` and `takers`
      (the receiving calls) are the history of the queue; `closedAt` is when `sender` became None. */
  datatype Chan = Chan(cap: Option<nat>, open: bool, signal: bool, buf: seq<Msg>,
                       accepted: seq<Msg>, delivered: seq<Msg>, takers: seq<CallId>, closedAt: nat)

  datatype Arm = SendArm(ch: ChId, item: Item, born: nat) | RecvArm(ch: ChId)

  datatype Pc =
    | Idle
    | Trying(call: CallId, arm: Arm, block: bool)           // the non-blocking attempt
    | Waiting(call: CallId, arms: seq<Arm>, timed: bool)    // inside select!
    | Draining(call: CallId, i: nat, ch: ChId)              // a receive that saw the close signal
    | Closing(ch: ChId)                                     // between the two steps of close()

  datatype Out =
    | Sent(i: nat, ch: ChId)
    | Got(i: nat, ch: ChId, msg: Msg)
    | Closed | ClosedEmpty | TimedOut | Full | Empty | BadTimeout | NoOps

  /** A `SendOp` object: it owns a clone of the sender. */
  datatype SendOp = SendOp(ch: ChId, item: Item, born: nat)

  datatype OpRef = SendRef(o: OpId) | RecvRef(ch: ChId)

  datatype World = World(now: nat, chans: map<ChId, Chan>, pcs: map<Tid, Pc>, ops: map<OpId, SendOp>,
                         outs: map<CallId, Out>)

  datatype Label =
    | New(ch: ChId, cap: Option<int>)
    | Send(t: Tid, ch: ChId, item: Item, to: Timeout)
    | Recv(t: Tid, ch: ChId, to: Timeout)
    | TrySend(t: Tid, ch: ChId, item: Item)
    | TryRecv(t: Tid, ch: ChId)
    | MakeOp(o: OpId, ch: ChId, item: Item)
    | DropOp(o: OpId)
    | Select(t: Tid, refs: seq<OpRef>, timed: bool)
    | CloseStart(t: Tid, ch: ChId)
    | Go(t: Tid)                                   // the next step of a thread that is not waiting
    | Fire(t: Tid, i: nat)                         // arm i of a waiting thread
    | Meet(t: Tid, i: nat, u: Tid, j: nat)         // rendezvous of t's send arm with u's receive arm
    | Signal(t: Tid, i: nat)                       // the close arm beside arm i
    | Expire(t: Tid)

  function PcOf(w: World, t: Tid): Pc {
    if t in w.pcs then w.pcs[t] else Idle
  }

  /** The arms a thread has out. */
  function ArmsOf(pc: Pc): seq<Arm> {
    match pc
    case Trying(_, arm, _) => [arm]
    case Waiting(_, arms, _) => arms
    case _ => []
  }

  predicate Active(pc: Pc) {
    pc.Trying? || pc.Waiting? || pc.Draining?
  }

  predicate HasRoom(c: Chan) {
    c.cap.None? || |c.buf| < c.cap.value
  }

  /** Some sender handle is alive: the channel's own, a clone in a pending call, or one in a `SendOp`. */
  ghost predicate Connected(w: World, ch: ChId)
    requires ch in w.chans
  {
    || w.chans[ch].open
    || (exists t, i :: t in w.pcs && 0 <= i < |ArmsOf(w.pcs[t])|
                       && ArmsOf(w.pcs[t])[i].SendArm? && ArmsOf(w.pcs[t])[i].ch == ch)
    || (exists o :: o in w.ops && w.ops[o].ch == ch)
  }

  /** `try_send` holds the read lock of `sender`, so `close` has to wait for it. */
  predicate SenderLocked(w: World, ch: ChId) {
    exists t :: t in w.pcs && w.pcs[t].Trying? && !w.pcs[t].block && w.pcs[t].arm.SendArm? && w.pcs[t].arm.ch == ch
  }

  // ------------------------------------------------------------------ building blocks

  function Push(c: Chan, m: Msg): Chan {
    c.(buf := c.buf + [m], accepted := c.accepted + [m])
  }

  function Pull(c: Chan, taker: CallId): Chan
    requires c.buf != []
  {
    c.(buf := c.buf[1..], delivered := c.delivered + [c.buf[0]], takers := c.takers + [taker])
  }

  function HandOver(c: Chan, m: Msg, taker: CallId): Chan {
    c.(accepted := c.accepted + [m], delivered := c.delivered + [m], takers := c.takers + [taker])
  }

  /** Thread `t` goes on at `pc`. */
  function Park(w: World, t: Tid, pc: Pc): World {
    w.(pcs := w.pcs[t := pc])
  }

  /** The call of thread `t` ends with `out`; its handles are dropped. */
  function End(w: World, t: Tid, call: CallId, out: Out): World {
    w.(pcs := w.pcs[t := Idle], outs := w.outs[call := out])
  }

  function Accept(w: World, t: Tid, call: CallId, i: nat, arm: Arm): World
    requires arm.SendArm? && arm.ch in w.chans
  {
    var m := Msg(call, i, arm.item, arm.born);
    End(w.(chans := w.chans[arm.ch := Push(w.chans[arm.ch], m)]), t, call, Sent(i, arm.ch))
  }

  function Take(w: World, t: Tid, call: CallId, i: nat, ch: ChId): World
    requires ch in w.chans && w.chans[ch].buf != []
  {
    End(w.(chans := w.chans[ch := Pull(w.chans[ch], call)]), t, call, Got(i, ch, w.chans[ch].buf[0]))
  }

  /** A receive that finds no item: without any live sender it ends, `try_recv` ends anyway. */
  ghost function NoItem(w: World, t: Tid, pc: Pc, ch: ChId): World
    requires ch in w.chans && Active(pc)
  {
    if !Connected(w, ch) then End(w, t, pc.call, ClosedEmpty)
    else if pc.Trying? then End(w, t, pc.call, Empty)
    else w
  }

  ghost function GoStep(w: World, t: Tid, pc: Pc): World {
    match pc
    case Trying(call, SendArm(ch, item, born), block) =>
      if ch !in w.chans then w
      else if HasRoom(w.chans[ch]) then Accept(w, t, call, 0, pc.arm)
      else if block then Park(w, t, Waiting(call, [pc.arm], false))
      else End(w, t, call, Full)
    case Trying(call, RecvArm(ch), block) =>
      if ch !in w.chans then w
      else if w.chans[ch].buf != [] then Take(w, t, call, 0, ch)
      else if block then Park(w, t, Waiting(call, [pc.arm], false))
      else NoItem(w, t, pc, ch)
    case Draining(call, i, ch) =>
      if ch !in w.chans then w
      else if w.chans[ch].buf != [] then Take(w, t, call, i, ch)
      else End(w, t, call, ClosedEmpty)
    case Closing(ch) =>
      if ch !in w.chans then w
      else Park(w.(chans := w.chans[ch := w.chans[ch].(signal := false)]), t, Idle)
    case _ => w
  }

  ghost function FireStep(w: World, t: Tid, pc: Pc, i: nat): World {
    if !pc.Waiting? || i >= |pc.arms| || pc.arms[i].ch !in w.chans then w
    else
      var arm := pc.arms[i];
      if arm.SendArm? then
        if HasRoom(w.chans[arm.ch]) then Accept(w, t, pc.call, i, arm) else w
      else if w.chans[arm.ch].buf != [] then Take(w, t, pc.call, i, arm.ch)
      else NoItem(w, t, pc, arm.ch)
  }

  /** The receive arm number `j` of a thread, if it has one there. */
  predicate Receives(pc: Pc, j: nat, ch: ChId) {
    || (j < |ArmsOf(pc)| && ArmsOf(pc)[j] == RecvArm(ch))
    || (pc.Draining? && pc.i == j && pc.ch == ch)
  }

  ghost function MeetStep(w: World, t: Tid, i: nat, u: Tid, j: nat): World {
    var p, q := PcOf(w, t), PcOf(w, u);
    if t == u || i >= |ArmsOf(p)| || !ArmsOf(p)[i].SendArm? then w
    else
      var arm := ArmsOf(p)[i];
      if arm.ch !in w.chans || w.chans[arm.ch].cap != Some(0) then w
      else if !Receives(q, j, arm.ch) || !(p.Waiting? || q.Waiting?) then w
      else
        var m := Msg(p.call, i, arm.item, arm.born);
        var w' := w.(chans := w.chans[arm.ch := HandOver(w.chans[arm.ch], m, q.call)]);
        End(End(w', t, p.call, Sent(i, arm.ch)), u, q.call, Got(j, arm.ch, m))
  }

  function SignalStep(w: World, t: Tid, pc: Pc, i: nat): World {
    if !pc.Waiting? || i >= |pc.arms| || pc.arms[i].ch !in w.chans || w.chans[pc.arms[i].ch].signal then w
    else if pc.arms[i].SendArm? then End(w, t, pc.call, Closed)
    else Park(w, t, Draining(pc.call, i, pc.arms[i].ch))
  }

  /** Starting `send`, `recv`, `try_send` or `try_recv` on channel `c`, with the arm it will use. */
  function StartOne(w: World, t: Tid, open: bool, arm: Arm, to: Timeout, block: bool): World {
    if !open then End(w, t, w.now, Closed)
    else if to.Negative? then End(w, t, w.now, BadTimeout)
    else if to.Timed? then Park(w, t, Waiting(w.now, [arm], true))
    else Park(w, t, Trying(w.now, arm, block))
  }

  function ArmFor(w: World, r: OpRef): Arm
    requires r.SendRef? ==> r.o in w.ops
  {
    match r
    case SendRef(o) => SendArm(w.ops[o].ch, w.ops[o].item, w.ops[o].born)
    case RecvRef(ch) => RecvArm(ch)
  }

  predicate Known(w: World, r: OpRef) {
    match r case SendRef(o) => o in w.ops case RecvRef(ch) => ch in w.chans
  }

  function StartSelect(w: World, t: Tid, refs: seq<OpRef>, timed: bool): World {
    if refs == [] then End(w, t, w.now, NoOps)
    else if forall i :: 0 <= i < |refs| ==> Known(w, refs[i]) then
      Park(w, t, Waiting(w.now, seq(|refs|, i requires 0 <= i < |refs| => ArmFor(w, refs[i])), timed))
    else w
  }

  function StartClose(w: World, t: Tid, ch: ChId): World
    requires ch in w.chans
  {
    var c := w.chans[ch];
    Park(w.(chans := w.chans[ch := if c.open then c.(open := false, closedAt := w.now) else c]), t, Closing(ch))
  }

  ghost function Act(w: World, l: Label): World {
    match l
    case New(ch, cap) =>
      if ch in w.chans || (cap.Some? && cap.value < 0) then w
      else
        var c := if cap.Some? then Some(cap.value as nat) else None;
        w.(chans := w.chans[ch := Chan(c, true, true, [], [], [], [], 0)])
    case Send(t, ch, item, to) =>
      if ch !in w.chans || !PcOf(w, t).Idle? then w
      else StartOne(w, t, w.chans[ch].open, SendArm(ch, item, w.now), to, true)
    case TrySend(t, ch, item) =>
      if ch !in w.chans || !PcOf(w, t).Idle? then w
      else StartOne(w, t, w.chans[ch].open, SendArm(ch, item, w.now), Untimed, false)
    case Recv(t, ch, to) =>
      if ch in w.chans && PcOf(w, t).Idle? then StartOne(w, t, true, RecvArm(ch), to, true) else w
    case TryRecv(t, ch) =>
      if ch in w.chans && PcOf(w, t).Idle? then StartOne(w, t, true, RecvArm(ch), Untimed, false) else w
    case MakeOp(o, ch, item) =>
      if ch in w.chans && w.chans[ch].open && o !in w.ops then w.(ops := w.ops[o := SendOp(ch, item, w.now)]) else w
    case DropOp(o) => w.(ops := w.ops - {o})
    case Select(t, refs, timed) => if PcOf(w, t).Idle? then StartSelect(w, t, refs, timed) else w
    case CloseStart(t, ch) =>
      if ch in w.chans && PcOf(w, t).Idle? && !SenderLocked(w, ch) then StartClose(w, t, ch) else w
    case Go(t) => GoStep(w, t, PcOf(w, t))
    case Fire(t, i) => FireStep(w, t, PcOf(w, t), i)
    case Meet(t, i, u, j) => MeetStep(w, t, i, u, j)
    case Signal(t, i) => SignalStep(w, t, PcOf(w, t), i)
    case Expire(t) =>
      if PcOf(w, t).Waiting? && PcOf(w, t).timed then End(w, t, PcOf(w, t).call, TimedOut) else w
  }

  /** One step; a label that is not enabled only lets an instant pass. */
  ghost function Step(w: World, l: Label): World {
    var w' := Act(w, l);
    w'.(now := w.now + 1)
  }

  ghost function Run(ls: seq<Label>): World {
    if ls == [] then World(0, map[], map[], map[], map[]) else Step(Run(ls[..|ls| - 1]), ls[|ls| - 1])
  }

  // ------------------------------------------------------------------ the invariant

  /** The queue is a FIFO: what was accepted is what was delivered followed by the buffer. */
  ghost predicate Fifo(c: Chan) {
    && c.accepted == c.delivered + c.buf
    && |c.takers| == |c.delivered|
    && (c.cap.Some? ==> |c.buf| <= c.cap.value)
  }

  /** Every accepted item left on a handle cloned before the close; the close signal follows the close. */
  ghost predicate CloseOk(w: World, c: Chan) {
    && (!c.signal ==> !c.open)
    && (forall i :: 0 <= i < |c.accepted| ==> HandleOk(w, c, c.accepted[i].born))
  }

  predicate HandleOk(w: World, c: Chan, born: nat) {
    born < w.now && (!c.open ==> born < c.closedAt)
  }

  /** An accepted message belongs to exactly one call, and that call returned success for that arm; a
      delivered one was returned by exactly one call. */
  ghost predicate LedgerOk(w: World, ch: ChId, c: Chan) {
    && (forall i :: 0 <= i < |c.accepted| ==>
          c.accepted[i].call in w.outs && w.outs[c.accepted[i].call] == Sent(c.accepted[i].arm, ch))
    && (forall i, j :: 0 <= i < j < |c.accepted| ==> c.accepted[i].call != c.accepted[j].call)
    && (forall i :: 0 <= i < |c.takers| && i < |c.delivered| ==>
          c.takers[i] in w.outs && w.outs[c.takers[i]].Got?
          && w.outs[c.takers[i]].ch == ch && w.outs[c.takers[i]].msg == c.delivered[i])
    && (forall i, j :: 0 <= i < j < |c.takers| ==> c.takers[i] != c.takers[j])
  }

  ghost predicate ChansOk(w: World) {
    forall ch :: ch in w.chans ==> Fifo(w.chans[ch]) && CloseOk(w, w.chans[ch]) && LedgerOk(w, ch, w.chans[ch])
  }

  predicate ArmOk(w: World, arm: Arm) {
    arm.ch in w.chans && (arm.SendArm? ==> HandleOk(w, w.chans[arm.ch], arm.born))
  }

  predicate PcOk(w: World, pc: Pc) {
    && (forall i :: 0 <= i < |ArmsOf(pc)| ==> ArmOk(w, ArmsOf(pc)[i]))
    && (Active(pc) ==> pc.call < w.now && pc.call !in w.outs)
    && (pc.Draining? ==> pc.ch in w.chans && !w.chans[pc.ch].signal)
    && (pc.Closing? ==> pc.ch in w.chans && !w.chans[pc.ch].open)
  }

  ghost predicate PcsOk(w: World) {
    && (forall t :: t in w.pcs ==> PcOk(w, w.pcs[t]))
    && (forall t, u :: t in w.pcs && u in w.pcs && t != u && Active(w.pcs[t]) && Active(w.pcs[u]) ==>
          w.pcs[t].call != w.pcs[u].call)
  }

  ghost predicate OpsOk(w: World) {
    forall o :: o in w.ops ==> w.ops[o].ch in w.chans && HandleOk(w, w.chans[w.ops[o].ch], w.ops[o].born)
  }

  /** A successful outcome has its message in the queue's history. */
  ghost predicate OutOk(w: World, k: CallId, out: Out) {
    match out
    case Sent(i, ch) =>
      ch in w.chans && var acc := w.chans[ch].accepted;
      exists x :: 0 <= x < |acc| && acc[x].call == k && acc[x].arm == i
    case Got(_, ch, m) =>
      ch in w.chans && var c := w.chans[ch];
      exists x :: 0 <= x < |c.delivered| && x < |c.takers| && c.takers[x] == k && c.delivered[x] == m
    case _ => true
  }

  ghost predicate OutsOk(w: World) {
    forall k :: k in w.outs ==> k < w.now && OutOk(w, k, w.outs[k])
  }

  ghost predicate Inv(w: World) {
    ChansOk(w) && PcsOk(w) && OpsOk(w) && OutsOk(w)
  }
}
