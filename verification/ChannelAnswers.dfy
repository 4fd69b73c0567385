/** What each step of the channel machine does, outcome by outcome, and what the stamps on handles mean. */
module ChannelAnswers {
  import opened Options
  import opened ChannelTypes
  import opened Channels
  import opened ChannelSafety
  import opened ChannelClose

  /** The call numbered by the current instant has ended at once, and nothing was touched. */
  ghost predicate EndsAtOnce(w: World, w': World, t: Tid, out: Out) {
    && PcOf(w', t).Idle? && w.now in w'.outs && w'.outs[w.now] == out
    && w'.chans == w.chans && w'.ops == w.ops
  }

  ghost predicate GoesTo(w: World, w': World, t: Tid, pc: Pc) {
    PcOf(w', t) == pc && w'.chans == w.chans && w'.ops == w.ops && w'.outs == w.outs
  }

  // ------------------------------------------------------------------ starting

  /** `send`: "Channel is closed" exactly without a sender, "Timeout must be non-negative" exactly for a negative one;
      else the sender is cloned, and only an untimed send tries first. */
  lemma SendStarts(w: World, t: Tid, ch: ChId, item: Item, to: Timeout)
    requires ch in w.chans && PcOf(w, t).Idle?
    ensures var w' := Step(w, Send(t, ch, item, to)); var arm := SendArm(ch, item, w.now);
      && (!w.chans[ch].open ==> EndsAtOnce(w, w', t, Closed))
      && (w.chans[ch].open && to.Negative? ==> EndsAtOnce(w, w', t, BadTimeout))
      && (w.chans[ch].open && to.Timed? ==> GoesTo(w, w', t, Waiting(w.now, [arm], true)))
      && (w.chans[ch].open && to.Untimed? ==> GoesTo(w, w', t, Trying(w.now, arm, true)))
  {
  }

  lemma TrySendStarts(w: World, t: Tid, ch: ChId, item: Item)
    requires ch in w.chans && PcOf(w, t).Idle?
    ensures var w' := Step(w, TrySend(t, ch, item));
      && (!w.chans[ch].open ==> EndsAtOnce(w, w', t, Closed))
      && (w.chans[ch].open ==> GoesTo(w, w', t, Trying(w.now, SendArm(ch, item, w.now), false)))
  {
  }

  /** `recv` and `try_recv` never ask whether the channel is closed before they look into the buffer. */
  lemma RecvStarts(w: World, t: Tid, ch: ChId, to: Timeout)
    requires ch in w.chans && PcOf(w, t).Idle?
    ensures var w' := Step(w, Recv(t, ch, to));
      && (to.Negative? ==> EndsAtOnce(w, w', t, BadTimeout))
      && (to.Timed? ==> GoesTo(w, w', t, Waiting(w.now, [RecvArm(ch)], true)))
      && (to.Untimed? ==> GoesTo(w, w', t, Trying(w.now, RecvArm(ch), true)))
    ensures GoesTo(w, Step(w, TryRecv(t, ch)), t, Trying(w.now, RecvArm(ch), false))
  {
  }

  /** `select`: an empty list is an error; else the call waits on one arm for each operation, in the list's order, a
      send carrying the item and the handle of its operation. */
  lemma SelectStarts(w: World, t: Tid, refs: seq<OpRef>, timed: bool)
    requires PcOf(w, t).Idle? && forall i :: 0 <= i < |refs| ==> Known(w, refs[i])
    ensures var w' := Step(w, Select(t, refs, timed)); var pc := PcOf(w', t);
      if refs == [] then EndsAtOnce(w, w', t, NoOps)
      else
        && GoesTo(w, w', t, pc) && pc.Waiting? && pc.call == w.now && pc.timed == timed && |pc.arms| == |refs|
        && forall i :: 0 <= i < |refs| ==>
             match refs[i]
             case RecvRef(ch) => pc.arms[i] == RecvArm(ch)
             case SendRef(o) => pc.arms[i] == SendArm(w.ops[o].ch, w.ops[o].item, w.ops[o].born)
  {
  }

  /** `send_op` clones the sender into the operation, and is refused exactly without one; dropping it lets go. */
  lemma OperationsDo(w: World, o: OpId, ch: ChId, item: Item)
    requires ch in w.chans && o !in w.ops
    ensures Step(w, MakeOp(o, ch, item)).ops == if w.chans[ch].open then w.ops[o := SendOp(ch, item, w.now)] else w.ops
    ensures o !in Step(w, DropOp(o)).ops
  {
  }

  /** A new channel is open, empty and of the given capacity; a negative one makes none. */
  lemma NewDoes(w: World, ch: ChId, cap: Option<int>)
    requires ch !in w.chans
    ensures var w' := Step(w, New(ch, cap));
      if cap.Some? && cap.value < 0 then w'.chans == w.chans
      else
        && ch in w'.chans && w'.chans[ch].open && w'.chans[ch].signal && w'.chans[ch].buf == []
        && (w'.chans[ch].cap.Some? <==> cap.Some?) && (cap.Some? ==> w'.chans[ch].cap.value == cap.value)
  {
  }

  // ------------------------------------------------------------------ trying

  /** Some sender handle of the channel is alive: its own, a clone in a pending call, or one in an operation. */
  ghost predicate Live(w: World, ch: ChId)
    requires ch in w.chans
  {
    || w.chans[ch].open
    || (exists o :: o in w.ops && w.ops[o].ch == ch)
    || (exists t :: t in w.pcs && Sends(w.pcs[t], ch))
  }

  predicate Sends(pc: Pc, ch: ChId) {
    exists i :: 0 <= i < |ArmsOf(pc)| && ArmsOf(pc)[i].SendArm? && ArmsOf(pc)[i].ch == ch
  }

  lemma LiveIsConnected(w: World, ch: ChId)
    requires ch in w.chans
    ensures Live(w, ch) <==> Connected(w, ch)
  {
    if t :| t in w.pcs && Sends(w.pcs[t], ch) {
      var i :| 0 <= i < |ArmsOf(w.pcs[t])| && ArmsOf(w.pcs[t])[i].SendArm? && ArmsOf(w.pcs[t])[i].ch == ch;
      assert Connected(w, ch);
    }
    if t, i :| t in w.pcs && 0 <= i < |ArmsOf(w.pcs[t])|
               && ArmsOf(w.pcs[t])[i].SendArm? && ArmsOf(w.pcs[t])[i].ch == ch
    {
      assert Sends(w.pcs[t], ch);
    }
  }

  /** The non-blocking attempt of a send: accepted exactly with room; without, `send` waits and `try_send` is full. */
  lemma TryingToSend(w: World, t: Tid, call: CallId, arm: Arm, block: bool)
    requires PcOf(w, t) == Trying(call, arm, block) && arm.SendArm? && arm.ch in w.chans
    ensures var w' := Step(w, Go(t)); var c := w.chans[arm.ch];
      if c.cap.None? || |c.buf| < c.cap.value then
        && PcOf(w', t).Idle? && w'.outs == w.outs[call := Sent(0, arm.ch)]
        && w'.chans[arm.ch].buf == c.buf + [Msg(call, 0, arm.item, arm.born)]
      else if block then GoesTo(w, w', t, Waiting(call, [arm], false))
      else PcOf(w', t).Idle? && w'.outs == w.outs[call := Full] && w'.chans == w.chans
  {
  }

  /** The non-blocking attempt of a receive: the oldest item if there is one; else `recv` waits, and `try_recv` says
      closed exactly when no sender handle is alive. */
  lemma TryingToReceive(w: World, t: Tid, call: CallId, ch: ChId, block: bool)
    requires PcOf(w, t) == Trying(call, RecvArm(ch), block) && ch in w.chans
    ensures var w' := Step(w, Go(t)); var c := w.chans[ch];
      if c.buf != [] then
        && PcOf(w', t).Idle? && w'.outs == w.outs[call := Got(0, ch, c.buf[0])] && w'.chans[ch].buf == c.buf[1..]
      else if block then GoesTo(w, w', t, Waiting(call, [RecvArm(ch)], false))
      else
        && PcOf(w', t).Idle? && w'.chans == w.chans
        && w'.outs == w.outs[call := if Live(w, ch) then Empty else ClosedEmpty]
  {
    LiveIsConnected(w, ch);
  }

  // ------------------------------------------------------------------ waiting

  /** A ready arm can fire: with room a send is accepted; with an item a receive takes the oldest; on an empty channel
      without a live sender it ends; otherwise nothing happens. */
  lemma FiringDoes(w: World, t: Tid, i: nat)
    requires PcOf(w, t).Waiting? && i < |PcOf(w, t).arms| && PcOf(w, t).arms[i].ch in w.chans
    ensures var w' := Step(w, Fire(t, i)); var pc := PcOf(w, t); var arm := pc.arms[i]; var c := w.chans[arm.ch];
      if arm.SendArm? then
        if c.cap.None? || |c.buf| < c.cap.value then
          && PcOf(w', t).Idle? && w'.outs == w.outs[pc.call := Sent(i, arm.ch)]
          && w'.chans[arm.ch].buf == c.buf + [Msg(pc.call, i, arm.item, arm.born)]
        else GoesTo(w, w', t, pc)
      else if c.buf != [] then
        && PcOf(w', t).Idle? && w'.outs == w.outs[pc.call := Got(i, arm.ch, c.buf[0])]
        && w'.chans[arm.ch].buf == c.buf[1..]
      else if Live(w, arm.ch) then GoesTo(w, w', t, pc)
      else PcOf(w', t).Idle? && w'.chans == w.chans && w'.outs == w.outs[pc.call := ClosedEmpty]
  {
    LiveIsConnected(w, PcOf(w, t).arms[i].ch);
  }

  /** On a rendezvous channel a waiting sender and a receiver at the same channel can meet, and both succeed. */
  lemma MeetingDoes(w: World, t: Tid, i: nat, u: Tid, j: nat)
    requires t != u && i < |ArmsOf(PcOf(w, t))| && ArmsOf(PcOf(w, t))[i].SendArm?
    requires var ch := ArmsOf(PcOf(w, t))[i].ch;
      ch in w.chans && w.chans[ch].cap == Some(0) && j < |ArmsOf(PcOf(w, u))| && ArmsOf(PcOf(w, u))[j] == RecvArm(ch)
    requires PcOf(w, t).Waiting? || PcOf(w, u).Waiting?
    requires PcOf(w, t).call != PcOf(w, u).call
    ensures var w' := Step(w, Meet(t, i, u, j)); var p, q := PcOf(w, t), PcOf(w, u); var arm := ArmsOf(p)[i];
      && PcOf(w', t).Idle? && PcOf(w', u).Idle? && p.call in w'.outs && q.call in w'.outs
      && w'.outs[p.call] == Sent(i, arm.ch)
      && w'.outs[q.call] == Got(j, arm.ch, Msg(p.call, i, arm.item, arm.born))
  {
  }

  /** The close arm is ready exactly once the signal is gone: a send ends closed, a receive goes on to its last look,
      which takes an item if there is one. */
  lemma SignalDoes(w: World, t: Tid, i: nat)
    requires PcOf(w, t).Waiting? && i < |PcOf(w, t).arms| && PcOf(w, t).arms[i].ch in w.chans
    ensures var w' := Step(w, Signal(t, i)); var pc := PcOf(w, t); var arm := pc.arms[i];
      if w.chans[arm.ch].signal then GoesTo(w, w', t, pc)
      else if arm.SendArm? then PcOf(w', t).Idle? && w'.chans == w.chans && w'.outs == w.outs[pc.call := Closed]
      else GoesTo(w, w', t, Draining(pc.call, i, arm.ch))
  {
  }

  lemma LastLookDoes(w: World, t: Tid, call: CallId, i: nat, ch: ChId)
    requires PcOf(w, t) == Draining(call, i, ch) && ch in w.chans
    ensures var w' := Step(w, Go(t)); var c := w.chans[ch];
      PcOf(w', t).Idle? &&
      if c.buf != [] then w'.outs == w.outs[call := Got(i, ch, c.buf[0])] && w'.chans[ch].buf == c.buf[1..]
      else w'.outs == w.outs[call := ClosedEmpty] && w'.chans == w.chans
  {
  }

  /** Only a timed call times out. */
  lemma ExpiryDoes(w: World, t: Tid)
    requires PcOf(w, t).Waiting?
    ensures var w' := Step(w, Expire(t)); var pc := PcOf(w, t);
      if pc.timed then PcOf(w', t).Idle? && w'.chans == w.chans && w'.outs == w.outs[pc.call := TimedOut]
      else GoesTo(w, w', t, pc)
  {
  }

  // ------------------------------------------------------------------ closing

  /** `close()` waits only for a `try_send` in progress; its two steps drop the sender and then the signal, and leave
      the buffer. */
  lemma CloseCompletes(w: World, t: Tid, ch: ChId)
    requires ch in w.chans && PcOf(w, t).Idle?
    requires forall u ::
      u in w.pcs && w.pcs[u].Trying? && w.pcs[u].arm.SendArm? && w.pcs[u].arm.ch == ch ==> w.pcs[u].block
    ensures var w1 := Step(w, CloseStart(t, ch)); var w2 := Step(w1, Go(t));
      && ch in w1.chans && !w1.chans[ch].open && w1.chans[ch].signal == w.chans[ch].signal
      && ch in w2.chans && !w2.chans[ch].open && !w2.chans[ch].signal && PcOf(w2, t).Idle?
      && w2.chans[ch].buf == w.chans[ch].buf
  {
    assert !SenderLocked(w, ch);
    var w1 := Step(w, CloseStart(t, ch));
    assert PcOf(w1, t) == Closing(ch);
  }

  // ------------------------------------------------------------------ stamps

  /** Step `l` clones the sender of `ch` for `item`. */
  predicate Clones(l: Label, ch: ChId, item: Item) {
    || (l.Send? && l.ch == ch && l.item == item)
    || (l.TrySend? && l.ch == ch && l.item == item)
    || (l.MakeOp? && l.ch == ch && l.item == item)
  }

  /** `born` is the instant of the step that cloned the handle, for that channel and that item. */
  predicate BornAt(ls: seq<Label>, born: nat, ch: ChId, item: Item) {
    born < |ls| && Clones(ls[born], ch, item)
  }

  /** `closedAt` is the instant at which `close()` dropped the sender. */
  predicate ClosedBy(ls: seq<Label>, at: nat, ch: ChId) {
    at < |ls| && ls[at].CloseStart? && ls[at].ch == ch
  }

  ghost predicate ArmStamped(ls: seq<Label>, arm: Arm) {
    arm.SendArm? ==> BornAt(ls, arm.born, arm.ch, arm.item)
  }

  ghost predicate PcStamped(ls: seq<Label>, pc: Pc) {
    forall i :: 0 <= i < |ArmsOf(pc)| ==> ArmStamped(ls, ArmsOf(pc)[i])
  }

  ghost predicate ChanStamped(ls: seq<Label>, ch: ChId, c: Chan) {
    && (forall x :: 0 <= x < |c.accepted| ==> BornAt(ls, c.accepted[x].born, ch, c.accepted[x].item))
    && (!c.open ==> ClosedBy(ls, c.closedAt, ch))
  }

  ghost predicate Stamped(ls: seq<Label>, w: World) {
    && w.now == |ls|
    && (forall ch :: ch in w.chans ==> ChanStamped(ls, ch, w.chans[ch]))
    && (forall t :: t in w.pcs ==> PcStamped(ls, w.pcs[t]))
    && (forall o :: o in w.ops ==> BornAt(ls, w.ops[o].born, w.ops[o].ch, w.ops[o].item))
  }

  lemma StampsLast(ls: seq<Label>, l: Label, born: nat, ch: ChId, item: Item)
    ensures BornAt(ls, born, ch, item) ==> BornAt(ls + [l], born, ch, item)
    ensures ClosedBy(ls, born, ch) ==> ClosedBy(ls + [l], born, ch)
  {
  }

  /** A channel keeps its history, or accepts one message of an arm that was out. */
  ghost predicate Accepts(w: World, c: Chan, c': Chan, ch: ChId) {
    || c'.accepted == c.accepted
    || (exists t, i :: t in w.pcs && 0 <= i < |ArmsOf(w.pcs[t])| && FromArm(ArmsOf(w.pcs[t])[i], ch, c, c'))
  }

  predicate FromArm(arm: Arm, ch: ChId, c: Chan, c': Chan) {
    && arm.SendArm? && arm.ch == ch && |c'.accepted| == |c.accepted| + 1 && c'.accepted[..|c.accepted|] == c.accepted
    && c'.accepted[|c.accepted|].born == arm.born && c'.accepted[|c.accepted|].item == arm.item
  }

  lemma GoAccepts(w: World, t: Tid, ch: ChId)
    requires ch in w.chans
    ensures var w' := GoStep(w, t, PcOf(w, t));
      ch in w'.chans && Accepts(w, w.chans[ch], w'.chans[ch], ch)
      && (w'.chans[ch].open == w.chans[ch].open && w'.chans[ch].closedAt == w.chans[ch].closedAt)
  {
    var pc, w' := PcOf(w, t), GoStep(w, t, PcOf(w, t));
    if w'.chans[ch].accepted != w.chans[ch].accepted {
      assert t in w.pcs && FromArm(ArmsOf(w.pcs[t])[0], ch, w.chans[ch], w'.chans[ch]);
    }
  }

  lemma FireAccepts(w: World, t: Tid, i: nat, ch: ChId)
    requires ch in w.chans
    ensures var w' := FireStep(w, t, PcOf(w, t), i);
      ch in w'.chans && Accepts(w, w.chans[ch], w'.chans[ch], ch)
      && (w'.chans[ch].open == w.chans[ch].open && w'.chans[ch].closedAt == w.chans[ch].closedAt)
  {
    var w' := FireStep(w, t, PcOf(w, t), i);
    if w'.chans[ch].accepted != w.chans[ch].accepted {
      assert t in w.pcs && FromArm(ArmsOf(w.pcs[t])[i], ch, w.chans[ch], w'.chans[ch]);
    }
  }

  lemma MeetAccepts(w: World, t: Tid, i: nat, u: Tid, j: nat, ch: ChId)
    requires ch in w.chans
    ensures var w' := MeetStep(w, t, i, u, j);
      ch in w'.chans && Accepts(w, w.chans[ch], w'.chans[ch], ch)
      && (w'.chans[ch].open == w.chans[ch].open && w'.chans[ch].closedAt == w.chans[ch].closedAt)
  {
    var w' := MeetStep(w, t, i, u, j);
    if w'.chans[ch].accepted != w.chans[ch].accepted {
      assert t in w.pcs && FromArm(ArmsOf(w.pcs[t])[i], ch, w.chans[ch], w'.chans[ch]);
    }
  }

  lemma ChanGoesOn(ls: seq<Label>, w: World, l: Label, ch: ChId)
    requires Stamped(ls, w) && ch in w.chans
    ensures ch in Act(w, l).chans && ChanStamped(ls + [l], ch, Act(w, l).chans[ch])
  {
    var c := w.chans[ch];
    assert ChanStamped(ls, ch, c);
    forall x | 0 <= x < |c.accepted| ensures BornAt(ls + [l], c.accepted[x].born, ch, c.accepted[x].item) {
      StampsLast(ls, l, c.accepted[x].born, ch, c.accepted[x].item);
    }
    StampsLast(ls, l, c.closedAt, ch, 0);
    match l
    case Go(t) => GoAccepts(w, t, ch); AcceptedStamped(ls, w, l, ch, Act(w, l).chans[ch]);
    case Fire(t, i) => FireAccepts(w, t, i, ch); AcceptedStamped(ls, w, l, ch, Act(w, l).chans[ch]);
    case Meet(t, i, u, j) => MeetAccepts(w, t, i, u, j, ch); AcceptedStamped(ls, w, l, ch, Act(w, l).chans[ch]);
    case _ => OtherChan(w, l, ch); assert (ls + [l])[|ls|] == l;
  }

  lemma OtherChan(w: World, l: Label, ch: ChId)
    requires ch in w.chans && !l.Go? && !l.Fire? && !l.Meet?
    ensures ch in Act(w, l).chans
    ensures var c, c' := w.chans[ch], Act(w, l).chans[ch];
      && c'.accepted == c.accepted
      && ((c'.open == c.open && c'.closedAt == c.closedAt) || (l.CloseStart? && l.ch == ch && c'.closedAt == w.now))
  {
  }

  lemma AcceptedStamped(ls: seq<Label>, w: World, l: Label, ch: ChId, c': Chan)
    requires Stamped(ls, w) && ch in w.chans && Accepts(w, w.chans[ch], c', ch)
    requires c'.open == w.chans[ch].open && c'.closedAt == w.chans[ch].closedAt
    ensures ChanStamped(ls + [l], ch, c')
  {
    var c := w.chans[ch];
    assert ChanStamped(ls, ch, c);
    StampsLast(ls, l, c.closedAt, ch, 0);
    forall x | 0 <= x < |c'.accepted| ensures BornAt(ls + [l], c'.accepted[x].born, ch, c'.accepted[x].item) {
      if c'.accepted == c.accepted || x < |c.accepted| {
        assert c'.accepted[x] == c.accepted[x] by { if c'.accepted != c.accepted { PrefixAt(c, c', x); } }
        StampsLast(ls, l, c.accepted[x].born, ch, c.accepted[x].item);
      } else {
        var t, i :| t in w.pcs && 0 <= i < |ArmsOf(w.pcs[t])| && FromArm(ArmsOf(w.pcs[t])[i], ch, c, c');
        assert PcStamped(ls, w.pcs[t]) && ArmStamped(ls, ArmsOf(w.pcs[t])[i]);
        StampsLast(ls, l, c'.accepted[x].born, ch, c'.accepted[x].item);
      }
    }
  }

  lemma PrefixAt(c: Chan, c': Chan, x: nat)
    requires |c.accepted| <= |c'.accepted| && c'.accepted[..|c.accepted|] == c.accepted && x < |c.accepted|
    ensures c'.accepted[x] == c.accepted[x]
  {
    assert c'.accepted[x] == c'.accepted[..|c.accepted|][x];
  }

  /** Thread `u` had this arm before. */
  predicate HadArm(w: World, u: Tid, i: nat, arm: Arm) {
    u in w.pcs && i < |ArmsOf(w.pcs[u])| && ArmsOf(w.pcs[u])[i] == arm
  }

  lemma GoArms(w: World, t: Tid, u: Tid, i: nat)
    requires u in GoStep(w, t, PcOf(w, t)).pcs && i < |ArmsOf(GoStep(w, t, PcOf(w, t)).pcs[u])|
    ensures HadArm(w, u, i, ArmsOf(GoStep(w, t, PcOf(w, t)).pcs[u])[i])
  {
  }

  lemma FireArms(w: World, t: Tid, k: nat, u: Tid, i: nat)
    requires u in FireStep(w, t, PcOf(w, t), k).pcs && i < |ArmsOf(FireStep(w, t, PcOf(w, t), k).pcs[u])|
    ensures HadArm(w, u, i, ArmsOf(FireStep(w, t, PcOf(w, t), k).pcs[u])[i])
  {
  }

  lemma MeetArms(w: World, t: Tid, k: nat, v: Tid, j: nat, u: Tid, i: nat)
    requires u in MeetStep(w, t, k, v, j).pcs && i < |ArmsOf(MeetStep(w, t, k, v, j).pcs[u])|
    ensures HadArm(w, u, i, ArmsOf(MeetStep(w, t, k, v, j).pcs[u])[i])
  {
  }

  /** The arm was taken over from an operation. */
  ghost predicate FromOp(w: World, arm: Arm) {
    exists o :: o in w.ops && arm == SendArm(w.ops[o].ch, w.ops[o].item, w.ops[o].born)
  }

  lemma SelectArms(w: World, t: Tid, refs: seq<OpRef>, timed: bool, u: Tid, i: nat)
    requires var w' := Act(w, Select(t, refs, timed)); u in w'.pcs && i < |ArmsOf(w'.pcs[u])|
    ensures var arm := ArmsOf(Act(w, Select(t, refs, timed)).pcs[u])[i];
      HadArm(w, u, i, arm) || arm.RecvArm? || FromOp(w, arm)
  {
    if u == t && PcOf(w, t).Idle? && refs != [] && forall k :: 0 <= k < |refs| ==> Known(w, refs[k]) {
      SelectStarts(w, t, refs, timed);
      if refs[i].SendRef? { assert refs[i].o in w.ops; }
    }
  }

  lemma OtherArms(w: World, l: Label, u: Tid, i: nat)
    requires !l.Go? && !l.Fire? && !l.Meet? && !l.Select?
    requires u in Act(w, l).pcs && i < |ArmsOf(Act(w, l).pcs[u])|
    ensures var arm := ArmsOf(Act(w, l).pcs[u])[i];
      HadArm(w, u, i, arm) || arm.RecvArm? || (arm.born == w.now && Clones(l, arm.ch, arm.item))
  {
  }

  /** The arms a step leaves with a thread: those it had (or one of them), or those it has just taken. */
  lemma ArmsComeFrom(w: World, l: Label, u: Tid, i: nat)
    requires u in Act(w, l).pcs && i < |ArmsOf(Act(w, l).pcs[u])|
    ensures var arm := ArmsOf(Act(w, l).pcs[u])[i];
      HadArm(w, u, i, arm) || arm.RecvArm? || (arm.born == w.now && Clones(l, arm.ch, arm.item)) || FromOp(w, arm)
  {
    match l
    case Go(t) => GoArms(w, t, u, i);
    case Fire(t, k) => FireArms(w, t, k, u, i);
    case Meet(t, k, v, j) => MeetArms(w, t, k, v, j, u, i);
    case Select(t, refs, timed) => SelectArms(w, t, refs, timed, u, i);
    case _ => OtherArms(w, l, u, i);
  }

  lemma PcsGoOn(ls: seq<Label>, w: World, l: Label, u: Tid)
    requires Stamped(ls, w) && u in Act(w, l).pcs
    ensures PcStamped(ls + [l], Act(w, l).pcs[u])
  {
    var pc := Act(w, l).pcs[u];
    forall i | 0 <= i < |ArmsOf(pc)| ensures ArmStamped(ls + [l], ArmsOf(pc)[i]) {
      var arm := ArmsOf(pc)[i];
      ArmsComeFrom(w, l, u, i);
      if arm.SendArm? {
        StampsLast(ls, l, arm.born, arm.ch, arm.item);
        if u in w.pcs { assert PcStamped(ls, w.pcs[u]); }
        if i < |ArmsOf(PcOf(w, u))| && ArmsOf(PcOf(w, u))[i] == arm { assert ArmStamped(ls, arm); }
      }
    }
  }

  lemma OpsGoOn(ls: seq<Label>, w: World, l: Label, o: OpId)
    requires Stamped(ls, w) && o in Act(w, l).ops
    ensures BornAt(ls + [l], Act(w, l).ops[o].born, Act(w, l).ops[o].ch, Act(w, l).ops[o].item)
  {
    if o in w.ops { StampsLast(ls, l, w.ops[o].born, w.ops[o].ch, w.ops[o].item); }
  }

  lemma NewChan(ls: seq<Label>, w: World, l: Label, ch: ChId)
    requires ch !in w.chans && ch in Act(w, l).chans
    ensures ChanStamped(ls + [l], ch, Act(w, l).chans[ch])
  {
  }

  lemma StepStamped(ls: seq<Label>, w: World, l: Label)
    requires Stamped(ls, w)
    ensures Stamped(ls + [l], Step(w, l))
  {
    var w' := Act(w, l);
    forall ch | ch in w'.chans ensures ChanStamped(ls + [l], ch, w'.chans[ch]) {
      if ch in w.chans { ChanGoesOn(ls, w, l, ch); } else { NewChan(ls, w, l, ch); }
    }
    forall u | u in w'.pcs ensures PcStamped(ls + [l], w'.pcs[u]) { PcsGoOn(ls, w, l, u); }
    forall o | o in w'.ops ensures BornAt(ls + [l], w'.ops[o].born, w'.ops[o].ch, w'.ops[o].item) {
      OpsGoOn(ls, w, l, o);
    }
  }

  lemma {:induction false} RunStamped(ls: seq<Label>)
    ensures Stamped(ls, Run(ls))
  {
    if ls != [] {
      var p, l := ls[..|ls| - 1], ls[|ls| - 1];
      RunStamped(p);
      StepStamped(p, Run(p), l);
      assert p + [l] == ls;
    }
  }

  /** The history of an accepted item: its handle was cloned for this very item and channel by a `send`, a `try_send` or
      a `send_op`; and if the channel is closed, that was before the `close()` that dropped the sender. */
  lemma AcceptedHistory(ls: seq<Label>, ch: ChId, x: nat) returns (i: nat, j: nat)
    requires ch in Run(ls).chans && x < |Run(ls).chans[ch].accepted|
    ensures i < |ls| && Clones(ls[i], ch, Run(ls).chans[ch].accepted[x].item)
    ensures !Run(ls).chans[ch].open ==> i < j < |ls| && ls[j].CloseStart? && ls[j].ch == ch
  {
    RunStamped(ls);
    var c := Run(ls).chans[ch];
    assert ChanStamped(ls, ch, c);
    assert BornAt(ls, c.accepted[x].born, ch, c.accepted[x].item);
    i, j := c.accepted[x].born, c.closedAt;
    if !c.open { OnlyOldHandlesAfterClose(ls, ch, x); }
  }
}
