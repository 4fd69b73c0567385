/** Closing never leaves anyone hanging, and each call does one thing. */
module ChannelClose {
  import opened Options
  import opened Channels
  import opened ChannelSafety

  // ------------------------------------------------------------------ one call, one effect

  /** No channel's queue or history differs. */
  predicate Untouched(w: World, w': World) {
    w'.chans == w.chans
  }

  /** Exactly the channel `ch` moved on, to `c'`. */
  predicate OnlyChanged(w: World, w': World, ch: ChId, c': Chan) {
    ch in w.chans && w'.chans == w.chans[ch := c']
  }

  /** What the step that ends call `k` of a thread at `pc` did to the channels: a send at arm `i` put exactly
      that arm's item on that arm's channel; a receive took exactly one item, the oldest, from its
      arm's channel; on a rendezvous channel the one item passes straight through. Any other outcome
      transferred nothing. */
  ghost predicate DidOneThing(w: World, w': World, pc: Pc, out: Out) {
    match out
    case Sent(i, ch) =>
      && i < |ArmsOf(pc)| && ArmsOf(pc)[i].SendArm? && ArmsOf(pc)[i].ch == ch && ch in w.chans
      && var m := Msg(pc.call, i, ArmsOf(pc)[i].item, ArmsOf(pc)[i].born);
         || OnlyChanged(w, w', ch, Push(w.chans[ch], m))
         || (w.chans[ch].cap == Some(0) && exists x :: OnlyChanged(w, w', ch, HandOver(w.chans[ch], m, x)))
    case Got(j, ch, m) =>
      && Receives(pc, j, ch) && ch in w.chans
      && (|| (w.chans[ch].buf != [] && m == w.chans[ch].buf[0] && OnlyChanged(w, w', ch, Pull(w.chans[ch], pc.call)))
          || (w.chans[ch].cap == Some(0) && OnlyChanged(w, w', ch, HandOver(w.chans[ch], m, pc.call))))
    case _ => Untouched(w, w')
  }

  lemma GoDidOneThing(w: World, t: Tid)
    requires Active(PcOf(w, t)) && PcOf(w, t).call !in w.outs
    requires PcOf(w, t).call in Step(w, Go(t)).outs
    ensures DidOneThing(w, Step(w, Go(t)), PcOf(w, t), Step(w, Go(t)).outs[PcOf(w, t).call])
  {
    var pc, w' := PcOf(w, t), Step(w, Go(t));
    assert w'.chans == GoStep(w, t, pc).chans && w'.outs == GoStep(w, t, pc).outs;
    match pc
    case Trying(call, SendArm(ch, item, born), block) =>
      if ch in w.chans && HasRoom(w.chans[ch]) { assert w'.outs[call] == Sent(0, ch); }
    case Trying(call, RecvArm(ch), block) =>
    case Draining(call, i, ch) =>
    case _ =>
  }

  lemma FireDidOneThing(w: World, t: Tid, i: nat)
    requires Active(PcOf(w, t)) && PcOf(w, t).call !in w.outs
    requires PcOf(w, t).call in Step(w, Fire(t, i)).outs
    ensures DidOneThing(w, Step(w, Fire(t, i)), PcOf(w, t), Step(w, Fire(t, i)).outs[PcOf(w, t).call])
  {
  }

  lemma MeetDidOneThing(w: World, t: Tid, i: nat, u: Tid, j: nat, v: Tid)
    requires Inv(w) && v in w.pcs && Active(w.pcs[v]) && w.pcs[v].call in Step(w, Meet(t, i, u, j)).outs
    ensures DidOneThing(w, Step(w, Meet(t, i, u, j)), w.pcs[v], Step(w, Meet(t, i, u, j)).outs[w.pcs[v].call])
  {
    var w' := Step(w, Meet(t, i, u, j));
    assert PcOk(w, w.pcs[v]);
    var p, q := PcOf(w, t), PcOf(w, u);
    var arm := ArmsOf(p)[i];
    var m := Msg(p.call, i, arm.item, arm.born);
    assert OnlyChanged(w, w', arm.ch, HandOver(w.chans[arm.ch], m, q.call));
    assert v == t || v == u;
  }

  /** A call that ends on its close arm or its timeout has transferred nothing. */
  lemma OtherStepsTransferNothing(w: World, l: Label, t: Tid)
    requires PcsOk(w) && t in w.pcs && Active(w.pcs[t]) && w.pcs[t].call in Act(w, l).outs
    requires !l.Go? && !l.Fire? && !l.Meet?
    ensures Untouched(w, Act(w, l))
    ensures !Act(w, l).outs[w.pcs[t].call].Sent? && !Act(w, l).outs[w.pcs[t].call].Got?
  {
    assert PcOk(w, w.pcs[t]);
  }

  /** `send`, `recv`, their `try_` forms and `select`, with any arms and any duplicates among them: the step
      on which a call ends does exactly one thing. */
  lemma EveryCallDoesOneThing(ls: seq<Label>, l: Label, t: Tid)
    requires t in Run(ls).pcs && Active(Run(ls).pcs[t])
    requires Run(ls).pcs[t].call in Step(Run(ls), l).outs
    ensures DidOneThing(Run(ls), Step(Run(ls), l), Run(ls).pcs[t], Step(Run(ls), l).outs[Run(ls).pcs[t].call])
  {
    var w := Run(ls);
    RunInv(ls);
    assert PcOk(w, w.pcs[t]);
    match l
    case Go(u) => OnlyOwnCallEnds(w, l, u, t); GoDidOneThing(w, t);
    case Fire(u, i) => OnlyOwnCallEnds(w, l, u, t); FireDidOneThing(w, t, i);
    case Meet(u, i, v, j) => MeetDidOneThing(w, u, i, v, j, t);
    case _ => OtherStepsTransferNothing(w, l, t);
  }

  lemma GoOuts(w: World, t: Tid)
    ensures forall k :: k in GoStep(w, t, PcOf(w, t)).outs ==>
              k in w.outs || (Active(PcOf(w, t)) && k == PcOf(w, t).call)
  {
  }

  lemma FireOuts(w: World, t: Tid, i: nat)
    ensures forall k :: k in FireStep(w, t, PcOf(w, t), i).outs ==>
              k in w.outs || (Active(PcOf(w, t)) && k == PcOf(w, t).call)
  {
  }

  lemma OnlyOwnCallEnds(w: World, l: Label, u: Tid, t: Tid)
    requires PcsOk(w) && (l == Go(u) || (l.Fire? && l.t == u))
    requires t in w.pcs && Active(w.pcs[t]) && w.pcs[t].call in Act(w, l).outs
    ensures u == t
  {
    assert PcOk(w, w.pcs[t]);
    if l.Go? { GoOuts(w, u); } else { FireOuts(w, u, l.i); }
  }

  // ------------------------------------------------------------------ closed and empty

  /** "Closed and empty" is raised only when the close has begun and the buffer was empty at that check,
      on a channel the call receives from. */
  lemma ClosedEmptyIsHonest(ls: seq<Label>, l: Label, t: Tid) returns (ch: ChId)
    requires t in Run(ls).pcs && Active(Run(ls).pcs[t])
    requires var k := Run(ls).pcs[t].call; k in Step(Run(ls), l).outs && Step(Run(ls), l).outs[k] == ClosedEmpty
    ensures ch in Run(ls).chans && !Run(ls).chans[ch].open && Run(ls).chans[ch].buf == []
    ensures exists j :: Receives(Run(ls).pcs[t], j, ch)
  {
    var w := Run(ls);
    RunInv(ls);
    assert PcOk(w, w.pcs[t]);
    EmptyComesFromReceive(w, l, t);
    OnlyOwnCallEnds(w, l, l.t, t);
    if l.Go? { ch := GoClosedEmpty(w, t); } else { ch := FireClosedEmpty(w, t, l.i); }
  }

  lemma EmptyComesFromReceive(w: World, l: Label, t: Tid)
    requires PcsOk(w) && t in w.pcs && Active(w.pcs[t])
    requires var k := w.pcs[t].call; k in Act(w, l).outs && Act(w, l).outs[k] == ClosedEmpty
    ensures l.Go? || l.Fire?
  {
    assert PcOk(w, w.pcs[t]);
  }

  lemma GoClosedEmpty(w: World, t: Tid) returns (ch: ChId)
    requires Inv(w) && t in w.pcs && Active(w.pcs[t])
    requires var k := w.pcs[t].call; k in GoStep(w, t, w.pcs[t]).outs && GoStep(w, t, w.pcs[t]).outs[k] == ClosedEmpty
    ensures ch in w.chans && !w.chans[ch].open && w.chans[ch].buf == [] && exists j :: Receives(w.pcs[t], j, ch)
  {
    var pc := w.pcs[t];
    assert PcOk(w, pc);
    if pc.Draining? {
      ch := pc.ch;
      assert CloseOk(w, w.chans[ch]) && Receives(pc, pc.i, ch);
    } else {
      ch := pc.arm.ch;
      assert Receives(pc, 0, ch);
    }
  }

  lemma FireClosedEmpty(w: World, t: Tid, i: nat) returns (ch: ChId)
    requires Inv(w) && t in w.pcs && Active(w.pcs[t])
    requires var k := w.pcs[t].call; var w' := FireStep(w, t, w.pcs[t], i); k in w'.outs && w'.outs[k] == ClosedEmpty
    ensures ch in w.chans && !w.chans[ch].open && w.chans[ch].buf == [] && exists j :: Receives(w.pcs[t], j, ch)
  {
    var pc := w.pcs[t];
    assert PcOk(w, pc);
    ch := pc.arms[i].ch;
    assert Receives(pc, i, ch);
  }

  // ------------------------------------------------------------------ no hang

  /** How many own steps a thread inside a call is at most away from its end, once its wait can be broken. */
  function Rank(pc: Pc): nat {
    match pc
    case Idle => 0
    case Closing(_) => 1
    case Draining(_, _, _) => 1
    case Waiting(_, _, _) => 2
    case Trying(_, _, _) => 3
  }

  /** `close()` has completed on some channel the thread has an arm on. */
  predicate Released(w: World, pc: Pc) {
    pc.Waiting? || pc.Trying? ==>
      exists i :: 0 <= i < |ArmsOf(pc)| && ArmsOf(pc)[i].ch in w.chans && !w.chans[ArmsOf(pc)[i].ch].signal
  }

  lemma GoMovesOn(w: World, t: Tid)
    requires PcOk(w, PcOf(w, t)) && !PcOf(w, t).Idle? && !PcOf(w, t).Waiting? && Released(w, PcOf(w, t))
    ensures var w' := Step(w, Go(t));
            Rank(PcOf(w', t)) < Rank(PcOf(w, t)) && Released(w', PcOf(w', t))
  {
    var pc := PcOf(w, t);
    if pc.Trying? {
      assert ArmOk(w, ArmsOf(pc)[0]);
      var w' := Step(w, Go(t));
      if PcOf(w', t).Waiting? {
        assert ArmsOf(PcOf(w', t))[0] == pc.arm && w'.chans == w.chans;
      }
    }
  }

  lemma SignalMovesOn(w: World, t: Tid, i: nat)
    requires PcOf(w, t).Waiting? && i < |PcOf(w, t).arms| && PcOf(w, t).arms[i].ch in w.chans
    requires !w.chans[PcOf(w, t).arms[i].ch].signal
    ensures var w' := Step(w, Signal(t, i)); PcOf(w', t).Idle? || PcOf(w', t).Draining?
  {
  }

  /** A step of thread `t` itself that brings its call closer to the end and leaves it released. */
  ghost predicate MovesOn(w: World, t: Tid, l: Label) {
    && OwnStep(l, t)
    && Rank(PcOf(Step(w, l), t)) < Rank(PcOf(w, t))
    && Released(Step(w, l), PcOf(Step(w, l), t))
  }

  predicate OwnStep(l: Label, t: Tid) {
    (l.Go? || l.Signal?) && l.t == t
  }

  /** Whoever is inside a call on a channel whose close has completed has an enabled step; each brings the
      call closer to its end and leaves it released. */
  lemma NoHang(ls: seq<Label>, t: Tid) returns (l: Label)
    requires !PcOf(Run(ls), t).Idle? && Released(Run(ls), PcOf(Run(ls), t))
    ensures MovesOn(Run(ls), t, l)
  {
    var w := Run(ls);
    RunInv(ls);
    assert PcOk(w, PcOf(w, t));
    if PcOf(w, t).Waiting? {
      var arms := ArmsOf(PcOf(w, t));
      var i :| 0 <= i < |arms| && arms[i].ch in w.chans && !w.chans[arms[i].ch].signal;
      l := Signal(t, i);
      SignalMovesOn(w, t, i);
    } else {
      l := Go(t);
      GoMovesOn(w, t);
    }
  }

  lemma RunSnoc(ls: seq<Label>, l: Label)
    ensures Run(ls + [l]) == Step(Run(ls), l)
  {
    assert (ls + [l])[..|ls|] == ls;
  }

  /** Once `close()` has completed, every pending `send`, `recv` or `select` on the channel, and `close` itself,
      can be run to its end by at most three steps of its own thread. */
  lemma {:induction false} CloseLetsEveryoneFinish(ls: seq<Label>, t: Tid) returns (more: seq<Label>)
    requires Released(Run(ls), PcOf(Run(ls), t))
    ensures |more| <= Rank(PcOf(Run(ls), t)) && forall i :: 0 <= i < |more| ==> OwnStep(more[i], t)
    ensures PcOf(Run(ls + more), t).Idle?
    decreases Rank(PcOf(Run(ls), t))
  {
    if PcOf(Run(ls), t).Idle? {
      more := [];
      assert ls + more == ls;
    } else {
      var l := NoHang(ls, t);
      RunSnoc(ls, l);
      assert MovesOn(Run(ls), t, l);
      var rest := CloseLetsEveryoneFinish(ls + [l], t);
      more := [l] + rest;
      assert ls + more == ls + [l] + rest;
      assert |rest| <= Rank(PcOf(Run(ls + [l]), t));
    }
  }

  /** A closed sender stays closed, and a completed close stays completed. */
  lemma ClosedStaysClosed(w: World, l: Label, ch: ChId)
    requires ch in w.chans
    ensures ch in Step(w, l).chans
    ensures !w.chans[ch].signal ==> !Step(w, l).chans[ch].signal
    ensures !w.chans[ch].open ==> !Step(w, l).chans[ch].open
  {
    match l
    case Go(t) => GoKeepsFlags(w, t, ch);
    case Fire(t, i) => FireKeepsFlags(w, t, i, ch);
    case Meet(t, i, u, j) => MeetKeepsFlags(w, t, i, u, j, ch);
    case _ =>
  }

  lemma FireKeepsFlags(w: World, t: Tid, i: nat, ch: ChId)
    requires ch in w.chans
    ensures var w' := FireStep(w, t, PcOf(w, t), i);
            ch in w'.chans && w'.chans[ch].signal == w.chans[ch].signal && w'.chans[ch].open == w.chans[ch].open
  {
  }

  lemma MeetKeepsFlags(w: World, t: Tid, i: nat, u: Tid, j: nat, ch: ChId)
    requires ch in w.chans
    ensures var w' := MeetStep(w, t, i, u, j);
            ch in w'.chans && w'.chans[ch].signal == w.chans[ch].signal && w'.chans[ch].open == w.chans[ch].open
  {
  }

  lemma GoKeepsFlags(w: World, t: Tid, ch: ChId)
    requires ch in w.chans
    ensures var w' := GoStep(w, t, PcOf(w, t));
            ch in w'.chans && (!w.chans[ch].signal ==> !w'.chans[ch].signal) && w'.chans[ch].open == w.chans[ch].open
  {
  }

  /** No step of anybody sets a call in progress back: so after the close every call on the channel ends
      within three steps of its own. */
  lemma NoStepSetsBack(w: World, l: Label, t: Tid)
    requires !PcOf(w, t).Idle?
    ensures Rank(PcOf(Step(w, l), t)) <= Rank(PcOf(w, t))
  {
    match l
    case Go(u) => GoNeverBack(w, u, t);
    case Fire(u, i) => FireNeverBack(w, u, i, t);
    case Meet(u, i, v, j) => MeetNeverBack(w, u, i, v, j, t);
    case _ =>
  }

  lemma FireNeverBack(w: World, u: Tid, i: nat, t: Tid)
    ensures Rank(PcOf(FireStep(w, u, PcOf(w, u), i), t)) <= Rank(PcOf(w, t))
  {
  }

  lemma MeetNeverBack(w: World, u: Tid, i: nat, v: Tid, j: nat, t: Tid)
    ensures Rank(PcOf(MeetStep(w, u, i, v, j), t)) <= Rank(PcOf(w, t))
  {
  }

  lemma GoNeverBack(w: World, u: Tid, t: Tid)
    ensures Rank(PcOf(GoStep(w, u, PcOf(w, u)), t)) <= Rank(PcOf(w, t))
  {
  }
}
