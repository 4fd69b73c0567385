/** Conservation, FIFO order, one outcome per call, and close safety, in every run. */
module ChannelSafety {
  import opened Options
  import opened ChannelTypes
  import opened Channels

  function Tick(w: World, w': World): World {
    w'.(now := w.now + 1)
  }

  /** The call `k` belongs to thread `t` alone: it just started or it is the one `t` is in. */
  predicate Owns(w: World, t: Tid, k: CallId) {
    || k == w.now
    || (Active(PcOf(w, t)) && PcOf(w, t).call == k)
  }

  lemma OwnedCallIsOpen(w: World, t: Tid, k: CallId)
    requires Inv(w) && Owns(w, t, k)
    ensures k !in w.outs && k <= w.now
    ensures forall u :: u in w.pcs && u != t && Active(w.pcs[u]) ==> w.pcs[u].call != k
    ensures forall ch, x :: ch in w.chans && 0 <= x < |w.chans[ch].accepted| ==> w.chans[ch].accepted[x].call != k
    ensures forall ch, x :: ch in w.chans && 0 <= x < |w.chans[ch].takers| ==> w.chans[ch].takers[x] != k
  {
    assert forall u :: u in w.pcs ==> PcOk(w, w.pcs[u]);
    if k == w.now {
      assert k !in w.outs;
    } else {
      assert PcOk(w, w.pcs[t]);
    }
    forall ch, x | ch in w.chans && 0 <= x < |w.chans[ch].accepted| ensures w.chans[ch].accepted[x].call != k {
      assert LedgerOk(w, ch, w.chans[ch]);
    }
    forall ch, x | ch in w.chans && 0 <= x < |w.chans[ch].takers| ensures w.chans[ch].takers[x] != k {
      assert LedgerOk(w, ch, w.chans[ch]) && Fifo(w.chans[ch]);
    }
  }

  lemma ParkOk(w: World, t: Tid, pc: Pc)
    requires Inv(w) && PcOk(Tick(w, w), pc) && (Active(pc) ==> Owns(w, t, pc.call))
    ensures Inv(Tick(w, Park(w, t, pc)))
  {
    if Active(pc) { OwnedCallIsOpen(w, t, pc.call); }
    var w' := Tick(w, Park(w, t, pc));
    Later(w, w');
    forall u | u in w'.pcs ensures PcOk(w', w'.pcs[u]) {
      if u != t { assert PcOk(w, w.pcs[u]); }
    }
  }

  /** Time alone disturbs no channel, operation or outcome. */
  lemma Later(w: World, w': World)
    requires ChansOk(w) && OpsOk(w) && OutsOk(w)
    requires w'.chans == w.chans && w'.ops == w.ops && w'.outs == w.outs && w.now <= w'.now
    ensures ChansOk(w') && OpsOk(w') && OutsOk(w')
  {
    forall ch | ch in w.chans ensures LedgerOk(w', ch, w.chans[ch]) && CloseOk(w', w.chans[ch]) {
      assert LedgerOk(w, ch, w.chans[ch]) && CloseOk(w, w.chans[ch]);
    }
    forall k | k in w.outs ensures OutOk(w', k, w.outs[k]) { assert OutOk(w, k, w.outs[k]); }
  }

  /** What ending call `k` of thread `t` leaves of the threads, the ops and the other outcomes. */
  lemma EndFrame(w: World, t: Tid, k: CallId, out: Out)
    requires Inv(w) && Owns(w, t, k)
    ensures var w' := Tick(w, End(w, t, k, out)); PcsOk(w') && OpsOk(w')
  {
    OwnedCallIsOpen(w, t, k);
  }

  lemma EndOk(w: World, t: Tid, k: CallId, out: Out)
    requires Inv(w) && Owns(w, t, k) && !out.Sent? && !out.Got?
    ensures Inv(Tick(w, End(w, t, k, out)))
  {
    OwnedCallIsOpen(w, t, k);
    EndFrame(w, t, k, out);
    var w' := Tick(w, End(w, t, k, out));
    forall ch | ch in w'.chans ensures LedgerOk(w', ch, w'.chans[ch]) {
      assert LedgerOk(w, ch, w.chans[ch]);
    }
  }

  /** `c'` continues `c`: same flags, longer history. */
  predicate Continues(c: Chan, c': Chan) {
    && c'.cap == c.cap && c'.open == c.open && c'.signal == c.signal && c'.closedAt == c.closedAt
    && |c.accepted| <= |c'.accepted| && c'.accepted[..|c.accepted|] == c.accepted
    && |c.delivered| <= |c'.delivered| && c'.delivered[..|c.delivered|] == c.delivered
    && |c.takers| <= |c'.takers| && c'.takers[..|c.takers|] == c.takers
  }

  /** Replacing one channel by a continuation leaves threads, ops and old outcomes in order. */
  lemma ContinueFrame(w: World, ch: ChId, c': Chan)
    requires Inv(w) && ch in w.chans && Continues(w.chans[ch], c')
    ensures var w' := w.(chans := w.chans[ch := c']); PcsOk(w') && OpsOk(w') && OutsOk(w')
  {
    var w' := w.(chans := w.chans[ch := c']);
    forall t | t in w.pcs ensures PcOk(w', w.pcs[t]) {
      assert PcOk(w, w.pcs[t]);
    }
    forall k | k in w.outs ensures OutOk(w', k, w.outs[k]) {
      OutContinues(w, ch, c', k);
    }
  }

  lemma OutContinues(w: World, ch: ChId, c': Chan, k: CallId)
    requires ch in w.chans && Continues(w.chans[ch], c') && k in w.outs && OutOk(w, k, w.outs[k])
    ensures OutOk(w.(chans := w.chans[ch := c']), k, w.outs[k])
  {
    var out := w.outs[k];
    if (out.Sent? || out.Got?) && out.ch == ch {
      var c := w.chans[ch];
      assert forall x :: 0 <= x < |c.accepted| ==> c'.accepted[x] == c'.accepted[..|c.accepted|][x];
      assert forall x :: 0 <= x < |c.delivered| ==> c'.delivered[x] == c'.delivered[..|c.delivered|][x];
      assert forall x :: 0 <= x < |c.takers| ==> c'.takers[x] == c'.takers[..|c.takers|][x];
      if out.Sent? {
        var x :| 0 <= x < |c.accepted| && c.accepted[x].call == k && c.accepted[x].arm == out.i;
        assert c'.accepted[x].call == k && c'.accepted[x].arm == out.i;
      } else {
        var x :| 0 <= x < |c.delivered| && x < |c.takers| && c.takers[x] == k && c.delivered[x] == out.msg;
        assert c'.takers[x] == k && c'.delivered[x] == out.msg;
      }
    }
  }

  /** `EndFrame` for a world whose channels have already moved on. */
  lemma EndThreads(w: World, t: Tid, k: CallId, out: Out)
    requires PcsOk(w) && OpsOk(w)
    requires k == w.now || (Active(PcOf(w, t)) && PcOf(w, t).call == k)
    ensures var w' := End(w, t, k, out).(now := w.now + 1); PcsOk(w') && OpsOk(w')
  {
    assert forall u :: u in w.pcs ==> PcOk(w, w.pcs[u]);
  }

  /** Outcomes are only added. */
  predicate Keeps(w: World, w': World) {
    && w.now <= w'.now
    && forall k :: k in w.outs ==> k in w'.outs && w'.outs[k] == w.outs[k]
  }

  /** One channel has moved on to `c'` and some calls have ended; the other channels are as before. */
  lemma ChansAdvance(w: World, w': World, ch: ChId, c': Chan)
    requires ChansOk(w) && Keeps(w, w') && ch in w.chans && w'.chans == w.chans[ch := c']
    requires Fifo(c') && CloseOk(w', c') && LedgerOk(w', ch, c')
    ensures ChansOk(w')
  {
    forall x | x in w'.chans && x != ch
      ensures LedgerOk(w', x, w'.chans[x]) && CloseOk(w', w'.chans[x]) && Fifo(w'.chans[x])
    {
      assert LedgerOk(w, x, w.chans[x]) && CloseOk(w, w.chans[x]);
    }
  }

  lemma LedgerKeeps(w: World, w': World, ch: ChId, c: Chan)
    requires LedgerOk(w, ch, c) && Keeps(w, w')
    ensures LedgerOk(w', ch, c)
  {
  }

  lemma PushLedger(w: World, ch: ChId, c: Chan, m: Msg)
    requires LedgerOk(w, ch, c) && m.call in w.outs && w.outs[m.call] == Sent(m.arm, ch)
    requires forall x :: 0 <= x < |c.accepted| ==> c.accepted[x].call != m.call
    ensures LedgerOk(w, ch, Push(c, m)) && LedgerOk(w, ch, c.(accepted := c.accepted + [m]))
  {
  }

  lemma DeliverLedger(w: World, ch: ChId, c: Chan, m: Msg, k: CallId)
    requires LedgerOk(w, ch, c) && |c.takers| == |c.delivered|
    requires k in w.outs && w.outs[k].Got? && w.outs[k].ch == ch && w.outs[k].msg == m
    requires forall x :: 0 <= x < |c.takers| ==> c.takers[x] != k
    ensures LedgerOk(w, ch, c.(delivered := c.delivered + [m], takers := c.takers + [k]))
  {
  }

  lemma BufLedger(w: World, ch: ChId, c: Chan, buf: seq<Msg>)
    requires LedgerOk(w, ch, c)
    ensures LedgerOk(w, ch, c.(buf := buf))
  {
  }

  /** Old outcomes stay justified when a channel continues; the new ones are justified by its history. */
  lemma OutsAdvance(w: World, w': World, ch: ChId, c': Chan, k: CallId, u: CallId)
    requires Inv(w) && ch in w.chans && Continues(w.chans[ch], c') && w'.chans == w.chans[ch := c']
    requires Keeps(w, w') && w'.outs.Keys == w.outs.Keys + {k, u} && k < w'.now && u < w'.now
    requires OutOk(w', k, w'.outs[k]) && OutOk(w', u, w'.outs[u])
    ensures OutsOk(w')
  {
    forall x | x in w'.outs ensures x < w'.now && OutOk(w', x, w'.outs[x]) {
      if x != k && x != u {
        assert OutOk(w, x, w.outs[x]);
        OutContinues(w, ch, c', x);
      }
    }
  }

  lemma AcceptChans(w: World, w': World, c: Chan, ch: ChId, m: Msg)
    requires ChansOk(w) && Keeps(w, w') && w.now < w'.now && ch in w.chans && c == w.chans[ch]
    requires w'.chans == w.chans[ch := Push(c, m)] && HasRoom(c) && HandleOk(w, c, m.born)
    requires m.call in w'.outs && w'.outs[m.call] == Sent(m.arm, ch)
    requires forall x :: 0 <= x < |c.accepted| ==> c.accepted[x].call != m.call
    ensures ChansOk(w')
  {
    assert Fifo(c) && CloseOk(w, c) && LedgerOk(w, ch, c);
    LedgerKeeps(w, w', ch, c);
    PushLedger(w', ch, c, m);
    ChansAdvance(w, w', ch, Push(c, m));
  }

  /** Channel `ch` moves on to `c'` and call `k` of thread `t` ends: threads, operations and outcomes stay in order. */
  lemma EndRest(w: World, t: Tid, k: CallId, out: Out, ch: ChId, c': Chan)
    requires Inv(w) && Owns(w, t, k) && ch in w.chans && Continues(w.chans[ch], c')
    requires OutOk(w.(chans := w.chans[ch := c']), k, out)
    ensures var w' := Tick(w, End(w.(chans := w.chans[ch := c']), t, k, out)); PcsOk(w') && OpsOk(w') && OutsOk(w')
  {
    var w' := Tick(w, End(w.(chans := w.chans[ch := c']), t, k, out));
    OwnedCallIsOpen(w, t, k);
    ContinueFrame(w, ch, c');
    EndThreads(w.(chans := w.chans[ch := c']), t, k, out);
    OutsAdvance(w, w', ch, c', k, k);
  }

  lemma AcceptOk(w: World, t: Tid, k: CallId, i: nat, arm: Arm)
    requires Inv(w) && Owns(w, t, k) && arm.SendArm? && ArmOk(w, arm) && HasRoom(w.chans[arm.ch])
    ensures Inv(Tick(w, Accept(w, t, k, i, arm)))
  {
    var m := Msg(k, i, arm.item, arm.born);
    var c := w.chans[arm.ch];
    OwnedCallIsOpen(w, t, k);
    AcceptChans(w, Tick(w, Accept(w, t, k, i, arm)), c, arm.ch, m);
    assert Push(c, m).accepted[|c.accepted|] == m;
    EndRest(w, t, k, Sent(i, arm.ch), arm.ch, Push(c, m));
  }

  lemma TakeChans(w: World, w': World, c: Chan, ch: ChId, k: CallId, i: nat)
    requires ChansOk(w) && Keeps(w, w') && w.now < w'.now && ch in w.chans && c == w.chans[ch]
    requires c.buf != [] && w'.chans == w.chans[ch := Pull(c, k)]
    requires k in w'.outs && w'.outs[k] == Got(i, ch, c.buf[0])
    requires forall x :: 0 <= x < |c.takers| ==> c.takers[x] != k
    ensures ChansOk(w')
  {
    var c' := Pull(c, k);
    assert Fifo(c) && CloseOk(w, c) && LedgerOk(w, ch, c);
    assert c.delivered + c.buf == c'.delivered + c'.buf;
    LedgerKeeps(w, w', ch, c);
    DeliverLedger(w', ch, c, c.buf[0], k);
    BufLedger(w', ch, c.(delivered := c'.delivered, takers := c'.takers), c'.buf);
    ChansAdvance(w, w', ch, c');
  }

  lemma TakeOk(w: World, t: Tid, k: CallId, i: nat, ch: ChId)
    requires Inv(w) && Owns(w, t, k) && ch in w.chans && w.chans[ch].buf != []
    ensures Inv(Tick(w, Take(w, t, k, i, ch)))
  {
    var c := w.chans[ch];
    var c' := Pull(c, k);
    OwnedCallIsOpen(w, t, k);
    TakeChans(w, Tick(w, Take(w, t, k, i, ch)), c, ch, k, i);
    assert Fifo(c);
    assert c'.delivered[|c.delivered|] == c.buf[0] && c'.takers[|c.takers|] == k;
    EndRest(w, t, k, Got(i, ch, c.buf[0]), ch, c');
  }

  /** A rendezvous ends two calls at once. */
  lemma MeetOk(w: World, t: Tid, i: nat, u: Tid, j: nat)
    requires Inv(w)
    ensures Inv(Tick(w, MeetStep(w, t, i, u, j)))
  {
    var p, q := PcOf(w, t), PcOf(w, u);
    if MeetStep(w, t, i, u, j) == w {
      TickOk(w);
    } else {
      var arm := ArmsOf(p)[i];
      assert PcOk(w, p) && PcOk(w, q) && ArmOk(w, arm);
      HandOverOk(w, t, i, u, j, arm);
    }
  }

  lemma TickOk(w: World)
    requires Inv(w)
    ensures Inv(Tick(w, w))
  {
  }

  /** The world after thread `t`'s arm `arm` has met a receive arm of thread `u`. */
  function Met(w: World, t: Tid, i: nat, u: Tid, j: nat, arm: Arm): World
    requires Active(PcOf(w, t)) && Active(PcOf(w, u)) && arm.SendArm? && arm.ch in w.chans
  {
    var k, x := PcOf(w, t).call, PcOf(w, u).call;
    var m := Msg(k, i, arm.item, arm.born);
    var w1 := w.(chans := w.chans[arm.ch := HandOver(w.chans[arm.ch], m, x)]);
    Tick(w, End(End(w1, t, k, Sent(i, arm.ch)), u, x, Got(j, arm.ch, m)))
  }

  lemma HandOverChans(w: World, t: Tid, i: nat, u: Tid, j: nat, arm: Arm)
    requires Inv(w) && t != u && Active(PcOf(w, t)) && Active(PcOf(w, u))
    requires arm.SendArm? && ArmOk(w, arm) && w.chans[arm.ch].cap == Some(0)
    ensures ChansOk(Met(w, t, i, u, j, arm))
  {
    var k, x := PcOf(w, t).call, PcOf(w, u).call;
    var m := Msg(k, i, arm.item, arm.born);
    var c := w.chans[arm.ch];
    OwnedCallIsOpen(w, t, k);
    OwnedCallIsOpen(w, u, x);
    assert Fifo(c) && CloseOk(w, c) && LedgerOk(w, arm.ch, c);
    HandOverChan(w, Met(w, t, i, u, j, arm), arm.ch, c, m, x);
    ChansAdvance(w, Met(w, t, i, u, j, arm), arm.ch, HandOver(c, m, x));
  }

  lemma MetFacts(w: World, t: Tid, i: nat, u: Tid, j: nat, arm: Arm)
    requires Active(PcOf(w, t)) && Active(PcOf(w, u)) && arm.SendArm? && arm.ch in w.chans
    requires var k, x := PcOf(w, t).call, PcOf(w, u).call; k != x && k !in w.outs && x !in w.outs
    ensures var k, x, w' := PcOf(w, t).call, PcOf(w, u).call, Met(w, t, i, u, j, arm);
            var m := Msg(k, i, arm.item, arm.born);
            && w'.chans == w.chans[arm.ch := HandOver(w.chans[arm.ch], m, x)] && w'.now == w.now + 1
            && Keeps(w, w') && w'.outs.Keys == w.outs.Keys + {k, x}
            && w'.outs[k] == Sent(i, arm.ch) && w'.outs[x] == Got(j, arm.ch, m)
  {
  }

  lemma HandOverOuts(w: World, t: Tid, i: nat, u: Tid, j: nat, arm: Arm)
    requires Inv(w) && t != u && Active(PcOf(w, t)) && Active(PcOf(w, u))
    requires arm.SendArm? && ArmOk(w, arm)
    ensures OutsOk(Met(w, t, i, u, j, arm))
  {
    var k, x := PcOf(w, t).call, PcOf(w, u).call;
    var w' := Met(w, t, i, u, j, arm);
    var c := w.chans[arm.ch];
    var m := Msg(k, i, arm.item, arm.born);
    OwnedCallIsOpen(w, t, k);
    OwnedCallIsOpen(w, u, x);
    MetFacts(w, t, i, u, j, arm);
    assert Fifo(c);
    HandedOver(w, w', arm.ch, m, x, j);
    HandOverContinues(c, m, x);
    OutsAdvance(w, w', arm.ch, HandOver(c, m, x), k, x);
  }

  lemma HandOverContinues(c: Chan, m: Msg, x: CallId)
    ensures Continues(c, HandOver(c, m, x))
  {
  }

  lemma HandedOver(w: World, w': World, ch: ChId, m: Msg, x: CallId, j: nat)
    requires ch in w.chans && |w.chans[ch].takers| == |w.chans[ch].delivered|
    requires w'.chans == w.chans[ch := HandOver(w.chans[ch], m, x)]
    ensures OutOk(w', m.call, Sent(m.arm, ch)) && OutOk(w', x, Got(j, ch, m))
  {
    var c, c' := w.chans[ch], w'.chans[ch];
    assert c'.accepted[|c.accepted|] == m && c'.delivered[|c.delivered|] == m && c'.takers[|c.takers|] == x;
  }

  lemma HandOverThreads(w: World, t: Tid, i: nat, u: Tid, j: nat, arm: Arm)
    requires Inv(w) && t != u && Active(PcOf(w, t)) && Active(PcOf(w, u))
    requires arm.SendArm? && ArmOk(w, arm)
    ensures PcsOk(Met(w, t, i, u, j, arm)) && OpsOk(Met(w, t, i, u, j, arm))
  {
    var k, x := PcOf(w, t).call, PcOf(w, u).call;
    var m := Msg(k, i, arm.item, arm.born);
    var c' := HandOver(w.chans[arm.ch], m, x);
    HandOverContinues(w.chans[arm.ch], m, x);
    ContinueFrame(w, arm.ch, c');
    TwoEndThreads(w.(chans := w.chans[arm.ch := c']), t, k, Sent(i, arm.ch), u, x, Got(j, arm.ch, m));
  }

  lemma HandOverOk(w: World, t: Tid, i: nat, u: Tid, j: nat, arm: Arm)
    requires Inv(w) && t != u && Active(PcOf(w, t)) && Active(PcOf(w, u))
    requires arm.SendArm? && ArmOk(w, arm) && w.chans[arm.ch].cap == Some(0)
    ensures Inv(Met(w, t, i, u, j, arm))
  {
    HandOverChans(w, t, i, u, j, arm);
    HandOverOuts(w, t, i, u, j, arm);
    HandOverThreads(w, t, i, u, j, arm);
  }

  lemma HandOverChan(w: World, w': World, ch: ChId, c: Chan, m: Msg, x: CallId)
    requires Fifo(c) && CloseOk(w, c) && LedgerOk(w, ch, c) && c.cap == Some(0) && HandleOk(w, c, m.born)
    requires Keeps(w, w') && m.call in w'.outs && w'.outs[m.call] == Sent(m.arm, ch)
    requires x in w'.outs && w'.outs[x].Got? && w'.outs[x].ch == ch && w'.outs[x].msg == m
    requires forall y :: 0 <= y < |c.accepted| ==> c.accepted[y].call != m.call
    requires forall y :: 0 <= y < |c.takers| ==> c.takers[y] != x
    ensures var c' := HandOver(c, m, x);
            && Fifo(c') && CloseOk(w', c') && LedgerOk(w', ch, c')
            && c'.accepted[|c.accepted|] == m && c'.delivered[|c.delivered|] == m && c'.takers[|c.takers|] == x
  {
    var c' := HandOver(c, m, x);
    assert c.buf == [];
    LedgerKeeps(w, w', ch, c);
    PushLedger(w', ch, c, m);
    DeliverLedger(w', ch, c.(accepted := c'.accepted), m, x);
    assert c'.accepted == c'.delivered + c'.buf;
  }

  lemma TwoEndThreads(w: World, t: Tid, k: CallId, a: Out, u: Tid, x: CallId, b: Out)
    requires PcsOk(w) && OpsOk(w) && t != u
    requires Active(PcOf(w, t)) && PcOf(w, t).call == k && Active(PcOf(w, u)) && PcOf(w, u).call == x
    ensures var w' := End(End(w, t, k, a), u, x, b).(now := w.now + 1); PcsOk(w') && OpsOk(w')
  {
    var w' := End(End(w, t, k, a), u, x, b).(now := w.now + 1);
    forall y | y in w'.pcs ensures PcOk(w', w'.pcs[y]) {
      if y != t && y != u { assert PcOk(w, w.pcs[y]); }
    }
  }

  // ------------------------------------------------------------------ channels opened, signalled, closed

  lemma NewRest(w: World, w': World, ch: ChId)
    requires PcsOk(w) && OpsOk(w) && OutsOk(w) && ch !in w.chans && ch in w'.chans
    requires w'.chans == w.chans[ch := w'.chans[ch]] && w'.now == w.now + 1
    requires w'.pcs == w.pcs && w'.ops == w.ops && w'.outs == w.outs
    ensures PcsOk(w') && OpsOk(w') && OutsOk(w')
  {
    forall t | t in w.pcs ensures PcOk(w', w.pcs[t]) { assert PcOk(w, w.pcs[t]); }
    forall k | k in w.outs ensures OutOk(w', k, w.outs[k]) { assert OutOk(w, k, w.outs[k]); }
  }

  lemma NewOk(w: World, ch: ChId, cap: Option<nat>)
    requires Inv(w) && ch !in w.chans
    ensures Inv(Tick(w, w.(chans := w.chans[ch := Chan(cap, true, true, [], [], [], [], 0)])))
  {
    var w' := Tick(w, w.(chans := w.chans[ch := Chan(cap, true, true, [], [], [], [], 0)]));
    NewRest(w, w', ch);
    forall x | x in w'.chans ensures Fifo(w'.chans[x]) && LedgerOk(w', x, w'.chans[x]) && CloseOk(w', w'.chans[x]) {
      if x != ch { assert Fifo(w.chans[x]) && LedgerOk(w, x, w.chans[x]) && CloseOk(w, w.chans[x]); }
    }
  }

  /** Lowering the flags of a channel: `c'` has the same history, and no live handle is younger than the close. */
  lemma FlagsOk(w: World, t: Tid, ch: ChId, c': Chan, pc: Pc)
    requires Inv(w) && ch in w.chans && !Active(PcOf(w, t)) && !Active(pc)
    requires var c := w.chans[ch]; c' == c.(open := c'.open, signal := c'.signal, closedAt := c'.closedAt)
    requires !c'.open && (!w.chans[ch].signal ==> !c'.signal)
    requires c'.closedAt == if w.chans[ch].open then w.now else w.chans[ch].closedAt
    requires pc.Closing? ==> pc.ch == ch
    ensures Inv(Tick(w, Park(w.(chans := w.chans[ch := c']), t, pc)))
  {
    var w' := Tick(w, Park(w.(chans := w.chans[ch := c']), t, pc));
    assert CloseOk(w, w.chans[ch]) && LedgerOk(w, ch, w.chans[ch]) && Fifo(w.chans[ch]);
    FlagsKeepPcs(w, w', t, ch);
    FlagsKeepOuts(w, w', ch, c');
    ChansAdvance(w, w', ch, c');
  }

  lemma FlagsKeepPcs(w: World, w': World, t: Tid, ch: ChId)
    requires PcsOk(w) && OpsOk(w) && ch in w.chans && ch in w'.chans && w'.chans == w.chans[ch := w'.chans[ch]]
    requires w'.now > w.now && w'.outs == w.outs && w'.ops == w.ops && t in w'.pcs && w'.pcs == w.pcs[t := w'.pcs[t]]
    requires !Active(w'.pcs[t]) && (w'.pcs[t].Closing? ==> w'.pcs[t].ch == ch)
    requires var c, c' := w.chans[ch], w'.chans[ch];
             !c'.open && (!c.signal ==> !c'.signal) && c'.closedAt == if c.open then w.now else c.closedAt
    ensures PcsOk(w') && OpsOk(w')
  {
    forall u | u in w'.pcs ensures PcOk(w', w'.pcs[u]) {
      if u != t { assert PcOk(w, w.pcs[u]); }
    }
  }

  lemma FlagsKeepOuts(w: World, w': World, ch: ChId, c': Chan)
    requires OutsOk(w) && ch in w.chans && w'.chans == w.chans[ch := c'] && w'.outs == w.outs && w'.now >= w.now
    requires c'.accepted == w.chans[ch].accepted
    requires c'.delivered == w.chans[ch].delivered && c'.takers == w.chans[ch].takers
    ensures OutsOk(w')
  {
    forall k | k in w'.outs ensures OutOk(w', k, w'.outs[k]) { assert OutOk(w, k, w.outs[k]); }
  }

  /** `*self.sender.write() = None`: from now on every live handle is older than the close. */
  lemma StartCloseOk(w: World, t: Tid, ch: ChId)
    requires Inv(w) && ch in w.chans && PcOf(w, t).Idle?
    ensures Inv(Tick(w, StartClose(w, t, ch)))
  {
    FlagsOk(w, t, ch, StartClose(w, t, ch).chans[ch], Closing(ch));
  }

  /** `*self.close_tx.lock() = None`. */
  lemma FinishCloseOk(w: World, t: Tid, ch: ChId)
    requires Inv(w) && PcOf(w, t) == Closing(ch)
    ensures Inv(Tick(w, GoStep(w, t, Closing(ch))))
  {
    assert PcOk(w, w.pcs[t]);
    FlagsOk(w, t, ch, w.chans[ch].(signal := false), Idle);
  }

  // ------------------------------------------------------------------ every step, every run

  lemma StartOneOk(w: World, t: Tid, open: bool, arm: Arm, to: Timeout, block: bool)
    requires Inv(w) && arm.ch in w.chans && PcOf(w, t).Idle?
    requires arm.SendArm? ==> arm.born == w.now && open == w.chans[arm.ch].open
    ensures Inv(Tick(w, StartOne(w, t, open, arm, to, block)))
  {
    if !open { EndOk(w, t, w.now, Closed); }
    else if to.Negative? { EndOk(w, t, w.now, BadTimeout); }
    else {
      assert w.now !in w.outs by { assert OutsOk(w); }
      ParkOk(w, t, if to.Timed? then Waiting(w.now, [arm], true) else Trying(w.now, arm, block));
    }
  }

  lemma StartSelectOk(w: World, t: Tid, refs: seq<OpRef>, timed: bool)
    requires Inv(w) && PcOf(w, t).Idle?
    ensures Inv(Tick(w, StartSelect(w, t, refs, timed)))
  {
    if refs == [] { EndOk(w, t, w.now, NoOps); }
    else if forall i :: 0 <= i < |refs| ==> Known(w, refs[i]) {
      assert w.now !in w.outs by { assert OutsOk(w); }
      ParkOk(w, t, StartSelect(w, t, refs, timed).pcs[t]);
    } else { TickOk(w); }
  }

  lemma GoOk(w: World, t: Tid)
    requires Inv(w)
    ensures Inv(Tick(w, GoStep(w, t, PcOf(w, t))))
  {
    var pc := PcOf(w, t);
    assert PcOk(w, pc);
    match pc
    case Trying(call, SendArm(ch, item, born), block) =>
      assert ArmOk(w, ArmsOf(pc)[0]);
      if HasRoom(w.chans[ch]) { AcceptOk(w, t, call, 0, pc.arm); }
      else if block { ParkOk(w, t, Waiting(call, [pc.arm], false)); }
      else { EndOk(w, t, call, Full); }
    case Trying(call, RecvArm(ch), block) =>
      assert ArmOk(w, ArmsOf(pc)[0]);
      if w.chans[ch].buf != [] { TakeOk(w, t, call, 0, ch); }
      else if block { ParkOk(w, t, Waiting(call, [pc.arm], false)); }
      else { NoItemOk(w, t, ch); }
    case Draining(call, i, ch) =>
      if w.chans[ch].buf != [] { TakeOk(w, t, call, i, ch); } else { EndOk(w, t, call, ClosedEmpty); }
    case Closing(ch) => FinishCloseOk(w, t, ch);
    case _ => TickOk(w);
  }

  lemma NoItemOk(w: World, t: Tid, ch: ChId)
    requires Inv(w) && Active(PcOf(w, t)) && ch in w.chans
    ensures Inv(Tick(w, NoItem(w, t, PcOf(w, t), ch)))
  {
    EndOk(w, t, PcOf(w, t).call, ClosedEmpty);
    EndOk(w, t, PcOf(w, t).call, Empty);
    TickOk(w);
  }

  lemma FireOk(w: World, t: Tid, i: nat)
    requires Inv(w)
    ensures Inv(Tick(w, FireStep(w, t, PcOf(w, t), i)))
  {
    var pc := PcOf(w, t);
    assert PcOk(w, pc);
    TickOk(w);
    if pc.Waiting? && i < |pc.arms| && pc.arms[i].ch in w.chans {
      var arm := pc.arms[i];
      assert ArmOk(w, ArmsOf(pc)[i]);
      if arm.SendArm? {
        if HasRoom(w.chans[arm.ch]) { AcceptOk(w, t, pc.call, i, arm); }
      } else if w.chans[arm.ch].buf != [] { TakeOk(w, t, pc.call, i, arm.ch); }
      else { NoItemOk(w, t, arm.ch); }
    }
  }

  lemma SignalOk(w: World, t: Tid, i: nat)
    requires Inv(w)
    ensures Inv(Tick(w, SignalStep(w, t, PcOf(w, t), i)))
  {
    var pc := PcOf(w, t);
    assert PcOk(w, pc);
    TickOk(w);
    if SignalStep(w, t, pc, i) != w {
      if pc.arms[i].SendArm? { EndOk(w, t, pc.call, Closed); }
      else { ParkOk(w, t, Draining(pc.call, i, pc.arms[i].ch)); }
    }
  }

  lemma MakeOpOk(w: World, o: OpId, ch: ChId, item: Item)
    requires Inv(w) && ch in w.chans && w.chans[ch].open && o !in w.ops
    ensures Inv(Tick(w, w.(ops := w.ops[o := SendOp(ch, item, w.now)])))
  {
    var w' := w.(ops := w.ops[o := SendOp(ch, item, w.now)]);
    OpsFrame(w, w'.ops);
    assert OpsOk(Tick(w, w'));
  }

  lemma DropOpOk(w: World, o: OpId)
    requires Inv(w)
    ensures Inv(Tick(w, w.(ops := w.ops - {o})))
  {
    OpsFrame(w, w.ops - {o});
  }

  lemma OpsFrame(w: World, ops: map<OpId, SendOp>)
    requires ChansOk(w) && PcsOk(w) && OutsOk(w)
    ensures var w' := Tick(w, w.(ops := ops)); ChansOk(w') && PcsOk(w') && OutsOk(w')
  {
    var w' := Tick(w, w.(ops := ops));
    forall ch | ch in w.chans ensures LedgerOk(w', ch, w.chans[ch]) && CloseOk(w', w.chans[ch]) {
      assert LedgerOk(w, ch, w.chans[ch]) && CloseOk(w, w.chans[ch]);
    }
    forall t | t in w.pcs ensures PcOk(w', w.pcs[t]) { assert PcOk(w, w.pcs[t]); }
    forall k | k in w.outs ensures OutOk(w', k, w.outs[k]) { assert OutOk(w, k, w.outs[k]); }
  }

  /** Steps that start a send or a receive. */
  lemma StartStepInv(w: World, l: Label)
    requires Inv(w) && (l.Send? || l.TrySend? || l.Recv? || l.TryRecv?)
    ensures Inv(Step(w, l))
  {
    if l.ch !in w.chans || !PcOf(w, l.t).Idle? {
      TickOk(w);
      assert Step(w, l) == Tick(w, w);
    } else {
      var arm := if l.Send? || l.TrySend? then SendArm(l.ch, l.item, w.now) else RecvArm(l.ch);
      var open := arm.RecvArm? || w.chans[l.ch].open;
      var to := if l.Send? || l.Recv? then l.to else Untimed;
      StartOneOk(w, l.t, open, arm, to, l.Send? || l.Recv?);
      assert Step(w, l) == Tick(w, StartOne(w, l.t, open, arm, to, l.Send? || l.Recv?));
    }
  }

  /** Steps that create or close channels and operation objects. */
  lemma ObjectStepInv(w: World, l: Label)
    requires Inv(w) && (l.New? || l.MakeOp? || l.DropOp? || l.CloseStart?)
    ensures Inv(Step(w, l))
  {
    if Act(w, l) == w {
      TickOk(w);
    } else {
      match l
      case New(ch, cap) => NewOk(w, ch, if cap.Some? then Some(cap.value as nat) else None);
      case MakeOp(o, ch, item) => MakeOpOk(w, o, ch, item);
      case DropOp(o) => DropOpOk(w, o);
      case CloseStart(t, ch) => StartCloseOk(w, t, ch);
    }
  }

  lemma StepInv(w: World, l: Label)
    requires Inv(w)
    ensures Inv(Step(w, l))
  {
    match l
    case Go(t) => GoOk(w, t);
    case Fire(t, i) => FireOk(w, t, i);
    case Meet(t, i, u, j) => MeetOk(w, t, i, u, j);
    case Signal(t, i) => SignalOk(w, t, i);
    case Expire(t) =>
      TickOk(w);
      if PcOf(w, t).Waiting? && PcOf(w, t).timed { EndOk(w, t, PcOf(w, t).call, TimedOut); }
    case Select(t, refs, timed) =>
      TickOk(w);
      if PcOf(w, t).Idle? { StartSelectOk(w, t, refs, timed); }
    case _ => if l.New? || l.MakeOp? || l.DropOp? || l.CloseStart? { ObjectStepInv(w, l); } else { StartStepInv(w, l); }
  }

  lemma {:induction false} RunInv(ls: seq<Label>)
    ensures Inv(Run(ls))
  {
    if ls != [] {
      RunInv(ls[..|ls| - 1]);
      StepInv(Run(ls[..|ls| - 1]), ls[|ls| - 1]);
    }
  }

  // ------------------------------------------------------------------ what it means

  /** Conservation and FIFO order: in every reachable state, for any mix of senders, receivers and selects,
      what a channel accepted is what it delivered followed by its buffer, within its capacity. */
  lemma Conservation(ls: seq<Label>, ch: ChId)
    requires ch in Run(ls).chans
    ensures var c := Run(ls).chans[ch];
            && c.accepted == c.delivered + c.buf
            && (c.cap.Some? ==> |c.buf| <= c.cap.value)
  {
    RunInv(ls);
    assert Fifo(Run(ls).chans[ch]);
  }

  /** An item was accepted, once, exactly when the call that sends it has returned success for that arm:
      a call that ended in an error or a timeout, or is still under way, has put nothing anywhere. */
  lemma AcceptedIffSent(ls: seq<Label>, k: CallId, i: nat, ch: ChId)
    requires ch in Run(ls).chans
    ensures var w := Run(ls); var acc := w.chans[ch].accepted;
            && ((exists x :: 0 <= x < |acc| && acc[x].call == k && acc[x].arm == i) <==>
                k in w.outs && w.outs[k] == Sent(i, ch))
            && (forall x, y :: 0 <= x < y < |acc| ==> acc[x].call != acc[y].call)
  {
    RunInv(ls);
    var w := Run(ls);
    assert LedgerOk(w, ch, w.chans[ch]);
    if k in w.outs && w.outs[k] == Sent(i, ch) { assert OutOk(w, k, w.outs[k]); }
  }

  /** Each delivered item was returned by exactly one call, and a call that returned an item took it. */
  lemma DeliveredIffGot(ls: seq<Label>, k: CallId, m: Msg, ch: ChId)
    requires ch in Run(ls).chans
    ensures var w := Run(ls); var c := w.chans[ch];
            && |c.takers| == |c.delivered|
            && ((exists x :: 0 <= x < |c.takers| && c.takers[x] == k && c.delivered[x] == m) <==>
                k in w.outs && w.outs[k].Got? && w.outs[k].ch == ch && w.outs[k].msg == m)
            && (forall x, y :: 0 <= x < y < |c.takers| ==> c.takers[x] != c.takers[y])
  {
    RunInv(ls);
    var w := Run(ls);
    assert LedgerOk(w, ch, w.chans[ch]) && Fifo(w.chans[ch]);
    if k in w.outs && w.outs[k].Got? && w.outs[k].ch == ch && w.outs[k].msg == m { assert OutOk(w, k, w.outs[k]); }
  }

  /** Close safety: whatever a closed channel has accepted travelled on a handle that left the channel
      object before the close, or on a clone of one. */
  lemma OnlyOldHandlesAfterClose(ls: seq<Label>, ch: ChId, x: nat)
    requires ch in Run(ls).chans && !Run(ls).chans[ch].open && x < |Run(ls).chans[ch].accepted|
    ensures Run(ls).chans[ch].accepted[x].born < Run(ls).chans[ch].closedAt
  {
    RunInv(ls);
    assert CloseOk(Run(ls), Run(ls).chans[ch]);
    assert HandleOk(Run(ls), Run(ls).chans[ch], Run(ls).chans[ch].accepted[x].born);
  }
}
