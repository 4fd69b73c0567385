/** Retries are paid for by other threads' changes to the bucket. */
module MapProgress {
  import opened Buckets
  import opened MapSpec
  import opened MapMachine

  /** The step from instant `m` to the next put a key in bucket `h` that was not there or, unless only
      insertions are asked for, took one away. Overwriting a value does not count. */
  predicate Disturbed(H: seq<Table>, h: Hash, insertsOnly: bool, m: nat)
    requires m + 1 < |H|
  {
    var b, b' := At(H[m], h), At(H[m + 1], h);
    || (exists i :: 0 <= i < |b'| && !HasKey(b, b'[i].key))
    || (!insertsOnly && exists i :: 0 <= i < |b| && !HasKey(b', b[i].key))
  }

  /** Disturbing steps between two instants. */
  function Disturbances(H: seq<Table>, h: Hash, insertsOnly: bool, lo: nat, hi: nat): (n: nat)
    requires hi < |H|
  {
    if hi <= lo then 0
    else Disturbances(H, h, insertsOnly, lo, hi - 1) + (if Disturbed(H, h, insertsOnly, hi - 1) then 1 else 0)
  }

  lemma {:induction false} DisturbancesSplit(H: seq<Table>, h: Hash, insertsOnly: bool, lo: nat, mid: nat, hi: nat)
    requires lo <= mid <= hi < |H|
    ensures Disturbances(H, h, insertsOnly, lo, hi) ==
            Disturbances(H, h, insertsOnly, lo, mid) + Disturbances(H, h, insertsOnly, mid, hi)
  {
    if mid < hi { DisturbancesSplit(H, h, insertsOnly, lo, mid, hi - 1); }
  }

  lemma {:induction false} DisturbancesPrefix(H: seq<Table>, H': seq<Table>, h: Hash, insertsOnly: bool,
                                              lo: nat, hi: nat)
    requires hi < |H| <= |H'| && forall i :: 0 <= i < |H| ==> H'[i] == H[i]
    ensures Disturbances(H', h, insertsOnly, lo, hi) == Disturbances(H, h, insertsOnly, lo, hi)
  {
    if lo < hi { DisturbancesPrefix(H, H', h, insertsOnly, lo, hi - 1); }
  }

  /** A key that is new since instant `lo` was inserted by some step in between. */
  lemma {:induction false} NewKeyDisturbs(H: seq<Table>, h: Hash, insertsOnly: bool, k: Obj, lo: nat, hi: nat)
    requires lo <= hi < |H| && !HasKey(At(H[lo], h), k) && HasKey(At(H[hi], h), k)
    ensures Disturbances(H, h, insertsOnly, lo, hi) > 0
    decreases hi
  {
    if HasKey(At(H[hi - 1], h), k) {
      NewKeyDisturbs(H, h, insertsOnly, k, lo, hi - 1);
    } else {
      assert Disturbed(H, h, insertsOnly, hi - 1);
    }
  }

  lemma {:induction false} LostKeyDisturbs(H: seq<Table>, h: Hash, k: Obj, lo: nat, hi: nat)
    requires lo <= hi < |H| && HasKey(At(H[lo], h), k) && !HasKey(At(H[hi], h), k)
    ensures Disturbances(H, h, false, lo, hi) > 0
    decreases hi
  {
    if HasKey(At(H[hi - 1], h), k) {
      assert Disturbed(H, h, false, hi - 1);
    } else {
      LostKeyDisturbs(H, h, k, lo, hi - 1);
    }
  }

  /** The disturbances an operation's bucket saw between two instants: insertions for `get_or_insert`,
      any change of the key set for the others. */
  function Paid(H: seq<Table>, c: Ctx, lo: nat, hi: nat): nat
    requires hi < |H|
    requires !c.op.ClearShard?
  {
    Disturbances(H, c.op.key.cls.hash, c.op.GetOrInsert?, lo, hi)
  }

  /** Retries so far are covered by the disturbances up to the last snapshot; and once the candidates are
      used up, either all keys of that snapshot are checked or the bucket has been disturbed since. */
  ghost predicate Covers(H: seq<Table>, pc: Pc) {
    match pc
    case Idle => true
    case Fast(c) => c.retries == 0
    case Snap(c) => CtxOk(H, c) && c.retries <= Paid(H, c, c.start, |H| - 1)
    case Cmp(c, _) => CtxOk(H, c) && c.retries <= Paid(H, c, c.start, c.snap)
    case Hit(c, _) =>
      c.snap < |H| && !c.op.ClearShard? && !c.op.GetOrInsert? && c.retries <= Paid(H, c, c.start, c.snap)
    case Last(c) =>
      && CtxOk(H, c) && c.retries <= Paid(H, c, c.start, c.snap)
      && (Covered(At(H[c.snap], c.op.key.cls.hash), c.checked) || Paid(H, c, c.snap, |H| - 1) > 0)
  }

  lemma PaidGrows(H: seq<Table>, T: Table, c: Ctx, lo: nat, hi: nat)
    requires hi < |H| && !c.op.ClearShard?
    ensures Paid(H + [T], c, lo, hi) == Paid(H, c, lo, hi)
    ensures hi == |H| - 1 && lo <= hi ==> Paid(H, c, lo, hi) <= Paid(H + [T], c, lo, |H|)
  {
    DisturbancesPrefix(H, H + [T], c.op.key.cls.hash, c.op.GetOrInsert?, lo, hi);
  }

  lemma CoversGrows(H: seq<Table>, T: Table, pc: Pc)
    requires PcOk(H, pc) && Covers(H, pc)
    ensures Covers(H + [T], pc)
  {
    PcOkGrows(H, T, pc);
    if !pc.Idle? && !pc.Fast? {
      var c := pc.c;
      PaidGrows(H, T, c, c.start, c.snap);
      PaidGrows(H, T, c, c.start, |H| - 1);
      PaidGrows(H, T, c, c.snap, |H| - 1);
      assert (H + [T])[c.snap] == H[c.snap];
    }
  }

  /** A retry is preceded by a disturbance between the snapshot and step 3: for `get_or_insert` by an
      insertion, for `set`, `delete` and `pop_val` by an insertion or a removal. */
  lemma RetryNeedsDisturbance(H: seq<Table>, c: Ctx)
    requires |H| > 0 && PcOk(H, Last(c)) && Covers(H, Last(c))
    requires !Covered(At(H[|H| - 1], c.op.key.cls.hash), c.checked)
    ensures Paid(H, c, c.snap, |H| - 1) > 0
  {
    var h := c.op.key.cls.hash;
    if Covered(At(H[c.snap], h), c.checked) {
      var b := At(H[|H| - 1], h);
      var i :| 0 <= i < |b| && b[i].key !in c.checked;
      assert HasKey(b, b[i].key);
      NewKeyDisturbs(H, h, c.op.GetOrInsert?, b[i].key, c.snap, |H| - 1);
    }
  }

  lemma LastCovers(H: seq<Table>, c: Ctx)
    requires |H| > 0 && PcOk(H, Last(c)) && Covers(H, Last(c))
    requires !Covered(At(H[|H| - 1], c.op.key.cls.hash), c.checked)
    ensures c.retries + 1 <= Paid(H, c, c.start, |H| - 1)
  {
    RetryNeedsDisturbance(H, c);
    DisturbancesSplit(H, c.op.key.cls.hash, c.op.GetOrInsert?, c.start, c.snap, |H| - 1);
  }

  lemma CmpCovers(H: seq<Table>, c: Ctx)
    requires PcOk(H, Cmp(c, []))
    ensures Covered(At(H[c.snap], c.op.key.cls.hash), c.checked)
  {
    var b := At(H[c.snap], c.op.key.cls.hash);
    assert forall i :: 0 <= i < |b| ==> b[i] in b && b[i].key in c.checked;
  }

  lemma TurnCovers(H: seq<Table>, pc: Pc, turn: Turn)
    requires |H| > 0 && PcOk(H, pc) && !pc.Idle? && Covers(H, pc)
    requires turn == Block(pc, At(H[|H| - 1], KeyOf(pc).cls.hash), |H| - 1)
    ensures turn.More? ==> Covers(H, turn.pc)
  {
    var h := KeyOf(pc).cls.hash;
    var now := |H| - 1;
    TurnOk(H, pc, turn);
    match pc
    case Fast(c) =>
    case Snap(c) =>
    case Cmp(c, cands) => if cands == [] { CmpCovers(H, c); }
    case Hit(c, k) => if !HasKey(At(H[now], h), k) { LostKeyDisturbs(H, h, k, c.snap, now); }
    case Last(c) => if !Covered(At(H[now], h), c.checked) { LastCovers(H, c); }
  }

  ghost predicate ProgressInv(s: State) {
    Inv(s) && forall t :: t in s.pcs ==> Covers(s.hist, s.pcs[t])
  }

  lemma NextPcCovers(s: State, t: Tid)
    requires ProgressInv(s) && !PcOf(s, t).Idle? && TurnOf(s, t).More?
    ensures Covers(s.hist, TurnOf(s, t).pc)
  {
    TurnIsBlock(s, t);
    TurnCovers(s.hist, PcOf(s, t), TurnOf(s, t));
  }

  lemma OwnTurnCovers(s: State, t: Tid, T: Table)
    requires ProgressInv(s) && !PcOf(s, t).Idle? && TurnOf(s, t).More?
    ensures Covers(s.hist + [T], TurnOf(s, t).pc)
  {
    NextPcCovers(s, t);
    NextPcOk(s, t);
    CoversGrows(s.hist, T, TurnOf(s, t).pc);
  }

  lemma StepCovers(s: State, l: Label, t: Tid)
    requires ProgressInv(s) && t in Step(s, l).pcs
    ensures Covers(Step(s, l).hist, Step(s, l).pcs[t])
  {
    var H' := Step(s, l).hist;
    var T := H'[|s.hist|];
    assert H' == s.hist + [T];
    if l.t == t && l.Go? && !PcOf(s, t).Idle? {
      if TurnOf(s, t).More? { OwnTurnCovers(s, t, T); }
    } else if l.t == t && l.Invoke? && PcOf(s, t).Idle? && !l.op.ClearShard? {
      BeginOk(H', l.op);
    } else {
      CoversGrows(s.hist, T, s.pcs[t]);
    }
  }

  lemma {:induction false} RunProgress(shards: nat, ls: seq<Label>)
    requires 0 < shards
    ensures ProgressInv(Run(shards, ls))
  {
    if ls != [] {
      var p, l := ls[..|ls| - 1], ls[|ls| - 1];
      RunProgress(shards, p);
      StepInv(Run(shards, p), l);
      forall t | t in Run(shards, ls).pcs ensures Covers(Run(shards, ls).hist, Run(shards, ls).pcs[t]) {
        StepCovers(Run(shards, p), l, t);
      }
    }
  }

  lemma PaidNow(H: seq<Table>, pc: Pc)
    requires |H| > 0 && PcOk(H, pc) && Covers(H, pc) && !pc.Idle?
    ensures !pc.c.op.ClearShard? && pc.c.start < |H| && pc.c.retries <= Paid(H, pc.c, pc.c.start, |H| - 1)
  {
    if pc.Cmp? || pc.Hit? || pc.Last? {
      DisturbancesSplit(H, pc.c.op.key.cls.hash, pc.c.op.GetOrInsert?, pc.c.start, pc.c.snap, |H| - 1);
    }
  }

  /** A turn that does not return leaves its bucket alone. */
  lemma GoingOnChangesNothing(pc: Pc, b: Bucket, now: nat)
    requires Shaped(pc) && !pc.Idle?
    ensures Block(pc, b, now).More? ==> Block(pc, b, now).b == b
  {
  }

  /** Disturbing steps between two instants that are not thread `t`'s own: step `ls[m]` leads to instant m + 1. */
  function OthersDisturbances(H: seq<Table>, ls: seq<Label>, t: Tid, h: Hash, insertsOnly: bool, lo: nat, hi: nat): nat
    requires hi < |H| == |ls| + 1
  {
    if hi <= lo then 0
    else
      OthersDisturbances(H, ls, t, h, insertsOnly, lo, hi - 1)
      + (if Disturbed(H, h, insertsOnly, hi - 1) && ls[hi - 1].t != t then 1 else 0)
  }

  /** While a thread stays in a call, the call's key and its start stay the same. */
  lemma CallGoesOn(s: State, l: Label, t: Tid)
    requires Sane(s) && !PcOf(Step(s, l), t).Idle?
    ensures var pc, pc' := PcOf(s, t), PcOf(Step(s, l), t);
            if pc.Idle? then pc'.c.start == |s.hist| else pc'.c.op == pc.c.op && pc'.c.start == pc.c.start
  {
  }

  /** A thread's own step that leaves it in its call leaves its bucket alone. */
  lemma OwnStepQuiet(s: State, l: Label)
    requires Sane(s) && !PcOf(s, l.t).Idle? && !PcOf(Step(s, l), l.t).Idle?
    ensures At(Cur(Step(s, l)), KeyOf(PcOf(s, l.t)).cls.hash) == BucketOf(s, l.t)
  {
    if l.Go? { GoingOnChangesNothing(PcOf(s, l.t), BucketOf(s, l.t), Now(s)); }
  }

  lemma SameBucketQuiet(H: seq<Table>, h: Hash, insertsOnly: bool, m: nat)
    requires m + 1 < |H| && At(H[m], h) == At(H[m + 1], h)
    ensures !Disturbed(H, h, insertsOnly, m)
  {
    var b := At(H[m], h);
    assert forall i :: 0 <= i < |b| ==> HasKey(b, b[i].key);
  }

  /** None of its own steps since a call began disturbs the call's bucket. */
  lemma {:induction false} OwnStepsQuiet(shards: nat, ls: seq<Label>, t: Tid, m: nat)
    requires 0 < shards && !PcOf(Run(shards, ls), t).Idle?
    requires PcOf(Run(shards, ls), t).c.start <= m < |ls| && ls[m].t == t
    ensures !PcOf(Run(shards, ls), t).c.op.ClearShard?
    ensures var s := Run(shards, ls); var h := KeyOf(PcOf(s, t)).cls.hash; At(s.hist[m], h) == At(s.hist[m + 1], h)
  {
    var n := |ls| - 1;
    var p, l := ls[..n], ls[n];
    var s, s' := Run(shards, p), Run(shards, ls);
    CallGoesOn(s, l, t);
    assert s'.hist[..|s.hist|] == s.hist;
    if m == n {
      OwnStepQuiet(s, l);
    } else {
      OwnStepsQuiet(shards, p, t, m);
      assert s'.hist[m] == s.hist[m] && s'.hist[m + 1] == s.hist[m + 1];
    }
  }

  lemma {:induction false} OnlyOthersDisturb(H: seq<Table>, ls: seq<Label>, t: Tid, h: Hash, insertsOnly: bool,
                                             lo: nat, hi: nat)
    requires hi < |H| == |ls| + 1
    requires forall m :: lo <= m < hi && ls[m].t == t ==> At(H[m], h) == At(H[m + 1], h)
    ensures OthersDisturbances(H, ls, t, h, insertsOnly, lo, hi) == Disturbances(H, h, insertsOnly, lo, hi)
  {
    if lo < hi {
      OnlyOthersDisturb(H, ls, t, h, insertsOnly, lo, hi - 1);
      if ls[hi - 1].t == t { SameBucketQuiet(H, h, insertsOnly, hi - 1); }
    }
  }

  /** In every run the retries of a call under way never exceed the steps of other threads that have disturbed its
      bucket since it began: by an insertion for `get_or_insert`, by an insertion or a removal for the others. */
  lemma RetriesArePaid(shards: nat, ls: seq<Label>, t: Tid)
    requires 0 < shards && !PcOf(Run(shards, ls), t).Idle?
    ensures var s := Run(shards, ls); var c := PcOf(s, t).c;
            && !c.op.ClearShard? && c.start <= Now(s)
            && c.retries <= OthersDisturbances(s.hist, ls, t, c.op.key.cls.hash, c.op.GetOrInsert?, c.start, Now(s))
            && (TurnOf(s, t).More? ==> TurnOf(s, t).b == BucketOf(s, t))
  {
    var s := Run(shards, ls);
    var c := PcOf(s, t).c;
    RunProgress(shards, ls);
    PaidNow(s.hist, PcOf(s, t));
    GoingOnChangesNothing(PcOf(s, t), BucketOf(s, t), Now(s));
    var h := c.op.key.cls.hash;
    forall m | c.start <= m < Now(s) && ls[m].t == t ensures At(s.hist[m], h) == At(s.hist[m + 1], h) {
      OwnStepsQuiet(shards, ls, t, m);
    }
    OnlyOthersDisturb(s.hist, ls, t, h, c.op.GetOrInsert?, c.start, Now(s));
  }

  lemma NothingPaid(H: seq<Table>, c: Ctx, lo: nat, mid: nat, hi: nat)
    requires lo <= mid <= hi < |H| && !c.op.ClearShard?
    requires Disturbances(H, c.op.key.cls.hash, false, lo, hi) == 0
    ensures Paid(H, c, mid, hi) == 0
  {
    InsertsAreDisturbances(H, c.op.key.cls.hash, mid, hi);
    DisturbancesSplit(H, c.op.key.cls.hash, false, lo, mid, hi);
  }

  /** Nothing entered or left the bucket since the call began: all it lists has been compared. */
  lemma QuietLast(H: seq<Table>, c: Ctx)
    requires |H| > 0 && PcOk(H, Last(c)) && Covers(H, Last(c))
    requires Disturbances(H, c.op.key.cls.hash, false, c.start, |H| - 1) == 0
    ensures Covered(At(H[|H| - 1], c.op.key.cls.hash), c.checked)
  {
    NothingPaid(H, c, c.start, c.snap, |H| - 1);
    if !Covered(At(H[|H| - 1], c.op.key.cls.hash), c.checked) { RetryNeedsDisturbance(H, c); }
  }

  /** Without interference nobody retries: if no key entered or left the bucket since the call began, it
      is still in its first iteration, and step 3 will not send it round again. */
  lemma UndisturbedFinishesFirstRound(shards: nat, ls: seq<Label>, t: Tid)
    requires 0 < shards && !PcOf(Run(shards, ls), t).Idle?
    requires var s := Run(shards, ls); var c := PcOf(s, t).c;
             !c.op.ClearShard? && Disturbances(s.hist, c.op.key.cls.hash, false, c.start, Now(s)) == 0
    ensures PcOf(Run(shards, ls), t).c.retries == 0
    ensures PcOf(Run(shards, ls), t).Last? ==> TurnOf(Run(shards, ls), t).Return?
  {
    var s := Run(shards, ls);
    var pc := PcOf(s, t);
    RunProgress(shards, ls);
    PaidNow(s.hist, pc);
    InsertsAreDisturbances(s.hist, pc.c.op.key.cls.hash, pc.c.start, Now(s));
    if pc.Last? { QuietLast(s.hist, pc.c); }
  }

  lemma {:induction false} InsertsAreDisturbances(H: seq<Table>, h: Hash, lo: nat, hi: nat)
    requires hi < |H|
    ensures Disturbances(H, h, true, lo, hi) <= Disturbances(H, h, false, lo, hi)
  {
    if lo < hi { InsertsAreDisturbances(H, h, lo, hi - 1); }
  }
}
