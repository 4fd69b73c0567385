/** The retry loops as code, with other threads at work between any two of their steps. */
module ContendedMaps {
  import opened Options
  import opened Buckets
  import opened MapSpec
  import opened MapMachine
  import opened MapUniqueness
  import opened MapLinear

  /** The steps of a schedule are those of other threads. */
  predicate NotBy(sched: seq<Label>, t: Tid) {
    forall i :: 0 <= i < |sched| ==> sched[i].t != t
  }

  lemma OthersLeaveThread(s: State, l: Label, t: Tid)
    requires Sane(s) && l.t != t
    ensures PcOf(Step(s, l), t) == PcOf(s, t)
  {
  }

  class ContendedMap {
    var s: State                  // the shards as they have been, and where every thread is
    ghost var past: seq<Label>    // the run so far

    /** The object is where its run leads: what is proved of every run holds of it. */
    ghost predicate Valid()
      reads this
    {
      0 < s.shards && s == Run(s.shards, past)
    }

    constructor (shards: nat)
      requires shards > 0
      ensures Valid() && s == Init(shards)
    {
      s := Init(shards);
      past := [];
    }

    /** The bucket of a hash, as found under the shard lock. */
    function Bucket(h: Hash): Bucket
      requires Sane(s)
      reads this
    {
      At(Cur(s), h)
    }

    method Take(l: Label)
      requires Valid()
      modifies this
      ensures Valid() && s == Step(old(s), l) && past == old(past) + [l]
    {
      s := Step(s, l);
      assert (past + [l])[..|past|] == past;
      past := past + [l];
    }

    /** A block that goes on: the bucket stays, the thread is now at `pc`. */
    method GoOn(t: Tid, pc: Pc)
      requires Valid() && !PcOf(s, t).Idle? && TurnOf(s, t) == More(BucketOf(s, t), pc)
      modifies this
      ensures Valid() && PcOf(s, t) == pc && s.shards == old(s.shards) && |s.hist| == |old(s.hist)| + 1
      ensures s.calls == old(s.calls) && old(past) <= past
      ensures var h := old(KeyOf(PcOf(s, t))).cls.hash; Bucket(h) == old(Bucket(h))
    {
      Take(Go(t));
    }

    /** A block that ends the call, leaving bucket `b`. */
    method Finish(t: Tid, b: Bucket, res: Res, eff: bool)
      requires Valid() && !PcOf(s, t).Idle? && TurnOf(s, t) == Return(b, res, eff)
      modifies this
      ensures Valid() && PcOf(s, t).Idle? && Bucket(old(KeyOf(PcOf(s, t))).cls.hash) == b && old(past) <= past
      ensures s.calls == old(s.calls) + [old(Call(t, PcOf(s, t).c.op, res, PcOf(s, t).c.start, |s.hist|, eff))]
      ensures s.shards == old(s.shards)
    {
      Take(Go(t));
    }

    /** The call begins. */
    method Enter(t: Tid, op: Op) returns (c: Ctx)
      requires Valid() && PcOf(s, t).Idle? && !op.ClearShard?
      modifies this
      ensures Valid() && s.shards == old(s.shards) && old(past) <= past
      ensures c == Ctx(op, |old(s.hist)|, |old(s.hist)|, |old(s.hist)|, {}, 0)
      ensures PcOf(s, t) == if op.Lookup? || op.GetOrInsert? then Snap(c) else Fast(c)
    {
      c := Ctx(op, |s.hist|, |s.hist|, |s.hist|, {}, 0);
      Take(Invoke(t, op));
    }

    /** Any number of steps of the other threads. */
    method Others(t: Tid, sched: seq<Label>, i: nat) returns (j: nat)
      requires Valid() && i <= |sched| && NotBy(sched, t)
      modifies this
      ensures Valid() && i <= j <= |sched| && PcOf(s, t) == PcOf(old(s), t) && s.shards == old(s.shards)
      ensures i == j ==> s == old(s)
      ensures old(past) <= past
    {
      j := i;
      while j < |sched|
        invariant Valid() && i <= j <= |sched| && PcOf(s, t) == PcOf(old(s), t) && s.shards == old(s.shards)
        invariant i == j ==> s == old(s)
        invariant old(past) <= past
      {
        if * { return; }
        OthersLeaveThread(s, sched[j], t);
        Take(sched[j]);
        j := j + 1;
      }
    }

    /** Step 2 of the loop: compare the candidates outside the lock until one is equal. */
    method Compare(t: Tid, c: Ctx, cands: Bucket, sched: seq<Label>, i: nat)
        returns (hit: Option<Obj>, c': Ctx, j: nat)
      requires Valid() && i <= |sched| && NotBy(sched, t)
      requires PcOf(s, t) == Cmp(c, cands) && !c.op.ClearShard? && !c.op.Lookup? && !c.op.GetOrInsert?
      modifies this
      ensures Valid() && i <= j <= |sched| && s.shards == old(s.shards) && old(past) <= past
      ensures c' == c.(checked := c'.checked) && c.checked <= c'.checked
      ensures PcOf(s, t) == if hit.Some? then Hit(c', hit.value) else Last(c')
      ensures hit.Some? ==> (exists x :: 0 <= x < |cands| && cands[x].key == hit.value)
      ensures hit.None? ==> forall x :: 0 <= x < |cands| ==> cands[x].key in c'.checked
      ensures i == j ==> Bucket(c.op.key.cls.hash) == old(Bucket(c.op.key.cls.hash))
    {
      hit, c', j := None, c, i;
      var x := 0;
      while x < |cands|
        invariant x <= |cands| && Valid() && i <= j <= |sched| && s.shards == old(s.shards) && old(past) <= past
        invariant c' == c.(checked := c'.checked) && c.checked <= c'.checked
        invariant PcOf(s, t) == Cmp(c', cands[x..])
        invariant forall y :: 0 <= y < x ==> cands[y].key in c'.checked
        invariant i == j ==> Bucket(c.op.key.cls.hash) == old(Bucket(c.op.key.cls.hash))
      {
        j := Others(t, sched, j);
        var e := cands[x];
        c' := c'.(checked := c'.checked + {e.key});
        if Eq(e.key, c.op.key) {
          hit := Some(e.key);
          GoOn(t, Hit(c', e.key));
          return;
        }
        GoOn(t, Cmp(c', cands[x + 1..]));
        x := x + 1;
      }
      GoOn(t, Last(c'));
    }

    /** The re-lock after a match: act if that very object is still there. */
    method Relock(t: Tid, c: Ctx, k: Obj, sched: seq<Label>, i: nat) returns (res: Option<Res>, j: nat)
      requires Valid() && i <= |sched| && NotBy(sched, t)
      requires PcOf(s, t) == Hit(c, k) && (c.op.Set? || c.op.Delete? || c.op.Pop?)
      modifies this
      ensures Valid() && i <= j <= |sched| && s.shards == old(s.shards) && old(past) <= past
      ensures res.None? ==> PcOf(s, t) == Last(c)
      ensures i == j && res.None? ==> Bucket(c.op.key.cls.hash) == old(Bucket(c.op.key.cls.hash))
      ensures res.None? && i == j ==> !HasKey(old(Bucket(c.op.key.cls.hash)), k)
      ensures res.Some? ==> PcOf(s, t).Idle? && Ended(s, t, c.op, c.start, res.value)
    {
      j := Others(t, sched, i);
      var b := Bucket(c.op.key.cls.hash);
      var p := Pos(b, k);
      if p < |b| {
        var turn := Act(c.op, b, p);
        Finish(t, turn.b, turn.res, true);
        return Some(turn.res), j;
      }
      GoOn(t, Last(c));
      res := None;
    }

    /** Step 3: retry if an unchecked key appeared, otherwise act, append or give up. */
    method Conclude(t: Tid, c: Ctx, sched: seq<Label>, i: nat) returns (res: Option<Res>, j: nat)
      requires Valid() && i <= |sched| && NotBy(sched, t)
      requires PcOf(s, t) == Last(c) && (c.op.Set? || c.op.Delete? || c.op.Pop?)
      modifies this
      ensures Valid() && i <= j <= |sched| && s.shards == old(s.shards) && old(past) <= past
      ensures res.None? ==> PcOf(s, t) == Snap(c.(retries := c.retries + 1))
      ensures res.None? && i == j ==> !Covered(old(Bucket(c.op.key.cls.hash)), c.checked)
      ensures res.Some? ==> PcOf(s, t).Idle? && Ended(s, t, c.op, c.start, res.value)
    {
      j := Others(t, sched, i);
      var b := Bucket(c.op.key.cls.hash);
      if !Covered(b, c.checked) {
        GoOn(t, Snap(c.(retries := c.retries + 1)));
        return None, j;
      }
      var answer := ActOrAppend(t, c, b);
      res := Some(answer);
    }

    /** The end of step 3: nothing unchecked is listed. */
    method ActOrAppend(t: Tid, c: Ctx, b: Bucket) returns (res: Res)
      requires Valid() && PcOf(s, t) == Last(c) && (c.op.Set? || c.op.Delete? || c.op.Pop?)
      requires b == Bucket(c.op.key.cls.hash) && Covered(b, c.checked)
      modifies this
      ensures Valid() && s.shards == old(s.shards) && old(past) <= past
      ensures PcOf(s, t).Idle? && Ended(s, t, c.op, c.start, res)
    {
      var p := Pos(b, c.op.key);
      if p < |b| {
        var turn := Act(c.op, b, p);
        Finish(t, turn.b, turn.res, true);
        res := turn.res;
      } else if c.op.Set? {
        Finish(t, b + [Entry(c.op.key, c.op.val)], Unit, true);
        res := Unit;
      } else {
        Finish(t, b, Removed(c.op, None), false);
        res := Removed(c.op, None);
      }
    }

    /** Steps 2 and 3 on the candidates of snapshot `b`; None is `continue`. */
    method Settle(t: Tid, c: Ctx, b: Bucket, cands: Bucket, checked: set<Obj>, sched: seq<Label>, i: nat)
        returns (res: Option<Res>, c': Ctx, j: nat)
      requires Valid() && i <= |sched| && NotBy(sched, t)
      requires PcOf(s, t) == Cmp(c, cands) && (c.op.Set? || c.op.Delete? || c.op.Pop?)
      requires cands == Fresh(b, checked) && c.checked == checked
      modifies this
      ensures Valid() && i <= j <= |sched| && s.shards == old(s.shards) && old(past) <= past
      ensures res.None? ==> PcOf(s, t) == Snap(c') && c'.op == c.op && c'.start == c.start
      ensures res.None? && b == old(Bucket(c.op.key.cls.hash)) ==> i < j
      ensures res.Some? ==> PcOf(s, t).Idle? && Ended(s, t, c.op, c.start, res.value)
    {
      var hit;
      hit, c', j := Compare(t, c, cands, sched, i);
      if hit.Some? {
        HitIsListed(b, checked, cands, hit.value);
        res, j := Relock(t, c', hit.value, sched, j);
        if res.Some? { return; }
      } else {
        AllCompared(b, checked, cands, c'.checked);
      }
      res, j := Conclude(t, c', sched, j);
      c' := c'.(retries := c'.retries + 1);
    }

    /** One iteration of the loop; None is `continue`, which only happens when others have moved meanwhile. */
    method Round(t: Tid, c: Ctx, sched: seq<Label>, i: nat) returns (res: Option<Res>, c': Ctx, j: nat)
      requires Valid() && i <= |sched| && NotBy(sched, t)
      requires PcOf(s, t) == Snap(c) && (c.op.Set? || c.op.Delete? || c.op.Pop?)
      modifies this
      ensures Valid() && i <= j <= |sched| && s.shards == old(s.shards) && old(past) <= past
      ensures res.None? ==> i < j && PcOf(s, t) == Snap(c') && c'.op == c.op && c'.start == c.start
      ensures res.Some? ==> PcOf(s, t).Idle? && Ended(s, t, c.op, c.start, res.value)
    {
      j := Others(t, sched, i);
      var b := Bucket(c.op.key.cls.hash);
      var cands := Fresh(b, c.checked);
      var c1 := c.(snap := Now(s));
      GoOn(t, Cmp(c1, cands));
      res, c', j := Settle(t, c1, b, cands, c.checked, sched, j);
    }

    /** The retry loop. */
    method Retry(t: Tid, c0: Ctx, sched: seq<Label>, i: nat) returns (res: Res, j: nat)
      requires Valid() && i <= |sched| && NotBy(sched, t)
      requires PcOf(s, t) == Snap(c0) && (c0.op.Set? || c0.op.Delete? || c0.op.Pop?)
      modifies this
      ensures Valid() && i <= j <= |sched| && s.shards == old(s.shards) && old(past) <= past
      ensures PcOf(s, t).Idle? && Ended(s, t, c0.op, c0.start, res)
    {
      var c, done := c0, None;
      j := i;
      while done.None?
        invariant Valid() && i <= j <= |sched| && s.shards == old(s.shards) && old(past) <= past
        invariant c.op == c0.op && c.start == c0.start
        invariant done.None? ==> PcOf(s, t) == Snap(c)
        invariant done.Some? ==> PcOf(s, t).Idle? && Ended(s, t, c0.op, c0.start, done.value)
        decreases done.None?, |sched| - j
      {
        var next;
        done, next, j := Round(t, c, sched, j);
        if done.None? { c := next; }
      }
      res := done.value;
    }

    /** The fast path of `set`, `delete` and `pop_val`, all under the lock; None sends the call to the loop. */
    method FastPath(t: Tid, c: Ctx, sched: seq<Label>, i: nat) returns (res: Option<Res>, c': Ctx, j: nat)
      requires Valid() && i <= |sched| && NotBy(sched, t)
      requires PcOf(s, t) == Fast(c) && (c.op.Set? || c.op.Delete? || c.op.Pop?)
      modifies this
      ensures Valid() && i <= j <= |sched| && s.shards == old(s.shards) && old(past) <= past
      ensures res.None? ==> PcOf(s, t) == Snap(c') && c'.op == c.op && c'.start == c.start
      ensures res.Some? ==> PcOf(s, t).Idle? && Ended(s, t, c.op, c.start, res.value)
    {
      c' := c;
      j := Others(t, sched, i);
      var b := Bucket(c.op.key.cls.hash);
      if b == [] {
        var answer := if c.op.Set? then Unit else Removed(c.op, None);
        Finish(t, if c.op.Set? then [Entry(c.op.key, c.op.val)] else b, answer, c.op.Set?);
        return Some(answer), c', j;
      }
      var p := Pos(b, c.op.key);
      if p < |b| {
        var turn := Act(c.op, b, p);
        Finish(t, turn.b, turn.res, true);
        return Some(turn.res), c', j;
      }
      c' := c.(slow := Now(s));
      GoOn(t, Snap(c'));
      res := None;
    }

    /** The common body of `set`, `delete` and `pop_val`. Whatever the others do it ends, as each `continue` uses up a
        step of theirs; and it is a run of the machine, so in a run that keeps keys unique its answer and effect
        are right at some instant of the call. */
    method Modify(t: Tid, op: Op, sched: seq<Label>) returns (res: Res, j: nat)
      requires Valid() && PcOf(s, t).Idle? && (op.Set? || op.Delete? || op.Pop?) && NotBy(sched, t)
      modifies this
      ensures Valid() && PcOf(s, t).Idle? && s.shards == old(s.shards) && old(past) <= past && j <= |sched|
      ensures Ended(s, t, op, |old(s.hist)|, res) && LastIsRight(s)
    {
      var c := Enter(t, op);
      var fast, c';
      fast, c', j := FastPath(t, c, sched, 0);
      if fast.Some? { res := fast.value; } else { res, j := Retry(t, c', sched, j); }
      RunIsRight(s.shards, past);
    }

    /** One iteration of `get_or_insert`; None is `continue`. */
    method InsertRound(t: Tid, c: Ctx, sched: seq<Label>, i: nat) returns (res: Option<Res>, c': Ctx, j: nat)
      requires Valid() && i <= |sched| && NotBy(sched, t)
      requires PcOf(s, t) == Snap(c) && c.op.GetOrInsert?
      modifies this
      ensures Valid() && i <= j <= |sched| && s.shards == old(s.shards) && old(past) <= past
      ensures res.None? ==> i < j && PcOf(s, t) == Snap(c') && c'.op == c.op && c'.start == c.start
      ensures res.Some? ==> PcOf(s, t).Idle? && Ended(s, t, c.op, c.start, res.value)
    {
      j := Others(t, sched, i);
      var b := Bucket(c.op.key.cls.hash);
      var cands := Fresh(b, c.checked);
      var c1 := c.(snap := Now(s));
      GoOn(t, Cmp(c1, cands));
      ghost var j1 := j;
      res, c', j := CompareInsert(t, c1, cands, sched, j);
      if res.Some? { return; }
      AllCompared(b, c.checked, cands, c'.checked);
      res, j := ConcludeInsert(t, c', sched, j);
      c' := c'.(retries := c'.retries + 1);
    }

    /** Its comparisons: an equal candidate ends the call with the value of the snapshot. */
    method CompareInsert(t: Tid, c: Ctx, cands: Bucket, sched: seq<Label>, i: nat)
        returns (res: Option<Res>, c': Ctx, j: nat)
      requires Valid() && i <= |sched| && NotBy(sched, t)
      requires PcOf(s, t) == Cmp(c, cands) && c.op.GetOrInsert?
      modifies this
      ensures Valid() && i <= j <= |sched| && s.shards == old(s.shards) && old(past) <= past
      ensures c' == c.(checked := c'.checked) && c.checked <= c'.checked
      ensures res.Some? ==> PcOf(s, t).Idle? && Ended(s, t, c.op, c.start, res.value)
      ensures res.None? ==> PcOf(s, t) == Last(c') && forall x :: 0 <= x < |cands| ==> cands[x].key in c'.checked
      ensures res.None? && i == j ==> Bucket(c.op.key.cls.hash) == old(Bucket(c.op.key.cls.hash))
    {
      res, c', j := None, c, i;
      var x := 0;
      while x < |cands|
        invariant x <= |cands| && Valid() && i <= j <= |sched| && s.shards == old(s.shards) && old(past) <= past
        invariant c' == c.(checked := c'.checked) && c.checked <= c'.checked
        invariant PcOf(s, t) == Cmp(c', cands[x..])
        invariant forall y :: 0 <= y < x ==> cands[y].key in c'.checked
        invariant i == j ==> Bucket(c.op.key.cls.hash) == old(Bucket(c.op.key.cls.hash))
      {
        j := Others(t, sched, j);
        var e := cands[x];
        if Eq(e.key, c.op.key) {
          Finish(t, Bucket(c.op.key.cls.hash), Value(e.val), false);
          return Some(Value(e.val)), c', j;
        }
        c' := c'.(checked := c'.checked + {e.key});
        GoOn(t, Cmp(c', cands[x + 1..]));
        x := x + 1;
      }
      GoOn(t, Last(c'));
    }

    /** Its step 3, with the identity fallback. */
    method ConcludeInsert(t: Tid, c: Ctx, sched: seq<Label>, i: nat) returns (res: Option<Res>, j: nat)
      requires Valid() && i <= |sched| && NotBy(sched, t)
      requires PcOf(s, t) == Last(c) && c.op.GetOrInsert?
      modifies this
      ensures Valid() && i <= j <= |sched| && s.shards == old(s.shards) && old(past) <= past
      ensures res.None? ==> PcOf(s, t) == Snap(c.(retries := c.retries + 1))
      ensures res.None? && i == j ==> !Covered(old(Bucket(c.op.key.cls.hash)), c.checked)
      ensures res.Some? ==> PcOf(s, t).Idle? && Ended(s, t, c.op, c.start, res.value)
    {
      j := Others(t, sched, i);
      var b := Bucket(c.op.key.cls.hash);
      if !Covered(b, c.checked) {
        GoOn(t, Snap(c.(retries := c.retries + 1)));
        return None, j;
      }
      var p := Pos(b, c.op.key);
      if p < |b| {
        res := Some(Value(b[p].val));
        Finish(t, b, Value(b[p].val), false);
      } else {
        res := Some(Value(c.op.dflt));
        Finish(t, b + [Entry(c.op.key, c.op.dflt)], Value(c.op.dflt), true);
      }
    }

    /** `get_or_insert`: it too ends under every schedule, with an answer that is right in the sense of `Modify`. */
    method GetOrInsert(t: Tid, key: Obj, dflt: Val, sched: seq<Label>) returns (res: Res, j: nat)
      requires Valid() && PcOf(s, t).Idle? && NotBy(sched, t)
      modifies this
      ensures Valid() && PcOf(s, t).Idle? && s.shards == old(s.shards) && old(past) <= past && j <= |sched|
      ensures Ended(s, t, Op.GetOrInsert(key, dflt), |old(s.hist)|, res) && LastIsRight(s)
    {
      var c0 := Enter(t, Op.GetOrInsert(key, dflt));
      var c, done := c0, None;
      j := 0;
      while done.None?
        invariant Valid() && j <= |sched| && s.shards == old(s.shards) && old(past) <= past
        invariant c.op == c0.op && c.start == c0.start
        invariant done.None? ==> PcOf(s, t) == Snap(c)
        invariant done.Some? ==> PcOf(s, t).Idle? && Ended(s, t, c0.op, c0.start, done.value)
        decreases done.None?, |sched| - j
      {
        var next;
        done, next, j := InsertRound(t, c, sched, j);
        if done.None? { c := next; }
      }
      res := done.value;
      RunIsRight(s.shards, past);
    }
  }

  /** The last completed call is that of `op`, begun at instant `start`, with answer `res`. */
  predicate Ended(s: State, t: Tid, op: Op, start: nat, res: Res) {
    s.calls != [] && var call := s.calls[|s.calls| - 1];
    call.tid == t && call.op == op && call.res == res && call.inv == start
  }

  /** The last completed call has an instant at which its answer and effect match the abstract map. */
  ghost predicate LastIsRight(s: State) {
    s.calls != [] && 0 < s.shards &&
    var call := s.calls[|s.calls| - 1];
    (UniqueRun(s.hist) ==> exists m :: TakesEffectAt(s.hist, s.shards, call, m))
  }

  lemma RunIsRight(shards: nat, ls: seq<Label>)
    requires 0 < shards && Run(shards, ls).calls != []
    ensures LastIsRight(Run(shards, ls))
  {
    if UniqueRun(Run(shards, ls).hist) { EveryCallTakesEffect(shards, ls, |Run(shards, ls).calls| - 1); }
  }

  /** A candidate that matched was in the bucket of the snapshot. */
  lemma HitIsListed(b: Bucket, checked: set<Obj>, cands: Bucket, k: Obj)
    requires cands == Fresh(b, checked) && exists x :: 0 <= x < |cands| && cands[x].key == k
    ensures HasKey(b, k)
  {
    var x :| 0 <= x < |cands| && cands[x].key == k;
    assert cands[x] in cands && cands[x] in b;
  }

  /** With all candidates compared, every key of the snapshot is checked. */
  lemma AllCompared(b: Bucket, checked: set<Obj>, cands: Bucket, after: set<Obj>)
    requires cands == Fresh(b, checked) && checked <= after
    requires forall x :: 0 <= x < |cands| ==> cands[x].key in after
    ensures Covered(b, after)
  {
    forall i | 0 <= i < |b| ensures b[i].key in after {
      if b[i].key !in checked { assert b[i] in cands; }
    }
  }
}
