/** The abstract map: one optional value per equality class, and what each operation means on it. */
module MapSpec {
  import opened Options
  import opened Buckets

  type AMap = map<Class, Val>

  datatype Op =
    | Lookup(key: Obj)                    // get, get_val, contains_key
    | GetOrInsert(key: Obj, dflt: Val)
    | Set(key: Obj, val: Val)
    | Delete(key: Obj)
    | Pop(key: Obj)
    | ClearShard(shard: nat)              // one turn of clear's loop

  datatype Res = Found(value: Option<Val>) | Value(v: Val) | Unit | Flag(b: bool)

  function Get(m: AMap, c: Class): Option<Val> {
    if c in m then Some(m[c]) else None
  }

  function Spec(m: AMap, op: Op, shards: nat): (AMap, Res)
    requires 0 < shards
  {
    match op
    case Lookup(k) => (m, Found(Get(m, k.cls)))
    case GetOrInsert(k, d) => if k.cls in m then (m, Value(m[k.cls])) else (m[k.cls := d], Value(d))
    case Set(k, v) => (m[k.cls := v], Unit)
    case Delete(k) => (m - {k.cls}, Flag(k.cls in m))
    case Pop(k) => (m - {k.cls}, Found(Get(m, k.cls)))
    case ClearShard(i) => (map c | c in m && c.hash % shards != i :: m[c], Unit)
  }

  /** What `delete` and `pop_val` answer, given the value they removed (if any). */
  function Removed(op: Op, v: Option<Val>): Res
    requires op.Delete? || op.Pop?
  {
    if op.Delete? then Flag(v.Some?) else Found(v)
  }
}

/**
 The concurrent map as a step machine. A run is a sequence of labels; each lock-protected block is one
 step and each unlocked `__eq__` call is one step, so a re-entrant `__eq__` is one more thread. `hist`
 is the table after every step: it only records, no step depends on anything but its last element.
 */
module MapMachine {
  import opened Options
  import opened Buckets
  import opened MapSpec

  type Table = map<Hash, Bucket>
  type Tid = nat

  /** A hash without a bucket and a hash with an empty one behave alike in every operation. */
  function At(t: Table, h: Hash): Bucket {
    if h in t then t[h] else []
  }

  /** `start`, `slow`, `snap` are instants (indices of `hist`): of the call, of entering the retry
      loop, and of the last snapshot. `checked` is `checked_keys`, `retries` counts `continue`s. */
  datatype Ctx = Ctx(op: Op, start: nat, slow: nat, snap: nat, checked: set<Obj>, retries: nat)

  datatype Pc =
    | Idle
    | Fast(c: Ctx)                    // before the fast-path block
    | Snap(c: Ctx)                    // before collecting candidates
    | Cmp(c: Ctx, cands: Bucket)      // comparing candidates, no lock held
    | Hit(c: Ctx, k: Obj)             // `k` compared equal, before the re-lock
    | Last(c: Ctx)                    // before step 3

  /** A completed call: invoked at instant `inv`, its last step led to instant `resp`;
      `eff` says that this last step is where the call changed (or may have changed) the table. */
  datatype Call = Call(tid: Tid, op: Op, res: Res, inv: nat, resp: nat, eff: bool)

  datatype State = State(shards: nat, hist: seq<Table>, pcs: map<Tid, Pc>, calls: seq<Call>)

  datatype Label = Invoke(t: Tid, op: Op) | Go(t: Tid) | Clear(t: Tid, shard: nat)

  /** What one turn of a thread does to its bucket: go on, or return. */
  datatype Turn = More(b: Bucket, pc: Pc) | Return(b: Bucket, res: Res, eff: bool)

  function PcOf(s: State, t: Tid): Pc {
    if t in s.pcs then s.pcs[t] else Idle
  }

  function FastBlock(c: Ctx, b: Bucket, now: nat): Turn
    requires c.op.Set? || c.op.Delete? || c.op.Pop?
  {
    var p := Pos(b, c.op.key);
    if b == [] then
      if c.op.Set? then Return([Entry(c.op.key, c.op.val)], Unit, true) else Return(b, Removed(c.op, None), false)
    else if p < |b| then Act(c.op, b, p)
    else More(b, Snap(c.(slow := now)))
  }

  /** Overwrite or remove the entry at position `p`. */
  function Act(op: Op, b: Bucket, p: nat): Turn
    requires op.Set? || op.Delete? || op.Pop?
    requires p < |b|
  {
    if op.Set? then Return(Update(b, p, op.val), Unit, true)
    else Return(RemoveAt(b, p), Removed(op, Some(b[p].val)), true)
  }

  /** One unlocked comparison, or the end of the candidate list. */
  function CmpTurn(c: Ctx, cands: Bucket, b: Bucket): Turn
    requires !c.op.ClearShard?
  {
    if cands == [] then
      if c.op.Lookup? then Return(b, Found(None), false) else More(b, Last(c))
    else
      var e := cands[0];
      var c' := c.(checked := c.checked + {e.key});
      if !Eq(e.key, c.op.key) then More(b, Cmp(c', cands[1..]))
      else if c.op.Lookup? then Return(b, Found(Some(e.val)), false)
      else if c.op.GetOrInsert? then Return(b, Value(e.val), false)
      else More(b, Hit(c', e.key))
  }

  /** The re-lock after a match: act if that very object is still there. */
  function HitBlock(c: Ctx, k: Obj, b: Bucket): Turn
    requires c.op.Set? || c.op.Delete? || c.op.Pop?
  {
    var p := Pos(b, k);
    if p < |b| then Act(c.op, b, p) else More(b, Last(c))
  }

  /** Step 3: retry if an unchecked key appeared, otherwise finish. */
  function LastBlock(c: Ctx, b: Bucket): Turn
    requires !c.op.ClearShard? && !c.op.Lookup?
  {
    var p := Pos(b, c.op.key);
    if !Covered(b, c.checked) then More(b, Snap(c.(retries := c.retries + 1)))
    else if p < |b| then
      if c.op.GetOrInsert? then Return(b, Value(b[p].val), false) else Act(c.op, b, p)
    else if c.op.GetOrInsert? then Return(b + [Entry(c.op.key, c.op.dflt)], Value(c.op.dflt), true)
    else if c.op.Set? then Return(b + [Entry(c.op.key, c.op.val)], Unit, true)
    else Return(b, Removed(c.op, None), false)
  }

  /** Which operations can be at which program point. */
  predicate Shaped(pc: Pc) {
    match pc
    case Idle => true
    case Fast(c) => c.op.Set? || c.op.Delete? || c.op.Pop?
    case Snap(c) => !c.op.ClearShard?
    case Cmp(c, _) => !c.op.ClearShard?
    case Hit(c, _) => c.op.Set? || c.op.Delete? || c.op.Pop?
    case Last(c) => !c.op.ClearShard? && !c.op.Lookup?
  }

  function Block(pc: Pc, b: Bucket, now: nat): Turn
    requires Shaped(pc) && !pc.Idle?
  {
    match pc
    case Fast(c) => FastBlock(c, b, now)
    case Snap(c) => More(b, Cmp(c.(snap := now), Fresh(b, c.checked)))
    case Cmp(c, cands) => CmpTurn(c, cands, b)
    case Hit(c, k) => HitBlock(c, k, b)
    case Last(c) => LastBlock(c, b)
  }

  function Begin(op: Op, now: nat): Pc {
    var c := Ctx(op, now, now, now, {}, 0);
    if op.Lookup? || op.GetOrInsert? then Snap(c) else Fast(c)
  }

  function ClearTable(t: Table, i: nat, shards: nat): Table
    requires 0 < shards
  {
    map h | h in t && h % shards != i :: t[h]
  }

  predicate Sane(s: State) {
    0 < s.shards && |s.hist| >= 1 && (forall t :: t in s.pcs ==> Shaped(s.pcs[t]))
  }

  function Now(s: State): nat
    requires Sane(s)
  {
    |s.hist| - 1
  }

  function Cur(s: State): Table
    requires Sane(s)
  {
    s.hist[|s.hist| - 1]
  }

  /** The bucket a running thread works on. */
  function BucketOf(s: State, t: Tid): Bucket
    requires Sane(s) && !PcOf(s, t).Idle?
  {
    At(Cur(s), KeyOf(PcOf(s, t)).cls.hash)
  }

  function KeyOf(pc: Pc): Obj
    requires !pc.Idle? && Shaped(pc)
  {
    pc.c.op.key
  }

  function TurnOf(s: State, t: Tid): Turn
    requires Sane(s) && !PcOf(s, t).Idle?
  {
    Block(PcOf(s, t), BucketOf(s, t), Now(s))
  }

  /** One step; a label that is not enabled only lets an instant pass. */
  function Step(s: State, l: Label): (s': State)
    requires Sane(s)
    ensures Sane(s') && s'.shards == s.shards
    ensures |s'.hist| == |s.hist| + 1 && s'.hist[..|s.hist|] == s.hist
  {
    var t := l.t;
    if l.Invoke? && PcOf(s, t).Idle? && !l.op.ClearShard? then
      s.(hist := s.hist + [Cur(s)], pcs := s.pcs[t := Begin(l.op, Now(s) + 1)])
    else if l.Go? && !PcOf(s, t).Idle? then
      var pc := PcOf(s, t);
      var turn := TurnOf(s, t);
      var hist' := s.hist + [Cur(s)[KeyOf(pc).cls.hash := turn.b]];
      if turn.More? then s.(hist := hist', pcs := s.pcs[t := turn.pc])
      else s.(hist := hist', pcs := s.pcs[t := Idle],
              calls := s.calls + [Call(t, pc.c.op, turn.res, pc.c.start, Now(s) + 1, turn.eff)])
    else if l.Clear? && PcOf(s, t).Idle? then
      s.(hist := s.hist + [ClearTable(Cur(s), l.shard, s.shards)],
         calls := s.calls + [Call(t, ClearShard(l.shard), Unit, Now(s) + 1, Now(s) + 1, true)])
    else s.(hist := s.hist + [Cur(s)])
  }

  function Init(shards: nat): State {
    State(shards, [map[]], map[], [])
  }

  /** The state a run reaches. */
  function Run(shards: nat, ls: seq<Label>): (s: State)
    requires 0 < shards
    ensures Sane(s) && s.shards == shards && |s.hist| == |ls| + 1
  {
    if ls == [] then Init(shards) else Step(Run(shards, ls[..|ls| - 1]), ls[|ls| - 1])
  }

  /** The tables a shorter run saw are a prefix of those a longer one saw. */
  lemma {:induction false} RunPrefix(shards: nat, ls: seq<Label>, i: nat)
    requires 0 < shards && i <= |ls|
    ensures Run(shards, ls).hist[..i + 1] == Run(shards, ls[..i]).hist
  {
    if i == |ls| {
      assert ls[..i] == ls;
    } else {
      var p := ls[..|ls| - 1];
      RunPrefix(shards, p, i);
      assert p[..i] == ls[..i];
      assert Run(shards, ls).hist[..i + 1] == Run(shards, ls).hist[..|p| + 1][..i + 1];
    }
  }

  // ------------------------------------------------------------------ the machine's invariant

  /** `k` was in bucket `h` and later was not, both at instants from `lo` on. */
  ghost predicate Vanished(H: seq<Table>, h: Hash, k: Obj, lo: nat) {
    exists i, j :: lo <= i < j < |H| && HasKey(At(H[i], h), k) && !HasKey(At(H[j], h), k)
  }

  /** Every checked key that equals the operation's key was seen in the bucket and then missed at a
      re-lock; `get_or_insert` and the lookups never record an equal key at all. */
  ghost predicate CtxOk(H: seq<Table>, c: Ctx) {
    && !c.op.ClearShard?
    && c.start <= c.slow < |H|
    && c.start <= c.snap < |H|
    && forall k :: k in c.checked && Eq(k, c.op.key) ==>
         !c.op.Lookup? && !c.op.GetOrInsert? && Vanished(H, c.op.key.cls.hash, k, c.slow)
  }

  /** Nothing of the last snapshot was lost: each of its entries is checked or still a candidate. */
  ghost predicate Tracks(H: seq<Table>, c: Ctx, cands: Bucket)
    requires CtxOk(H, c)
  {
    var b := At(H[c.snap], c.op.key.cls.hash);
    && c.slow <= c.snap
    && (forall e :: e in cands ==> e in b)
    && (forall e :: e in b ==> e.key in c.checked || e in cands)
  }

  ghost predicate PcOk(H: seq<Table>, pc: Pc) {
    Shaped(pc) &&
    match pc
    case Idle => true
    case Fast(c) => CtxOk(H, c) && c.checked == {}
    case Snap(c) => CtxOk(H, c) && (c.op.Lookup? ==> c.checked == {})
    case Cmp(c, cands) => CtxOk(H, c) && Tracks(H, c, cands)
    case Hit(c, k) =>
      && CtxOk(H, c.(checked := c.checked - {k}))
      && Eq(k, c.op.key) && k in c.checked
      && c.slow <= c.snap && HasKey(At(H[c.snap], c.op.key.cls.hash), k)
    case Last(c) => CtxOk(H, c)
  }

  /** Every entry lies under its own hash. */
  ghost predicate Placed(t: Table) {
    forall h, i :: h in t && 0 <= i < |t[h]| ==> t[h][i].key.cls.hash == h
  }

  ghost predicate Inv(s: State) {
    && Sane(s)
    && (forall i :: 0 <= i < |s.hist| ==> Placed(s.hist[i]))
    && (forall t :: t in s.pcs ==> PcOk(s.hist, s.pcs[t]))
  }

  /** A thread's facts survive the steps of the others. */
  lemma PcOkGrows(H: seq<Table>, T: Table, pc: Pc)
    requires PcOk(H, pc)
    ensures PcOk(H + [T], pc)
  {
    if !pc.Idle? {
      var H' := H + [T];
      assert forall i :: 0 <= i < |H| ==> H'[i] == H[i];
      var h := pc.c.op.key.cls.hash;
      forall k | Vanished(H, h, k, pc.c.slow) ensures Vanished(H', h, k, pc.c.slow) {
        var i, j :| pc.c.slow <= i < j < |H| && HasKey(At(H[i], h), k) && !HasKey(At(H[j], h), k);
        assert HasKey(At(H'[i], h), k) && !HasKey(At(H'[j], h), k);
      }
      if pc.Cmp? {
        assert CtxOk(H', pc.c);
      }
    }
  }

  /** A thread's own turn re-establishes its facts. */
  lemma TurnOk(H: seq<Table>, pc: Pc, turn: Turn)
    requires |H| >= 1 && PcOk(H, pc) && !pc.Idle?
    requires turn == Block(pc, At(H[|H| - 1], KeyOf(pc).cls.hash), |H| - 1)
    ensures turn.More? ==> PcOk(H, turn.pc)
  {
    var h := KeyOf(pc).cls.hash;
    var b := At(H[|H| - 1], h);
    match pc
    case Fast(c) =>
    case Snap(c) =>
    case Cmp(c, cands) =>
      if cands != [] {
        assert cands[0] in At(H[c.snap], h);
        assert forall e :: e in cands <==> e == cands[0] || e in cands[1..];
        if Eq(cands[0].key, c.op.key) {
          assert forall k :: k in c.checked + {cands[0].key} - {cands[0].key} ==> k in c.checked;
        }
      }
    case Hit(c, k) =>
      if !HasKey(b, k) {
        assert HasKey(At(H[c.snap], h), k) && !HasKey(At(H[|H| - 1], h), k);
        assert Vanished(H, h, k, c.slow);
      }
    case Last(c) =>
  }

  /** A turn only ever stores keys of the bucket or the operation's own key. */
  lemma TurnKeys(pc: Pc, b: Bucket, now: nat)
    requires Shaped(pc) && !pc.Idle?
    ensures var b' := Block(pc, b, now).b;
            forall i :: 0 <= i < |b'| ==> b'[i].key == KeyOf(pc) || HasKey(b, b'[i].key)
  {
    var b' := Block(pc, b, now).b;
    forall i | 0 <= i < |b'| ensures b'[i].key == KeyOf(pc) || HasKey(b, b'[i].key) {
      if i < |b| && b'[i].key == b[i].key {
      } else if i + 1 < |b| && b'[i] == b[i + 1] {
      }
    }
  }

  lemma NextPcOk(s: State, t: Tid)
    requires Inv(s) && !PcOf(s, t).Idle? && TurnOf(s, t).More?
    ensures PcOk(s.hist, TurnOf(s, t).pc)
  {
    TurnIsBlock(s, t);
    TurnOk(s.hist, PcOf(s, t), TurnOf(s, t));
  }

  lemma TurnIsBlock(s: State, t: Tid)
    requires Sane(s) && !PcOf(s, t).Idle?
    ensures TurnOf(s, t) == Block(PcOf(s, t), At(s.hist[|s.hist| - 1], KeyOf(PcOf(s, t)).cls.hash), |s.hist| - 1)
  {
  }

  lemma OwnTurnOk(s: State, t: Tid, T: Table)
    requires Inv(s) && !PcOf(s, t).Idle? && TurnOf(s, t).More?
    ensures PcOk(s.hist + [T], TurnOf(s, t).pc)
  {
    NextPcOk(s, t);
    PcOkGrows(s.hist, T, TurnOf(s, t).pc);
  }

  lemma StepPcs(s: State, l: Label, t: Tid)
    requires Inv(s) && t in Step(s, l).pcs
    ensures PcOk(Step(s, l).hist, Step(s, l).pcs[t])
  {
    var H' := Step(s, l).hist;
    var T := H'[|s.hist|];
    assert H' == s.hist + [T];
    if l.t == t && l.Go? && !PcOf(s, t).Idle? {
      if TurnOf(s, t).More? { OwnTurnOk(s, t, T); }
    } else if l.t == t && l.Invoke? && PcOf(s, t).Idle? && !l.op.ClearShard? {
      BeginOk(H', l.op);
    } else {
      PcOkGrows(s.hist, T, s.pcs[t]);
    }
  }

  lemma BeginOk(H: seq<Table>, op: Op)
    requires |H| > 0 && !op.ClearShard?
    ensures PcOk(H, Begin(op, |H| - 1))
  {
  }

  lemma StepPlaced(s: State, l: Label)
    requires Inv(s)
    ensures Placed(Cur(Step(s, l)))
  {
    assert Placed(s.hist[|s.hist| - 1]);
    if l.Go? && !PcOf(s, l.t).Idle? {
      TurnKeys(PcOf(s, l.t), BucketOf(s, l.t), Now(s));
    }
  }

  lemma StepInv(s: State, l: Label)
    requires Inv(s)
    ensures Inv(Step(s, l))
  {
    var s' := Step(s, l);
    forall t | t in s'.pcs ensures PcOk(s'.hist, s'.pcs[t]) {
      StepPcs(s, l, t);
    }
    StepPlaced(s, l);
    assert forall i :: 0 <= i < |s.hist| ==> s'.hist[i] == s'.hist[..|s.hist|][i];
  }

  lemma {:induction false} RunInv(shards: nat, ls: seq<Label>)
    requires 0 < shards
    ensures Inv(Run(shards, ls))
  {
    if ls != [] {
      RunInv(shards, ls[..|ls| - 1]);
      StepInv(Run(shards, ls[..|ls| - 1]), ls[|ls| - 1]);
    }
  }
}
