/**
 What each map operation does to the stored values, said directly about the tables of a run and without the
 sequential specification; and what single blocks of the protocol do with their bucket.
 */
module MapMeaning {
  import opened Options
  import opened Buckets
  import opened MapSpec
  import opened MapMachine
  import opened MapUniqueness
  import opened MapLinear
  import opened MapConsume

  // ------------------------------------------------------------------ clear

  /** Clearing a shard empties exactly the classes that live in it. */
  lemma ClearedShard(t: Table, i: nat, shards: nat, c: Class)
    requires 0 < shards
    ensures Stored(ClearTable(t, i, shards), c) == if c.hash % shards == i then None else Stored(t, c)
  {
  }

  /** The step after instant `m` is thread `t`'s turn of `clear` on shard `i`. */
  ghost predicate ClearsAt(shards: nat, ls: seq<Label>, m: nat, t: Tid, i: nat)
    requires 0 < shards
  {
    m < |ls| && ls[m] == Clear(t, i) && PcOf(Run(shards, ls[..m]), t).Idle?
  }

  lemma StepAt(shards: nat, ls: seq<Label>, m: nat)
    requires 0 < shards && m < |ls|
    ensures Run(shards, ls[..m + 1]) == Step(Run(shards, ls[..m]), ls[m])
    ensures Run(shards, ls).hist[m] == Cur(Run(shards, ls[..m]))
    ensures Run(shards, ls).hist[m + 1] == Cur(Run(shards, ls[..m + 1]))
  {
    RunPrefix(shards, ls, m);
    RunPrefix(shards, ls, m + 1);
    assert ls[..m + 1][..m] == ls[..m];
    assert Run(shards, ls).hist[m] == Run(shards, ls).hist[..m + 1][m];
    assert Run(shards, ls).hist[m + 1] == Run(shards, ls).hist[..m + 2][m + 1];
  }

  /** One turn of `clear`, in any run: the shard's classes are gone, the others keep their values. */
  lemma ClearTurn(shards: nat, ls: seq<Label>, m: nat, t: Tid, i: nat, c: Class)
    requires 0 < shards && ClearsAt(shards, ls, m, t, i)
    ensures var H := Run(shards, ls).hist;
            Stored(H[m + 1], c) == if c.hash % shards == i then None else Stored(H[m], c)
  {
    StepAt(shards, ls, m);
    ClearedShard(Run(shards, ls).hist[m], i, shards, c);
  }

  /** A whole `clear()`: after a thread's turns over all shards, at whatever instants, every class has been absent
      right after its shard's turn. */
  lemma ClearEmpties(shards: nat, ls: seq<Label>, t: Tid, at: seq<nat>, c: Class)
    requires 0 < shards == |at| && forall i :: 0 <= i < shards ==> ClearsAt(shards, ls, at[i], t, i)
    ensures at[c.hash % shards] < |ls| && Stored(Run(shards, ls).hist[at[c.hash % shards] + 1], c) == None
  {
    ClearTurn(shards, ls, at[c.hash % shards], t, c.hash % shards, c);
  }

  // ------------------------------------------------------------------ every operation

  /** The step to instant `n` gives class `c` the value `v` and changes no other class. */
  ghost predicate Becomes(H: seq<Table>, n: nat, c: Class, v: Option<Val>) {
    && 0 < n < |H| && Stored(H[n], c) == v
    && forall d :: d != c ==> Stored(H[n], d) == Stored(H[n - 1], d)
  }

  /** At some instant of the call the class had the value `v`. */
  ghost predicate Held(H: seq<Table>, call: Call, c: Class, v: Option<Val>) {
    exists m :: call.inv <= m <= call.resp && m < |H| && Stored(H[m], c) == v
  }

  /** What the answer of a completed call tells, and what its last step did. */
  ghost predicate Right(H: seq<Table>, shards: nat, call: Call)
    requires 0 < shards
  {
    match call.op
    case Lookup(k) => call.res.Found? && Held(H, call, k.cls, call.res.value)
    case GetOrInsert(k, d) =>
      && call.res.Value?
      && (|| Held(H, call, k.cls, Some(call.res.v))
          || (call.res.v == d && Becomes(H, call.resp, k.cls, Some(d)) && Stored(H[call.resp - 1], k.cls) == None))
    case Set(k, v) => call.res == Unit && Becomes(H, call.resp, k.cls, Some(v))
    case Delete(k) =>
      || (call.res == Flag(true) && Becomes(H, call.resp, k.cls, None) && Stored(H[call.resp - 1], k.cls).Some?)
      || (call.res == Flag(false) && Held(H, call, k.cls, None))
    case Pop(k) =>
      || (call.res.Found? && call.res.value.Some?
          && Becomes(H, call.resp, k.cls, None) && Stored(H[call.resp - 1], k.cls) == call.res.value)
      || (call.res == Found(None) && Held(H, call, k.cls, None))
    case ClearShard(i) =>
      && call.res == Unit && 0 < call.resp < |H|
      && forall c: Class ::
           Stored(H[call.resp], c) == if c.hash % shards == i then None else Stored(H[call.resp - 1], c)
  }

  /** Setting and clearing are always recorded as effects. */
  predicate Effectful(call: Call) {
    call.op.Set? || call.op.ClearShard? ==> call.eff
  }

  lemma {:induction false} RunEffectful(shards: nat, ls: seq<Label>)
    requires 0 < shards
    ensures forall i :: 0 <= i < |Run(shards, ls).calls| ==> Effectful(Run(shards, ls).calls[i])
  {
    if ls != [] {
      var p, l := ls[..|ls| - 1], ls[|ls| - 1];
      RunEffectful(shards, p);
      StepEffectful(Run(shards, p), l);
    }
  }

  lemma StepEffectful(s: State, l: Label)
    requires Sane(s) && forall i :: 0 <= i < |s.calls| ==> Effectful(s.calls[i])
    ensures forall i :: 0 <= i < |Step(s, l).calls| ==> Effectful(Step(s, l).calls[i])
  {
    if l.Go? && !PcOf(s, l.t).Idle? && PcOf(s, l.t).c.op.Set? {
      SetTurnEffectful(PcOf(s, l.t), BucketOf(s, l.t), Now(s));
    }
  }

  lemma SetTurnEffectful(pc: Pc, b: Bucket, now: nat)
    requires Shaped(pc) && !pc.Idle? && pc.c.op.Set?
    ensures Block(pc, b, now).Return? ==> Block(pc, b, now).eff
  {
  }

  lemma DenotesAt(a: AMap, t: Table, c: Class)
    requires Denotes(a, t)
    ensures Get(a, c) == Stored(t, c)
  {
  }

  /** A step that meets the operation, at the operation's own class ... */
  lemma MeetsAtKey(t: Table, t': Table, op: Op, res: Res, shards: nat)
    requires 0 < shards && Meets(t, t', op, res, shards) && !op.ClearShard?
    ensures var v, v' := Stored(t, op.key.cls), Stored(t', op.key.cls);
      match op
      case Lookup(_) => res == Found(v) && v' == v
      case GetOrInsert(_, d) => res == Value(if v.Some? then v.value else d) && v' == Some(res.v)
      case Set(_, x) => res == Unit && v' == Some(x)
      case Delete(_) => res == Flag(v.Some?) && v' == None
      case Pop(_) => res == Found(v) && v' == None
  {
    var a := Meaning(t);
    DenotesAt(a, t, op.key.cls);
    DenotesAt(Spec(a, op, shards).0, t', op.key.cls);
  }

  /** ... and at the others. */
  lemma MeetsElsewhere(t: Table, t': Table, op: Op, res: Res, shards: nat, c: Class)
    requires 0 < shards && Meets(t, t', op, res, shards)
    ensures op.ClearShard? ==> res == Unit
    ensures op.ClearShard? ==> Stored(t', c) == if c.hash % shards == op.shard then None else Stored(t, c)
    ensures !op.ClearShard? && c != op.key.cls ==> Stored(t', c) == Stored(t, c)
  {
    var a := Meaning(t);
    DenotesAt(a, t, c);
    DenotesAt(Spec(a, op, shards).0, t', c);
  }

  lemma ClearIsRight(H: seq<Table>, shards: nat, call: Call)
    requires 0 < shards && call.op.ClearShard? && 0 < call.resp < |H|
    requires Meets(H[call.resp - 1], H[call.resp], call.op, call.res, shards)
    ensures Right(H, shards, call)
  {
    var t, t' := H[call.resp - 1], H[call.resp];
    MeetsElsewhere(t, t', call.op, call.res, shards, Class(0, 0));
    forall c: Class ensures Stored(t', c) == if c.hash % shards == call.op.shard then None else Stored(t, c) {
      MeetsElsewhere(t, t', call.op, call.res, shards, c);
    }
  }

  lemma EffectIsRight(H: seq<Table>, shards: nat, call: Call)
    requires 0 < shards && !call.op.ClearShard? && call.inv <= call.resp && 0 < call.resp < |H|
    requires Meets(H[call.resp - 1], H[call.resp], call.op, call.res, shards)
    ensures Right(H, shards, call)
  {
    var n, k := call.resp, call.op.key.cls;
    forall c: Class | c != k ensures Stored(H[n], c) == Stored(H[n - 1], c) {
      MeetsElsewhere(H[n - 1], H[n], call.op, call.res, shards, c);
    }
    MeetsAtKey(H[n - 1], H[n], call.op, call.res, shards);
    assert Becomes(H, n, k, Stored(H[n], k));
    assert Held(H, call, k, Stored(H[n], k));
  }

  lemma AnswerIsRight(H: seq<Table>, shards: nat, call: Call, m: nat)
    requires 0 < shards && !call.eff && Effectful(call) && call.inv <= m <= call.resp && m < |H|
    requires Meets(H[m], H[m], call.op, call.res, shards)
    ensures Right(H, shards, call)
  {
    var k := call.op.key.cls;
    MeetsAtKey(H[m], H[m], call.op, call.res, shards);
    assert Held(H, call, k, Stored(H[m], k));
  }

  lemma TakenIsRight(H: seq<Table>, shards: nat, call: Call, m: nat)
    requires 0 < shards && Effectful(call) && TakesEffectAt(H, shards, call, m)
    ensures Right(H, shards, call)
  {
    if !call.eff {
      AnswerIsRight(H, shards, call, m);
    } else if call.op.ClearShard? {
      ClearIsRight(H, shards, call);
    } else {
      EffectIsRight(H, shards, call);
    }
  }

  /** In every run that keeps keys unique: a lookup answers the value at an instant of the call; `set` stores its value;
      `get_or_insert` answers a value held during the call, or stores the default over an absence; `delete` and
      `pop_val` remove the value they report, or the class was absent during the call; `clear` empties its shard; and
      none of them touches another class. */
  lemma EveryCallIsRight(shards: nat, ls: seq<Label>, i: nat)
    requires 0 < shards && UniqueRun(Run(shards, ls).hist) && i < |Run(shards, ls).calls|
    ensures Right(Run(shards, ls).hist, shards, Run(shards, ls).calls[i])
  {
    var s := Run(shards, ls);
    RunEffectful(shards, ls);
    EveryCallTakesEffect(shards, ls, i);
    var m :| TakesEffectAt(s.hist, shards, s.calls[i], m);
    TakenIsRight(s.hist, shards, s.calls[i], m);
  }

  /** And whatever step is not the effect of some call changes no value at all. */
  lemma OtherStepsChangeNothing(shards: nat, ls: seq<Label>, m: nat, c: Class)
    requires 0 < shards && 0 < m < |Run(shards, ls).hist| && !SomeEffectAt(Run(shards, ls).calls, m)
    ensures Stored(Run(shards, ls).hist[m], c) == Stored(Run(shards, ls).hist[m - 1], c)
  {
    RunLin(shards, ls);
    assert SameBuckets(Run(shards, ls).hist[m - 1], Run(shards, ls).hist[m]);
  }

  // ------------------------------------------------------------------ what single blocks do

  /** The entry of object `k` was overwritten (`set`) or taken out (`delete`, `pop_val`), and the answer says so. */
  ghost predicate ActedOn(op: Op, k: Obj, b: Bucket, turn: Turn) {
    turn.Return? && exists p :: 0 <= p < |b| && b[p].key == k && ActedAt(op, k, b, turn, p)
  }

  predicate ActedAt(op: Op, k: Obj, b: Bucket, turn: Turn, p: nat)
    requires turn.Return? && p < |b|
  {
    match op
    case Set(_, v) => turn.b == b[p := Entry(k, v)] && turn.res == Unit
    case Delete(_) => turn.b == b[..p] + b[p + 1..] && turn.res == Flag(true)
    case Pop(_) => turn.b == b[..p] + b[p + 1..] && turn.res == Found(Some(b[p].val))
    case _ => false
  }

  /** The fast path decides at once on an empty bucket and on the caller's own key object, and only then. */
  lemma FastPathDecides(s: State, t: Tid)
    requires Sane(s) && PcOf(s, t).Fast?
    ensures var op, b, turn := PcOf(s, t).c.op, BucketOf(s, t), TurnOf(s, t);
            && (HasKey(b, op.key) ==> ActedOn(op, op.key, b, turn))
            && (b == [] && op.Set? ==> turn == Return([Entry(op.key, op.val)], Unit, true))
            && (b == [] && op.Delete? ==> turn == Return([], Flag(false), false))
            && (b == [] && op.Pop? ==> turn == Return([], Found(None), false))
            && (turn.More? <==> b != [] && !HasKey(b, op.key))
  {
    var op, b := PcOf(s, t).c.op, BucketOf(s, t);
    assert b != [] ==> |b| > 0;
    if HasKey(b, op.key) { assert b[Pos(b, op.key)].key == op.key; }
  }

  /** The re-lock acts on the object that compared equal exactly if it is still listed. */
  lemma RelockActs(s: State, t: Tid)
    requires Sane(s) && PcOf(s, t).Hit?
    ensures var pc, b, turn := PcOf(s, t), BucketOf(s, t), TurnOf(s, t);
            && (HasKey(b, pc.k) ==> ActedOn(pc.c.op, pc.k, b, turn))
            && (!HasKey(b, pc.k) ==> turn == More(b, Last(pc.c)))
  {
    var b := BucketOf(s, t);
    if HasKey(b, PcOf(s, t).k) { assert b[Pos(b, PcOf(s, t).k)].key == PcOf(s, t).k; }
  }

  /** Step 3 retries exactly if an unchecked key is listed; else the caller's own key object is acted on if it is
      listed; else `set` and `get_or_insert` append at the end and the others give up. */
  lemma LastStepDecides(s: State, t: Tid)
    requires Sane(s) && PcOf(s, t).Last?
    ensures var c, b, turn := PcOf(s, t).c, BucketOf(s, t), TurnOf(s, t);
            && (turn.More? <==> exists i :: 0 <= i < |b| && b[i].key !in c.checked)
            && (turn.More? ==> turn.b == b && turn.pc == Snap(c.(retries := c.retries + 1)))
            && (turn.Return? && HasKey(b, c.op.key) && !c.op.GetOrInsert? ==> ActedOn(c.op, c.op.key, b, turn))
            && (turn.Return? && HasKey(b, c.op.key) && c.op.GetOrInsert? ==>
                turn.b == b && exists p :: 0 <= p < |b| && b[p].key == c.op.key && turn.res == Value(b[p].val))
            && (turn.Return? && !HasKey(b, c.op.key) ==>
                match c.op
                case Set(k, v) => turn.b == b + [Entry(k, v)] && turn.res == Unit
                case GetOrInsert(k, d) => turn.b == b + [Entry(k, d)] && turn.res == Value(d)
                case Delete(_) => turn.b == b && turn.res == Flag(false)
                case Pop(_) => turn.b == b && turn.res == Found(None)
                case _ => true)
  {
    var c, b := PcOf(s, t).c, BucketOf(s, t);
    if HasKey(b, c.op.key) { assert b[Pos(b, c.op.key)].key == c.op.key; }
  }

  /** `retries` counts a call's `continue`s: it starts at zero, and only a step from step 3 back to the snapshot raises
      it, by one. */
  lemma RetriesCount(s: State, l: Label, t: Tid)
    requires Sane(s) && !PcOf(Step(s, l), t).Idle?
    ensures var pc, pc' := PcOf(s, t), PcOf(Step(s, l), t);
            if pc.Idle? then pc'.c.retries == 0
            else if pc.Last? && pc'.Snap? then pc'.c.retries == pc.c.retries + 1
            else pc'.c.retries == pc.c.retries
  {
  }
}
