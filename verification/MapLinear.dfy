/** Linearizability: every run that keeps keys unique is equivalent to a sequential one. */
module MapLinear {
  import opened Options
  import opened Buckets
  import opened MapSpec
  import opened MapMachine
  import opened MapUniqueness

  /** The value a table gives to a class. */
  function Stored(t: Table, c: Class): Option<Val> {
    Find(At(t, c.hash), c)
  }

  /** The table `t` stores the abstract map `a`. */
  ghost predicate Denotes(a: AMap, t: Table) {
    forall c: Class :: Get(a, c) == Stored(t, c)
  }

  lemma SameGets(a: AMap, a': AMap)
    requires forall c :: Get(a, c) == Get(a', c)
    ensures a == a'
  {
    forall c ensures c in a <==> c in a' {
      assert Get(a, c) == Get(a', c);
    }
    forall c | c in a ensures a[c] == a'[c] {
      assert Get(a, c) == Get(a', c);
    }
  }

  lemma DenotesOnce(a: AMap, a': AMap, t: Table)
    requires Denotes(a, t) && Denotes(a', t)
    ensures a == a'
  {
    forall c: Class ensures Get(a, c) == Get(a', c) {
      assert Get(a, c) == Stored(t, c) == Get(a', c);
    }
    SameGets(a, a');
  }

  /** Going from `t` to `t'` is what `op` with answer `res` does to the abstract map. */
  ghost predicate Meets(t: Table, t': Table, op: Op, res: Res, shards: nat)
    requires 0 < shards
  {
    forall a: AMap :: Denotes(a, t) ==> Spec(a, op, shards).1 == res && Denotes(Spec(a, op, shards).0, t')
  }

  /** `m` is an instant inside the call at which its answer and its effect match the abstract map. */
  ghost predicate TakesEffectAt(H: seq<Table>, shards: nat, call: Call, m: nat)
    requires 0 < shards
  {
    && call.inv <= m <= call.resp && m < |H|
    && (call.eff ==> m == call.resp && 0 < m && Meets(H[m - 1], H[m], call.op, call.res, shards))
    && (!call.eff ==> Meets(H[m], H[m], call.op, call.res, shards))
  }

  // ------------------------------------------------------------------ effects of single turns

  /** The value an operation leaves for its class, and whether answer `res` is right given the value `before`. */
  predicate Answers(op: Op, before: Option<Val>, after: Option<Val>, res: Res) {
    match op
    case Lookup(_) => after == before && res == Found(before)
    case GetOrInsert(_, d) =>
      if before.Some? then after == before && res == Value(before.value) else after == Some(d) && res == Value(d)
    case Set(_, v) => after == Some(v) && res == Unit
    case Delete(_) => after == None && res == Flag(before.Some?)
    case Pop(_) => after == None && res == Found(before)
    case ClearShard(_) => false
  }

  lemma SpecByClass(a: AMap, a': AMap, op: Op, res: Res, shards: nat)
    requires 0 < shards && !op.ClearShard?
    requires Answers(op, Get(a, op.key.cls), Get(a', op.key.cls), res)
    requires forall c :: c != op.key.cls ==> Get(a', c) == Get(a, c)
    ensures Spec(a, op, shards) == (a', res)
  {
    SameGets(Spec(a, op, shards).0, a');
  }

  lemma MeetsByClass(t: Table, t': Table, op: Op, res: Res, shards: nat)
    requires 0 < shards && !op.ClearShard?
    requires Answers(op, Stored(t, op.key.cls), Stored(t', op.key.cls), res)
    requires forall c :: c != op.key.cls ==> Stored(t', c) == Stored(t, c)
    ensures Meets(t, t', op, res, shards)
  {
    forall a: AMap | Denotes(a, t)
      ensures Spec(a, op, shards).1 == res && Denotes(Spec(a, op, shards).0, t')
    {
      var c := op.key.cls;
      assert Get(a, c) == Stored(t, c);
      var a' := match Stored(t', c) case None => a - {c} case Some(v) => a[c := v];
      forall d: Class ensures Get(a', d) == Stored(t', d) {
        assert Get(a, d) == Stored(t, d);
      }
      SpecByClass(a, a', op, res, shards);
    }
  }

  lemma ClearMeets(t: Table, i: nat, shards: nat)
    requires 0 < shards
    ensures Meets(t, ClearTable(t, i, shards), ClearShard(i), Unit, shards)
  {
    var t' := ClearTable(t, i, shards);
    forall d: Class ensures Stored(t', d) == if d.hash % shards == i then None else Stored(t, d) {
    }
    forall a: AMap | Denotes(a, t) ensures Denotes(Spec(a, ClearShard(i), shards).0, t') {
      forall d: Class ensures Get(Spec(a, ClearShard(i), shards).0, d) == Stored(t', d) {
        assert Get(a, d) == Stored(t, d);
      }
    }
  }

  /** `Act` on an entry of the operation's class. */
  lemma ActAnswers(op: Op, b: Bucket, p: nat)
    requires op.Set? || op.Delete? || op.Pop?
    requires Unique(b) && p < |b| && b[p].key.cls == op.key.cls
    ensures var turn := Act(op, b, p);
            && Answers(op, Find(b, op.key.cls), Find(turn.b, op.key.cls), turn.res)
            && forall c :: c != op.key.cls ==> Find(turn.b, c) == Find(b, c)
  {
    FindEntry(b, p);
    if op.Set? { UpdateMeaning(b, p, op.val); } else { RemoveMeaning(b, p); }
  }

  lemma PushAnswers(op: Op, b: Bucket)
    requires op.Set? || op.GetOrInsert?
    requires Unique(b) && !HasClass(b, op.key.cls)
    ensures var v := if op.Set? then op.val else op.dflt;
            var b' := b + [Entry(op.key, v)];
            && Answers(op, Find(b, op.key.cls), Find(b', op.key.cls), if op.Set? then Unit else Value(v))
            && forall c :: c != op.key.cls ==> Find(b', c) == Find(b, c)
  {
    PushMeaning(b, Entry(op.key, if op.Set? then op.val else op.dflt));
  }

  /** An effectful return does, within its bucket, what the specification says. */
  lemma EffectAnswers(s: State, t: Tid)
    requires Inv(s) && !PcOf(s, t).Idle? && Unique(BucketOf(s, t))
    requires TurnOf(s, t).Return? && TurnOf(s, t).eff && Unique(TurnOf(s, t).b)
    ensures var b, turn, op := BucketOf(s, t), TurnOf(s, t), PcOf(s, t).c.op;
            && !op.ClearShard? && Answers(op, Find(b, op.key.cls), Find(turn.b, op.key.cls), turn.res)
            && forall c :: c != op.key.cls ==> Find(turn.b, c) == Find(b, c)
  {
    var b, pc := BucketOf(s, t), PcOf(s, t);
    assert PcOk(s.hist, pc);
    match pc
    case Fast(c) =>
      if b == [] {
        assert b + [Entry(c.op.key, c.op.val)] == [Entry(c.op.key, c.op.val)];
        PushAnswers(c.op, b);
      } else {
        ActAnswers(c.op, b, Pos(b, c.op.key));
      }
    case Snap(c) =>
    case Cmp(c, cands) =>
    case Hit(c, k) => ActAnswers(c.op, b, Pos(b, k));
    case Last(c) =>
      if HasKey(b, c.op.key) {
        ActAnswers(c.op, b, Pos(b, c.op.key));
      } else {
        TurnUnique(s, t);
        if c.op.GetOrInsert? { GetOrInsertSeesAbsence(s, t); }
        PushAnswers(c.op, b);
      }
  }

  lemma EffectMeets(s: State, t: Tid)
    requires Inv(s) && !PcOf(s, t).Idle? && UniqueTable(Cur(s)) && UniqueTable(Cur(Step(s, Go(t))))
    requires TurnOf(s, t).Return? && TurnOf(s, t).eff
    ensures Meets(Cur(s), Cur(Step(s, Go(t))), PcOf(s, t).c.op, TurnOf(s, t).res, s.shards)
  {
    var op := PcOf(s, t).c.op;
    var h := KeyOf(PcOf(s, t)).cls.hash;
    var T, T' := Cur(s), Cur(Step(s, Go(t)));
    assert T' == T[h := TurnOf(s, t).b];
    assert Unique(BucketOf(s, t)) && Unique(T'[h]);
    EffectAnswers(s, t);
    MeetsByClass(T, T', op, TurnOf(s, t).res, s.shards);
  }

  // ------------------------------------------------------------------ answers without an effect

  /** A step that puts a new key in a bucket removes none from it. */
  ghost predicate InsertsOnly(t: Table, t': Table) {
    forall h, k, k2 :: HasKey(At(t', h), k) && !HasKey(At(t, h), k) && HasKey(At(t, h), k2) ==> HasKey(At(t', h), k2)
  }

  ghost predicate InsertsOnlyRun(H: seq<Table>) {
    forall m :: 0 <= m && m + 1 < |H| ==> InsertsOnly(H[m], H[m + 1])
  }

  /** Hindsight: a key seen, missed and present again was inserted in between; just before that
      insertion its whole class was absent. */
  lemma AbsentBefore(H: seq<Table>, h: Hash, k: Obj, j: nat, n: nat) returns (m: nat)
    requires UniqueRun(H) && InsertsOnlyRun(H)
    requires j < n < |H| && !HasKey(At(H[j], h), k) && HasKey(At(H[n], h), k)
    ensures j <= m < n && !HasClass(At(H[m], h), k.cls)
  {
    m := InsertedBetween(H, h, k, j, n);
    var b, b' := At(H[m], h), At(H[m + 1], h);
    assert InsertsOnly(H[m], H[m + 1]) && UniqueTable(H[m + 1]);
    forall i | 0 <= i < |b| ensures b[i].key.cls != k.cls {
      assert HasKey(b, b[i].key);
      DistinctClasses(b', b[i].key, k);
    }
  }

  /** Different keys of a duplicate-free bucket are unequal. */
  lemma DistinctClasses(b: Bucket, k: Obj, k2: Obj)
    requires Unique(b) && HasKey(b, k) && HasKey(b, k2) && k != k2
    ensures !Eq(k, k2)
  {
    var x :| 0 <= x < |b| && b[x].key == k;
    var y :| 0 <= y < |b| && b[y].key == k2;
    assert b[if x < y then x else y].key.cls != b[if x < y then y else x].key.cls;
  }

  /** A `delete` or `pop_val` that finds nothing: the class was absent at some instant of the call. */
  lemma MissInstant(s: State, t: Tid) returns (m: nat)
    requires Inv(s) && PcOf(s, t).Last? && UniqueRun(s.hist) && InsertsOnlyRun(s.hist)
    requires PcOf(s, t).c.op.Delete? || PcOf(s, t).c.op.Pop?
    requires Covered(BucketOf(s, t), PcOf(s, t).c.checked)
    ensures var c := PcOf(s, t).c; c.start <= m <= Now(s) && !HasClass(At(s.hist[m], c.op.key.cls.hash), c.op.key.cls)
  {
    var c := PcOf(s, t).c;
    m := Now(s);
    assert PcOk(s.hist, PcOf(s, t));
    if HasClass(BucketOf(s, t), c.op.key.cls) {
      m := MissHindsight(s.hist, c, BucketOf(s, t));
    }
  }

  /** A key that vanished and is present now was missing at some earlier instant of the retry loop. */
  lemma MissingOnce(H: seq<Table>, h: Hash, k: Obj, lo: nat) returns (j: nat)
    requires |H| > 0 && Vanished(H, h, k, lo) && HasKey(At(H[|H| - 1], h), k)
    ensures lo <= j < |H| - 1 && !HasKey(At(H[j], h), k)
  {
    var i, j' :| lo <= i < j' < |H| && HasKey(At(H[i], h), k) && !HasKey(At(H[j'], h), k);
    j := j';
  }

  lemma ListedEqual(c: Ctx, b: Bucket) returns (k: Obj)
    requires !c.op.ClearShard? && Covered(b, c.checked) && HasClass(b, c.op.key.cls)
    ensures HasKey(b, k) && k in c.checked && Eq(k, c.op.key)
  {
    var e :| 0 <= e < |b| && b[e].key.cls == c.op.key.cls;
    k := b[e].key;
  }

  lemma MissHindsight(H: seq<Table>, c: Ctx, b: Bucket) returns (m: nat)
    requires |H| > 0 && CtxOk(H, c) && UniqueRun(H) && InsertsOnlyRun(H)
    requires b == At(H[|H| - 1], c.op.key.cls.hash) && Covered(b, c.checked) && HasClass(b, c.op.key.cls)
    ensures c.start <= m < |H| && !HasClass(At(H[m], c.op.key.cls.hash), c.op.key.cls)
  {
    var k := ListedEqual(c, b);
    var j := MissingOnce(H, c.op.key.cls.hash, k, c.slow);
    m := AbsentBefore(H, c.op.key.cls.hash, k, j, |H| - 1);
  }

  /** The last candidate list answers a lookup at the instant of the snapshot. */
  lemma SnapshotAnswers(H: seq<Table>, c: Ctx, cands: Bucket)
    requires UniqueRun(H) && CtxOk(H, c) && Tracks(H, c, cands)
    ensures var o := Find(At(H[c.snap], c.op.key.cls.hash), c.op.key.cls);
            && (cands != [] && Eq(cands[0].key, c.op.key) ==> o == Some(cands[0].val))
            && (cands == [] && (c.op.Lookup? || c.op.GetOrInsert?) ==> o == None)
  {
    var b := At(H[c.snap], c.op.key.cls.hash);
    assert Unique(b);
    if cands != [] && Eq(cands[0].key, c.op.key) {
      assert cands[0] in b;
      var i :| 0 <= i < |b| && b[i] == cands[0];
      FindEntry(b, i);
    } else if cands == [] && HasClass(b, c.op.key.cls) {
      var i :| 0 <= i < |b| && b[i].key.cls == c.op.key.cls;
      assert b[i] in b && b[i].key in c.checked && Eq(b[i].key, c.op.key);
    }
  }

  /** An answer without an effect is the right one at some instant of the call. */
  lemma AnswerInstant(s: State, t: Tid) returns (m: nat)
    requires Inv(s) && !PcOf(s, t).Idle? && UniqueRun(s.hist) && InsertsOnlyRun(s.hist)
    requires TurnOf(s, t).Return? && !TurnOf(s, t).eff
    ensures PcOf(s, t).c.start <= m <= Now(s) && !PcOf(s, t).c.op.ClearShard?
    ensures var op := PcOf(s, t).c.op;
            var o := Stored(s.hist[m], op.key.cls);
            Answers(op, o, o, TurnOf(s, t).res)
  {
    var pc := PcOf(s, t);
    assert PcOk(s.hist, pc);
    m := Now(s);
    match pc
    case Fast(c) =>
    case Snap(c) =>
    case Hit(c, k) =>
    case Cmp(c, cands) =>
      SnapshotAnswers(s.hist, c, cands);
      m := c.snap;
    case Last(c) =>
      if c.op.GetOrInsert? {
        GetOrInsertSeesAbsence(s, t);
      } else {
        m := MissInstant(s, t);
      }
  }

  // ------------------------------------------------------------------ every call has its instant

  ghost predicate CallOk(H: seq<Table>, shards: nat, call: Call)
    requires 0 < shards
  {
    && call.inv <= call.resp < |H|
    && (UniqueRun(H) ==> exists m :: TakesEffectAt(H, shards, call, m))
  }

  ghost predicate SomeEffectAt(calls: seq<Call>, m: nat) {
    exists i :: 0 <= i < |calls| && calls[i].eff && calls[i].resp == m
  }

  ghost predicate SameBuckets(t: Table, t': Table) {
    forall h :: At(t', h) == At(t, h)
  }

  /** Calls complete one at a time, each takes effect inside its interval, and no step without an
      effectful call changes any bucket. */
  ghost predicate CallsOk(s: State)
    requires Sane(s)
  {
    && (forall i, j :: 0 <= i < j < |s.calls| ==> s.calls[i].resp < s.calls[j].resp)
    && (forall i :: 0 <= i < |s.calls| ==> CallOk(s.hist, s.shards, s.calls[i]))
    && (forall m :: 0 < m < |s.hist| && !SomeEffectAt(s.calls, m) ==>
          SameBuckets(s.hist[m - 1], s.hist[m]))
  }

  ghost predicate LinInv(s: State) {
    Inv(s) && InsertsOnlyRun(s.hist) && CallsOk(s)
  }

  lemma CallOkGrows(H: seq<Table>, T: Table, shards: nat, call: Call)
    requires 0 < shards && CallOk(H, shards, call)
    ensures CallOk(H + [T], shards, call)
  {
    var H' := H + [T];
    assert forall i :: 0 <= i < |H| ==> H'[i] == H[i];
    if UniqueRun(H') {
      assert UniqueRun(H);
      var m :| TakesEffectAt(H, shards, call, m);
      assert TakesEffectAt(H', shards, call, m);
    }
  }

  lemma StepInsertsOnly(s: State, l: Label)
    requires Inv(s)
    ensures InsertsOnly(Cur(s), Cur(Step(s, l)))
  {
    var T, T' := Cur(s), Cur(Step(s, l));
    forall h, k, k2 | HasKey(At(T', h), k) && !HasKey(At(T, h), k) && HasKey(At(T, h), k2)
      ensures HasKey(At(T', h), k2)
    {
      if l.Go? && !PcOf(s, l.t).Idle? {
        TurnInserts(PcOf(s, l.t), BucketOf(s, l.t), Now(s), k, k2);
      }
    }
  }

  lemma TurnInserts(pc: Pc, b: Bucket, now: nat, k: Obj, k2: Obj)
    requires Shaped(pc) && !pc.Idle?
    requires var b' := Block(pc, b, now).b; HasKey(b', k) && !HasKey(b, k) && HasKey(b, k2)
    ensures HasKey(Block(pc, b, now).b, k2)
  {
    var b' := Block(pc, b, now).b;
    TurnShape(pc, b, now);
    var y :| 0 <= y < |b| && b[y].key == k2;
    if |b'| > |b| {
      assert b'[y] == b[y];
    }
  }

  /** A turn appends one entry or brings no new key. */
  lemma TurnShape(pc: Pc, b: Bucket, now: nat)
    requires Shaped(pc) && !pc.Idle?
    ensures var b' := Block(pc, b, now).b;
            (|b'| == |b| + 1 && b'[..|b|] == b) || (|b'| <= |b| && forall k :: HasKey(b', k) ==> HasKey(b, k))
  {
    var b' := Block(pc, b, now).b;
    if |b'| <= |b| {
      forall k | HasKey(b', k) ensures HasKey(b, k) {
        var x :| 0 <= x < |b'| && b'[x].key == k;
        assert b'[x].key == b[x].key || (x + 1 < |b| && b'[x] == b[x + 1]);
      }
    }
  }

  lemma EffectWitness(H: seq<Table>, T: Table, shards: nat, call: Call)
    requires 0 < shards && |H| > 0 && call.eff && call.inv <= call.resp == |H|
    requires Meets(H[|H| - 1], T, call.op, call.res, shards)
    ensures CallOk(H + [T], shards, call)
  {
    assert (H + [T])[|H| - 1] == H[|H| - 1] && (H + [T])[|H|] == T;
    assert TakesEffectAt(H + [T], shards, call, call.resp);
  }

  lemma AnswerWitness(H: seq<Table>, T: Table, shards: nat, call: Call, m: nat)
    requires 0 < shards && !call.eff && call.inv <= m < |H| == call.resp && !call.op.ClearShard?
    requires var o := Stored(H[m], call.op.key.cls); Answers(call.op, o, o, call.res)
    ensures CallOk(H + [T], shards, call)
  {
    MeetsByClass(H[m], H[m], call.op, call.res, shards);
    assert (H + [T])[m] == H[m];
    assert TakesEffectAt(H + [T], shards, call, m);
  }

  /** The call that the turn of thread `t` completes. */
  function Completed(s: State, t: Tid): Call
    requires Sane(s) && !PcOf(s, t).Idle? && TurnOf(s, t).Return?
  {
    Call(t, PcOf(s, t).c.op, TurnOf(s, t).res, PcOf(s, t).c.start, |s.hist|, TurnOf(s, t).eff)
  }

  lemma NewEffectOk(s: State, t: Tid)
    requires Inv(s) && !PcOf(s, t).Idle? && TurnOf(s, t).Return? && TurnOf(s, t).eff
    requires UniqueRun(s.hist + [Cur(Step(s, Go(t)))])
    ensures CallOk(s.hist + [Cur(Step(s, Go(t)))], s.shards, Completed(s, t))
  {
    var T := Cur(Step(s, Go(t)));
    UniquePrefix(s.hist, T);
    assert PcOk(s.hist, PcOf(s, t));
    EffectMeets(s, t);
    EffectWitness(s.hist, T, s.shards, Completed(s, t));
  }

  lemma NewAnswerOk(s: State, t: Tid)
    requires Inv(s) && InsertsOnlyRun(s.hist) && !PcOf(s, t).Idle? && TurnOf(s, t).Return? && !TurnOf(s, t).eff
    requires UniqueRun(s.hist + [Cur(Step(s, Go(t)))])
    ensures CallOk(s.hist + [Cur(Step(s, Go(t)))], s.shards, Completed(s, t))
  {
    var T := Cur(Step(s, Go(t)));
    UniquePrefix(s.hist, T);
    var m := AnswerInstant(s, t);
    AnswerWitness(s.hist, T, s.shards, Completed(s, t), m);
  }

  /** The call a returning turn records is explained by some instant. */
  lemma NewCallOk(s: State, t: Tid)
    requires LinInv(s) && !PcOf(s, t).Idle? && TurnOf(s, t).Return?
    ensures var s' := Step(s, Go(t)); CallOk(s'.hist, s.shards, s'.calls[|s.calls|])
  {
    var s' := Step(s, Go(t));
    assert s'.hist == s.hist + [Cur(s')] && s'.calls[|s.calls|] == Completed(s, t);
    assert PcOk(s.hist, PcOf(s, t));
    if UniqueRun(s'.hist) {
      if TurnOf(s, t).eff { NewEffectOk(s, t); } else { NewAnswerOk(s, t); }
    }
  }

  lemma UniquePrefix(H: seq<Table>, T: Table)
    requires UniqueRun(H + [T])
    ensures UniqueRun(H) && UniqueTable(T) && (|H| > 0 ==> UniqueTable(H[|H| - 1]))
  {
    assert forall i :: 0 <= i < |H| ==> (H + [T])[i] == H[i];
    assert (H + [T])[|H|] == T;
  }

  lemma NewClearOk(s: State, t: Tid, i: nat)
    requires LinInv(s) && PcOf(s, t).Idle?
    ensures var s' := Step(s, Clear(t, i)); CallOk(s'.hist, s.shards, s'.calls[|s.calls|])
  {
    var s' := Step(s, Clear(t, i));
    ClearMeets(Cur(s), i, s.shards);
    assert s'.hist[|s.hist| - 1] == Cur(s);
    assert TakesEffectAt(s'.hist, s.shards, s'.calls[|s.calls|], |s.hist|);
  }

  lemma StillSilent(s: State, l: Label)
    requires LinInv(s)
    ensures var s' := Step(s, l);
            forall m :: 0 < m < |s'.hist| && !SomeEffectAt(s'.calls, m) ==>
              SameBuckets(s'.hist[m - 1], s'.hist[m])
  {
    var s' := Step(s, l);
    assert forall i :: 0 <= i < |s.hist| ==> s'.hist[i] == s.hist[i];
    forall m | 0 < m < |s'.hist| && !SomeEffectAt(s'.calls, m)
      ensures SameBuckets(s'.hist[m - 1], s'.hist[m])
    {
      EffectStays(s, l, m);
      if m == |s.hist| { SilentStep(s, l); }
    }
  }

  lemma EffectStays(s: State, l: Label, m: nat)
    requires Sane(s)
    ensures SomeEffectAt(s.calls, m) ==> SomeEffectAt(Step(s, l).calls, m)
  {
    if SomeEffectAt(s.calls, m) {
      var i :| 0 <= i < |s.calls| && s.calls[i].eff && s.calls[i].resp == m;
      assert Step(s, l).calls[i] == s.calls[i];
    }
  }

  lemma SilentStep(s: State, l: Label)
    requires Inv(s) && !SomeEffectAt(Step(s, l).calls, |s.hist|)
    ensures SameBuckets(Cur(s), Cur(Step(s, l)))
  {
    var s' := Step(s, l);
    if |s'.calls| > |s.calls| {
      assert s'.calls[|s.calls|].resp == |s.hist|;
    }
    if l.Go? && !PcOf(s, l.t).Idle? {
      SilentTurn(PcOf(s, l.t), BucketOf(s, l.t), Now(s));
    }
  }

  lemma SilentTurn(pc: Pc, b: Bucket, now: nat)
    requires Shaped(pc) && !pc.Idle?
    ensures var turn := Block(pc, b, now); turn.More? || !turn.eff ==> turn.b == b
  {
  }

  lemma StepCallOk(s: State, l: Label, i: nat)
    requires LinInv(s) && i < |Step(s, l).calls|
    ensures CallOk(Step(s, l).hist, s.shards, Step(s, l).calls[i])
  {
    var s' := Step(s, l);
    assert s'.hist == s.hist + [Cur(s')];
    if i < |s.calls| {
      assert s'.calls[i] == s.calls[i];
      CallOkGrows(s.hist, Cur(s'), s.shards, s.calls[i]);
    } else if l.Go? {
      NewCallOk(s, l.t);
    } else {
      NewClearOk(s, l.t, l.shard);
    }
  }

  lemma StepInsertsOnlyRun(s: State, l: Label)
    requires Inv(s) && InsertsOnlyRun(s.hist)
    ensures InsertsOnlyRun(Step(s, l).hist)
  {
    StepInsertsOnly(s, l);
    assert Step(s, l).hist == s.hist + [Cur(Step(s, l))];
  }

  lemma StepSorted(s: State, l: Label)
    requires LinInv(s)
    ensures var calls := Step(s, l).calls;
            forall i, j :: 0 <= i < j < |calls| ==> calls[i].resp < calls[j].resp
  {
    var calls := Step(s, l).calls;
    assert |calls| > |s.calls| ==> calls[|s.calls|].resp == |s.hist|;
    forall i, j | 0 <= i < j < |calls| ensures calls[i].resp < calls[j].resp {
      assert calls[i] == s.calls[i] && CallOk(s.hist, s.shards, s.calls[i]);
    }
  }

  lemma StepLin(s: State, l: Label)
    requires LinInv(s)
    ensures LinInv(Step(s, l))
  {
    var s' := Step(s, l);
    StepInv(s, l);
    StepInsertsOnlyRun(s, l);
    StepSorted(s, l);
    forall i | 0 <= i < |s'.calls| ensures CallOk(s'.hist, s.shards, s'.calls[i]) {
      StepCallOk(s, l, i);
    }
    StillSilent(s, l);
  }

  lemma {:induction false} RunLin(shards: nat, ls: seq<Label>)
    requires 0 < shards
    ensures LinInv(Run(shards, ls))
  {
    if ls == [] {
      RunInv(shards, ls);
    } else {
      RunLin(shards, ls[..|ls| - 1]);
      StepLin(Run(shards, ls[..|ls| - 1]), ls[|ls| - 1]);
    }
  }

  /** In every run that keeps keys unique, each completed call has an instant inside its interval at which
      its answer and effect match the abstract map. */
  lemma EveryCallTakesEffect(shards: nat, ls: seq<Label>, i: nat)
    requires 0 < shards && UniqueRun(Run(shards, ls).hist) && i < |Run(shards, ls).calls|
    ensures exists m :: TakesEffectAt(Run(shards, ls).hist, shards, Run(shards, ls).calls[i], m)
  {
    RunLin(shards, ls);
    assert CallOk(Run(shards, ls).hist, shards, Run(shards, ls).calls[i]);
  }
}
