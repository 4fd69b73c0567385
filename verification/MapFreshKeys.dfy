/** What callers can do to keep keys unique: never store the same key object twice. */
module MapFreshKeys {
  import opened Buckets
  import opened MapSpec
  import opened MapMachine
  import opened MapUniqueness

  // ------------------------------------------------------------------ the exact condition

  /** A `set` is about to append its key while an equal key object is in the bucket again that was there
      earlier in its retry loop, was gone, and was put back by another step. */
  ghost predicate AppendsBesidePutBack(s: State, l: Label)
    requires Sane(s)
  {
    SetPushes(s, l) &&
    exists k, m :: BackAgain(s, PcOf(s, l.t).c, k, m)
  }

  ghost predicate BackAgain(s: State, c: Ctx, k: Obj, m: nat)
    requires Sane(s) && !c.op.ClearShard?
  {
    && Eq(k, c.op.key) && HasKey(At(Cur(s), k.cls.hash), k)
    && c.slow <= m && m + 1 < |s.hist| && PutsBack(s.hist, k.cls.hash, k, c.slow, m)
  }

  lemma DuplicateIffPutBack(s: State, l: Label)
    requires Inv(s)
    ensures PushesDuplicate(s, l) <==> AppendsBesidePutBack(s, l)
  {
    if PushesDuplicate(s, l) {
      var k := EqualListedKey(s, l);
      var m := VanishedIsPutBack(s.hist, k.cls.hash, k, s.pcs[l.t].c.slow);
      assert BackAgain(s, PcOf(s, l.t).c, k, m);
    }
    if AppendsBesidePutBack(s, l) {
      var k, m :| BackAgain(s, PcOf(s, l.t).c, k, m);
      var b := BucketOf(s, l.t);
      var i :| 0 <= i < |b| && b[i].key == k;
      assert HasClass(b, KeyOf(PcOf(s, l.t)).cls);
    }
  }

  /** Exactly when a run keeps keys unique: no `set` appends beside an equal key object that came back
      during its retry loop. */
  lemma UniqueExactly(shards: nat, ls: seq<Label>)
    requires 0 < shards
    ensures UniqueRun(Run(shards, ls).hist) <==>
            forall i :: 0 <= i < |ls| ==> !AppendsBesidePutBack(Run(shards, ls[..i]), ls[i])
  {
    UniqueIff(shards, ls);
    forall i | 0 <= i < |ls|
      ensures PushesDuplicate(Run(shards, ls[..i]), ls[i]) <==> AppendsBesidePutBack(Run(shards, ls[..i]), ls[i])
    {
      RunInv(shards, ls[..i]);
      DuplicateIffPutBack(Run(shards, ls[..i]), ls[i]);
    }
  }

  // ------------------------------------------------------------------ a condition on the calls alone

  predicate Stores(op: Op, k: Obj) {
    (op.Set? || op.GetOrInsert?) && op.key == k
  }

  /** The step after instant `m` puts object `k` into its bucket. */
  predicate Appears(H: seq<Table>, k: Obj, m: nat) {
    m + 1 < |H| && !HasKey(At(H[m], k.cls.hash), k) && HasKey(At(H[m + 1], k.cls.hash), k)
  }

  /** A call storing `k` completed at instant `n`. */
  predicate StoredAt(calls: seq<Call>, k: Obj, n: nat) {
    exists i :: 0 <= i < |calls| && calls[i].resp == n && Stores(calls[i].op, k)
  }

  /** An object only ever appears at the last step of a call that stores it. */
  ghost predicate Explained(s: State) {
    forall k, m: nat :: Appears(s.hist, k, m) ==> StoredAt(s.calls, k, m + 1)
  }

  lemma TurnStoresOwnKey(pc: Pc, b: Bucket, now: nat, k: Obj)
    requires Shaped(pc) && !pc.Idle?
    ensures var turn := Block(pc, b, now);
            HasKey(turn.b, k) ==> HasKey(b, k) || (turn.Return? && Stores(pc.c.op, k))
  {
    match pc
    case Fast(c) =>
      var p := Pos(b, c.op.key);
      if p < |b| { ActKeys(c.op, b, p, k); }
    case Hit(c, k') =>
      var p := Pos(b, k');
      if p < |b| { ActKeys(c.op, b, p, k); }
    case Last(c) =>
      var p := Pos(b, c.op.key);
      if p < |b| && !c.op.GetOrInsert? { ActKeys(c.op, b, p, k); }
      if c.op.Set? { PushKeys(b, Entry(c.op.key, c.op.val), k); }
      if c.op.GetOrInsert? { PushKeys(b, Entry(c.op.key, c.op.dflt), k); }
    case _ =>
  }

  lemma PushKeys(b: Bucket, e: Entry, k: Obj)
    ensures HasKey(b + [e], k) ==> HasKey(b, k) || e.key == k
  {
    if x :| 0 <= x < |b + [e]| && (b + [e])[x].key == k {
      assert x < |b| ==> b[x].key == k;
    }
  }

  /** Overwriting or removing an entry brings no object in. */
  lemma ActKeys(op: Op, b: Bucket, p: nat, k: Obj)
    requires (op.Set? || op.Delete? || op.Pop?) && p < |b|
    ensures HasKey(Act(op, b, p).b, k) ==> HasKey(b, k)
  {
    var b' := Act(op, b, p).b;
    if x :| 0 <= x < |b'| && b'[x].key == k {
      assert b[if op.Set? || x < p then x else x + 1].key == k;
    }
  }

  lemma LastStepStores(s: State, l: Label, k: Obj)
    requires Inv(s) && Appears(Step(s, l).hist, k, |s.hist| - 1)
    ensures StoredAt(Step(s, l).calls, k, |s.hist|)
  {
    var s' := Step(s, l);
    assert s'.hist[|s.hist| - 1] == Cur(s) && s'.hist[|s.hist|] == Cur(s');
    assert l.Go? && !PcOf(s, l.t).Idle?;
    var pc := PcOf(s, l.t);
    assert k.cls.hash == KeyOf(pc).cls.hash;
    TurnStoresOwnKey(pc, BucketOf(s, l.t), Now(s), k);
    assert s'.calls[|s.calls|].resp == |s.hist| && Stores(s'.calls[|s.calls|].op, k);
  }

  lemma StepExplained(s: State, l: Label)
    requires Inv(s) && Explained(s)
    ensures Explained(Step(s, l))
  {
    var s' := Step(s, l);
    forall k, m: nat | Appears(s'.hist, k, m) ensures StoredAt(s'.calls, k, m + 1) {
      if m == |s.hist| - 1 {
        LastStepStores(s, l, k);
      } else {
        assert forall i :: 0 <= i < |s.hist| ==> s'.hist[i] == s'.hist[..|s.hist|][i];
        assert Appears(s.hist, k, m);
        var i :| 0 <= i < |s.calls| && s.calls[i].resp == m + 1 && Stores(s.calls[i].op, k);
        assert s'.calls[i] == s.calls[i];
      }
    }
  }

  lemma {:induction false} RunExplained(shards: nat, ls: seq<Label>)
    requires 0 < shards
    ensures Explained(Run(shards, ls))
  {
    if ls != [] {
      RunExplained(shards, ls[..|ls| - 1]);
      RunInv(shards, ls[..|ls| - 1]);
      StepExplained(Run(shards, ls[..|ls| - 1]), ls[|ls| - 1]);
    }
  }

  /** No key object is handed to two completed `set` or `get_or_insert` calls. */
  predicate FreshKeys(calls: seq<Call>) {
    forall i, j :: 0 <= i < j < |calls| && (calls[i].op.Set? || calls[i].op.GetOrInsert?) ==>
      !Stores(calls[j].op, calls[i].op.key)
  }

  lemma TwoAppearances(s: State, k: Obj, m: nat, n: nat)
    requires Explained(s) && m != n && Appears(s.hist, k, m) && Appears(s.hist, k, n)
    ensures !FreshKeys(s.calls)
  {
    var x :| 0 <= x < |s.calls| && s.calls[x].resp == m + 1 && Stores(s.calls[x].op, k);
    var y :| 0 <= y < |s.calls| && s.calls[y].resp == n + 1 && Stores(s.calls[y].op, k);
    assert if x < y then Stores(s.calls[y].op, s.calls[x].op.key) else Stores(s.calls[x].op, s.calls[y].op.key);
  }

  /** An object that is put back has appeared twice, so two calls have stored it. */
  lemma PutBackNeedsReuse(s: State, k: Obj, lo: nat, m: nat)
    requires Sane(s) && Explained(s) && s.hist[0] == map[] && m + 1 < |s.hist|
    requires PutsBack(s.hist, k.cls.hash, k, lo, m)
    ensures !FreshKeys(s.calls)
  {
    var i :| lo <= i < m && HasKey(At(s.hist[i], k.cls.hash), k);
    var first := InsertedBetween(s.hist, k.cls.hash, k, 0, i);
    TwoAppearances(s, k, first, m);
  }

  lemma {:induction false} EarlierCalls(shards: nat, ls: seq<Label>, i: nat)
    requires 0 < shards && i <= |ls|
    ensures Run(shards, ls[..i]).calls <= Run(shards, ls).calls
  {
    if i == |ls| {
      assert ls[..i] == ls;
    } else {
      var p := ls[..|ls| - 1];
      EarlierCalls(shards, p, i);
      assert p[..i] == ls[..i];
      CallsGrow(Run(shards, p), ls[|ls| - 1]);
    }
  }

  lemma CallsGrow(s: State, l: Label)
    requires Sane(s)
    ensures s.calls <= Step(s, l).calls
  {
  }

  lemma StartsEmpty(shards: nat, ls: seq<Label>)
    requires 0 < shards
    ensures Run(shards, ls).hist[0] == map[]
  {
    RunPrefix(shards, ls, 0);
    assert ls[..0] == [];
    assert Run(shards, ls).hist[0] == Run(shards, ls).hist[..1][0];
  }

  /** Uniqueness from the callers' side: as long as every `set` and `get_or_insert` brings a key object of its
      own, no interleaving with any number of threads, removals and clears lets two equal keys coexist. */
  lemma UniqueWithFreshKeys(shards: nat, ls: seq<Label>)
    requires 0 < shards && FreshKeys(Run(shards, ls).calls)
    ensures UniqueRun(Run(shards, ls).hist)
  {
    forall i | 0 <= i < |ls| ensures NothingPutBack(Run(shards, ls[..i])) {
      var s := Run(shards, ls[..i]);
      RunExplained(shards, ls[..i]);
      EarlierCalls(shards, ls, i);
      StartsEmpty(shards, ls[..i]);
      forall t, k, m | t in s.pcs && InSlowSet(s.pcs[t]) && Eq(k, s.pcs[t].c.op.key)
                       && s.pcs[t].c.slow <= m && m + 1 < |s.hist|
        ensures !PutsBack(s.hist, k.cls.hash, k, s.pcs[t].c.slow, m)
      {
        if PutsBack(s.hist, k.cls.hash, k, s.pcs[t].c.slow, m) { PutBackNeedsReuse(s, k, s.pcs[t].c.slow, m); }
      }
    }
    UniqueWithSet(shards, ls);
  }
}
