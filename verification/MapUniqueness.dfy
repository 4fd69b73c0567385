/** When equal keys can and cannot coexist in a bucket. */
module MapUniqueness {
  import opened Buckets
  import opened MapSpec
  import opened MapMachine

  ghost predicate UniqueTable(t: Table) {
    forall h :: h in t ==> Unique(t[h])
  }

  ghost predicate UniqueRun(H: seq<Table>) {
    forall i :: 0 <= i < |H| ==> UniqueTable(H[i])
  }

  /** Thread `t` is a `set` about to append its key in step 3. */
  ghost predicate SetPushes(s: State, l: Label)
    requires Sane(s)
  {
    l.Go? &&
    match PcOf(s, l.t)
    case Last(c) => c.op.Set? && Covered(BucketOf(s, l.t), c.checked) && !HasKey(BucketOf(s, l.t), c.op.key)
    case _ => false
  }

  /** ... while the bucket holds an equal key. */
  ghost predicate PushesDuplicate(s: State, l: Label)
    requires Sane(s)
  {
    SetPushes(s, l) && HasClass(BucketOf(s, l.t), KeyOf(PcOf(s, l.t)).cls)
  }

  /** At step 3 of `get_or_insert` every listed key was checked unequal: the class is absent. In
      particular its identity fallback never fires. */
  lemma GetOrInsertSeesAbsence(s: State, t: Tid)
    requires Inv(s) && PcOf(s, t).Last? && PcOf(s, t).c.op.GetOrInsert?
    requires Covered(BucketOf(s, t), PcOf(s, t).c.checked)
    ensures !HasClass(BucketOf(s, t), KeyOf(PcOf(s, t)).cls)
    ensures !HasKey(BucketOf(s, t), KeyOf(PcOf(s, t)))
  {
    assert PcOk(s.hist, PcOf(s, t));
  }

  /** What one turn does to the uniqueness of its bucket. */
  lemma TurnUnique(s: State, t: Tid)
    requires Inv(s) && !PcOf(s, t).Idle? && Unique(BucketOf(s, t))
    ensures Unique(TurnOf(s, t).b) <==> !PushesDuplicate(s, Go(t))
  {
    var b := BucketOf(s, t);
    var pc := PcOf(s, t);
    assert Shaped(pc);
    assert b == [] ==> forall k: Obj, v: Val :: Unique([Entry(k, v)]);
    match pc
    case Fast(c) =>
      var p := Pos(b, c.op.key);
      if p < |b| {
        RemoveMeaning(b, p);
        if c.op.Set? { UpdateMeaning(b, p, c.op.val); }
      }
    case Snap(c) =>
    case Cmp(c, cands) =>
    case Hit(c, k) =>
      var p := Pos(b, k);
      if p < |b| {
        RemoveMeaning(b, p);
        if c.op.Set? { UpdateMeaning(b, p, c.op.val); }
      }
    case Last(c) =>
      var p := Pos(b, c.op.key);
      if p < |b| {
        RemoveMeaning(b, p);
        if c.op.Set? { UpdateMeaning(b, p, c.op.val); }
      } else if c.op.Set? {
        PushMeaning(b, Entry(c.op.key, c.op.val));
      } else if c.op.GetOrInsert? {
        PushMeaning(b, Entry(c.op.key, c.op.dflt));
        if Covered(b, c.checked) { GetOrInsertSeesAbsence(s, t); }
      }
  }

  lemma StepUnique(s: State, l: Label)
    requires Inv(s) && UniqueTable(Cur(s))
    ensures UniqueTable(Cur(Step(s, l))) <==> !PushesDuplicate(s, l)
  {
    if l.Go? && !PcOf(s, l.t).Idle? {
      TurnUnique(s, l.t);
      var h := KeyOf(PcOf(s, l.t)).cls.hash;
      assert Cur(Step(s, l)) == Cur(s)[h := TurnOf(s, l.t).b];
      assert Unique(BucketOf(s, l.t));
      assert Cur(Step(s, l))[h] == TurnOf(s, l.t).b;
    }
  }

  lemma StepUniqueRun(s: State, l: Label)
    requires Inv(s)
    ensures UniqueRun(Step(s, l).hist) <==> UniqueRun(s.hist) && !PushesDuplicate(s, l)
  {
    var H, H' := s.hist, Step(s, l).hist;
    assert forall i :: 0 <= i < |H| ==> H'[i] == H[..|H|][i] == H'[..|H|][i];
    if UniqueRun(H) {
      StepUnique(s, l);
    }
  }

  /** No step of the run is a duplicate append. */
  ghost predicate NoDuplicateAppend(shards: nat, ls: seq<Label>)
    requires 0 < shards
  {
    forall i :: 0 <= i < |ls| ==> !PushesDuplicate(Run(shards, ls[..i]), ls[i])
  }

  lemma NoDuplicateAppendSplit(shards: nat, ls: seq<Label>, l: Label)
    requires 0 < shards
    ensures NoDuplicateAppend(shards, ls + [l]) <==>
            NoDuplicateAppend(shards, ls) && !PushesDuplicate(Run(shards, ls), l)
  {
    var all := ls + [l];
    assert all[..|ls|] == ls && all[|ls|] == l;
    assert forall i :: 0 <= i < |ls| ==> all[..i] == ls[..i] && all[i] == ls[i];
  }

  /** Exactly the runs in which no `set` appends next to an equal key keep every bucket duplicate-free. */
  lemma {:induction false} UniqueIff(shards: nat, ls: seq<Label>)
    requires 0 < shards
    ensures UniqueRun(Run(shards, ls).hist) <==> NoDuplicateAppend(shards, ls)
  {
    if ls != [] {
      var p, l := ls[..|ls| - 1], ls[|ls| - 1];
      UniqueIff(shards, p);
      RunInv(shards, p);
      StepUniqueRun(Run(shards, p), l);
      NoDuplicateAppendSplit(shards, p, l);
      assert p + [l] == ls;
    }
  }

  /** With no step-3 append by `set`, nothing else is needed: `get_or_insert`, the fast paths,
      removals, clears and re-insertions of any object keep keys unique in every interleaving. */
  lemma UniqueWithoutSetAppend(shards: nat, ls: seq<Label>)
    requires 0 < shards
    requires forall i :: 0 <= i < |ls| ==> !SetPushes(Run(shards, ls[..i]), ls[i])
    ensures UniqueRun(Run(shards, ls).hist)
  {
    UniqueIff(shards, ls);
  }

  // ------------------------------------------------------------------ the re-insertion condition

  /** Object `k` was in bucket `h` at some instant from `lo` on, was gone at instant `m`, and the next
      step put the same object back. */
  ghost predicate PutsBack(H: seq<Table>, h: Hash, k: Obj, lo: nat, m: nat)
    requires m + 1 < |H|
  {
    && (exists i :: lo <= i < m && HasKey(At(H[i], h), k))
    && !HasKey(At(H[m], h), k)
    && HasKey(At(H[m + 1], h), k)
  }

  predicate InSlowSet(pc: Pc) {
    !pc.Idle? && !pc.Fast? && pc.c.op.Set?
  }

  /** No removed key object was put back as the same object while a `set` of an equal key, still
      under way, was in its retry loop. */
  ghost predicate NothingPutBack(s: State) {
    forall t, k, m :: t in s.pcs && InSlowSet(s.pcs[t]) && Eq(k, s.pcs[t].c.op.key)
                      && s.pcs[t].c.slow <= m && m + 1 < |s.hist|
      ==> !PutsBack(s.hist, k.cls.hash, k, s.pcs[t].c.slow, m)
  }

  /** Absent at `j`, present at `n`: some step in between inserted it. */
  lemma {:induction false} InsertedBetween(H: seq<Table>, h: Hash, k: Obj, j: nat, n: nat) returns (m: nat)
    requires j < n < |H| && !HasKey(At(H[j], h), k) && HasKey(At(H[n], h), k)
    ensures j <= m < n && !HasKey(At(H[m], h), k) && HasKey(At(H[m + 1], h), k)
    decreases n - j
  {
    if HasKey(At(H[j + 1], h), k) {
      m := j;
    } else {
      m := InsertedBetween(H, h, k, j + 1, n);
    }
  }

  lemma VanishedIsPutBack(H: seq<Table>, h: Hash, k: Obj, lo: nat) returns (m: nat)
    requires |H| > 0 && Vanished(H, h, k, lo) && HasKey(At(H[|H| - 1], h), k)
    ensures lo <= m && m + 1 < |H| && PutsBack(H, h, k, lo, m)
  {
    var i, j :| lo <= i < j < |H| && HasKey(At(H[i], h), k) && !HasKey(At(H[j], h), k);
    m := InsertedBetween(H, h, k, j, |H| - 1);
  }

  lemma EqualListedKey(s: State, l: Label) returns (k: Obj)
    requires Inv(s) && PushesDuplicate(s, l)
    ensures var c := PcOf(s, l.t).c;
            && HasKey(At(s.hist[Now(s)], k.cls.hash), k) && Eq(k, c.op.key)
            && Vanished(s.hist, k.cls.hash, k, c.slow)
  {
    var c := PcOf(s, l.t).c;
    var b := BucketOf(s, l.t);
    var e :| 0 <= e < |b| && b[e].key.cls == c.op.key.cls;
    k := b[e].key;
    assert PcOk(s.hist, PcOf(s, l.t));
    assert k in c.checked;
  }

  /** A duplicate append proves such a re-insertion. */
  lemma DuplicateNeedsPutBack(s: State, l: Label)
    requires Inv(s) && PushesDuplicate(s, l)
    ensures !NothingPutBack(s)
  {
    var k := EqualListedKey(s, l);
    var m := VanishedIsPutBack(s.hist, k.cls.hash, k, s.pcs[l.t].c.slow);
    assert PutsBack(s.hist, k.cls.hash, k, s.pcs[l.t].c.slow, m);
  }

  /** Uniqueness with `set`: if at no point of the run a removed key object has been put back as the same
      object during the retry loop of a `set` of an equal key, no bucket ever holds two equal keys. */
  lemma UniqueWithSet(shards: nat, ls: seq<Label>)
    requires 0 < shards
    requires forall i :: 0 <= i < |ls| ==> NothingPutBack(Run(shards, ls[..i]))
    ensures UniqueRun(Run(shards, ls).hist)
  {
    forall i | 0 <= i < |ls| ensures !PushesDuplicate(Run(shards, ls[..i]), ls[i]) {
      RunInv(shards, ls[..i]);
      if PushesDuplicate(Run(shards, ls[..i]), ls[i]) {
        DuplicateNeedsPutBack(Run(shards, ls[..i]), ls[i]);
      }
    }
    UniqueIff(shards, ls);
  }

  /** The interleaving that shows the condition is needed. Thread 1 sees `a` equal to its own key `b` ... */
  function SeenRun(a: Obj, b: Obj): seq<Label> {
    [Invoke(0, Set(a, 10)), Go(0)] + [Invoke(1, Set(b, 20)), Go(1)] + [Go(1), Go(1)]
  }

  /** ... finds it gone at the re-lock ... */
  function MissedRun(a: Obj, b: Obj): seq<Label> {
    SeenRun(a, b) + [Invoke(0, Delete(a)), Go(0)] + [Go(1)]
  }

  /** ... and, after thread 0 has put `a` back, appends `b` beside it. */
  function BadRun(a: Obj, b: Obj): seq<Label> {
    MissedRun(a, b) + [Invoke(0, Set(a, 30)), Go(0)] + [Go(1)]
  }

  lemma RunSnoc(shards: nat, ls: seq<Label>, l: Label)
    requires 0 < shards
    ensures Run(shards, ls + [l]) == Step(Run(shards, ls), l)
  {
    assert (ls + [l])[..|ls|] == ls;
  }

  lemma RunSnoc2(shards: nat, ls: seq<Label>, l: Label, m: Label)
    requires 0 < shards
    ensures Run(shards, ls + [l, m]) == Step(Step(Run(shards, ls), l), m)
  {
    RunSnoc(shards, ls, l);
    RunSnoc(shards, ls + [l], m);
    assert ls + [l] + [m] == ls + [l, m];
  }

  /** Thread 0 stores `a` in its empty bucket; thread 1 does not move. */
  lemma Stores(s: State, a: Obj, v: Val)
    requires Sane(s) && PcOf(s, 0).Idle? && At(Cur(s), a.cls.hash) == []
    ensures var s' := Step(Step(s, Invoke(0, Set(a, v))), Go(0));
            At(Cur(s'), a.cls.hash) == [Entry(a, v)] && PcOf(s', 0).Idle? && PcOf(s', 1) == PcOf(s, 1)
  {
    var s1 := Step(s, Invoke(0, Set(a, v)));
    assert PcOf(s1, 0).Fast? && At(Cur(s1), a.cls.hash) == [];
  }

  lemma Erases(s: State, a: Obj, v: Val)
    requires Sane(s) && PcOf(s, 0).Idle? && At(Cur(s), a.cls.hash) == [Entry(a, v)]
    ensures var s' := Step(Step(s, Invoke(0, Delete(a))), Go(0));
            At(Cur(s'), a.cls.hash) == [] && PcOf(s', 0).Idle? && PcOf(s', 1) == PcOf(s, 1)
  {
    var s1 := Step(s, Invoke(0, Delete(a)));
    assert PcOf(s1, 0).Fast? && At(Cur(s1), a.cls.hash) == [Entry(a, v)];
    assert HasKey([Entry(a, v)], a) by { assert [Entry(a, v)][0].key == a; }
    assert TurnOf(s1, 0).b == [];
  }

  /** Thread 1 takes a snapshot with `a` in it and finds it equal to `b`. */
  lemma Matches(s: State, a: Obj, b: Obj, v: Val, w: Val)
    requires Sane(s) && PcOf(s, 1).Idle? && a != b && Eq(a, b) && At(Cur(s), a.cls.hash) == [Entry(a, v)]
    ensures var s' := Step(Step(Step(Step(s, Invoke(1, Set(b, w))), Go(1)), Go(1)), Go(1));
            && At(Cur(s'), a.cls.hash) == [Entry(a, v)] && PcOf(s', 0) == PcOf(s, 0)
            && PcOf(s', 1).Hit? && PcOf(s', 1).k == a && PcOf(s', 1).c.op == Set(b, w) && a in PcOf(s', 1).c.checked
  {
    var s1 := Step(s, Invoke(1, Set(b, w)));
    assert PcOf(s1, 1).Fast? && At(Cur(s1), a.cls.hash) == [Entry(a, v)] && PcOf(s1, 0) == PcOf(s, 0);
    var s2 := Step(s1, Go(1));
    assert !HasKey([Entry(a, v)], b);
    assert PcOf(s2, 1).Snap? && PcOf(s2, 1).c.checked == {} && At(Cur(s2), a.cls.hash) == [Entry(a, v)];
    var s3 := Step(s2, Go(1));
    assert Fresh([Entry(a, v)], {}) == [Entry(a, v)] by { assert [Entry(a, v)][1..] == []; }
    assert PcOf(s3, 1).Cmp? && PcOf(s3, 1).cands == [Entry(a, v)] && At(Cur(s3), a.cls.hash) == [Entry(a, v)];
  }

  lemma MissesAtRelock(s: State, a: Obj)
    requires Sane(s) && PcOf(s, 1).Hit? && PcOf(s, 1).k == a && Eq(a, PcOf(s, 1).c.op.key)
    requires PcOf(s, 1).c.op.Set? && At(Cur(s), a.cls.hash) == []
    ensures var s' := Step(s, Go(1));
            At(Cur(s'), a.cls.hash) == [] && PcOf(s', 0) == PcOf(s, 0) && PcOf(s', 1) == Last(PcOf(s, 1).c)
  {
  }

  lemma Appends(s: State, a: Obj, b: Obj, v: Val, w: Val)
    requires Sane(s) && PcOf(s, 1).Last? && PcOf(s, 1).c.op == Set(b, w) && a in PcOf(s, 1).c.checked
    requires a != b && Eq(a, b) && At(Cur(s), a.cls.hash) == [Entry(a, v)]
    ensures At(Cur(Step(s, Go(1))), a.cls.hash) == [Entry(a, v), Entry(b, w)]
  {
    assert !HasKey([Entry(a, v)], b);
  }

  lemma AfterSeen(shards: nat, a: Obj, b: Obj)
    requires 0 < shards && a != b && Eq(a, b)
    ensures var s := Run(shards, SeenRun(a, b));
            && At(Cur(s), a.cls.hash) == [Entry(a, 10)] && PcOf(s, 0).Idle?
            && PcOf(s, 1).Hit? && PcOf(s, 1).k == a && PcOf(s, 1).c.op == Set(b, 20) && a in PcOf(s, 1).c.checked
  {
    var r2, q4, q6 := [Invoke(0, Set(a, 10)), Go(0)], [Invoke(1, Set(b, 20)), Go(1)], [Go(1), Go(1)];
    assert [] + r2 == r2;
    RunSnoc2(shards, [], r2[0], r2[1]);
    Stores(Run(shards, []), a, 10);
    RunSnoc2(shards, r2, q4[0], q4[1]);
    RunSnoc2(shards, r2 + q4, q6[0], q6[1]);
    Matches(Run(shards, r2), a, b, 10, 20);
  }

  lemma AfterMissed(shards: nat, a: Obj, b: Obj)
    requires 0 < shards && a != b && Eq(a, b)
    ensures var s := Run(shards, MissedRun(a, b));
            && At(Cur(s), a.cls.hash) == [] && PcOf(s, 0).Idle?
            && PcOf(s, 1).Last? && PcOf(s, 1).c.op == Set(b, 20) && a in PcOf(s, 1).c.checked
  {
    AfterSeen(shards, a, b);
    RunSnoc2(shards, SeenRun(a, b), Invoke(0, Delete(a)), Go(0));
    Erases(Run(shards, SeenRun(a, b)), a, 10);
    var r := SeenRun(a, b) + [Invoke(0, Delete(a)), Go(0)];
    RunSnoc(shards, r, Go(1));
    MissesAtRelock(Run(shards, r), a);
  }

  lemma SetCanDuplicate(shards: nat, a: Obj, b: Obj)
    requires 0 < shards && a != b && Eq(a, b)
    ensures At(Cur(Run(shards, BadRun(a, b))), a.cls.hash) == [Entry(a, 30), Entry(b, 20)]
    ensures !UniqueRun(Run(shards, BadRun(a, b)).hist)
  {
    AfterMissed(shards, a, b);
    var r := MissedRun(a, b) + [Invoke(0, Set(a, 30)), Go(0)];
    RunSnoc2(shards, MissedRun(a, b), Invoke(0, Set(a, 30)), Go(0));
    Stores(Run(shards, MissedRun(a, b)), a, 30);
    RunSnoc(shards, r, Go(1));
    Appends(Run(shards, r), a, b, 30, 20);
    var s := Run(shards, BadRun(a, b));
    TwoEqualKeys(s.hist, |s.hist| - 1, a.cls.hash, Entry(a, 30), Entry(b, 20));
  }

  lemma TwoEqualKeys(H: seq<Table>, i: nat, h: Hash, e: Entry, f: Entry)
    requires i < |H| && At(H[i], h) == [e, f] && Eq(e.key, f.key)
    ensures !UniqueRun(H)
  {
    var b := At(H[i], h);
    assert b[0].key.cls == b[1].key.cls;
    assert !Unique(b) && !UniqueTable(H[i]);
  }
}
