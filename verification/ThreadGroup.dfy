/** The structured-concurrency group: threads start before they are listed, and may spawn more. */
module ThreadGroups {
  import opened Options

  type Tid = nat
  type Exn = nat

  /** Where a member is: `target` running, its exception recorded, or finished. */
  datatype Phase = Running | Raised(e: Exn) | Done(err: Option<Exn>)

  /** A started thread: who spawned it (None is the body of the `with` block), and the child it has
      started but not yet appended, if it is in the middle of `spawn`. */
  datatype Member = Member(parent: Option<Tid>, phase: Phase, pending: Option<Tid>)

  /** The operating system's view: all threads ever started in the group, in starting order, and the body. */
  datatype World = World(members: seq<Member>, inBody: bool, bodyPending: Option<Tid>)

  datatype Group = Group(w: World, threads: seq<Tid>, errors: seq<Exn>)

  /** Steps of the other threads (and, inside the block, of the body). */
  datatype Label =
    | Start(who: Option<Tid>)       // t.start() inside spawn
    | Append(who: Option<Tid>)      // _threads.append(t) under the lock
    | Raise(t: Tid, e: Exn)        // _errors.append(e) under the lock
    | End(t: Tid)

  predicate Alive(w: World, t: Tid) {
    t < |w.members| && !w.members[t].phase.Done?
  }

  predicate CanRun(w: World, t: Tid) {
    t < |w.members| && w.members[t].phase.Running?
  }

  /** One step; a label that is not enabled changes nothing. */
  function Next(g: Group, l: Label): Group {
    var w, n := g.w, |g.w.members|;
    match l
    case Start(None) =>
      if w.inBody && w.bodyPending.None? then
        g.(w := w.(members := w.members + [Member(None, Running, None)], bodyPending := Some(n)))
      else g
    case Start(Some(p)) =>
      if CanRun(w, p) && w.members[p].pending.None? then
        g.(w := w.(members := w.members[p := w.members[p].(pending := Some(n))] + [Member(Some(p), Running, None)]))
      else g
    case Append(None) =>
      if w.inBody && w.bodyPending.Some? then
        g.(w := w.(bodyPending := None), threads := g.threads + [w.bodyPending.value])
      else g
    case Append(Some(p)) =>
      if CanRun(w, p) && w.members[p].pending.Some? then
        g.(w := w.(members := w.members[p := w.members[p].(pending := None)]),
           threads := g.threads + [w.members[p].pending.value])
      else g
    case Raise(t, e) =>
      if CanRun(w, t) && w.members[t].pending.None? then
        g.(w := w.(members := w.members[t := w.members[t].(phase := Raised(e))]), errors := g.errors + [e])
      else g
    case End(t) =>
      if Alive(w, t) && w.members[t].pending.None? then
        var m := w.members[t];
        g.(w := w.(members := w.members[t := m.(phase := Done(if m.phase.Raised? then Some(m.phase.e) else None))]))
      else g
  }

  /** The exception a member has raised so far. */
  function Failure(m: Member): multiset<Exn> {
    match m.phase
    case Running => multiset{}
    case Raised(e) => multiset{e}
    case Done(err) => if err.Some? then multiset{err.value} else multiset{}
  }

  function Failures(ms: seq<Member>): multiset<Exn> {
    if ms == [] then multiset{} else Failures(ms[..|ms| - 1]) + Failure(ms[|ms| - 1])
  }

  lemma Regroup(a: multiset<Exn>, x: multiset<Exn>, b: multiset<Exn>, y: multiset<Exn>, f: multiset<Exn>)
    requires a + x == b + y
    ensures (a + f) + x == (b + f) + y
  {
    assert (a + f) + x == (a + x) + f;
    assert (b + f) + y == (b + y) + f;
  }

  lemma {:induction false} FailuresUpdate(ms: seq<Member>, t: nat, m: Member)
    requires t < |ms|
    ensures Failures(ms[t := m]) + Failure(ms[t]) == Failures(ms) + Failure(m)
  {
    var n := |ms| - 1;
    var p := ms[..n];
    if t == n {
      assert ms[t := m][..n] == p;
    } else {
      FailuresUpdate(p, t, m);
      assert ms[t := m][..n] == p[t := m];
      Regroup(Failures(p[t := m]), Failure(p[t]), Failures(p), Failure(m), Failure(ms[n]));
    }
  }

  lemma FailuresSame(ms: seq<Member>, t: nat, m: Member)
    requires t < |ms| && Failure(m) == Failure(ms[t])
    ensures Failures(ms[t := m]) == Failures(ms)
  {
    FailuresUpdate(ms, t, m);
    assert Failures(ms[t := m]) == Failures(ms[t := m]) + Failure(m) - Failure(m);
    assert Failures(ms) == Failures(ms) + Failure(m) - Failure(m);
  }

  lemma FailuresSnoc(ms: seq<Member>, m: Member)
    ensures Failures(ms + [m]) == Failures(ms) + Failure(m)
  {
    assert (ms + [m])[..|ms|] == ms;
  }

  /** Thread `t` is listed, or its spawner sits between its `start()` and its `append()`. */
  ghost predicate Accounted(g: Group, t: Tid)
    requires t < |g.w.members|
  {
    || t in g.threads
    || match g.w.members[t].parent
       case None => g.w.bodyPending == Some(t)
       case Some(p) => p < t && g.w.members[p].pending == Some(t)
  }

  ghost predicate Inv(g: Group) {
    var ms := g.w.members;
    && (forall t :: 0 <= t < |ms| ==> Accounted(g, t))
    && (forall t :: 0 <= t < |ms| && ms[t].pending.Some? ==> ms[t].phase.Running? && ms[t].pending.value < |ms|)
    && (g.w.bodyPending.Some? ==> g.w.inBody && g.w.bodyPending.value < |ms|)
    && (forall i :: 0 <= i < |g.threads| ==> g.threads[i] < |ms|)
    && (forall t :: 0 <= t < |ms| && ms[t].parent.Some? ==> ms[t].parent.value < t)
  }

  lemma NextAccounted(g: Group, l: Label, t: Tid)
    requires Inv(g) && t < |Next(g, l).w.members|
    ensures Accounted(Next(g, l), t)
  {
    var g' := Next(g, l);
    if t < |g.w.members| {
      assert Accounted(g, t);
      assert g'.w.members[t].parent == g.w.members[t].parent;
      assert |g'.threads| > |g.threads| ==> g'.threads[|g.threads|] in g'.threads;
    }
  }

  lemma NextInv(g: Group, l: Label)
    requires Inv(g)
    ensures Inv(Next(g, l))
  {
    forall t | 0 <= t < |Next(g, l).w.members| ensures Accounted(Next(g, l), t) {
      NextAccounted(g, l, t);
    }
  }

  /** `_errors` holds exactly the exceptions the members have raised. */
  lemma NextErrors(g: Group, l: Label)
    requires multiset(g.errors) == Failures(g.w.members)
    ensures multiset(Next(g, l).errors) == Failures(Next(g, l).w.members)
  {
    var ms := g.w.members;
    if Next(g, l) != g {
      match l
      case Start(None) => FailuresSnoc(ms, Member(None, Running, None));
      case Start(Some(p)) =>
        FailuresSame(ms, p, ms[p].(pending := Some(|ms|)));
        FailuresSnoc(ms[p := ms[p].(pending := Some(|ms|))], Member(Some(p), Running, None));
      case Append(None) =>
      case Append(Some(p)) => FailuresSame(ms, p, ms[p].(pending := None));
      case Raise(t, e) =>
        FailuresUpdate(ms, t, ms[t].(phase := Raised(e)));
        assert Failures(ms[t := ms[t].(phase := Raised(e))]) == Failures(ms) + multiset{e};
      case End(t) => FailuresSame(ms, t, Next(g, l).w.members[t]);
    }
  }

  /** Members, listed threads and finished threads only ever grow. */
  ghost predicate Grows(g: Group, g': Group) {
    && |g.w.members| <= |g'.w.members|
    && (forall t :: 0 <= t < |g.w.members| && g.w.members[t].phase.Done? ==> g'.w.members[t].phase.Done?)
    && |g.threads| <= |g'.threads| && g'.threads[..|g.threads|] == g.threads
    && g.w.inBody == g'.w.inBody
    && (!g.w.inBody && g.w.bodyPending.None? ==> g'.w.bodyPending.None?)
  }

  /** Only the body changes the body's place in `spawn`. */
  lemma NextKeepsBody(g: Group, l: Label)
    requires l != Start(None) && l != Append(None)
    ensures Next(g, l).w.inBody == g.w.inBody && Next(g, l).w.bodyPending == g.w.bodyPending
  {
  }

  lemma NextGrows(g: Group, l: Label)
    ensures Grows(g, Next(g, l))
  {
  }

  /** The exception a member has raised, if any. */
  predicate HasRaised(m: Member, e: Exn) {
    m.phase == Raised(e) || m.phase == Done(Some(e))
  }

  /** Every exception a member has raised is among the failures, and every failure is one that a member raised. */
  lemma {:induction false} FailuresAre(ms: seq<Member>, e: Exn)
    ensures e in Failures(ms) <==> SomeRaised(ms, e)
  {
    if ms != [] {
      var n := |ms| - 1;
      FailuresAre(ms[..n], e);
      SomeRaisedSplit(ms, e);
      FailureIs(ms[n], e);
      assert Failures(ms) == Failures(ms[..n]) + Failure(ms[n]);
    }
  }

  predicate SomeRaised(ms: seq<Member>, e: Exn) {
    exists t :: 0 <= t < |ms| && HasRaised(ms[t], e)
  }

  lemma SomeRaisedSplit(ms: seq<Member>, e: Exn)
    requires ms != []
    ensures SomeRaised(ms, e) <==> SomeRaised(ms[..|ms| - 1], e) || HasRaised(ms[|ms| - 1], e)
  {
    var p := ms[..|ms| - 1];
    if t :| 0 <= t < |p| && HasRaised(p[t], e) { assert HasRaised(ms[t], e); }
    if t :| 0 <= t < |ms| && HasRaised(ms[t], e) { assert t < |p| ==> HasRaised(p[t], e); }
  }

  lemma FailureIs(m: Member, e: Exn)
    ensures e in Failure(m) <==> HasRaised(m, e)
    ensures |Failure(m)| == if Failed(m) then 1 else 0
  {
  }

  predicate Failed(m: Member) {
    !m.phase.Running? && m.phase != Done(None)
  }

  /** The members that have raised. */
  function Raisers(ms: seq<Member>): set<nat> {
    set t: nat | t < |ms| && Failed(ms[t])
  }

  lemma RaisersSnoc(ms: seq<Member>, m: Member)
    ensures |Raisers(ms + [m])| == |Raisers(ms)| + (if Failed(m) then 1 else 0)
  {
    var n: nat := |ms|;
    var extra: set<nat> := if Failed(m) then {n} else {};
    forall t: nat ensures t in Raisers(ms + [m]) <==> t in Raisers(ms) + extra {
      assert t < n ==> (ms + [m])[t] == ms[t];
      assert t == n ==> (ms + [m])[t] == m;
    }
    assert Raisers(ms + [m]) == Raisers(ms) + extra;
  }

  /** There are as many failures as members that have raised. */
  lemma {:induction false} FailuresCount(ms: seq<Member>)
    ensures |Failures(ms)| == |Raisers(ms)|
  {
    if ms == [] {
      assert Raisers(ms) == {};
    } else {
      var n := |ms| - 1;
      FailuresCount(ms[..n]);
      FailureIs(ms[n], 0);
      RaisersSnoc(ms[..n], ms[n]);
      assert ms[..n] + [ms[n]] == ms;
      SumSize(Failures(ms[..n]), Failure(ms[n]));
    }
  }

  lemma SumSize(a: multiset<Exn>, b: multiset<Exn>)
    ensures |a + b| == |a| + |b|
  {
  }

  /** What the steps do: starting makes a running, unlisted child; appending lists it; an exception goes into the errors
      and stays with its member to the end; a member that raised nothing ends without one. */
  lemma StepsDo(g: Group, t: Tid, e: Exn)
    requires t < |g.w.members| && g.w.members[t].phase.Running? && g.w.members[t].pending.None?
    ensures var g' := Next(g, Start(Some(t))); var n := |g.w.members|;
      && g'.w.members == g.w.members[t := g.w.members[t].(pending := Some(n))] + [Member(Some(t), Running, None)]
      && g'.threads == g.threads && g'.errors == g.errors
      && Next(g', Append(Some(t))).threads == g.threads + [n]
    ensures var g' := Next(g, Raise(t, e)); var g'' := Next(g', End(t));
      && g'.errors == g.errors + [e] && g''.errors == g'.errors && g'.threads == g.threads
      && g''.w.members == g.w.members[t := g.w.members[t].(phase := Done(Some(e)))]
    ensures var g' := Next(g, End(t));
      g'.errors == g.errors && g'.w.members == g.w.members[t := g.w.members[t].(phase := Done(None))]
  {
  }

  /** Descent on the spawn tree: once every listed thread has finished, so has every thread ever started.
      A thread that is not listed yet would have an unfinished spawner, that one in turn, up to the body. */
  lemma {:induction false} ListedDoneMeansAllDone(g: Group, t: Tid)
    requires Inv(g) && g.w.bodyPending.None? && t < |g.w.members|
    requires forall i :: 0 <= i < |g.threads| ==> g.w.members[g.threads[i]].phase.Done?
    ensures g.w.members[t].phase.Done? && t in g.threads
  {
    assert Accounted(g, t);
    if t !in g.threads {
      ListedDoneMeansAllDone(g, g.w.members[t].parent.value);
      assert false;
    }
  }

  /** Nothing is running any more and nothing can start. */
  lemma AllDoneIsFinal(g: Group, l: Label)
    requires Inv(g) && !g.w.inBody && forall t :: 0 <= t < |g.w.members| ==> g.w.members[t].phase.Done?
    ensures Next(g, l) == g
  {
  }

  predicate JoinedUpTo(us: seq<Tid>, n: nat, joined: set<Tid>) {
    n <= |us| && forall j :: 0 <= j < n ==> us[j] in joined
  }

  /** How `__exit__` ends; `Waiting` is a schedule that stops while a join is still blocked. */
  datatype Outcome = Waiting | BodyRaised | Clean | One(e: Exn) | Many(es: seq<Exn>)

  class ThreadGroup {
    var threads: seq<Tid>       // _threads
    var errors: seq<Exn>        // _errors
    var world: World            // the threads themselves

    function State(): Group
      reads this
    {
      Group(world, threads, errors)
    }

    ghost predicate Valid()
      reads this
    {
      Inv(State()) && multiset(errors) == Failures(world.members)
    }

    constructor ()
      ensures Valid() && threads == [] && errors == [] && world == World([], true, None)
    {
      threads, errors, world := [], [], World([], true, None);
    }

    /** Some thread takes the next step of the schedule. */
    method Other(l: Label)
      requires Valid()
      modifies this
      ensures Valid() && State() == Next(old(State()), l) && Grows(old(State()), State())
    {
      NextInv(State(), l);
      NextErrors(State(), l);
      NextGrows(State(), l);
      var g := Next(State(), l);
      world, threads, errors := g.w, g.threads, g.errors;
    }

    /** Any number of steps of other threads. */
    method Others(sched: seq<Label>) returns (rest: seq<Label>)
      requires Valid()
      modifies this
      ensures Valid() && |rest| <= |sched| && Grows(old(State()), State())
      ensures |rest| == |sched| ==> State() == old(State())
    {
      rest := sched;
      while rest != []
        invariant Valid() && |rest| <= |sched| && Grows(old(State()), State())
        invariant |rest| == |sched| ==> State() == old(State())
        decreases |rest|
      {
        if * { return; }
        Other(rest[0]);
        rest := rest[1..];
      }
    }

    /** The body's `t.start()`: the new thread runs but is not listed yet. */
    method StartThread() returns (t: Tid)
      requires Valid() && world.inBody && world.bodyPending.None?
      modifies this
      ensures Valid() && world.inBody && world.bodyPending == Some(t)
      ensures t == |old(world.members)| && world.members == old(world.members) + [Member(None, Running, None)]
    {
      t := |world.members|;
      Other(Start(None));
    }

    method ListThread(t: Tid)
      requires Valid() && world.inBody && world.bodyPending == Some(t)
      modifies this
      ensures Valid() && world.inBody && world.bodyPending.None?
      ensures threads == old(threads) + [t] && world.members == old(world.members)
    {
      Other(Append(None));
    }

    /** `spawn` called by the body, with other threads running between `start()` and `append()`. */
    method Spawn(sched: seq<Label>) returns (t: Tid, rest: seq<Label>)
      requires Valid() && world.inBody && world.bodyPending.None?
      requires forall i :: 0 <= i < |sched| ==> sched[i] != Start(None) && sched[i] != Append(None)
      modifies this
      ensures Valid() && world.inBody && world.bodyPending.None?
      ensures t == |old(world.members)| && t in threads
    {
      t := StartThread();
      var i := 0;
      while i < |sched|
        invariant i <= |sched|
        invariant Valid() && world.inBody && world.bodyPending == Some(t)
      {
        if * { break; }
        NextKeepsBody(State(), sched[i]);
        Other(sched[i]);
        i := i + 1;
      }
      rest := sched[i..];
      ListThread(t);
    }

    /** `t.join()`: others run until `t` has finished. */
    method Join(t: Tid, sched: seq<Label>) returns (ok: bool, rest: seq<Label>)
      requires Valid() && t < |world.members|
      modifies this
      ensures Valid() && |rest| <= |sched| && Grows(old(State()), State())
      ensures |rest| == |sched| ==> State() == old(State())
      ensures ok <==> world.members[t].phase.Done?
      ensures !ok ==> rest == []
    {
      rest := sched;
      while !world.members[t].phase.Done?
        invariant Valid() && |rest| <= |sched| && t < |world.members| && Grows(old(State()), State())
        invariant |rest| == |sched| ==> State() == old(State())
        decreases |rest|
      {
        if rest == [] { return false, rest; }
        Other(rest[0]);
        rest := rest[1..];
      }
      ok := true;
    }

    /** `t.join(); joined.add(t)`. */
    method JoinOne(t: Tid, joined: set<Tid>, sched: seq<Label>) returns (ok: bool, joined': set<Tid>, rest: seq<Label>)
      requires Valid() && t < |world.members| && AllDone(world, joined)
      modifies this
      ensures Valid() && |rest| <= |sched| && Grows(old(State()), State())
      ensures |rest| == |sched| ==> State() == old(State())
      ensures AllDone(world, joined')
      ensures joined' == if ok then joined + {t} else joined
      ensures !ok ==> rest == [] && !world.members[t].phase.Done?
    {
      ok, rest := Join(t, sched);
      AllDoneGrows(old(State()), State(), joined);
      joined' := if ok then joined + {t} else joined;
    }

    /** One round of the loop: join every thread of the snapshot. */
    method JoinAll(unjoined: seq<Tid>, joined: set<Tid>, sched: seq<Label>)
        returns (ok: bool, joined': set<Tid>, rest: seq<Label>)
      requires Valid() && (forall i :: 0 <= i < |unjoined| ==> unjoined[i] < |world.members|)
      requires AllDone(world, joined)
      modifies this
      ensures Valid() && |rest| <= |sched| && Grows(old(State()), State())
      ensures |rest| == |sched| ==> State() == old(State())
      ensures AllDone(world, joined')
      ensures ok ==> joined <= joined' && JoinedUpTo(unjoined, |unjoined|, joined')
      ensures !ok ==> rest == [] && exists t :: t in unjoined && t < |world.members| && !world.members[t].phase.Done?
    {
      rest, joined', ok := sched, joined, true;
      for i := 0 to |unjoined|
        invariant Valid() && |rest| <= |sched| && Grows(old(State()), State())
        invariant |rest| == |sched| ==> State() == old(State())
        invariant joined <= joined' && JoinedUpTo(unjoined, i, joined')
        invariant AllDone(world, joined')
      {
        ghost var before := State();
        ok, joined', rest := JoinOne(unjoined[i], joined', rest);
        GrowsOn(old(State()), before, State());
        if !ok {
          assert unjoined[i] in unjoined;
          return;
        }
        assert JoinedUpTo(unjoined, i + 1, joined');
      }
    }

    /** `__exit__`, under an arbitrary schedule of the other threads. When it leaves its loop, every thread
        ever started in the group, transitively, has finished, is listed and was joined, and no step of
        any thread is possible any more. It gives way to an exception of the body; otherwise it raises what the
        members raised: nothing, the one exception, or all of them together. It is still `Waiting` only if the
        schedule is used up and some listed thread has not finished. */
    method Exit(bodyErr: Option<Exn>, sched: seq<Label>)
        returns (out: Outcome, rest: seq<Label>, ghost joined: set<Tid>)
      requires Valid() && world.inBody && world.bodyPending.None?
      modifies this
      ensures Valid()
      ensures out.Waiting? ==>
        rest == [] && exists t :: t in threads && t < |world.members| && !world.members[t].phase.Done?
      ensures !out.Waiting? ==> Finished(State(), joined)
      ensures !out.Waiting? ==> (out.BodyRaised? <==> bodyErr.Some?)
      ensures !out.Waiting? ==> (out.Clean? <==> bodyErr.None? && Failures(world.members) == multiset{})
      ensures !out.Waiting? ==>
        forall e: Exn :: out == One(e) <==> bodyErr.None? && Failures(world.members) == multiset{e}
      ensures !out.Waiting? ==> (out.Many? <==> bodyErr.None? && |Failures(world.members)| >= 2)
      ensures out.Many? ==> multiset(out.es) == Failures(world.members)
    {
      LeaveBody(State());
      world := world.(inBody := false);
      var done: set<Tid> := {};
      joined := {};
      rest := sched;
      while true
        invariant Valid() && !world.inBody && world.bodyPending.None? && AllDone(world, done)
        decreases |rest|, |Unjoined(threads, done)|
      {
        ghost var g := State();
        rest := Others(rest);
        AllDoneGrows(g, State(), done);
        var unjoined := Unjoined(threads, done);
        if unjoined == [] {
          joined := done;
          FinishedFacts(State(), done);
          VerdictMeans(bodyErr, errors);
          return Verdict(bodyErr, errors), rest, joined;
        }
        UnjoinedListed(threads, done, |world.members|);
        ghost var listed := threads;
        var ok;
        ok, done, rest := JoinAll(unjoined, done, rest);
        if !ok {
          assert forall t :: t in unjoined ==> t in listed;
          StillListed(listed, threads, unjoined);
          return Waiting, rest, joined;
        }
        NothingUnjoined(listed, done);
      }
    }
  }

  /** What the errors list says about the verdict. */
  lemma VerdictMeans(bodyErr: Option<Exn>, errors: seq<Exn>)
    ensures var out := Verdict(bodyErr, errors);
      && !out.Waiting?
      && (out.BodyRaised? <==> bodyErr.Some?)
      && (out.Clean? <==> bodyErr.None? && multiset(errors) == multiset{})
      && (forall e: Exn :: out == One(e) <==> bodyErr.None? && multiset(errors) == multiset{e})
      && (out.Many? <==> bodyErr.None? && |multiset(errors)| >= 2)
      && (out.Many? ==> out.es == errors)
  {
    assert |multiset(errors)| == |errors|;
    if |errors| == 1 { assert errors == [errors[0]]; }
    assert forall e: Exn :: |multiset{e}| == 1;
  }

  lemma StillListed(listed: seq<Tid>, threads: seq<Tid>, unjoined: seq<Tid>)
    requires |listed| <= |threads| && threads[..|listed|] == listed
    requires forall t :: t in unjoined ==> t in listed
    ensures forall t :: t in unjoined ==> t in threads
  {
    forall t | t in unjoined ensures t in threads {
      var i :| 0 <= i < |listed| && listed[i] == t;
      assert threads[i] == threads[..|listed|][i];
    }
  }

  /** What `__exit__` raises, given the exception of the body and the recorded ones. */
  function Verdict(bodyErr: Option<Exn>, errors: seq<Exn>): Outcome {
    if bodyErr.Some? then BodyRaised
    else if errors == [] then Clean
    else if |errors| == 1 then One(errors[0])
    else Many(errors)
  }

  ghost predicate AllDone(w: World, joined: set<Tid>) {
    forall t :: t in joined ==> t < |w.members| && w.members[t].phase.Done?
  }

  lemma GrowsOn(g: Group, g': Group, g'': Group)
    requires Grows(g, g') && Grows(g', g'')
    ensures Grows(g, g'')
  {
    assert g''.threads[..|g.threads|] == g''.threads[..|g'.threads|][..|g.threads|];
  }

  lemma AllDoneGrows(g: Group, g': Group, joined: set<Tid>)
    requires AllDone(g.w, joined) && Grows(g, g')
    ensures AllDone(g'.w, joined)
  {
  }

  /** Every thread ever started has finished, is listed and joined, and nothing can happen any more. */
  ghost predicate Finished(g: Group, joined: set<Tid>) {
    && (forall t :: 0 <= t < |g.w.members| ==> g.w.members[t].phase.Done? && t in g.threads && t in joined)
    && (forall l :: Next(g, l) == g)
    && multiset(g.errors) == Failures(g.w.members)
  }

  lemma UnjoinedListed(threads: seq<Tid>, joined: set<Tid>, n: nat)
    requires forall i :: 0 <= i < |threads| ==> threads[i] < n
    ensures forall i :: 0 <= i < |Unjoined(threads, joined)| ==> Unjoined(threads, joined)[i] < n
  {
    var u := Unjoined(threads, joined);
    forall i | 0 <= i < |u| ensures u[i] < n {
      assert u[i] in u;
    }
  }

  lemma {:induction false} NothingUnjoined(threads: seq<Tid>, joined: set<Tid>)
    requires forall t :: t in threads ==> t in joined
    ensures Unjoined(threads, joined) == []
  {
    if threads != [] {
      assert threads[0] in threads;
      NothingUnjoined(threads[1..], joined);
    }
  }

  lemma LeaveBody(g: Group)
    requires Inv(g) && g.w.bodyPending.None?
    ensures Inv(g.(w := g.w.(inBody := false)))
  {
    var g' := g.(w := g.w.(inBody := false));
    forall t | 0 <= t < |g'.w.members| ensures Accounted(g', t) {
      assert Accounted(g, t);
    }
  }

  /** `[t for t in self._threads if t not in joined]` */
  function Unjoined(threads: seq<Tid>, joined: set<Tid>): (r: seq<Tid>)
    ensures forall t :: t in r <==> t in threads && t !in joined
  {
    if threads == [] then []
    else
      assert forall t :: t in threads <==> t == threads[0] || t in threads[1..];
      (if threads[0] in joined then [] else [threads[0]]) + Unjoined(threads[1..], joined)
  }

  lemma FinishedFacts(g: Group, joined: set<Tid>)
    requires Inv(g) && !g.w.inBody && g.w.bodyPending.None? && Unjoined(g.threads, joined) == []
    requires AllDone(g.w, joined)
    requires multiset(g.errors) == Failures(g.w.members)
    ensures Finished(g, joined)
  {
    forall i | 0 <= i < |g.threads| ensures g.threads[i] in joined {
      assert g.threads[i] in g.threads;
      assert g.threads[i] !in Unjoined(g.threads, joined);
    }
    forall t | 0 <= t < |g.w.members| ensures g.w.members[t].phase.Done? && t in g.threads && t in joined {
      ListedDoneMeansAllDone(g, t);
    }
    forall l ensures Next(g, l) == g { AllDoneIsFinal(g, l); }
  }
}
