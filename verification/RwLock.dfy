/** Reader-writer lock guards and the per-thread count of read guards entered. */
module RwLocks {
  import opened Options

  datatype Kind = Read | Write

  /** A guard not entered, blocked in the slow path (a writer that is queued is `Parked`), or holding the lock. */
  datatype Phase = Idle | Waiting(recursive: bool) | Parked | Held

  /** Guards are unsendable: `owner` is the only thread that uses one. */
  datatype Guard = Guard(kind: Kind, lock: nat, owner: nat, phase: Phase)

  /** What `parking_lot` knows of a lock: a writer inside, the readers inside, the writers queued. */
  datatype Raw = Raw(writer: bool, readers: nat, parked: nat)

  /** `depth` is READ_DEPTH; `blocked` is the guard whose slow path the thread sits in. */
  datatype Thread = Thread(depth: nat, blocked: Option<nat>)

  datatype World = World(locks: seq<Raw>, threads: seq<Thread>, guards: seq<Guard>)

  datatype Outcome = Entered | Blocks | AlreadyEntered | Ignored

  /** `barge`: whether the lock's queue lets this request past queued writers this time. */
  datatype Label =
    | NewGuard(kind: Kind, lock: nat, owner: nat)
    | Enter(g: nat, barge: bool)
    | Wake(g: nat, barge: bool)
    | Exit(g: nat)

  /** When the lock lets a request in: a recursive read waits for a writer inside, never for queued ones. */
  predicate Grants(raw: Raw, kind: Kind, recursive: bool, barge: bool) {
    && !raw.writer
    && (kind.Write? ==> raw.readers == 0)
    && (recursive || raw.parked == 0 || barge)
  }

  function Inside(raw: Raw, kind: Kind): Raw {
    if kind.Read? then raw.(readers := raw.readers + 1) else raw.(writer := true)
  }

  predicate Known(w: World, g: nat) {
    g < |w.guards| && w.guards[g].lock < |w.locks| && w.guards[g].owner < |w.threads|
  }

  /** The guard's owner can run Python code, so it can call a method of the guard. */
  predicate Callable(w: World, g: nat) {
    Known(w, g) && w.threads[w.guards[g].owner].blocked.None?
  }

  /** The lock, the guard and the owner's record replaced together. */
  function Put(w: World, g: nat, phase: Phase, raw: Raw, thread: Thread): World
    requires Known(w, g)
  {
    var guard := w.guards[g];
    World(w.locks[guard.lock := raw], w.threads[guard.owner := thread], w.guards[g := guard.(phase := phase)])
  }

  /** The lock is taken: the guard holds it and a reader's depth goes up. */
  function Acquired(w: World, g: nat, raw: Raw): World
    requires Known(w, g)
  {
    var guard := w.guards[g];
    var depth := w.threads[guard.owner].depth + if guard.kind.Read? then 1 else 0;
    Put(w, g, Held, Inside(raw, guard.kind), Thread(depth, None))
  }

  /** `__enter__` up to the point where it returns, fails, or blocks. */
  function Entering(w: World, g: nat, barge: bool): (World, Outcome) {
    if !Callable(w, g) then (w, Ignored)
    else
      var guard := w.guards[g];
      if guard.phase.Held? then (w, AlreadyEntered)
      else
        var thread := w.threads[guard.owner];
        var recursive := guard.kind.Read? && thread.depth > 0;
        var raw := w.locks[guard.lock];
        if Grants(raw, guard.kind, recursive, barge) then (Acquired(w, g, raw), Entered)
        else (Put(w, g, Waiting(recursive), raw, thread.(blocked := Some(g))), Blocks)
  }

  /** A blocked `__enter__` looks again: it gets the lock, or a writer queues up, or nothing happens. */
  function Waking(w: World, g: nat, barge: bool): World {
    if !Known(w, g) then w
    else
      var guard, raw := w.guards[g], w.locks[w.guards[g].lock];
      match guard.phase
      case Idle => w
      case Held => w
      case Waiting(recursive) =>
        if Grants(raw, guard.kind, recursive, barge) then Acquired(w, g, raw)
        else if guard.kind.Write? then
          Put(w, g, Parked, raw.(parked := raw.parked + 1), w.threads[guard.owner])
        else w
      case Parked =>
        if raw.parked > 0 && Grants(raw, guard.kind, false, barge) then Acquired(w, g, raw.(parked := raw.parked - 1))
        else w
  }

  /** `__exit__`. */
  function Exiting(w: World, g: nat): World {
    if !Callable(w, g) || !w.guards[g].phase.Held? then w
    else
      var guard, raw := w.guards[g], w.locks[w.guards[g].lock];
      var thread := w.threads[guard.owner];
      if guard.kind.Write? then Put(w, g, Idle, raw.(writer := false), thread)
      else
        var readers := if raw.readers > 0 then raw.readers - 1 else 0;
        var depth := if thread.depth > 0 then thread.depth - 1 else 0;
        Put(w, g, Idle, raw.(readers := readers), thread.(depth := depth))
  }

  function Next(w: World, l: Label): World {
    match l
    case NewGuard(kind, lock, owner) =>
      if lock < |w.locks| && owner < |w.threads| then w.(guards := w.guards + [Guard(kind, lock, owner, Idle)]) else w
    case Enter(g, barge) => Entering(w, g, barge).0
    case Wake(g, barge) => Waking(w, g, barge)
    case Exit(g) => Exiting(w, g)
  }

  function Run(w: World, ls: seq<Label>): World {
    if ls == [] then w else Next(Run(w, ls[..|ls| - 1]), ls[|ls| - 1])
  }

  function Start(locks: nat, threads: nat): World {
    World(seq(locks, _ => Raw(false, 0, 0)), seq(threads, _ => Thread(0, None)), [])
  }

  // Counting guards

  /** The four populations of guards the counters stand for. */
  datatype Query = ReadsOf(thread: nat) | ReadersIn(lock: nat) | WritersIn(lock: nat) | ParkedOn(lock: nat)

  predicate Hit(g: Guard, q: Query) {
    match q
    case ReadsOf(t) => g.owner == t && g.kind.Read? && g.phase.Held?
    case ReadersIn(l) => g.lock == l && g.kind.Read? && g.phase.Held?
    case WritersIn(l) => g.lock == l && g.kind.Write? && g.phase.Held?
    case ParkedOn(l) => g.lock == l && g.phase.Parked?
  }

  function Bit(b: bool): nat { if b then 1 else 0 }

  function Count(gs: seq<Guard>, q: Query): nat {
    if gs == [] then 0 else Count(gs[..|gs| - 1], q) + Bit(Hit(gs[|gs| - 1], q))
  }

  lemma {:induction false} CountUpdate(gs: seq<Guard>, i: nat, g: Guard, q: Query)
    requires i < |gs|
    ensures Count(gs[i := g], q) == Count(gs, q) - Bit(Hit(gs[i], q)) + Bit(Hit(g, q))
  {
    var n := |gs| - 1;
    if i == n {
      assert gs[i := g][..n] == gs[..n];
    } else {
      assert gs[i := g][..n] == gs[..n][i := g];
      CountUpdate(gs[..n], i, g, q);
    }
  }

  lemma {:induction false} CountsHit(gs: seq<Guard>, i: nat, q: Query)
    requires i < |gs| && Hit(gs[i], q)
    ensures Count(gs, q) >= 1
    ensures forall j :: 0 <= j < |gs| && j != i && Hit(gs[j], q) ==> Count(gs, q) >= 2
  {
    var n := |gs| - 1;
    if i < n { CountsHit(gs[..n], i, q); }
    if i == n {
      forall j | 0 <= j < n && Hit(gs[j], q) ensures Count(gs, q) >= 2 { CountsHit(gs[..n], j, q); }
    }
  }

  lemma {:induction false} CountWitness(gs: seq<Guard>, q: Query) returns (i: nat)
    requires Count(gs, q) > 0
    ensures i < |gs| && Hit(gs[i], q)
  {
    var n := |gs| - 1;
    if Hit(gs[n], q) { i := n; } else { i := CountWitness(gs[..n], q); }
  }

  // The invariant of every run

  /** A thread's depth is the number of read guards it has entered, over all locks. */
  predicate ThreadOk(w: World, t: nat)
    requires t < |w.threads|
  {
    && w.threads[t].depth == Count(w.guards, ReadsOf(t))
    && (w.threads[t].blocked.Some? ==>
      var g := w.threads[t].blocked.value;
      g < |w.guards| && w.guards[g].owner == t && (w.guards[g].phase.Waiting? || w.guards[g].phase.Parked?))
  }

  predicate LockOk(w: World, l: nat)
    requires l < |w.locks|
  {
    && w.locks[l].readers == Count(w.guards, ReadersIn(l))
    && Bit(w.locks[l].writer) == Count(w.guards, WritersIn(l))
    && w.locks[l].parked == Count(w.guards, ParkedOn(l))
    && (w.locks[l].writer ==> w.locks[l].readers == 0)
  }

  predicate GuardOk(w: World, g: nat)
    requires g < |w.guards|
  {
    && Known(w, g)
    && (w.guards[g].phase.Parked? ==> w.guards[g].kind.Write?)
    && (w.guards[g].phase.Waiting? || w.guards[g].phase.Parked? ==>
      w.threads[w.guards[g].owner].blocked == Some(g))
  }

  ghost predicate Inv(w: World) {
    && (forall t :: 0 <= t < |w.threads| ==> ThreadOk(w, t))
    && (forall l :: 0 <= l < |w.locks| ==> LockOk(w, l))
    && (forall g :: 0 <= g < |w.guards| ==> GuardOk(w, g))
  }

  /** One replacement keeps the invariant when it moves the counters as the guard's phase says. */
  lemma PutOk(w: World, g: nat, phase: Phase, raw: Raw, thread: Thread)
    requires Inv(w) && Known(w, g)
    requires var before := w.guards[g]; var after := before.(phase := phase); var was := w.locks[before.lock];
      && raw.readers == was.readers - Bit(Hit(before, ReadersIn(before.lock))) + Bit(Hit(after, ReadersIn(before.lock)))
      && Bit(raw.writer) ==
         Bit(was.writer) - Bit(Hit(before, WritersIn(before.lock))) + Bit(Hit(after, WritersIn(before.lock)))
      && raw.parked == was.parked - Bit(Hit(before, ParkedOn(before.lock))) + Bit(Hit(after, ParkedOn(before.lock)))
      && (raw.writer ==> raw.readers == 0)
      && thread.depth == w.threads[before.owner].depth
                         - Bit(Hit(before, ReadsOf(before.owner))) + Bit(Hit(after, ReadsOf(before.owner)))
      && (w.threads[before.owner].blocked.None? || w.threads[before.owner].blocked == Some(g))
      && thread.blocked == (if phase.Waiting? || phase.Parked? then Some(g) else None)
      && (phase.Parked? ==> before.kind.Write?)
    ensures Inv(Put(w, g, phase, raw, thread))
  {
    var w' := Put(w, g, phase, raw, thread);
    var guard := w.guards[g];
    forall t | 0 <= t < |w'.threads| ensures ThreadOk(w', t) {
      assert ThreadOk(w, t);
      CountUpdate(w.guards, g, w'.guards[g], ReadsOf(t));
    }
    forall l | 0 <= l < |w'.locks| ensures LockOk(w', l) {
      assert LockOk(w, l);
      CountUpdate(w.guards, g, w'.guards[g], ReadersIn(l));
      CountUpdate(w.guards, g, w'.guards[g], WritersIn(l));
      CountUpdate(w.guards, g, w'.guards[g], ParkedOn(l));
    }
    forall h | 0 <= h < |w'.guards| ensures GuardOk(w', h) {
      assert GuardOk(w, h);
    }
  }

  lemma EnterOk(w: World, g: nat, barge: bool)
    requires Inv(w)
    ensures Inv(Entering(w, g, barge).0)
  {
    if Callable(w, g) && !w.guards[g].phase.Held? {
      var guard := w.guards[g];
      assert GuardOk(w, g) && LockOk(w, guard.lock);
      var raw, thread := w.locks[guard.lock], w.threads[guard.owner];
      var recursive := guard.kind.Read? && thread.depth > 0;
      if Grants(raw, guard.kind, recursive, barge) {
        PutOk(w, g, Held, Inside(raw, guard.kind), Thread(thread.depth + Bit(guard.kind.Read?), None));
      } else {
        PutOk(w, g, Waiting(recursive), raw, thread.(blocked := Some(g)));
      }
    }
  }

  lemma WakeOk(w: World, g: nat, barge: bool)
    requires Inv(w)
    ensures Inv(Waking(w, g, barge))
  {
    if Known(w, g) && (w.guards[g].phase.Waiting? || w.guards[g].phase.Parked?) {
      var guard := w.guards[g];
      assert GuardOk(w, g) && LockOk(w, guard.lock);
      var raw, thread := w.locks[guard.lock], w.threads[guard.owner];
      var depth := thread.depth + Bit(guard.kind.Read?);
      if guard.phase.Parked? {
        if Waking(w, g, barge) != w {
          PutOk(w, g, Held, Inside(raw.(parked := raw.parked - 1), guard.kind), Thread(depth, None));
        }
      } else if Grants(raw, guard.kind, guard.phase.recursive, barge) {
        PutOk(w, g, Held, Inside(raw, guard.kind), Thread(depth, None));
      } else if guard.kind.Write? {
        PutOk(w, g, Parked, raw.(parked := raw.parked + 1), thread);
      }
    }
  }

  /** A held guard is counted, by its owner and by its lock. */
  lemma HeldIsCounted(w: World, g: nat)
    requires Inv(w) && g < |w.guards| && w.guards[g].phase.Held?
    ensures Known(w, g)
    ensures w.guards[g].kind.Read? ==> w.threads[w.guards[g].owner].depth > 0 && w.locks[w.guards[g].lock].readers > 0
    ensures w.guards[g].kind.Write? ==> w.locks[w.guards[g].lock].writer
  {
    var guard := w.guards[g];
    assert GuardOk(w, g) && LockOk(w, guard.lock) && ThreadOk(w, guard.owner);
    if guard.kind.Read? {
      CountsHit(w.guards, g, ReadsOf(guard.owner));
      CountsHit(w.guards, g, ReadersIn(guard.lock));
    } else {
      CountsHit(w.guards, g, WritersIn(guard.lock));
    }
  }

  lemma ExitOk(w: World, g: nat)
    requires Inv(w)
    ensures Inv(Exiting(w, g))
  {
    if Callable(w, g) && w.guards[g].phase.Held? {
      var guard := w.guards[g];
      HeldIsCounted(w, g);
      assert LockOk(w, guard.lock);
      var raw, thread := w.locks[guard.lock], w.threads[guard.owner];
      if guard.kind.Write? {
        PutOk(w, g, Idle, raw.(writer := false), thread);
      } else {
        PutOk(w, g, Idle, raw.(readers := raw.readers - 1), thread.(depth := thread.depth - 1));
      }
    }
  }

  lemma NewGuardOk(w: World, l: Label)
    requires Inv(w) && l.NewGuard?
    ensures Inv(Next(w, l))
  {
    var w' := Next(w, l);
    if w' != w {
      assert w'.guards[..|w.guards|] == w.guards;
      forall t | 0 <= t < |w.threads| ensures ThreadOk(w', t) { assert ThreadOk(w, t); }
      forall k | 0 <= k < |w.locks| ensures LockOk(w', k) { assert LockOk(w, k); }
      forall g | 0 <= g < |w'.guards| ensures GuardOk(w', g) { assert g < |w.guards| ==> GuardOk(w, g); }
    }
  }

  lemma NextOk(w: World, l: Label)
    requires Inv(w)
    ensures Inv(Next(w, l))
  {
    match l
    case NewGuard(_, _, _) => NewGuardOk(w, l);
    case Enter(g, barge) => EnterOk(w, g, barge);
    case Wake(g, barge) => WakeOk(w, g, barge);
    case Exit(g) => ExitOk(w, g);
  }

  /** Over all runs in which guards leave through `__exit__`: every thread's depth is the number of read guards it
      has entered over all locks, and each lock holds either readers or one writer. */
  lemma {:induction false} RunOk(locks: nat, threads: nat, ls: seq<Label>)
    ensures Inv(Run(Start(locks, threads), ls))
  {
    if ls != [] {
      RunOk(locks, threads, ls[..|ls| - 1]);
      NextOk(Run(Start(locks, threads), ls[..|ls| - 1]), ls[|ls| - 1]);
    }
  }

  // What a reader and a writer can rely on

  /** The `*d > 0` test of `__exit__` never saves the count from going below zero. */
  lemma DepthNeverUnderflows(locks: nat, threads: nat, ls: seq<Label>, g: nat)
    requires var w := Run(Start(locks, threads), ls);
      Callable(w, g) && w.guards[g].phase.Held? && w.guards[g].kind.Read?
    ensures var w := Run(Start(locks, threads), ls);
      Exiting(w, g).threads[w.guards[g].owner].depth == w.threads[w.guards[g].owner].depth - 1
  {
    RunOk(locks, threads, ls);
    HeldIsCounted(Run(Start(locks, threads), ls), g);
  }

  ghost predicate Reading(w: World, t: nat, l: nat) {
    exists h :: 0 <= h < |w.guards| && w.guards[h] == Guard(Read, l, t, Held)
  }

  /** A thread already reading a lock can read it again at once, whatever writers are queued. */
  lemma RereadNeverBlocks(w: World, g: nat, barge: bool)
    requires Inv(w) && Callable(w, g) && w.guards[g].kind.Read? && !w.guards[g].phase.Held?
    requires Reading(w, w.guards[g].owner, w.guards[g].lock)
    ensures Entering(w, g, barge).1 == Entered
  {
    var h :| 0 <= h < |w.guards| && w.guards[h] == Guard(Read, w.guards[g].lock, w.guards[g].owner, Held);
    HeldIsCounted(w, h);
    assert LockOk(w, w.guards[g].lock);
  }

  /** Exactly when a read is let in however the queue decides: no writer is inside, and either none is queued or
      the thread is reading some lock — any lock, not only this one. */
  lemma ReadEntersIff(w: World, g: nat)
    requires Inv(w) && Callable(w, g) && w.guards[g].kind.Read? && !w.guards[g].phase.Held?
    ensures (forall barge :: Entering(w, g, barge).1 == Entered) <==>
      && !w.locks[w.guards[g].lock].writer
      && (w.locks[w.guards[g].lock].parked == 0 || exists l :: Reading(w, w.guards[g].owner, l))
  {
    var t := w.guards[g].owner;
    assert ThreadOk(w, t);
    if w.threads[t].depth > 0 {
      var h := CountWitness(w.guards, ReadsOf(t));
      assert w.guards[h] == Guard(Read, w.guards[h].lock, t, Held);
      assert Reading(w, t, w.guards[h].lock);
    } else if l :| Reading(w, t, l) {
      var h :| 0 <= h < |w.guards| && w.guards[h] == Guard(Read, l, t, Held);
      CountsHit(w.guards, h, ReadsOf(t));
      assert false;
    }
    assert Entering(w, g, false).1 == Entered <==>
      Grants(w.locks[w.guards[g].lock], Read, w.threads[t].depth > 0, false);
  }

  /** Exactly when a write is let in however the queue decides: nobody is inside the lock and no writer is queued. */
  lemma WriteEntersIff(w: World, g: nat)
    requires Inv(w) && Callable(w, g) && w.guards[g].kind.Write? && !w.guards[g].phase.Held?
    ensures (forall barge :: Entering(w, g, barge).1 == Entered) <==>
      && (forall h :: 0 <= h < |w.guards| && w.guards[h].lock == w.guards[g].lock ==> !w.guards[h].phase.Held?)
      && w.locks[w.guards[g].lock].parked == 0
  {
    var l := w.guards[g].lock;
    assert LockOk(w, l);
    NobodyInside(w, l);
    assert Entering(w, g, false).1 == Entered <==> Grants(w.locks[l], Write, false, false);
  }

  lemma NobodyInside(w: World, l: nat)
    requires Inv(w) && l < |w.locks|
    ensures (!w.locks[l].writer && w.locks[l].readers == 0) <==>
      forall h :: 0 <= h < |w.guards| && w.guards[h].lock == l ==> !w.guards[h].phase.Held?
  {
    assert LockOk(w, l);
    if w.locks[l].readers > 0 { var h := CountWitness(w.guards, ReadersIn(l)); }
    if w.locks[l].writer { var h := CountWitness(w.guards, WritersIn(l)); }
    forall h | 0 <= h < |w.guards| && w.guards[h].lock == l && w.guards[h].phase.Held?
      ensures w.locks[l].writer || w.locks[l].readers > 0
    {
      HeldIsCounted(w, h);
    }
  }

  /** What entering and leaving leave behind: the guard holds the lock, inside it as its kind says, and out again. */
  lemma GuardsDo(w: World, g: nat, barge: bool)
    requires Inv(w) && Callable(w, g)
    ensures var (w', r) := Entering(w, g, barge); var l := w.guards[g].lock;
      && (r == AlreadyEntered <==> w.guards[g].phase.Held?) && (r == AlreadyEntered ==> w' == w)
      && (r == Entered ==> w'.guards == w.guards[g := w.guards[g].(phase := Held)])
      && (r == Entered && w.guards[g].kind.Write? ==> w'.locks == w.locks[l := Raw(true, 0, w.locks[l].parked)])
      && (r == Entered && w.guards[g].kind.Read? ==>
          w'.locks == w.locks[l := Raw(false, w.locks[l].readers + 1, w.locks[l].parked)])
    ensures var w' := Exiting(w, g); var l := w.guards[g].lock;
      if !w.guards[g].phase.Held? then w' == w
      else
        && w'.guards == w.guards[g := w.guards[g].(phase := Idle)]
        && w'.locks == w.locks[l := w'.locks[l]] && w'.locks[l].parked == w.locks[l].parked && !w'.locks[l].writer
        && w'.locks[l].readers == w.locks[l].readers - Bit(w.guards[g].kind.Read?)
  {
    assert LockOk(w, w.guards[g].lock);
    if w.guards[g].phase.Held? { HeldIsCounted(w, g); }
  }

  /** A blocked write that looks again and finds somebody inside joins the queue, and stays there. */
  lemma WriterQueues(w: World, g: nat, barge: bool)
    requires Inv(w) && Known(w, g) && w.guards[g].kind.Write?
    requires w.guards[g].phase.Waiting? || w.guards[g].phase.Parked?
    requires w.locks[w.guards[g].lock].writer || w.locks[w.guards[g].lock].readers > 0
    ensures var w' := Waking(w, g, barge); var l := w.guards[g].lock;
      && w'.guards[g].phase.Parked?
      && w'.locks[l].parked == w.locks[l].parked + Bit(w.guards[g].phase.Waiting?)
  {
    assert GuardOk(w, g) && LockOk(w, w.guards[g].lock);
    if w.guards[g].phase.Parked? { CountsHit(w.guards, g, ParkedOn(w.guards[g].lock)); }
  }

  /** A held write guard excludes every other held guard of its lock. */
  lemma WriterIsAlone(w: World, g: nat, h: nat)
    requires Inv(w) && g < |w.guards| && h < |w.guards| && g != h && w.guards[g].lock == w.guards[h].lock
    requires w.guards[g].phase.Held? && w.guards[g].kind.Write?
    ensures !w.guards[h].phase.Held?
  {
    HeldIsCounted(w, g);
    assert LockOk(w, w.guards[g].lock);
    if w.guards[h].phase.Held? {
      HeldIsCounted(w, h);
      CountsHit(w.guards, g, WritersIn(w.guards[g].lock));
      assert Hit(w.guards[h], WritersIn(w.guards[g].lock));
      assert false;
    }
  }

  /** Entering and then leaving puts everything back: the depth, the lock and the guard. */
  lemma EnterThenExit(w: World, g: nat, barge: bool)
    requires Inv(w) && Callable(w, g) && Entering(w, g, barge).1 == Entered
    ensures Exiting(Entering(w, g, barge).0, g) == w
  {
    var w1 := Entering(w, g, barge).0;
    var w2 := Exiting(w1, g);
    assert GuardOk(w, g);
    assert w.guards[g].phase == Idle;
    assert w2.guards == w.guards && w2.locks == w.locks && w2.threads == w.threads;
  }

  /** Once nobody is inside a lock, every guard waiting for it can be let in: no wake-up is lost in the model. */
  lemma FreeLockAdmits(w: World, g: nat)
    requires Inv(w) && g < |w.guards| && (w.guards[g].phase.Waiting? || w.guards[g].phase.Parked?)
    requires forall h :: 0 <= h < |w.guards| && w.guards[h].lock == w.guards[g].lock ==> !w.guards[h].phase.Held?
    ensures Waking(w, g, true).guards[g].phase.Held?
  {
    var l := w.guards[g].lock;
    assert GuardOk(w, g) && LockOk(w, l);
    if w.locks[l].readers > 0 { var h := CountWitness(w.guards, ReadersIn(l)); assert false; }
    if w.locks[l].writer { var h := CountWitness(w.guards, WritersIn(l)); assert false; }
    if w.guards[g].phase.Parked? { CountsHit(w.guards, g, ParkedOn(l)); }
  }

  // The guard methods

  /** While a thread is blocked on a guard, nobody but that guard's own wake-up moves the thread or the guard. */
  lemma BlockedStaysPut(w: World, g: nat, l: Label)
    requires Inv(w) && Known(w, g) && w.threads[w.guards[g].owner].blocked == Some(g)
    requires !(l.Wake? && l.g == g)
    ensures Known(Next(w, l), g) && Next(w, l).guards[g] == w.guards[g]
    ensures Next(w, l).threads[w.guards[g].owner] == w.threads[w.guards[g].owner]
  {
    assert ThreadOk(w, w.guards[g].owner);
    if l.Wake? && Known(w, l.g) { assert GuardOk(w, l.g); }
  }

  class Locks {
    var locks: seq<Raw>
    var threads: seq<Thread>
    var guards: seq<Guard>

    function State(): World
      reads this
    {
      World(locks, threads, guards)
    }

    ghost predicate Valid()
      reads this
    {
      Inv(State())
    }

    constructor (nLocks: nat, nThreads: nat)
      ensures Valid() && State() == Start(nLocks, nThreads)
    {
      locks := seq(nLocks, _ => Raw(false, 0, 0));
      threads := seq(nThreads, _ => Thread(0, None));
      guards := [];
      new;
      RunOk(nLocks, nThreads, []);
    }

    method Other(l: Label)
      requires Valid()
      modifies this
      ensures Valid() && State() == Next(old(State()), l)
    {
      NextOk(State(), l);
      var w := Next(State(), l);
      locks, threads, guards := w.locks, w.threads, w.guards;
    }

    /** The guard gets the lock; a reader's depth goes up. */
    method Take(g: nat, raw: Raw)
      requires Known(State(), g)
      modifies this
      ensures State() == Acquired(old(State()), g, raw)
    {
      var guard := guards[g];
      locks := locks[guard.lock := Inside(raw, guard.kind)];
      var depth := threads[guard.owner].depth;
      if guard.kind.Read? { depth := depth + 1; }
      threads := threads[guard.owner := Thread(depth, None)];
      guards := guards[g := guard.(phase := Held)];
    }

    /** `__enter__`: the fast path, then the blocking one, during which the other threads run as scheduled.
        `Blocks` means the schedule ended while the call was still waiting. */
    method DoEnter(g: nat, barge: bool, sched: seq<Label>) returns (r: Outcome)
      requires Valid() && Callable(State(), g)
      modifies this
      ensures Valid() && Known(State(), g)
      ensures r == AlreadyEntered <==> old(guards[g].phase.Held?)
      ensures r == AlreadyEntered ==> State() == old(State())
      ensures r == Entered ==>
        && guards[g] == old(guards[g]).(phase := Held)
        && threads[guards[g].owner].blocked.None?
        && threads[guards[g].owner].depth == old(threads[guards[g].owner].depth) + Bit(guards[g].kind.Read?)
      ensures r == Blocks ==>
        threads[guards[g].owner] == old(threads[guards[g].owner]).(blocked := Some(g)) && !guards[g].phase.Held?
      ensures old(guards[g].kind.Read? && !guards[g].phase.Held?
                  && Reading(State(), guards[g].owner, guards[g].lock)) ==>
        r == Entered && State() == Acquired(old(State()), g, old(locks[guards[g].lock]))
      ensures old(!guards[g].phase.Held? && !locks[guards[g].lock].writer && locks[guards[g].lock].readers == 0
                  && locks[guards[g].lock].parked == 0) ==>
        r == Entered && State() == Acquired(old(State()), g, old(locks[guards[g].lock]))
      ensures r != Ignored
    {
      if guards[g].phase.Held? { return AlreadyEntered; }
      ghost var w0 := State();
      EnterOk(w0, g, barge);
      if guards[g].kind.Read? && Reading(w0, guards[g].owner, guards[g].lock) { RereadNeverBlocks(w0, g, barge); }
      var recursive := guards[g].kind.Read? && threads[guards[g].owner].depth > 0;
      var raw := locks[guards[g].lock];
      if Grants(raw, guards[g].kind, recursive, barge) {
        Take(g, raw);
        return Entered;
      }
      threads := threads[guards[g].owner := threads[guards[g].owner].(blocked := Some(g))];
      guards := guards[g := guards[g].(phase := Waiting(recursive))];
      assert State() == Entering(w0, g, barge).0;
      r := Block(g, sched);
    }

    /** The slow path: wait until a wake-up finds the lock free. */
    method Block(g: nat, sched: seq<Label>) returns (r: Outcome)
      requires Valid() && Known(State(), g) && !guards[g].phase.Held? && threads[guards[g].owner].blocked == Some(g)
      modifies this
      ensures Valid() && Known(State(), g) && (r == Entered || r == Blocks)
      ensures r == Entered ==>
        && guards[g] == old(guards[g]).(phase := Held)
        && threads[guards[g].owner] == Thread(old(threads[guards[g].owner].depth) + Bit(guards[g].kind.Read?), None)
      ensures r == Blocks ==>
        && guards[g] == old(guards[g]).(phase := guards[g].phase) && !guards[g].phase.Held?
        && threads[guards[g].owner] == old(threads[guards[g].owner])
    {
      for i := 0 to |sched|
        invariant Valid() && Known(State(), g) && !guards[g].phase.Held?
        invariant guards[g] == old(guards[g]).(phase := guards[g].phase)
        invariant threads[guards[g].owner] == old(threads[guards[g].owner])
      {
        var l := sched[i];
        if !(l.Wake? && l.g == g) { BlockedStaysPut(State(), g, l); }
        Other(l);
        if guards[g].phase.Held? { return Entered; }
      }
      r := Blocks;
    }

    /** `__exit__`: leaves the lock if the guard is inside it, and does nothing otherwise. */
    method DoExit(g: nat)
      requires Valid() && Callable(State(), g)
      modifies this
      ensures Valid() && State() == Exiting(old(State()), g)
      ensures old(guards[g].phase.Held? && guards[g].kind.Read?) ==>
        threads[guards[g].owner].depth == old(threads[guards[g].owner].depth) - 1
    {
      ghost var w0 := State();
      ExitOk(w0, g);
      if !guards[g].phase.Held? { return; }
      HeldIsCounted(w0, g);
      var guard, raw := guards[g], locks[guards[g].lock];
      if guard.kind.Read? {
        var depth := threads[guard.owner].depth;
        if depth > 0 { threads := threads[guard.owner := threads[guard.owner].(depth := depth - 1)]; }
        locks := locks[guard.lock := raw.(readers := raw.readers - 1)];
      } else {
        locks := locks[guard.lock := raw.(writer := false)];
      }
      guards := guards[g := guard.(phase := Idle)];
      assert State().threads == Exiting(w0, g).threads;
    }
  }
}
