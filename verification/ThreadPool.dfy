/** The thread pool: workers share one queue; shutdown drops the sender and joins. */
module ThreadPools {
  import opened Options

  type TaskId = nat

  /** Where a submitted task is. */
  datatype Where = Queued | Held(w: nat) | Running(w: nat) | Finished | Cancelled

  /** What the callable of a task does. */
  datatype Ret = Val(v: nat) | Err(e: nat)

  datatype Answer = Result(v: nat) | Exception(e: nat) | CancelledError

  /** `runs` and `cancels` count executions and cancellations, `ret` is what the callable did, and `answers` are all the
      settlements of the task's future. */
  datatype Task = Task(at: Where, runs: nat, cancels: nat, ret: Option<Ret>, answers: seq<Answer>)

  const FRESH := Task(Queued, 0, 0, None, [])

  /** A worker: waiting in `rx.recv()`, holding a task before the flag check, running it, or exited. */
  datatype Worker = Ready | Holds(t: TaskId) | Runs(t: TaskId) | Gone

  /** `open`: the pool still holds its sender; `cancel`: `cancel_pending`. */
  datatype Pool = Pool(active: bool, open: bool, cancel: bool,
                       queue: seq<TaskId>, tasks: seq<Task>, workers: seq<Worker>)

  /** `ret` is what the callable does if this is the step on which it ends. */
  datatype Label = Submit | Work(w: nat, ret: Ret)

  /** `submit`, refused once the pool is not active. */
  function Submitted(p: Pool): Pool {
    if p.active && p.open then p.(queue := p.queue + [|p.tasks|], tasks := p.tasks + [FRESH]) else p
  }

  function Moved(p: Pool, w: nat, state: Worker, t: TaskId, task: Task): Pool
    requires w < |p.workers| && t < |p.tasks|
  {
    p.(workers := p.workers[w := state], tasks := p.tasks[t := task])
  }

  /** The next step of worker `w`: receive, exit, look at the cancel flag, or finish and settle the future. */
  function Worked(p: Pool, w: nat, ret: Ret): Pool {
    if w >= |p.workers| then p
    else
      match p.workers[w]
      case Ready =>
        if p.queue != [] && p.queue[0] < |p.tasks| then
          var t := p.queue[0];
          Moved(p, w, Holds(t), t, p.tasks[t].(at := Held(w))).(queue := p.queue[1..])
        else if p.queue == [] && !p.open then p.(workers := p.workers[w := Gone])
        else p
      case Holds(t) =>
        if t >= |p.tasks| then p
        else
          var task := p.tasks[t];
          if p.cancel then
            Moved(p, w, Ready, t,
                  task.(at := Cancelled, cancels := task.cancels + 1, answers := task.answers + [CancelledError]))
          else Moved(p, w, Runs(t), t, task.(at := Running(w), runs := task.runs + 1))
      case Runs(t) =>
        if t >= |p.tasks| then p
        else
          var task := p.tasks[t];
          var answer := match ret case Val(v) => Result(v) case Err(e) => Exception(e);
          Moved(p, w, Ready, t, task.(at := Finished, ret := Some(ret), answers := task.answers + [answer]))
      case Gone => p
  }

  function Next(p: Pool, l: Label): Pool {
    match l case Submit => Submitted(p) case Work(w, ret) => Worked(p, w, ret)
  }

  /** A task is in exactly one place, and its record says which. */
  predicate TaskOk(p: Pool, t: TaskId)
    requires t < |p.tasks|
  {
    var task := p.tasks[t];
    match task.at
    case Queued => t in p.queue && task == FRESH
    case Held(w) => w < |p.workers| && p.workers[w] == Holds(t) && task == FRESH.(at := Held(w))
    case Running(w) => w < |p.workers| && p.workers[w] == Runs(t) && task == FRESH.(at := Running(w), runs := 1)
    case Finished =>
      && task.runs == 1 && task.cancels == 0
      && match task.ret {
        case None => false
        case Some(Val(v)) => task.answers == [Result(v)]
        case Some(Err(e)) => task.answers == [Exception(e)]
      }
    case Cancelled => task == Task(Cancelled, 0, 1, None, [CancelledError]) && p.cancel
  }

  predicate WorkerOk(p: Pool, w: nat)
    requires w < |p.workers|
  {
    match p.workers[w]
    case Ready => true
    case Holds(t) => t < |p.tasks| && p.tasks[t].at == Held(w)
    case Runs(t) => t < |p.tasks| && p.tasks[t].at == Running(w)
    case Gone => p.queue == [] && !p.open
  }

  ghost predicate QueueOk(p: Pool) {
    && (forall i :: 0 <= i < |p.queue| ==> p.queue[i] < |p.tasks| && p.tasks[p.queue[i]].at.Queued?)
    && (forall i, j :: 0 <= i < j < |p.queue| ==> p.queue[i] != p.queue[j])
  }

  ghost predicate Inv(p: Pool) {
    && QueueOk(p)
    && (forall t :: 0 <= t < |p.tasks| ==> TaskOk(p, t))
    && (forall w :: 0 <= w < |p.workers| ==> WorkerOk(p, w))
    && (!p.open ==> !p.active)
  }

  lemma SubmitInv(p: Pool)
    requires Inv(p)
    ensures Inv(Submitted(p))
  {
    var p' := Submitted(p);
    forall t | 0 <= t < |p'.tasks| ensures TaskOk(p', t) {
      if t < |p.tasks| { assert TaskOk(p, t); } else { assert p'.queue[|p.queue|] == t; }
    }
    forall w | 0 <= w < |p'.workers| ensures WorkerOk(p', w) { assert WorkerOk(p, w); }
  }

  lemma ReceiveInv(p: Pool, w: nat, ret: Ret)
    requires Inv(p) && w < |p.workers| && p.workers[w].Ready?
    ensures Inv(Worked(p, w, ret))
  {
    var p' := Worked(p, w, ret);
    forall t | 0 <= t < |p'.tasks| ensures TaskOk(p', t) {
      assert TaskOk(p, t);
      if t in p.queue && p.queue != [] && t != p.queue[0] { assert t in p.queue[1..]; }
    }
    forall v | 0 <= v < |p'.workers| ensures WorkerOk(p', v) { assert WorkerOk(p, v); }
  }

  lemma WorkInv(p: Pool, w: nat, ret: Ret)
    requires Inv(p) && w < |p.workers| && !p.workers[w].Ready?
    ensures Inv(Worked(p, w, ret))
  {
    var p' := Worked(p, w, ret);
    assert WorkerOk(p, w);
    forall t | 0 <= t < |p'.tasks| ensures TaskOk(p', t) { assert TaskOk(p, t); }
    forall v | 0 <= v < |p'.workers| ensures WorkerOk(p', v) { assert WorkerOk(p, v); }
  }

  lemma NextInv(p: Pool, l: Label)
    requires Inv(p)
    ensures Inv(Next(p, l))
  {
    if l.Submit? { SubmitInv(p); }
    else if l.w < |p.workers| {
      if p.workers[l.w].Ready? { ReceiveInv(p, l.w, l.ret); } else { WorkInv(p, l.w, l.ret); }
    }
  }

  /** Flags, worker count and exits persist; an inactive pool gets no tasks, and a cancelling one starts none. */
  predicate Grows(p: Pool, p': Pool) {
    && p'.active == p.active && p'.open == p.open && p'.cancel == p.cancel
    && |p'.workers| == |p.workers| && |p.tasks| <= |p'.tasks|
    && (forall w :: 0 <= w < |p.workers| && p.workers[w].Gone? ==> p'.workers[w].Gone?)
    && (!p.active ==> |p'.tasks| == |p.tasks|)
    && (p.cancel ==> forall t :: 0 <= t < |p.tasks| ==> p'.tasks[t].runs == p.tasks[t].runs)
  }

  lemma NextGrows(p: Pool, l: Label)
    ensures Grows(p, Next(p, l))
    ensures Next(p, l) == p.(queue := Next(p, l).queue, tasks := Next(p, l).tasks, workers := Next(p, l).workers)
  {
    if l.Work? && l.w < |p.workers| {
      var p' := Next(p, l);
      assert p'.workers == p.workers[l.w := p'.workers[l.w]];
    }
  }

  /** Every submitted task has had its future settled once: it ran once or was cancelled once, never both. */
  predicate AllSettled(p: Pool) {
    forall t :: 0 <= t < |p.tasks| ==>
      |p.tasks[t].answers| == 1 && p.tasks[t].runs + p.tasks[t].cancels == 1
  }

  /** Every submitted task has run. */
  predicate AllRan(p: Pool) {
    forall t :: 0 <= t < |p.tasks| ==> p.tasks[t].runs == 1
  }

  predicate AllGone(p: Pool) {
    forall w :: 0 <= w < |p.workers| ==> p.workers[w].Gone?
  }

  /** When all workers have exited, nothing is left queued or in hand. */
  lemma AllGoneSettles(p: Pool)
    requires Inv(p) && |p.workers| > 0 && AllGone(p)
    ensures AllSettled(p)
    ensures !p.cancel ==> AllRan(p)
  {
    assert WorkerOk(p, 0);
    forall t | 0 <= t < |p.tasks|
      ensures |p.tasks[t].answers| == 1 && p.tasks[t].runs + p.tasks[t].cancels == 1
      ensures !p.cancel ==> p.tasks[t].runs == 1
    {
      assert TaskOk(p, t);
    }
  }

  function Weight(k: Worker): nat {
    match k case Gone => 0 case Ready => 1 case Runs(_) => 2 case Holds(_) => 3
  }

  function Weights(ks: seq<Worker>): nat {
    if ks == [] then 0 else Weight(ks[0]) + Weights(ks[1..])
  }

  lemma {:induction false} WeightsUpdate(ks: seq<Worker>, w: nat, k: Worker)
    requires w < |ks|
    ensures Weights(ks[w := k]) == Weights(ks) - Weight(ks[w]) + Weight(k)
  {
    if w == 0 {
      assert ks[w := k][1..] == ks[1..];
    } else {
      assert ks[w := k][1..] == ks[1..][w - 1 := k];
      WeightsUpdate(ks[1..], w - 1, k);
    }
  }

  /** The work left: three steps a queued task, and what each worker still has in hand. */
  function WorkLeft(p: Pool): nat {
    3 * |p.queue| + Weights(p.workers)
  }

  /** Once the sender is dropped every worker that has not exited has a step, and each step leaves less to do. */
  lemma ShutdownEnds(p: Pool, w: nat, ret: Ret)
    requires Inv(p) && !p.open && w < |p.workers| && !p.workers[w].Gone?
    ensures WorkLeft(Worked(p, w, ret)) < WorkLeft(p)
    ensures !Worked(p, w, ret).open
  {
    assert WorkerOk(p, w);
    WeightsUpdate(p.workers, w, Worked(p, w, ret).workers[w]);
    assert Worked(p, w, ret).workers == p.workers[w := Worked(p, w, ret).workers[w]];
  }

  /** Steps taken one after the other. */
  function RunAll(p: Pool, ls: seq<Label>): Pool {
    if ls == [] then p else Next(RunAll(p, ls[..|ls| - 1]), ls[|ls| - 1])
  }

  predicate AtWork(p: Pool, l: Label) {
    l.Work? && l.w < |p.workers| && !p.workers[l.w].Gone?
  }

  /** Each step is one of a worker that has not exited. */
  predicate AllAtWork(p: Pool, ls: seq<Label>) {
    forall i :: 0 <= i < |ls| ==> AtWork(RunAll(p, ls[..i]), ls[i])
  }

  /** The joins cannot go on for ever: from the drop of the sender on, any run of the workers has at most
      `WorkLeft` steps, ... */
  lemma {:induction false} WorkIsBounded(p: Pool, ls: seq<Label>)
    requires Inv(p) && !p.open && AllAtWork(p, ls)
    ensures Inv(RunAll(p, ls)) && !RunAll(p, ls).open
    ensures |ls| + WorkLeft(RunAll(p, ls)) <= WorkLeft(p)
  {
    if ls != [] {
      var n := |ls| - 1;
      var q := RunAll(p, ls[..n]);
      assert forall i :: 0 <= i < n ==> ls[..n][..i] == ls[..i] && ls[..n][i] == ls[i];
      assert AllAtWork(p, ls[..n]);
      WorkIsBounded(p, ls[..n]);
      assert AtWork(q, ls[n]);
      ShutdownEnds(q, ls[n].w, ls[n].ret);
      NextInv(q, ls[n]);
    }
  }

  /** ... it can only stop when all workers have exited, and such a run exists, whatever the callables do: the joins
      end. */
  lemma JoinsEnd(p: Pool, ret: Ret) returns (ls: seq<Label>)
    requires Inv(p) && !p.open
    ensures |ls| <= WorkLeft(p) && AllAtWork(p, ls) && AllGone(RunAll(p, ls))
  {
    ls := [];
    while !AllGone(RunAll(p, ls))
      invariant AllAtWork(p, ls)
      decreases WorkLeft(p) - |ls|
    {
      WorkIsBounded(p, ls);
      var q := RunAll(p, ls);
      var w :| 0 <= w < |q.workers| && !q.workers[w].Gone?;
      AtWorkSnoc(p, ls, Work(w, ret));
      ls := ls + [Work(w, ret)];
      WorkIsBounded(p, ls);
    }
    WorkIsBounded(p, ls);
  }

  lemma AtWorkSnoc(p: Pool, ls: seq<Label>, l: Label)
    requires AllAtWork(p, ls) && AtWork(RunAll(p, ls), l)
    ensures AllAtWork(p, ls + [l])
  {
    var all := ls + [l];
    assert all[..|ls|] == ls;
    assert forall i :: 0 <= i < |ls| ==> all[..i] == ls[..i] && all[i] == ls[i];
  }

  /** In every reachable state a task has run at most once, been cancelled at most once, and not both; it is cancelled
      only if that was requested; and its future has been given what the callable returned or raised, or the
      cancellation, or nothing yet. */
  lemma NeverTwice(p: Pool, t: TaskId)
    requires Inv(p) && t < |p.tasks|
    ensures p.tasks[t].runs + p.tasks[t].cancels <= 1 && |p.tasks[t].answers| <= 1
    ensures p.tasks[t].cancels > 0 ==> p.cancel
    ensures forall v :: p.tasks[t].answers == [Result(v)] <==> p.tasks[t].ret == Some(Val(v))
    ensures forall e :: p.tasks[t].answers == [Exception(e)] <==> p.tasks[t].ret == Some(Err(e))
    ensures p.tasks[t].answers == [CancelledError] <==> p.tasks[t].cancels == 1
    ensures p.tasks[t].ret.Some? ==> p.tasks[t].runs == 1
  {
    assert TaskOk(p, t);
  }

  /** What a worker's step does: it takes the oldest queued task, exits on an empty queue without a sender, cancels or
      starts the task in hand by the flag, and ends a running one with what its callable did. */
  lemma WorkDoes(p: Pool, w: nat, ret: Ret)
    requires Inv(p) && w < |p.workers|
    ensures var p' := Next(p, Work(w, ret));
      match p.workers[w]
      case Ready =>
        if p.queue == [] then p' == (if p.open then p else p.(workers := p.workers[w := Gone]))
        else p'.workers == p.workers[w := Holds(p.queue[0])] && p'.queue == p.queue[1..]
      case Holds(t) =>
        && t < |p.tasks| && p'.queue == p.queue && p'.workers == p.workers[w := if p.cancel then Ready else Runs(t)]
        && p'.tasks == p.tasks[t := if p.cancel then Task(Cancelled, 0, 1, None, [CancelledError])
                                    else Task(Running(w), 1, 0, None, [])]
      case Runs(t) =>
        && t < |p.tasks| && p'.queue == p.queue && p'.workers == p.workers[w := Ready]
        && p'.tasks[t].ret == Some(ret) && p'.tasks == p.tasks[t := p'.tasks[t]]
      case Gone => p' == p
  {
    assert WorkerOk(p, w);
    match p.workers[w]
    case Holds(t) =>
      assert TaskOk(p, t);
      assert p.tasks[t].answers + [CancelledError] == [CancelledError];
    case Runs(t) => assert TaskOk(p, t);
    case _ =>
  }

  /** Once cancellation is requested no task is started any more. */
  lemma CancelStopsRuns(p: Pool, l: Label, t: TaskId)
    requires p.cancel && t < |p.tasks|
    ensures var p' := Next(p, l); p'.cancel && t < |p'.tasks| && p'.tasks[t].runs == p.tasks[t].runs
  {
    NextGrows(p, l);
  }

  /** So a task that had not been started then is never run in any later run, ... */
  lemma {:induction false} CancelledNeverRuns(p: Pool, ls: seq<Label>, t: TaskId)
    requires p.cancel && t < |p.tasks|
    ensures var p' := RunAll(p, ls); p'.cancel && t < |p'.tasks| && p'.tasks[t].runs == p.tasks[t].runs
  {
    if ls != [] {
      CancelledNeverRuns(p, ls[..|ls| - 1], t);
      CancelStopsRuns(RunAll(p, ls[..|ls| - 1]), ls[|ls| - 1], t);
    }
  }

  /** ... and when all workers have exited it has been cancelled, and its future knows. */
  lemma CancelledInTheEnd(p: Pool, t: TaskId)
    requires Inv(p) && |p.workers| > 0 && AllGone(p) && t < |p.tasks| && p.tasks[t].runs == 0
    ensures p.tasks[t].cancels == 1 && p.tasks[t].answers == [CancelledError]
  {
    AllGoneSettles(p);
    NeverTwice(p, t);
  }

  /** The queue holds the newest tasks, oldest first. */
  predicate InOrder(p: Pool) {
    |p.queue| <= |p.tasks| && forall i :: 0 <= i < |p.queue| ==> p.queue[i] == |p.tasks| - |p.queue| + i
  }

  /** Tasks are taken in the order of their submission. */
  lemma FifoDispatch(p: Pool, l: Label)
    requires InOrder(p)
    ensures InOrder(Next(p, l))
    ensures |Next(p, l).queue| < |p.queue| ==>
      l.Work? && l.w < |p.workers| && Next(p, l).workers[l.w] == Holds(|p.tasks| - |p.queue|)
  {
  }

  lemma {:induction false} RunAllInv(p: Pool, ls: seq<Label>)
    requires Inv(p)
    ensures Inv(RunAll(p, ls)) && Grows(p, RunAll(p, ls))
  {
    if ls != [] {
      var q := RunAll(p, ls[..|ls| - 1]);
      RunAllInv(p, ls[..|ls| - 1]);
      NextInv(q, ls[|ls| - 1]);
      NextGrows(q, ls[|ls| - 1]);
    }
  }

  /** No task has been started since. */
  predicate SameRuns(flagged: Pool, p: Pool) {
    |p.tasks| == |flagged.tasks| && forall t :: 0 <= t < |p.tasks| ==> p.tasks[t].runs == flagged.tasks[t].runs
  }

  /** Every task that had not been started then has been cancelled, and its future knows. */
  predicate RestCancelled(flagged: Pool, p: Pool)
    requires SameRuns(flagged, p)
  {
    forall t :: 0 <= t < |p.tasks| && flagged.tasks[t].runs == 0 ==>
      p.tasks[t].cancels == 1 && p.tasks[t].answers == [CancelledError]
  }

  predicate Everyone(hs: seq<nat>, n: nat) {
    |hs| == n && forall i :: 0 <= i < n ==> hs[i] == i
  }

  class ThreadPool {
    var active: bool
    var open: bool                 // sender is Some
    var cancelPending: bool
    var handles: seq<nat>          // workers whose JoinHandle the pool still has
    var queue: seq<TaskId>
    var tasks: seq<Task>
    var workers: seq<Worker>

    function State(): Pool
      reads this
    {
      Pool(active, open, cancelPending, queue, tasks, workers)
    }

    /** While the pool is active it has the handle of every worker. */
    ghost predicate Valid()
      reads this
    {
      && Inv(State()) && |workers| > 0
      && (active ==> Everyone(handles, |workers|))
      && (forall i :: 0 <= i < |handles| ==> handles[i] < |workers|)
    }

    constructor (n: nat)
      requires n > 0
      ensures Valid() && active && open && !cancelPending && tasks == [] && |workers| == n
    {
      active, open, cancelPending := true, true, false;
      queue, tasks := [], [];
      workers := seq(n, _ => Ready);
      handles := seq(n, i => i);
    }

    /** `ThreadPool(num_workers)`: None for "num_workers must be greater than zero"; the default is the core count. */
    static method New(numWorkers: Option<int>, cores: nat) returns (pool: Option<ThreadPool>)
      requires cores > 0
      ensures pool.None? <==> numWorkers.Some? && numWorkers.value <= 0
      ensures pool.Some? ==>
        && fresh(pool.value) && pool.value.Valid() && pool.value.active && pool.value.tasks == []
        && |pool.value.workers| == if numWorkers.Some? then numWorkers.value else cores
    {
      if numWorkers.Some? && numWorkers.value <= 0 { return None; }
      var n: nat := if numWorkers.Some? then numWorkers.value else cores;
      var p := new ThreadPool(n);
      pool := Some(p);
    }

    /** One step of a client or a worker. */
    method Other(l: Label)
      requires Valid()
      modifies this`queue, this`tasks, this`workers
      ensures Valid() && State() == Next(old(State()), l) && Grows(old(State()), State())
    {
      NextInv(State(), l);
      NextGrows(State(), l);
      var p := Next(State(), l);
      queue, tasks, workers := p.queue, p.tasks, p.workers;
    }

    method Others(sched: seq<Label>) returns (rest: seq<Label>)
      requires Valid()
      modifies this`queue, this`tasks, this`workers
      ensures Valid() && Grows(old(State()), State())
    {
      rest := sched;
      while rest != []
        invariant Valid() && Grows(old(State()), State())
        decreases |rest|
      {
        var enough: bool := *;
        if enough { return; }
        Other(rest[0]);
        rest := rest[1..];
      }
    }

    /** `submit`: the id of the new task, or None for "ThreadPool is shutdown". */
    method SubmitTask() returns (t: Option<TaskId>)
      requires Valid()
      modifies this`queue, this`tasks, this`workers
      ensures Valid()
      ensures if active && open then t == Some(|old(tasks)|) && tasks == old(tasks) + [FRESH]
              else t == None && tasks == old(tasks)
    {
      if !active || !open { return None; }
      t := Some(|tasks|);
      Other(Submit);
    }

    /** Join the given handles under a schedule; `done` is false when it ends while a join is blocked. */
    method JoinAll(hs: seq<nat>, sched: seq<Label>) returns (done: bool)
      requires Valid() && forall i :: 0 <= i < |hs| ==> hs[i] < |workers|
      modifies this`queue, this`tasks, this`workers
      ensures Valid() && Grows(old(State()), State())
      ensures done <==> forall i :: 0 <= i < |hs| ==> workers[hs[i]].Gone?
    {
      var rest := sched;
      for i := 0 to |hs|
        invariant Valid() && Grows(old(State()), State())
        invariant forall j :: 0 <= j < i ==> workers[hs[j]].Gone?
      {
        while !workers[hs[i]].Gone?
          invariant Valid() && Grows(old(State()), State())
          invariant forall j :: 0 <= j < i ==> workers[hs[j]].Gone?
          decreases |rest|
        {
          if rest == [] { return false; }
          Other(rest[0]);
          rest := rest[1..];
        }
      }
      done := true;
    }

    /** Drop the sender, take the handles, and join them unless told not to. */
    method CloseAndJoin(wait: bool, sched: seq<Label>) returns (done: bool)
      requires Valid() && !active
      modifies this`open, this`handles, this`queue, this`tasks, this`workers
      ensures Valid() && !open && handles == [] && Grows(old(State()).(open := false), State())
      ensures !wait ==> done
      ensures Everyone(old(handles), |old(workers)|) && wait ==> (done <==> AllGone(State()))
    {
      DropSenderInv(State());
      open := false;
      var hs := handles;
      handles := [];
      done := true;
      if wait {
        done := JoinAll(hs, sched);
        if Everyone(hs, |workers|) { EveryoneGone(State(), hs); }
      }
    }

    /** Steps of clients and workers, all of them taken. */
    method Through(ls: seq<Label>)
      requires Valid()
      modifies this`queue, this`tasks, this`workers
      ensures Valid() && State() == RunAll(old(State()), ls)
    {
      for i := 0 to |ls|
        invariant Valid() && State() == RunAll(old(State()), ls[..i]) && Grows(old(State()), State())
      {
        assert ls[..i + 1][..i] == ls[..i];
        Other(ls[i]);
      }
      assert ls[..|ls|] == ls;
    }

    /** `shutdown(wait, cancel_futures)`; the steps `early` are taken by others before it gets to the cancel flag. Only
        the first call does anything: when it waits and its joins finish, every submitted task is settled, and has
        run exactly once if cancellation was never requested. With cancellation, exactly the tasks started before the
        flag was set have run, and all others are cancelled. A later call returns at once and waits for nobody. */
    method Shutdown(wait: bool, cancelFutures: bool, early: seq<Label>, sched: seq<Label>) returns (done: bool)
      requires Valid()
      modifies this
      ensures Valid() && !active
      ensures !old(active) ==> done && State() == old(State()) && handles == old(handles)
      ensures old(active) ==> !open && handles == [] && cancelPending == (old(cancelPending) || cancelFutures)
      ensures old(active) && wait && done ==> AllSettled(State()) && (!cancelPending ==> AllRan(State()))
      ensures old(active) && cancelFutures ==>
        var flagged := RunAll(old(State()).(active := false), early);
        SameRuns(flagged, State()) && (wait && done ==> RestCancelled(flagged, State()))
      ensures old(active) && !done ==> wait && !AllGone(State())
    {
      if !active { return true; }
      StopInv(State());
      active := false;
      RunAllInv(State(), early);
      Through(early);
      if cancelFutures {
        CancelInv(State());
        cancelPending := true;
      }
      done := Finish(wait, sched);
    }

    /** `shutdown` from the flags on. */
    method Finish(wait: bool, sched: seq<Label>) returns (done: bool)
      requires Valid() && !active && Everyone(handles, |workers|)
      modifies this`open, this`handles, this`queue, this`tasks, this`workers
      ensures Valid() && !open && handles == []
      ensures wait && done ==> AllSettled(State()) && (!cancelPending ==> AllRan(State()))
      ensures cancelPending ==>
        SameRuns(old(State()), State()) && (wait && done ==> RestCancelled(old(State()), State()))
      ensures !done ==> wait && !AllGone(State())
    {
      var rest := Others(sched);
      ghost var before := State();
      done := CloseAndJoin(wait, rest);
      if wait && done { EndOfShutdown(old(State()), before, State()); }
    }

    /** `Drop`: joins the handles the pool still has, so without a prior shutdown all tasks are settled. */
    method Drop(sched: seq<Label>) returns (done: bool)
      requires Valid()
      modifies this
      ensures Valid() && !active && !open && cancelPending == old(cancelPending)
      ensures old(active) && done ==> AllSettled(State()) && (!cancelPending ==> AllRan(State()))
      ensures old(active) && !done ==> !AllGone(State())
    {
      StopInv(State());
      active := false;
      var rest := Others(sched);
      done := CloseAndJoin(true, rest);
      if old(active) && done { AllGoneSettles(State()); }
    }
  }

  lemma EveryoneGone(p: Pool, hs: seq<nat>)
    requires Everyone(hs, |p.workers|)
    ensures AllGone(p) <==> forall i :: 0 <= i < |hs| ==> hs[i] < |p.workers| && p.workers[hs[i]].Gone?
  {
    if forall i :: 0 <= i < |hs| ==> hs[i] < |p.workers| && p.workers[hs[i]].Gone? {
      forall w | 0 <= w < |p.workers| ensures p.workers[w].Gone? { assert hs[w] == w; }
    }
  }

  lemma EndOfShutdown(flagged: Pool, before: Pool, p: Pool)
    requires Grows(flagged, before) && Grows(before.(open := false), p) && Inv(p) && |p.workers| > 0 && AllGone(p)
    requires !flagged.active
    ensures AllSettled(p) && (!p.cancel ==> AllRan(p))
    ensures flagged.cancel ==> SameRuns(flagged, p) && RestCancelled(flagged, p)
  {
    AllGoneSettles(p);
    if flagged.cancel {
      forall t | 0 <= t < |p.tasks| && flagged.tasks[t].runs == 0
        ensures p.tasks[t].cancels == 1 && p.tasks[t].answers == [CancelledError]
      {
        CancelledInTheEnd(p, t);
      }
    }
  }

  lemma StopInv(p: Pool)
    requires Inv(p)
    ensures Inv(p.(active := false))
  {
    FlagsInv(p, p.(active := false));
  }

  lemma CancelInv(p: Pool)
    requires Inv(p)
    ensures Inv(p.(cancel := true))
  {
    FlagsInv(p, p.(cancel := true));
  }

  lemma DropSenderInv(p: Pool)
    requires Inv(p) && !p.active
    ensures Inv(p.(open := false))
  {
    FlagsInv(p, p.(open := false));
  }

  lemma FlagsInv(p: Pool, p': Pool)
    requires Inv(p) && p' == p.(active := p'.active, open := p'.open, cancel := p'.cancel)
    requires (p'.open ==> p.open) && (p.cancel ==> p'.cancel) && (!p'.open ==> !p'.active)
    ensures Inv(p')
  {
    forall t | 0 <= t < |p.tasks| ensures TaskOk(p', t) { assert TaskOk(p, t); }
    forall w | 0 <= w < |p.workers| ensures WorkerOk(p', w) { assert WorkerOk(p, w); }
  }
}
