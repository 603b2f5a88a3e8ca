/** internal/runner/parallel.go: tests run by a pool of workers over two bounded channels that are closed.
    The pool is a state machine; an interleaving is a sequence of its steps. */
module WorkerPool {
  import opened Basics
  import opened Sums

  datatype Status = Passed | Failed | TimedOut

  /** The outcome of one test: the test file it belongs to and its final status. */
  datatype TestRun<F> = TestRun(test: F, status: Status)

  datatype Result<F> = Result(index: nat, run: TestRun<F>)

  /** A worker waits for a job, has taken one, executes it, holds its result, or has returned. */
  datatype Worker<F> = Idle | Taken(job: nat) | Running(job: nat) | Holding(result: Result<F>) | Exited

  /** `sent` jobs have been sent so far; `testRuns` is the slice filled by index. */
  datatype State<F> = State(
    sent: nat,
    jobs: seq<nat>,
    jobsClosed: bool,
    workers: seq<Worker<F>>,
    results: seq<Result<F>>,
    resultsClosed: bool,
    testRuns: seq<Option<TestRun<F>>>,
    returned: bool,
    cancelled: bool)

  datatype Step =
    | Send | CloseJobs
    | Take(w: nat) | Check(w: nat) | Finish(w: nat, status: Status) | Deliver(w: nat) | Exit(w: nat)
    | CloseResults | Receive | Return | Cancel

  function Init<F>(files: seq<F>, maxWorkers: nat): State<F> {
    State(0, [], false, seq(maxWorkers, _ => Idle), [], false, seq(|files|, _ => None), false, false)
  }

  /** A channel operation that would block is not enabled. Whether the channel has been closed is not asked:
      a send on a closed channel would be a panic, which `NoSendOnClosed` rules out. */
  predicate Enabled<F>(files: seq<F>, s: State<F>, step: Step) {
    !s.returned &&
    match step
    case Send => s.sent < |files| && |s.jobs| < |files|
    case CloseJobs => s.sent == |files| && !s.jobsClosed
    case Take(w) => w < |s.workers| && s.workers[w].Idle? && s.jobs != []
    case Check(w) => w < |s.workers| && s.workers[w].Taken? && s.workers[w].job < |files|
    case Finish(w, _) => w < |s.workers| && s.workers[w].Running? && s.workers[w].job < |files|
    case Deliver(w) => w < |s.workers| && s.workers[w].Holding? && |s.results| < |files|
    case Exit(w) => w < |s.workers| && s.workers[w].Idle? && s.jobs == [] && s.jobsClosed
    case CloseResults => s.jobsClosed && !s.resultsClosed && forall w :: 0 <= w < |s.workers| ==> s.workers[w].Exited?
    case Receive => s.jobsClosed && s.results != [] && s.results[0].index < |s.testRuns|
    case Return => s.jobsClosed && s.results == [] && s.resultsClosed
    case Cancel => !s.cancelled
  }

  function SetWorker<F>(s: State<F>, w: nat, to: Worker<F>): State<F>
    requires w < |s.workers|
  {
    s.(workers := s.workers[w := to])
  }

  /** A worker that finds the context cancelled reports its test as failed without executing it. */
  function Next<F>(files: seq<F>, s: State<F>, step: Step): State<F>
    requires Enabled(files, s, step)
  {
    match step
    case Send => s.(jobs := s.jobs + [s.sent], sent := s.sent + 1)
    case CloseJobs => s.(jobsClosed := true)
    case Take(w) => SetWorker(s, w, Taken(s.jobs[0])).(jobs := s.jobs[1..])
    case Check(w) =>
      var job := s.workers[w].job;
      SetWorker(s, w, if s.cancelled then Holding(Result(job, TestRun(files[job], Failed))) else Running(job))
    case Finish(w, status) =>
      var job := s.workers[w].job;
      SetWorker(s, w, Holding(Result(job, TestRun(files[job], status))))
    case Deliver(w) => SetWorker(s, w, Idle).(results := s.results + [s.workers[w].result])
    case Exit(w) => SetWorker(s, w, Exited)
    case CloseResults => s.(resultsClosed := true)
    case Receive =>
      var r := s.results[0];
      s.(results := s.results[1..], testRuns := s.testRuns[r.index := Some(r.run)])
    case Return => s.(returned := true)
    case Cancel => s.(cancelled := true)
  }

  // ----- where a test is -----

  function IsJob(i: nat): nat -> int {
    j => if j == i then 1 else 0
  }

  function WorksOn<F>(i: nat): Worker<F> -> int {
    (w: Worker<F>) => match w
                      case Taken(job) => if job == i then 1 else 0
                      case Running(job) => if job == i then 1 else 0
                      case Holding(result) => if result.index == i then 1 else 0
                      case _ => 0
  }

  function IsResult<F>(i: nat): Result<F> -> int {
    (r: Result<F>) => if r.index == i then 1 else 0
  }

  /** In how many places test `i` is: not sent yet, queued, with a worker, in the results, collected. */
  function Places<F>(s: State<F>, i: nat): int
    requires i < |s.testRuns|
  {
    (if s.sent <= i then 1 else 0) + Sum(s.jobs, IsJob(i)) + Sum(s.workers, WorksOn(i)) + Sum(s.results, IsResult(i))
    + (if s.testRuns[i].Some? then 1 else 0)
  }

  function Busy<F>(): Worker<F> -> int {
    (w: Worker<F>) => if w.Idle? || w.Exited? then 0 else 1
  }

  function Collected<F>(): Option<TestRun<F>> -> int {
    (r: Option<TestRun<F>>) => if r.Some? then 1 else 0
  }

  /** All tests, wherever they are. */
  function Tests<F>(files: seq<F>, s: State<F>): int {
    (|files| - s.sent) + |s.jobs| + Sum(s.workers, Busy()) + |s.results| + Sum(s.testRuns, Collected())
  }

  /** A result belongs to the test of its index. */
  predicate Belongs<F(==)>(files: seq<F>, r: Result<F>) {
    r.index < |files| && r.run.test == files[r.index]
  }

  predicate GoodWorker<F(==)>(files: seq<F>, s: State<F>, w: Worker<F>) {
    match w
    case Taken(job) => job < |files|
    case Running(job) => job < |files|
    case Holding(result) => Belongs(files, result)
    case Exited => s.jobsClosed && s.jobs == []
    case Idle => true
  }

  ghost predicate Inv<F>(files: seq<F>, s: State<F>) {
    && s.sent <= |files| && |s.testRuns| == |files|
    && (forall i :: 0 <= i < |files| ==> Places(s, i) == 1)
    && Tests(files, s) == |files|
    && (forall k :: 0 <= k < |s.jobs| ==> s.jobs[k] < |files|)
    && (forall w :: 0 <= w < |s.workers| ==> GoodWorker(files, s, s.workers[w]))
    && (forall k :: 0 <= k < |s.results| ==> Belongs(files, s.results[k]))
    && (forall i :: 0 <= i < |files| && s.testRuns[i].Some? ==> s.testRuns[i].value.test == files[i])
    && (s.jobsClosed ==> s.sent == |files|)
    && (s.resultsClosed ==> s.jobsClosed && forall w :: 0 <= w < |s.workers| ==> s.workers[w].Exited?)
    && (s.returned ==> s.jobsClosed && s.resultsClosed && s.results == [])
  }

  // ----- every step keeps the invariant -----

  lemma PlacesOfWorker<F>(s: State<F>, w: nat, to: Worker<F>, i: nat)
    requires w < |s.workers| && i < |s.testRuns|
    ensures Places(SetWorker(s, w, to), i) == Places(s, i) - WorksOn<F>(i)(s.workers[w]) + WorksOn<F>(i)(to)
  {
    SumUpdate(s.workers, w, to, WorksOn<F>(i));
  }

  lemma TestsOfWorker<F>(files: seq<F>, s: State<F>, w: nat, to: Worker<F>)
    requires w < |s.workers|
    ensures Tests(files, SetWorker(s, w, to)) == Tests(files, s) - Busy<F>()(s.workers[w]) + Busy<F>()(to)
  {
    SumUpdate(s.workers, w, to, Busy<F>());
  }

  lemma PlacesOfQueue<F>(s: State<F>, jobs: seq<nat>, sent: nat, i: nat)
    requires i < |s.testRuns|
    ensures Places(s.(jobs := jobs, sent := sent), i)
            == Places(s, i) - Sum(s.jobs, IsJob(i)) + Sum(jobs, IsJob(i))
               - (if s.sent <= i then 1 else 0) + (if sent <= i then 1 else 0)
  {
  }

  lemma SendKeeps<F>(files: seq<F>, s: State<F>)
    requires Inv(files, s) && Enabled(files, s, Send)
    ensures Inv(files, Next(files, s, Send))
  {
    hide GoodWorker, Belongs;
    var s' := Next(files, s, Send);
    forall i | 0 <= i < |files| ensures Places(s', i) == 1 {
      PlacesOfQueue(s, s'.jobs, s'.sent, i);
      SumSnoc(s.jobs, s.sent, IsJob(i));
      assert Places(s, i) == 1;
    }
    assert !s.jobsClosed;
    GoodWorkersStay(files, s, s');
  }

  /** Workers that were fine stay fine while the closed queue stays closed and empty. */
  lemma GoodWorkersStay<F>(files: seq<F>, s: State<F>, s': State<F>)
    requires s'.workers == s.workers && (s.jobsClosed && s.jobs == [] ==> s'.jobsClosed && s'.jobs == [])
    requires forall w :: 0 <= w < |s.workers| ==> GoodWorker(files, s, s.workers[w])
    ensures forall w :: 0 <= w < |s'.workers| ==> GoodWorker(files, s', s'.workers[w])
  {
    forall w | 0 <= w < |s'.workers| ensures GoodWorker(files, s', s'.workers[w]) {
      assert GoodWorker(files, s, s.workers[w]);
    }
  }

  /** A worker changes state without letting go of its job. */
  lemma WorkerKeeps<F>(files: seq<F>, s: State<F>, w: nat, to: Worker<F>)
    requires Inv(files, s) && w < |s.workers| && GoodWorker(files, s, to) && !s.workers[w].Exited?
    requires Busy<F>()(to) == Busy<F>()(s.workers[w])
    requires forall i :: WorksOn<F>(i)(to) == WorksOn<F>(i)(s.workers[w])
    ensures Inv(files, SetWorker(s, w, to))
  {
    hide Belongs;
    var s' := SetWorker(s, w, to);
    forall i | 0 <= i < |files| ensures Places(s', i) == 1 {
      PlacesOfWorker(s, w, to, i);
      assert Places(s, i) == 1;
    }
    TestsOfWorker(files, s, w, to);
    GoodWorkersUpdated(files, s, s', w, to);
  }

  lemma GoodWorkersUpdated<F>(files: seq<F>, s: State<F>, s': State<F>, w: nat, to: Worker<F>)
    requires w < |s.workers| && s'.workers == s.workers[w := to] && GoodWorker(files, s', to)
    requires s.jobsClosed && s.jobs == [] ==> s'.jobsClosed && s'.jobs == []
    requires forall v :: 0 <= v < |s.workers| ==> GoodWorker(files, s, s.workers[v])
    ensures forall v :: 0 <= v < |s'.workers| ==> GoodWorker(files, s', s'.workers[v])
  {
    forall v | 0 <= v < |s'.workers| ensures GoodWorker(files, s', s'.workers[v]) {
      assert GoodWorker(files, s, s.workers[v]);
    }
  }

  lemma TakeKeeps<F>(files: seq<F>, s: State<F>, w: nat)
    requires Inv(files, s) && Enabled(files, s, Take(w))
    ensures Inv(files, Next(files, s, Take(w)))
  {
    hide Belongs;
    var job, rest := s.jobs[0], s.jobs[1..];
    var s' := Next(files, s, Take(w));
    var moved := SetWorker(s, w, Taken(job));
    forall i | 0 <= i < |files| ensures Places(s', i) == 1 {
      PlacesOfWorker(s, w, Taken(job), i);
      PlacesOfQueue(moved, rest, s.sent, i);
      assert Places(s, i) == 1;
    }
    TestsOfWorker(files, s, w, Taken(job));
    GoodWorkersUpdated(files, s, s', w, Taken(job));
  }

  lemma DeliverKeeps<F>(files: seq<F>, s: State<F>, w: nat)
    requires Inv(files, s) && Enabled(files, s, Deliver(w))
    ensures Inv(files, Next(files, s, Deliver(w)))
  {
    var r := s.workers[w].result;
    var s' := Next(files, s, Deliver(w));
    var freed := SetWorker(s, w, Idle);
    forall i | 0 <= i < |files| ensures Places(s', i) == 1 {
      PlacesOfWorker(s, w, Idle, i);
      SumSnoc(s.results, r, IsResult<F>(i));
      assert Places(s', i) == Places(freed, i) + IsResult<F>(i)(r);
      assert Places(s, i) == 1;
    }
    TestsOfWorker(files, s, w, Idle);
    assert GoodWorker(files, s, s.workers[w]);
    GoodWorkersUpdated(files, s, s', w, Idle);
  }

  lemma ReceiveKeeps<F>(files: seq<F>, s: State<F>)
    requires Inv(files, s) && Enabled(files, s, Receive)
    ensures Inv(files, Next(files, s, Receive))
  {
    var r := s.results[0];
    var s' := Next(files, s, Receive);
    FirstResult(s, r.index);
    assert Places(s, r.index) == 1;
    forall i | 0 <= i < |files| ensures Places(s', i) == 1 {
      assert Places(s, i) == 1;
    }
    SumUpdate(s.testRuns, r.index, Some(r.run), Collected<F>());
    assert Belongs(files, r);
    GoodWorkersStay(files, s, s');
  }

  /** A result that is waiting has not been collected. */
  lemma FirstResult<F>(s: State<F>, i: nat)
    requires s.results != [] && s.results[0].index == i < |s.testRuns| && Places(s, i) == 1
    ensures s.testRuns[i].None?
  {
    SumNat(s.jobs, IsJob(i));
    SumNat(s.workers, WorksOn<F>(i));
    SumNat(s.results[1..], IsResult<F>(i));
  }

  lemma ExitKeeps<F>(files: seq<F>, s: State<F>, w: nat)
    requires Inv(files, s) && Enabled(files, s, Exit(w))
    ensures Inv(files, Next(files, s, Exit(w)))
  {
    WorkerKeeps(files, s, w, Exited);
  }

  lemma CheckKeeps<F>(files: seq<F>, s: State<F>, w: nat)
    requires Inv(files, s) && Enabled(files, s, Check(w))
    ensures Inv(files, Next(files, s, Check(w)))
  {
    var job := s.workers[w].job;
    WorkerKeeps(files, s, w, if s.cancelled then Holding(Result(job, TestRun(files[job], Failed))) else Running(job));
  }

  lemma FinishKeeps<F>(files: seq<F>, s: State<F>, w: nat, status: Status)
    requires Inv(files, s) && Enabled(files, s, Finish(w, status))
    ensures Inv(files, Next(files, s, Finish(w, status)))
  {
    var job := s.workers[w].job;
    WorkerKeeps(files, s, w, Holding(Result(job, TestRun(files[job], status))));
  }

  /** Steps that only raise a flag. */
  lemma FlagKeeps<F>(files: seq<F>, s: State<F>, step: Step)
    requires Inv(files, s) && Enabled(files, s, step)
    requires step.CloseJobs? || step.CloseResults? || step.Return? || step.Cancel?
    ensures Inv(files, Next(files, s, step))
  {
    hide GoodWorker, Belongs;
    var s' := Next(files, s, step);
    forall i | 0 <= i < |files| ensures Places(s', i) == 1 {
      assert Places(s, i) == 1;
    }
    GoodWorkersStay(files, s, s');
  }

  lemma StepKeeps<F>(files: seq<F>, s: State<F>, step: Step)
    requires Inv(files, s) && Enabled(files, s, step)
    ensures Inv(files, Next(files, s, step))
  {
    hide Inv, Enabled, Next;
    match step
    case Send => SendKeeps(files, s);
    case Take(w) => TakeKeeps(files, s, w);
    case Check(w) => CheckKeeps(files, s, w);
    case Finish(w, status) => FinishKeeps(files, s, w, status);
    case Deliver(w) => DeliverKeeps(files, s, w);
    case Exit(w) => ExitKeeps(files, s, w);
    case Receive => ReceiveKeeps(files, s);
    case _ => FlagKeeps(files, s, step);
  }

  lemma InitInv<F>(files: seq<F>, maxWorkers: nat)
    ensures Inv(files, Init(files, maxWorkers))
  {
    var s := Init(files, maxWorkers);
    forall i | 0 <= i < |files| ensures Places(s, i) == 1 {
      SumConstant(maxWorkers, Worker<F>.Idle, WorksOn<F>(i));
    }
    SumConstant(maxWorkers, Worker<F>.Idle, Busy<F>());
    SumConstant(|files|, Option<TestRun<F>>.None, Collected<F>());
  }

  // ----- all interleavings -----

  predicate Runs<F>(files: seq<F>, s: State<F>, steps: seq<Step>)
    decreases |steps|
  {
    steps == [] || (Enabled(files, s, steps[0]) && Runs(files, Next(files, s, steps[0]), steps[1..]))
  }

  function After<F>(files: seq<F>, s: State<F>, steps: seq<Step>): State<F>
    requires Runs(files, s, steps)
    decreases |steps|
  {
    if steps == [] then s else After(files, Next(files, s, steps[0]), steps[1..])
  }

  lemma SameWorkers<F>(files: seq<F>, s: State<F>, step: Step)
    requires Enabled(files, s, step)
    ensures |Next(files, s, step).workers| == |s.workers|
  {
  }

  lemma {:induction false} RunKeeps<F>(files: seq<F>, s: State<F>, steps: seq<Step>)
    requires Inv(files, s) && Runs(files, s, steps)
    ensures Inv(files, After(files, s, steps)) && |After(files, s, steps).workers| == |s.workers|
    decreases |steps|
  {
    if steps != [] {
      StepKeeps(files, s, steps[0]);
      SameWorkers(files, s, steps[0]);
      hide Inv, Enabled, Next;
      RunKeeps(files, Next(files, s, steps[0]), steps[1..]);
    }
  }

  function Executing<F>(): Worker<F> -> int {
    (w: Worker<F>) => if w.Running? then 1 else 0
  }

  /** In every reachable state: each test is in exactly one place; the channels never hold more than their
      buffers; a send that is due neither blocks nor meets a closed channel; and no more than `maxWorkers`
      tests run at once. */
  lemma AlwaysSafe<F>(files: seq<F>, maxWorkers: nat, steps: seq<Step>)
    requires Runs(files, Init(files, maxWorkers), steps)
    ensures var s := After(files, Init(files, maxWorkers), steps);
            && |s.testRuns| == |files|
            && (forall i :: 0 <= i < |files| ==> Places(s, i) == 1)
            && |s.jobs| <= |files| && |s.results| <= |files|
            && (s.sent < |files| ==> |s.jobs| < |files| && !s.jobsClosed)
            && (forall w :: 0 <= w < |s.workers| && s.workers[w].Holding? ==> |s.results| < |files| && !s.resultsClosed)
            && Sum(s.workers, Executing()) <= maxWorkers
  {
    InitInv(files, maxWorkers);
    RunKeeps(files, Init(files, maxWorkers), steps);
    var s := After(files, Init(files, maxWorkers), steps);
    SumNat(s.workers, Busy<F>());
    SumNat(s.testRuns, Collected<F>());
    SumAtMost(s.workers, Executing<F>());
    forall w | 0 <= w < |s.workers| && s.workers[w].Holding?
      ensures |s.results| < |files| && !s.resultsClosed
    {
      SumAtLeast(s.workers, w, Busy<F>());
    }
  }

  /** When the pool returns, entry `i` of the result is the run of test file `i`, for every `i`. */
  lemma ResultsComplete<F>(files: seq<F>, maxWorkers: nat, steps: seq<Step>)
    requires Runs(files, Init(files, maxWorkers), steps) && After(files, Init(files, maxWorkers), steps).returned
    requires maxWorkers > 0
    ensures var runs := After(files, Init(files, maxWorkers), steps).testRuns;
            |runs| == |files| && forall i :: 0 <= i < |files| ==> runs[i].Some? && runs[i].value.test == files[i]
  {
    InitInv(files, maxWorkers);
    RunKeeps(files, Init(files, maxWorkers), steps);
    var s := After(files, Init(files, maxWorkers), steps);
    assert s.workers[0].Exited?;
    assert GoodWorker(files, s, s.workers[0]);
    assert s.jobs == [];
    forall i | 0 <= i < |files| ensures s.testRuns[i].Some? {
      SumZero(s.workers, WorksOn<F>(i));
      assert Places(s, i) == 1;
    }
  }

  // ----- what the statuses mean, told by the steps alone -----

  /** How many jobs have been taken off the queue. */
  function Takes(steps: seq<Step>): nat {
    if steps == [] then 0 else Takes(steps[..|steps| - 1]) + (if steps[|steps| - 1].Take? then 1 else 0)
  }

  /** Step `p` takes the job of test `i`: it is the take that has `i` takes before it. */
  predicate TakenAt(steps: seq<Step>, p: nat, i: nat) {
    p < |steps| && steps[p].Take? && Takes(steps[..p]) == i
  }

  predicate ActsAs(step: Step, w: nat) {
    match step
    case Take(v) => v == w
    case Check(v) => v == w
    case Finish(v, _) => v == w
    case Deliver(v) => v == w
    case Exit(v) => v == w
    case _ => false
  }

  /** Worker `w` does nothing between the steps `p` and `q`. */
  predicate Quiet(steps: seq<Step>, w: nat, p: nat, q: nat) {
    p < q <= |steps| && forall k :: p < k < q ==> !ActsAs(steps[k], w)
  }

  /** Behind the take at `p` the worker looks for a cancellation at `c`. */
  predicate CheckedAt(steps: seq<Step>, p: nat, c: nat) {
    p < c < |steps| && steps[p].Take? && steps[c] == Check(steps[p].w) && Quiet(steps, steps[p].w, p, c)
  }

  /** The worker that took test `i` at `p` found no cancellation at `c`. */
  predicate Started(steps: seq<Step>, i: nat, p: nat, c: nat) {
    TakenAt(steps, p, i) && CheckedAt(steps, p, c) && Cancel !in steps[..c]
  }

  /** Its next step, at `q`, is the end of the test with `status`. */
  predicate Ended(steps: seq<Step>, p: nat, c: nat, q: nat, status: Status) {
    p < |steps| && steps[p].Take? && Quiet(steps, steps[p].w, c, q) && q < |steps|
    && steps[q] == Finish(steps[p].w, status)
  }

  /** The worker that took test `i` found no cancellation, executed the test, and it ended with `status`. */
  ghost predicate Executed(steps: seq<Step>, i: nat, status: Status) {
    exists p: nat, c: nat, q: nat :: Started(steps, i, p, c) && Ended(steps, p, c, q, status)
  }

  /** The worker that took test `i` found the context cancelled. */
  ghost predicate CancelledBefore(steps: seq<Step>, i: nat) {
    exists p: nat, c: nat :: TakenAt(steps, p, i) && CheckedAt(steps, p, c) && Cancel in steps[..c]
  }

  ghost predicate Explained(steps: seq<Step>, i: nat, status: Status) {
    Executed(steps, i, status) || (CancelledBefore(steps, i) && status == Failed)
  }

  /** What the state of worker `w` says about its latest steps. */
  ghost predicate WorkerStory<F>(steps: seq<Step>, w: nat, worker: Worker<F>) {
    match worker
    case Taken(job) => exists p: nat :: TakenAt(steps, p, job) && steps[p] == Take(w) && Quiet(steps, w, p, |steps|)
    case Running(job) =>
      exists p: nat, c: nat :: Started(steps, job, p, c) && steps[p] == Take(w) && Quiet(steps, w, c, |steps|)
    case Holding(r) => Explained(steps, r.index, r.run.status)
    case _ => true
  }

  /** The state that the steps so far have led to. */
  ghost predicate Story<F>(steps: seq<Step>, s: State<F>) {
    && (s.cancelled <==> Cancel in steps)
    && Takes(steps) + |s.jobs| == s.sent
    && (forall k :: 0 <= k < |s.jobs| ==> s.jobs[k] == Takes(steps) + k)
    && (forall w :: 0 <= w < |s.workers| ==> WorkerStory(steps, w, s.workers[w]))
    && (forall k :: 0 <= k < |s.results| ==> Explained(steps, s.results[k].index, s.results[k].run.status))
    && (forall i :: 0 <= i < |s.testRuns| && s.testRuns[i].Some? ==> Explained(steps, i, s.testRuns[i].value.status))
  }

  lemma TakesNext(steps: seq<Step>, step: Step)
    ensures Takes(steps + [step]) == Takes(steps) + (if step.Take? then 1 else 0)
  {
    assert (steps + [step])[..|steps|] == steps;
  }

  lemma StartedNext(steps: seq<Step>, step: Step, i: nat, p: nat, c: nat)
    requires Started(steps, i, p, c)
    ensures Started(steps + [step], i, p, c) && (steps + [step])[p] == steps[p]
  {
    var steps' := steps + [step];
    assert steps'[..p] == steps[..p] && steps'[..c] == steps[..c];
  }

  lemma ExplainedNext(steps: seq<Step>, step: Step, i: nat, status: Status)
    requires Explained(steps, i, status)
    ensures Explained(steps + [step], i, status)
  {
    var steps' := steps + [step];
    if Executed(steps, i, status) {
      var p: nat, c: nat, q: nat :| Started(steps, i, p, c) && Ended(steps, p, c, q, status);
      StartedNext(steps, step, i, p, c);
      assert Ended(steps', p, c, q, status);
    } else {
      var p: nat, c: nat :| TakenAt(steps, p, i) && CheckedAt(steps, p, c) && Cancel in steps[..c];
      assert steps'[..p] == steps[..p] && steps'[..c] == steps[..c];
      assert TakenAt(steps', p, i) && CheckedAt(steps', p, c);
    }
  }

  /** A step of somebody else leaves the worker where it is. */
  lemma WorkerStoryNext<F>(steps: seq<Step>, step: Step, w: nat, worker: Worker<F>)
    requires WorkerStory(steps, w, worker) && !ActsAs(step, w)
    ensures WorkerStory(steps + [step], w, worker)
  {
    var steps' := steps + [step];
    match worker
    case Taken(job) =>
      var p: nat :| TakenAt(steps, p, job) && steps[p] == Take(w) && Quiet(steps, w, p, |steps|);
      assert steps'[..p] == steps[..p];
      assert TakenAt(steps', p, job) && Quiet(steps', w, p, |steps'|);
    case Running(job) =>
      var p: nat, c: nat :| Started(steps, job, p, c) && steps[p] == Take(w) && Quiet(steps, w, c, |steps|);
      StartedNext(steps, step, job, p, c);
      assert Quiet(steps', w, c, |steps'|);
    case Holding(r) => ExplainedNext(steps, step, r.index, r.run.status);
    case _ =>
  }

  lemma TakeStory<F>(steps: seq<Step>, w: nat)
    ensures WorkerStory<F>(steps + [Take(w)], w, Taken(Takes(steps)))
  {
    var steps' := steps + [Take(w)];
    assert steps'[..|steps|] == steps;
    assert TakenAt(steps', |steps|, Takes(steps)) && Quiet(steps', w, |steps|, |steps'|);
  }

  lemma CheckStory<F>(steps: seq<Step>, w: nat, job: nat, run: TestRun<F>)
    requires WorkerStory(steps, w, Worker<F>.Taken(job)) && run.status == Failed
    ensures if Cancel in steps then WorkerStory(steps + [Check(w)], w, Holding(Result(job, run)))
            else WorkerStory<F>(steps + [Check(w)], w, Running(job))
  {
    var steps' := steps + [Check(w)];
    var p: nat :| TakenAt(steps, p, job) && steps[p] == Take(w) && Quiet(steps, w, p, |steps|);
    assert steps'[..p] == steps[..p] && steps'[..|steps|] == steps;
    assert TakenAt(steps', p, job) && CheckedAt(steps', p, |steps|) && Quiet(steps', w, |steps|, |steps'|);
    if Cancel in steps {
      assert CancelledBefore(steps', job);
    }
  }

  lemma FinishStory<F>(steps: seq<Step>, w: nat, job: nat, run: TestRun<F>)
    requires WorkerStory(steps, w, Worker<F>.Running(job))
    ensures WorkerStory(steps + [Finish(w, run.status)], w, Holding(Result(job, run)))
  {
    var steps' := steps + [Finish(w, run.status)];
    var p: nat, c: nat :| Started(steps, job, p, c) && steps[p] == Take(w) && Quiet(steps, w, c, |steps|);
    StartedNext(steps, Finish(w, run.status), job, p, c);
    assert Ended(steps', p, c, |steps|, run.status);
  }

  /** The worker that takes the step. */
  lemma ActorStory<F>(files: seq<F>, steps: seq<Step>, s: State<F>, step: Step, w: nat)
    requires Story(steps, s) && Enabled(files, s, step) && w < |s.workers| && ActsAs(step, w)
    ensures WorkerStory(steps + [step], w, Next(files, s, step).workers[w])
  {
    hide Explained, Quiet, TakenAt, Takes;
    assert WorkerStory(steps, w, s.workers[w]);
    match step
    case Take(_) => TakeStory<F>(steps, w);
    case Check(_) => var job := s.workers[w].job; CheckStory(steps, w, job, TestRun(files[job], Failed));
    case Finish(_, status) => var job := s.workers[w].job; FinishStory(steps, w, job, TestRun(files[job], status));
    case _ =>
  }

  lemma StoryNext<F>(files: seq<F>, steps: seq<Step>, s: State<F>, step: Step)
    requires Story(steps, s) && Enabled(files, s, step)
    ensures Story(steps + [step], Next(files, s, step))
  {
    hide Explained, WorkerStory, Takes;
    var s', steps' := Next(files, s, step), steps + [step];
    TakesNext(steps, step);
    forall w | 0 <= w < |s'.workers| ensures WorkerStory(steps', w, s'.workers[w]) {
      if ActsAs(step, w) {
        ActorStory(files, steps, s, step, w);
      } else {
        WorkerStoryNext(steps, step, w, s.workers[w]);
      }
    }
    forall r | r in s'.results ensures Explained(steps', r.index, r.run.status) {
      ResultStory(files, steps, s, step, r);
    }
    forall i | 0 <= i < |s'.testRuns| && s'.testRuns[i].Some?
      ensures Explained(steps', i, s'.testRuns[i].value.status)
    {
      if s'.testRuns[i] != s.testRuns[i] {
        assert s.results[0] in s.results;
      }
      ExplainedNext(steps, step, i, s'.testRuns[i].value.status);
    }
  }

  /** A result in the channel was there before, or has been held by the worker that delivers it. */
  lemma ResultStory<F>(files: seq<F>, steps: seq<Step>, s: State<F>, step: Step, r: Result<F>)
    requires Story(steps, s) && Enabled(files, s, step) && r in Next(files, s, step).results
    ensures Explained(steps + [step], r.index, r.run.status)
  {
    hide Explained;
    if step.Deliver? && r == s.workers[step.w].result {
      assert WorkerStory(steps, step.w, s.workers[step.w]);
    } else {
      assert r in s.results;
    }
    ExplainedNext(steps, step, r.index, r.run.status);
  }

  lemma {:induction false} RunStory<F>(files: seq<F>, done: seq<Step>, s: State<F>, steps: seq<Step>)
    requires Story(done, s) && Runs(files, s, steps)
    ensures Story(done + steps, After(files, s, steps))
    decreases |steps|
  {
    hide Story, Enabled, Next;
    if steps == [] {
      assert done + steps == done;
    } else {
      StoryNext(files, done, s, steps[0]);
      RunStory(files, done + [steps[0]], Next(files, s, steps[0]), steps[1..]);
      assert done + [steps[0]] + steps[1..] == done + steps;
    }
  }

  /** When the pool returns, every test has the status it ended with, as the worker that took it reported it; or it
      was not executed, because that worker found the context cancelled, and has failed. */
  lemma StatusesReported<F>(files: seq<F>, maxWorkers: nat, steps: seq<Step>, i: nat)
    requires Runs(files, Init(files, maxWorkers), steps) && After(files, Init(files, maxWorkers), steps).returned
    requires maxWorkers > 0 && i < |files|
    ensures var runs := After(files, Init(files, maxWorkers), steps).testRuns;
            && i < |runs| && runs[i].Some? && runs[i].value.test == files[i]
            && (Executed(steps, i, runs[i].value.status)
                || (CancelledBefore(steps, i) && runs[i].value.status == Failed))
  {
    var s := Init(files, maxWorkers);
    assert [] + steps == steps;
    RunStory(files, [], s, steps);
    ResultsComplete(files, maxWorkers, steps);
  }

  // ----- no deadlock and no endless run -----

  function Effort<F>(): Worker<F> -> int {
    (w: Worker<F>) => match w
                      case Idle => 1
                      case Taken(_) => 5
                      case Running(_) => 4
                      case Holding(_) => 3
                      case Exited => 0
  }

  function Flag(b: bool): int {
    if b then 0 else 1
  }

  /** What is left to do: a test that is not sent yet still takes six steps, and so on down to none. */
  function Measure<F>(files: seq<F>, s: State<F>): int {
    6 * (|files| - s.sent) + 5 * |s.jobs| + Sum(s.workers, Effort()) + |s.results|
    + Flag(s.jobsClosed) + Flag(s.resultsClosed) + Flag(s.returned) + Flag(s.cancelled)
  }

  lemma StepDecreases<F>(files: seq<F>, s: State<F>, step: Step)
    requires Inv(files, s) && Enabled(files, s, step)
    ensures Measure(files, Next(files, s, step)) < Measure(files, s)
  {
    hide Inv;
    match step
    case Take(w) => SumUpdate(s.workers, w, Taken(s.jobs[0]), Effort<F>());
    case Check(w) => SumUpdate(s.workers, w, Next(files, s, step).workers[w], Effort<F>());
    case Finish(w, _) => SumUpdate(s.workers, w, Next(files, s, step).workers[w], Effort<F>());
    case Deliver(w) => SumUpdate(s.workers, w, Idle, Effort<F>());
    case Exit(w) => SumUpdate(s.workers, w, Exited, Effort<F>());
    case _ =>
  }

  lemma MeasureIsNat<F>(files: seq<F>, s: State<F>)
    requires Inv(files, s)
    ensures Measure(files, s) >= 0
  {
    SumNat(s.workers, Effort<F>());
  }

  lemma {:induction false} RunShrinks<F>(files: seq<F>, s: State<F>, steps: seq<Step>)
    requires Inv(files, s) && Runs(files, s, steps)
    ensures |steps| <= Measure(files, s)
    decreases |steps|
  {
    if steps == [] {
      MeasureIsNat(files, s);
    } else {
      StepKeeps(files, s, steps[0]);
      StepDecreases(files, s, steps[0]);
      hide Inv, Enabled, Measure;
      RunShrinks(files, Next(files, s, steps[0]), steps[1..]);
    }
  }

  /** No interleaving is longer than this. */
  lemma RunsEnd<F>(files: seq<F>, maxWorkers: nat, steps: seq<Step>)
    requires Runs(files, Init(files, maxWorkers), steps)
    ensures |steps| <= 6 * |files| + maxWorkers + 4
  {
    var s := Init(files, maxWorkers);
    InitInv(files, maxWorkers);
    RunShrinks(files, s, steps);
    SumConstant(maxWorkers, Worker<F>.Idle, Effort<F>());
  }

  /** Before the pool returns some goroutine can always take a step; waiting for a cancellation is never needed. */
  lemma NeverStuck<F>(files: seq<F>, s: State<F>)
    requires Inv(files, s) && !s.returned
    ensures exists step: Step :: !step.Cancel? && Enabled(files, s, step)
  {
    if s.sent < |files| {
      SumNat(s.workers, Busy<F>());
      SumNat(s.testRuns, Collected<F>());
      assert Enabled(files, s, Send);
    } else if !s.jobsClosed {
      assert Enabled(files, s, CloseJobs);
    } else if s.results != [] {
      assert Belongs(files, s.results[0]);
      assert Enabled(files, s, Receive);
    } else if s.resultsClosed {
      assert Enabled(files, s, Return);
    } else if w: nat :| w < |s.workers| && !s.workers[w].Exited? {
      WorkerMoves(files, s, w);
    } else {
      assert Enabled(files, s, CloseResults);
    }
  }

  lemma WorkerMoves<F>(files: seq<F>, s: State<F>, w: nat)
    requires Inv(files, s) && !s.returned && s.jobsClosed && s.results == []
    requires w < |s.workers| && !s.workers[w].Exited?
    ensures exists step: Step :: !step.Cancel? && Enabled(files, s, step)
  {
    assert GoodWorker(files, s, s.workers[w]);
    match s.workers[w]
    case Idle =>
      var step := if s.jobs == [] then Exit(w) else Take(w);
      assert Enabled(files, s, step);
    case Taken(_) => assert Enabled(files, s, Check(w));
    case Running(_) => assert Enabled(files, s, Finish(w, Passed));
    case Holding(_) => assert Enabled(files, s, Deliver(w));
  }

  // ----- the sequential fallback -----

  /** How many of the tests from index `i` on are run one after another: up to the first during which the
      context was cancelled. All of them exactly if none but the last was. */
  function Reached(n: nat, i: nat, cancelledBy: nat -> bool): (r: nat)
    requires i <= n
    ensures i <= r <= n && (i < n ==> i < r)
    ensures r == n <==> forall k :: i <= k < n - 1 ==> !cancelledBy(k)
    ensures forall k :: i <= k < r - 1 ==> !cancelledBy(k)
    decreases n - i
  {
    if i == n then n else if cancelledBy(i) then i + 1 else Reached(n, i + 1, cancelledBy)
  }

  /** `ExecuteBatch`, the fallback for one worker or one test. What a test ends with and whether the context is
      cancelled by then are up to the environment. Unlike the pool it leaves out the tests behind a cancellation. */
  method ExecuteBatch<F>(files: seq<F>, statusOf: nat -> Status, cancelledBy: nat -> bool)
    returns (runs: seq<TestRun<F>>)
    ensures |runs| == Reached(|files|, 0, cancelledBy)
    ensures forall i :: 0 <= i < |runs| ==> runs[i] == TestRun(files[i], statusOf(i))
  {
    runs := [];
    for i := 0 to |files|
      invariant |runs| == i && forall k :: 0 <= k < i ==> runs[k] == TestRun(files[k], statusOf(k))
      invariant Reached(|files|, i, cancelledBy) == Reached(|files|, 0, cancelledBy)
    {
      runs := runs + [TestRun(files[i], statusOf(i))];
      if cancelledBy(i) {
        break;
      }
    }
  }
}
