/** The provider constructor's start-up barrier: it materializes every pool thread before
    module code runs, with three semaphores on its own stack. Each semaphore operation is
    one atomic step; every schedule of the constructor and the pool threads is a run. */
module PoolStartup {
  /** configured > 0 wins; otherwise the ideal thread count, but at least one. */
  function Workers(configured: int, ideal: int): (n: nat)
    ensures n > 0
    ensures configured > 0 ==> n == configured
    ensures configured <= 0 && ideal >= 1 ==> n == ideal
  {
    if configured > 0 then configured else if ideal > 1 then ideal else 1
  }

  /** One pooled task. Held: the pool had no thread for it yet. */
  datatype Task = Unstarted | Held | Entering | Waiting | Finishing | Ended

  /** The constructor: starting task i, then its three blocking lines, then returned. */
  datatype Pc = Starting(i: nat) | AcquireEntered | ReleaseAll | AcquireFinished | Returned

  /** created counts the pool's threads, which never expire; idle ones are between tasks. */
  datatype State = State(pc: Pc, tasks: seq<Task>, created: nat, entered: nat, release: nat, finished: nat)

  function Initial(n: nat): State {
    State(Starting(0), seq(n, _ => Unstarted), 0, 0, 0, 0)
  }

  /** How many tasks are exactly at k. */
  function Count(tasks: seq<Task>, k: Task): nat {
    if tasks == [] then 0 else Count(tasks[..|tasks| - 1], k) + if tasks[|tasks| - 1] == k then 1 else 0
  }

  function Running(s: State): nat {
    Count(s.tasks, Entering) + Count(s.tasks, Waiting) + Count(s.tasks, Finishing)
  }

  datatype Step = Construct | Run(k: nat)

  predicate Enabled(s: State, step: Step) {
    var n := |s.tasks|;
    match step
    case Construct =>
      (match s.pc
       case Starting(_) => true
       case AcquireEntered => s.entered >= n
       case ReleaseAll => true
       case AcquireFinished => s.finished >= n
       case Returned => false)
    case Run(k) =>
      k < n &&
      (match s.tasks[k]
       case Held => Running(s) < n && Running(s) < s.created  // an idle thread takes it over
       case Entering => true
       case Waiting => s.release >= 1
       case Finishing => true
       case _ => false)
  }

  function Apply(s: State, step: Step): State
    requires Enabled(s, step)
  {
    var n := |s.tasks|;
    match step
    case Construct =>
      (match s.pc
       case Starting(i) =>
         if i >= n then s.(pc := AcquireEntered)
         else if Running(s) >= n then s.(pc := Starting(i + 1), tasks := s.tasks[i := Held])
         else s.(pc := Starting(i + 1), tasks := s.tasks[i := Entering],
                 created := if Running(s) < s.created then s.created else s.created + 1)
       case AcquireEntered => s.(pc := ReleaseAll, entered := s.entered - n)
       case ReleaseAll => s.(pc := AcquireFinished, release := s.release + n)
       case AcquireFinished => s.(pc := Returned, finished := s.finished - n)
       case Returned => s)
    case Run(k) =>
      (match s.tasks[k]
       case Held => s.(tasks := s.tasks[k := Entering])
       case Entering => s.(tasks := s.tasks[k := Waiting], entered := s.entered + 1)
       case Waiting => s.(tasks := s.tasks[k := Finishing], release := s.release - 1)
       case Finishing => s.(tasks := s.tasks[k := Ended], finished := s.finished + 1)
       case _ => s)
  }

  ghost predicate IsRun(s: State, steps: seq<Step>)
    decreases |steps|
  {
    steps == [] || (Enabled(s, steps[0]) && IsRun(Apply(s, steps[0]), steps[1..]))
  }

  function After(s: State, steps: seq<Step>): State
    requires IsRun(s, steps)
    decreases |steps|
  {
    if steps == [] then s else After(Apply(s, steps[0]), steps[1..])
  }

  // ---------------------------------------------------------------------------
  // The invariant
  // ---------------------------------------------------------------------------

  lemma {:induction false} CountUpdate(tasks: seq<Task>, i: nat, t: Task, k: Task)
    requires i < |tasks|
    ensures Count(tasks[i := t], k) == Count(tasks, k) - (if tasks[i] == k then 1 else 0) + if t == k then 1 else 0
    ensures tasks[i] == k ==> Count(tasks, k) >= 1
    decreases |tasks|
  {
    var n := |tasks| - 1;
    if i == n {
      assert tasks[i := t][..n] == tasks[..n];
    } else {
      assert tasks[i := t][..n] == tasks[..n][i := t];
      CountUpdate(tasks[..n], i, t, k);
    }
  }

  lemma {:induction false} CountAll(tasks: seq<Task>)
    ensures Count(tasks, Unstarted) + Count(tasks, Held) + Count(tasks, Entering) + Count(tasks, Waiting)
          + Count(tasks, Finishing) + Count(tasks, Ended) == |tasks|
  {
    if tasks != [] {
      CountAll(tasks[..|tasks| - 1]);
    }
  }

  lemma {:induction false} CountSome(tasks: seq<Task>, k: Task) returns (i: nat)
    requires Count(tasks, k) > 0
    ensures i < |tasks| && tasks[i] == k
  {
    i := |tasks| - 1;
    if tasks[i] != k {
      i := CountSome(tasks[..i], k);
    }
  }

  lemma {:induction false} CountNone(tasks: seq<Task>, k: Task)
    requires forall i :: 0 <= i < |tasks| ==> tasks[i] != k
    ensures Count(tasks, k) == 0
  {
    if tasks != [] {
      CountNone(tasks[..|tasks| - 1], k);
    }
  }

  /** Tasks started so far. */
  function Begun(s: State): nat {
    if s.pc.Starting? then s.pc.i else |s.tasks|
  }

  ghost predicate Inv(s: State) {
    var n := |s.tasks|;
    && Begun(s) <= n
    && (forall i :: 0 <= i < n ==> (s.tasks[i] == Unstarted <==> Begun(s) <= i))
    && Count(s.tasks, Unstarted) == n - Begun(s)
    && Count(s.tasks, Held) == 0
    && s.created == Begun(s)
    && (s.pc.Starting? || s.pc == AcquireEntered || s.pc == ReleaseAll ==>
          s.release == s.finished == 0 && Count(s.tasks, Finishing) == Count(s.tasks, Ended) == 0)
    && (s.pc.Starting? || s.pc == AcquireEntered ==> s.entered == Count(s.tasks, Waiting))
    && (s.pc == ReleaseAll ==> s.entered == 0 && Count(s.tasks, Waiting) == n)
    && (s.pc == AcquireFinished || s.pc == Returned ==>
          s.entered == 0 && Count(s.tasks, Entering) == 0 && s.release == Count(s.tasks, Waiting))
    && (s.pc == AcquireFinished ==> s.finished == Count(s.tasks, Ended))
    && (s.pc == Returned ==> Count(s.tasks, Ended) == n && s.finished == 0)
  }

  lemma InitialInv(n: nat)
    ensures Inv(Initial(n))
  {
    var tasks := Initial(n).tasks;
    CountAll(tasks);
    CountNone(tasks, Held);
    CountNone(tasks, Entering);
    CountNone(tasks, Waiting);
    CountNone(tasks, Finishing);
    CountNone(tasks, Ended);
  }

  lemma Recount(tasks: seq<Task>, i: nat, t: Task)
    requires i < |tasks|
    ensures forall k :: Count(tasks[i := t], k)
                     == Count(tasks, k) - (if tasks[i] == k then 1 else 0) + if t == k then 1 else 0
    ensures Count(tasks, tasks[i]) >= 1
  {
  }

  lemma ConstructKeepsInv(s: State)
    requires Inv(s) && Enabled(s, Construct)
    ensures Inv(Apply(s, Construct))
  {
    CountAll(s.tasks);
    if s.pc.Starting? && s.pc.i < |s.tasks| {
      Recount(s.tasks, s.pc.i, Entering);
    }
  }

  lemma TaskKeepsInv(s: State, k: nat)
    requires Inv(s) && Enabled(s, Run(k))
    ensures Inv(Apply(s, Run(k)))
  {
    CountAll(s.tasks);
    Recount(s.tasks, k, Apply(s, Run(k)).tasks[k]);
  }

  lemma StepKeepsInv(s: State, step: Step)
    requires Inv(s) && Enabled(s, step)
    ensures Inv(Apply(s, step)) && |Apply(s, step).tasks| == |s.tasks|
  {
    match step
    case Construct => ConstructKeepsInv(s);
    case Run(k) => TaskKeepsInv(s, k);
  }

  lemma {:induction false} RunKeepsInv(s: State, steps: seq<Step>)
    requires Inv(s) && IsRun(s, steps)
    ensures Inv(After(s, steps)) && |After(s, steps).tasks| == |s.tasks|
    decreases |steps|
  {
    if steps != [] {
      StepKeepsInv(s, steps[0]);
      RunKeepsInv(Apply(s, steps[0]), steps[1..]);
    }
  }

  // ---------------------------------------------------------------------------
  // What the constructor guarantees
  // ---------------------------------------------------------------------------

  /** On return exactly n pool threads exist, each task has made its last semaphore
      operation, and no later step of any thread exists. */
  lemma StartupPostcondition(n: nat, steps: seq<Step>)
    requires IsRun(Initial(n), steps) && After(Initial(n), steps).pc == Returned
    ensures
      var s := After(Initial(n), steps);
      && s.created == n && Running(s) == 0
      && |s.tasks| == n && (forall i :: 0 <= i < n ==> s.tasks[i] == Ended)
      && (forall step :: !Enabled(s, step))
  {
    InitialInv(n);
    RunKeepsInv(Initial(n), steps);
    var s := After(Initial(n), steps);
    CountAll(s.tasks);
    forall i | 0 <= i < n ensures s.tasks[i] == Ended {
      CountUpdate(s.tasks, i, s.tasks[i], s.tasks[i]);
    }
  }

  /** Before the constructor returns, something can always move. */
  lemma NeverDeadlocked(n: nat, steps: seq<Step>) returns (step: Step)
    requires IsRun(Initial(n), steps) && After(Initial(n), steps).pc != Returned
    ensures Enabled(After(Initial(n), steps), step)
  {
    InitialInv(n);
    RunKeepsInv(Initial(n), steps);
    var s := After(Initial(n), steps);
    CountAll(s.tasks);
    step := Construct;
    if s.pc == AcquireEntered && s.entered < n {
      var k := CountSome(s.tasks, Entering);
      step := Run(k);
    } else if s.pc == AcquireFinished && s.finished < n {
      if Count(s.tasks, Finishing) > 0 {
        var k := CountSome(s.tasks, Finishing);
        step := Run(k);
      } else {
        var k := CountSome(s.tasks, Waiting);
        step := Run(k);
      }
    }
  }

  function Left(s: State): nat {
    var n := |s.tasks|;
    (match s.pc
     case Starting(i) => (if i <= n then n - i else 0) + 4
     case AcquireEntered => 3
     case ReleaseAll => 2
     case AcquireFinished => 1
     case Returned => 0)
    + 4 * Count(s.tasks, Unstarted) + 4 * Count(s.tasks, Held) + 3 * Count(s.tasks, Entering)
    + 2 * Count(s.tasks, Waiting) + Count(s.tasks, Finishing)
  }

  lemma ConstructShortens(s: State)
    requires Inv(s) && Enabled(s, Construct)
    ensures Left(Apply(s, Construct)) < Left(s)
  {
    if s.pc.Starting? && s.pc.i < |s.tasks| {
      CountAll(s.tasks);
      Recount(s.tasks, s.pc.i, Entering);
    }
  }

  lemma TaskShortens(s: State, k: nat)
    requires Inv(s) && Enabled(s, Run(k))
    ensures Left(Apply(s, Run(k))) < Left(s)
  {
    Recount(s.tasks, k, Apply(s, Run(k)).tasks[k]);
  }

  lemma StepShortens(s: State, step: Step)
    requires Inv(s) && Enabled(s, step)
    ensures Left(Apply(s, step)) < Left(s)
  {
    match step
    case Construct => ConstructShortens(s);
    case Run(k) => TaskShortens(s, k);
  }

  lemma {:induction false} RunsAreBounded(s: State, steps: seq<Step>)
    requires Inv(s) && IsRun(s, steps)
    ensures |steps| + Left(After(s, steps)) <= Left(s)
    decreases |steps|
  {
    if steps != [] {
      StepShortens(s, steps[0]);
      StepKeepsInv(s, steps[0]);
      RunsAreBounded(Apply(s, steps[0]), steps[1..]);
    }
  }

  /** Every schedule reaches the return: no run is longer than 5n + 4 steps. */
  lemma StartupTerminates(n: nat, steps: seq<Step>)
    requires IsRun(Initial(n), steps)
    ensures |steps| <= 5 * n + 4
  {
    InitialInv(n);
    CountAll(Initial(n).tasks);
    CountNone(Initial(n).tasks, Held);
    RunsAreBounded(Initial(n), steps);
  }
}
