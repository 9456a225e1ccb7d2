/** What the steps of a run say of its completions: whose call each one is, which listener
    was set when that call copied it, and in which order the pool serves. */
module CallHistory {
  import opened Options
  import opened GlueEmitter
  import opened DeferredDispatch

  // ---------------------------------------------------------------------------
  // Said of the steps alone
  // ---------------------------------------------------------------------------

  /** The listener set last. */
  function LastListen(past: seq<Step>): Option<nat> {
    if past == [] then None
    else if past[|past| - 1].Listen? then past[|past| - 1].l
    else LastListen(past[..|past| - 1])
  }

  predicate On(step: Step, t: nat) { !step.Listen? && step.t == t }

  /** How many steps thread t takes after step e and before step k. */
  function Between(past: seq<Step>, t: nat, e: int, k: int): nat
    requires 0 <= e && k <= |past|
    decreases k
  {
    if k <= e + 1 then 0 else Between(past, t, e, k - 1) + if On(past[k - 1], t) then 1 else 0
  }

  /** Step e delivers the call on thread t. */
  predicate DeliveredAt(past: seq<Step>, call: Call, t: nat, e: int) { 0 <= e < |past| && past[e] == Enter(t, call) }

  ghost predicate Delivered(past: seq<Step>, call: Call) { exists t, e :: DeliveredAt(past, call, t, e) }

  /** Step e delivers the copied call on thread t, and step k is that call's second statement;
      the listener is the one set last before it. */
  predicate CopiedAt(past: seq<Step>, copy: Copy, t: nat, e: int, k: int) {
    && DeliveredAt(past, copy.call, t, e)
    && e < k < |past| && past[k] == Advance(t) && Between(past, t, e, k) == 1
    && copy.listener == LastListen(past[..k])
  }

  ghost predicate Copied(past: seq<Step>, copy: Copy) { exists t, e, k :: CopiedAt(past, copy, t, e, k) }

  predicate ReturnedAt(past: seq<Step>, reply: Option<string>, t: nat, a: int) {
    0 <= a < |past| && past[a] == Finish(t, reply)
  }

  ghost predicate Returned(past: seq<Step>, reply: Option<string>) { exists t, a :: ReturnedAt(past, reply, t, a) }

  // ---------------------------------------------------------------------------
  // What a state keeps of it
  // ---------------------------------------------------------------------------

  /** The call was delivered on this thread, n steps of the thread ago. */
  predicate Ago(past: seq<Step>, call: Call, t: nat, e: int, n: nat) {
    DeliveredAt(past, call, t, e) && Between(past, t, e, |past|) == n
  }

  ghost predicate FrameTraced(c: Config, past: seq<Step>, t: nat, f: Frame) {
    && Delivered(past, f.call)
    && (f.kind == Caller && c.multi && f.pc.Entered? ==> exists e :: Ago(past, f.call, t, e, 0))
    && (f.kind == Caller && f.pc.Numbered? ==> exists e :: Ago(past, f.call, t, e, 1))
    && (Owns(f, PastCopy) ==> Copied(past, Copy(f.id, f.call, f.listener)))
  }

  ghost predicate ThreadTraced(c: Config, past: seq<Step>, t: nat, th: Thread) {
    forall k :: 0 <= k < |th.frames| ==> FrameTraced(c, past, t, th.frames[k])
  }

  ghost predicate Traced(c: Config, s: State, past: seq<Step>) {
    && s.listener == LastListen(past)
    && (forall t :: 0 <= t < |s.threads| ==> ThreadTraced(c, past, t, s.threads[t]))
    && Logged(s, past)
  }

  ghost predicate Logged(s: State, past: seq<Step>) {
    && (forall i :: 0 <= i < |s.queue| ==> Copied(past, Copy(s.queue[i].id, s.queue[i].call, s.queue[i].listener)))
    && (forall i :: 0 <= i < |s.copies| ==> Copied(past, s.copies[i]))
    && (forall i :: 0 <= i < |s.replies| ==> Returned(past, s.replies[i].reply))
    && (forall i :: 0 <= i < |s.looks| ==> Delivered(past, s.looks[i].call))
  }

  lemma {:induction false} BetweenKept(past: seq<Step>, step: Step, t: nat, e: int, k: int)
    requires 0 <= e && k <= |past|
    ensures Between(past + [step], t, e, k) == Between(past, t, e, k)
    decreases k
  {
    if k > e + 1 {
      BetweenKept(past, step, t, e, k - 1);
    }
  }

  lemma DeliveredKept(past: seq<Step>, step: Step, call: Call)
    requires Delivered(past, call)
    ensures Delivered(past + [step], call)
  {
    var t, e :| DeliveredAt(past, call, t, e);
    assert DeliveredAt(past + [step], call, t, e);
  }

  lemma CopiedKept(past: seq<Step>, step: Step, copy: Copy)
    requires Copied(past, copy)
    ensures Copied(past + [step], copy)
  {
    var t, e, k :| CopiedAt(past, copy, t, e, k);
    BetweenKept(past, step, t, e, k);
    assert (past + [step])[..k] == past[..k];
    assert CopiedAt(past + [step], copy, t, e, k);
  }

  lemma ReturnedKept(past: seq<Step>, step: Step, reply: Option<string>)
    requires Returned(past, reply)
    ensures Returned(past + [step], reply)
  {
    var t, a :| ReturnedAt(past, reply, t, a);
    assert ReturnedAt(past + [step], reply, t, a);
  }

  lemma AgoNext(past: seq<Step>, step: Step, call: Call, t: nat, e: int, n: nat)
    requires Ago(past, call, t, e, n)
    ensures Ago(past + [step], call, t, e, if On(step, t) then n + 1 else n)
  {
    BetweenKept(past, step, t, e, |past|);
  }

  /** An activation that does not move: one on another thread, or one that waits below. */
  lemma FrameKept(c: Config, past: seq<Step>, step: Step, t: nat, f: Frame)
    requires FrameTraced(c, past, t, f) && (On(step, t) ==> f.pc == Handling)
    ensures FrameTraced(c, past + [step], t, f)
  {
    DeliveredKept(past, step, f.call);
    if e :| Ago(past, f.call, t, e, 0) {
      AgoNext(past, step, f.call, t, e, 0);
    }
    if e :| Ago(past, f.call, t, e, 1) {
      AgoNext(past, step, f.call, t, e, 1);
    }
    if Owns(f, PastCopy) {
      CopiedKept(past, step, Copy(f.id, f.call, f.listener));
    }
  }

  lemma LogKept(s: State, past: seq<Step>, step: Step)
    requires Logged(s, past)
    ensures Logged(s, past + [step])
  {
    forall i | 0 <= i < |s.queue|
      ensures Copied(past + [step], Copy(s.queue[i].id, s.queue[i].call, s.queue[i].listener))
    {
      CopiedKept(past, step, Copy(s.queue[i].id, s.queue[i].call, s.queue[i].listener));
    }
    forall i | 0 <= i < |s.copies| ensures Copied(past + [step], s.copies[i]) {
      CopiedKept(past, step, s.copies[i]);
    }
    forall i | 0 <= i < |s.replies| ensures Returned(past + [step], s.replies[i].reply) {
      ReturnedKept(past, step, s.replies[i].reply);
    }
    forall i | 0 <= i < |s.looks| ensures Delivered(past + [step], s.looks[i].call) {
      DeliveredKept(past, step, s.looks[i].call);
    }
  }

  /** What the innermost activation becomes. */
  lemma NextTraced(c: Config, s: State, past: seq<Step>, t: nat)
    requires Traced(c, s, past) && Shape(c, s) && Enabled(c, s, Advance(t)) && Next(c, s, t).Some?
    ensures FrameTraced(c, past + [Advance(t)], t, Next(c, s, t).value)
  {
    var f, next, step := Innermost(s.threads[t]), Next(c, s, t).value, Advance(t);
    assert ThreadTraced(c, past, t, s.threads[t]) && FrameTraced(c, past, t, f);
    assert SlotOk(c, s, t, s.threads[t]) && FrameOk(c, f);
    DeliveredKept(past, step, f.call);
    if f.pc.Entered? && c.multi {
      var e :| Ago(past, f.call, t, e, 0);
      AgoNext(past, step, f.call, t, e, 0);
    } else if f.pc.Numbered? {
      var e :| Ago(past, f.call, t, e, 1);
      BetweenKept(past, step, t, e, |past|);
      assert (past + [step])[..|past|] == past;
      assert CopiedAt(past + [step], Copy(next.id, next.call, next.listener), t, e, |past|);
    } else if Owns(f, PastCopy) {
      CopiedKept(past, step, Copy(f.id, f.call, f.listener));
    }
  }

  lemma OthersTraced(c: Config, s: State, past: seq<Step>, step: Step, t: nat)
    requires Traced(c, s, past) && Shape(c, s) && t < |s.threads| && !On(step, t)
    ensures ThreadTraced(c, past + [step], t, s.threads[t])
  {
    var th := s.threads[t];
    assert ThreadTraced(c, past, t, th);
    forall k | 0 <= k < |th.frames| ensures FrameTraced(c, past + [step], t, th.frames[k]) {
      FrameKept(c, past, step, t, th.frames[k]);
    }
  }

  /** The activations below the innermost one. */
  lemma BelowTraced(c: Config, s: State, past: seq<Step>, step: Step, t: nat)
    requires Traced(c, s, past) && Shape(c, s) && t < |s.threads| && s.threads[t].frames != []
    ensures forall k :: 0 <= k < |s.threads[t].frames| - 1 ==> FrameTraced(c, past + [step], t, s.threads[t].frames[k])
  {
    var th := s.threads[t];
    assert ThreadTraced(c, past, t, th) && SlotOk(c, s, t, th);
    forall k | 0 <= k < |th.frames| - 1 ensures FrameTraced(c, past + [step], t, th.frames[k]) {
      FrameKept(c, past, step, t, th.frames[k]);
    }
  }

  lemma AdvanceThread(c: Config, s: State, past: seq<Step>, t: nat)
    requires Traced(c, s, past) && Shape(c, s) && Enabled(c, s, Advance(t)) && !Apply(c, s, Advance(t)).dead
    ensures ThreadTraced(c, past + [Advance(t)], t, Apply(c, s, Advance(t)).threads[t])
  {
    AdvanceMoves(c, s, t);
    BelowTraced(c, s, past, Advance(t), t);
    if Next(c, s, t).Some? {
      NextTraced(c, s, past, t);
    }
  }

  lemma AdvanceLog(c: Config, s: State, past: seq<Step>, t: nat)
    requires Traced(c, s, past) && Shape(c, s) && Enabled(c, s, Advance(t))
    ensures Logged(Apply(c, s, Advance(t)), past + [Advance(t)])
  {
    var f, step := Innermost(s.threads[t]), Advance(t);
    LogKept(s, past, step);
    assert ThreadTraced(c, past, t, s.threads[t]) && FrameTraced(c, past, t, f);
    assert SlotOk(c, s, t, s.threads[t]) && FrameOk(c, f);
    if f.pc.Numbered? {
      NextTraced(c, s, past, t);
    } else if f.pc.Pulled? {
      CopiedKept(past, step, Copy(f.id, f.call, f.listener));
    }
  }

  lemma AdvanceTraced(c: Config, s: State, past: seq<Step>, t: nat)
    requires Traced(c, s, past) && Shape(c, s) && Enabled(c, s, Advance(t)) && !Apply(c, s, Advance(t)).dead
    ensures Traced(c, Apply(c, s, Advance(t)), past + [Advance(t)])
  {
    var s', step := Apply(c, s, Advance(t)), Advance(t);
    AdvanceMoves(c, s, t);
    AdvanceThread(c, s, past, t);
    AdvanceLog(c, s, past, t);
    forall u | 0 <= u < |s'.threads| ensures ThreadTraced(c, past + [step], u, s'.threads[u]) {
      if u != t {
        OthersTraced(c, s, past, step, u);
      }
    }
    assert (past + [step])[..|past|] == past;
  }

  lemma EnterTraced(c: Config, s: State, past: seq<Step>, t: nat, call: Call)
    requires Traced(c, s, past) && Shape(c, s) && Enabled(c, s, Enter(t, call))
    ensures Traced(c, Apply(c, s, Enter(t, call)), past + [Enter(t, call)])
  {
    var s', step := Apply(c, s, Enter(t, call)), Enter(t, call);
    LogKept(s, past, step);
    assert DeliveredAt(past + [step], call, t, |past|) && Ago(past + [step], call, t, |past|, 0);
    var th := s.threads[t];
    if th.frames != [] {
      BelowTraced(c, s, past, step, t);
      assert ThreadTraced(c, past, t, th);
      FrameKept(c, past, step, t, Innermost(th));
    }
    forall u | 0 <= u < |s'.threads| ensures ThreadTraced(c, past + [step], u, s'.threads[u]) {
      if u != t {
        OthersTraced(c, s, past, step, u);
      }
    }
    assert (past + [step])[..|past|] == past;
  }

  lemma FinishTraced(c: Config, s: State, past: seq<Step>, t: nat, reply: Option<string>)
    requires Traced(c, s, past) && Shape(c, s) && Enabled(c, s, Finish(t, reply))
    ensures Traced(c, Apply(c, s, Finish(t, reply)), past + [Finish(t, reply)])
  {
    var s', step := Apply(c, s, Finish(t, reply)), Finish(t, reply);
    var th := s.threads[t];
    var f := Innermost(th);
    LogKept(s, past, step);
    assert ReturnedAt(past + [step], reply, t, |past|);
    BelowTraced(c, s, past, step, t);
    assert ThreadTraced(c, past, t, th);
    FrameKept(c, past, step, t, f);
    assert FrameTraced(c, past + [step], t, f.(pc := Replied, reply := reply));
    forall u | 0 <= u < |s'.threads| ensures ThreadTraced(c, past + [step], u, s'.threads[u]) {
      if u != t {
        OthersTraced(c, s, past, step, u);
      }
    }
    assert (past + [step])[..|past|] == past;
  }

  lemma TakeTraced(c: Config, s: State, past: seq<Step>, t: nat)
    requires Traced(c, s, past) && Shape(c, s) && Enabled(c, s, Take(t))
    ensures Traced(c, Apply(c, s, Take(t)), past + [Take(t)])
  {
    var s', step := Apply(c, s, Take(t)), Take(t);
    var copy := Copy(s.queue[0].id, s.queue[0].call, s.queue[0].listener);
    LogKept(s, past, step);
    var d, e, k :| CopiedAt(past, copy, d, e, k);
    assert DeliveredAt(past, copy.call, d, e);
    DeliveredKept(past, step, copy.call);
    assert Copied(past + [step], copy);
    forall u | 0 <= u < |s'.threads| ensures ThreadTraced(c, past + [step], u, s'.threads[u]) {
      if u != t {
        OthersTraced(c, s, past, step, u);
      }
    }
    assert (past + [step])[..|past|] == past;
  }

  /** A look, or a listener set: no activation moves. */
  lemma QuietTraced(c: Config, s: State, past: seq<Step>, step: Step)
    requires Traced(c, s, past) && Shape(c, s) && Enabled(c, s, step) && (step.Look? || step.Listen?)
    ensures Traced(c, Apply(c, s, step), past + [step])
  {
    LogKept(s, past, step);
    forall u | 0 <= u < |s.threads| ensures ThreadTraced(c, past + [step], u, s.threads[u]) {
      if !On(step, u) {
        OthersTraced(c, s, past, step, u);
      } else {
        BelowTraced(c, s, past, step, u);
        assert ThreadTraced(c, past, u, s.threads[u]);
        FrameKept(c, past, step, u, Innermost(s.threads[u]));
      }
    }
    assert (past + [step])[..|past|] == past;
  }

  lemma StepTraced(c: Config, s: State, past: seq<Step>, step: Step)
    requires Traced(c, s, past) && Shape(c, s) && Enabled(c, s, step) && !Apply(c, s, step).dead
    ensures Traced(c, Apply(c, s, step), past + [step])
  {
    match step
    case Enter(t, call) => EnterTraced(c, s, past, t, call);
    case Advance(t) => AdvanceTraced(c, s, past, t);
    case Look(t) => QuietTraced(c, s, past, step);
    case Finish(t, reply) => FinishTraced(c, s, past, t, reply);
    case Take(t) => TakeTraced(c, s, past, t);
    case Listen(l) => QuietTraced(c, s, past, step);
  }

  /** The step on which a worker throws changes nothing else. */
  lemma DyingStep(c: Config, s: State, past: seq<Step>, step: Step)
    requires Traced(c, s, past) && Enabled(c, s, step) && Apply(c, s, step).dead
    ensures
      var s' := Apply(c, s, step);
      s'.listener == LastListen(past + [step]) && Logged(s', past + [step])
  {
    LogKept(s, past, step);
    assert (past + [step])[..|past|] == past;
  }

  /** And is the last one. */
  lemma DeadIsLast(c: Config, s: State, steps: seq<Step>)
    requires IsRun(c, s, steps) && s.dead
    ensures steps == [] && After(c, s, steps) == s
  {
  }

  lemma {:induction false} RunTraced(c: Config, s: State, past: seq<Step>, steps: seq<Step>)
    requires Inv(c, s) && Traced(c, s, past) && IsRun(c, s, steps)
    ensures After(c, s, steps).listener == LastListen(past + steps) && Logged(After(c, s, steps), past + steps)
    decreases |steps|
  {
    if steps == [] {
      assert past + steps == past;
    } else {
      var s', more := Apply(c, s, steps[0]), steps[1..];
      assert past + [steps[0]] + more == past + steps;
      if s'.dead {
        DyingStep(c, s, past, steps[0]);
        DeadIsLast(c, s', more);
        assert past + steps == past + [steps[0]];
      } else {
        StepKeepsInv(c, s, steps[0]);
        StepTraced(c, s, past, steps[0]);
        RunTraced(c, s', past + [steps[0]], more);
      }
    }
  }

  // ---------------------------------------------------------------------------
  // Over whole runs
  // ---------------------------------------------------------------------------

  /** The listener in force is the one set last, and everything copied, answered or seen is
      some delivered call's, copied from the listener set last before its second statement. */
  lemma HistoryOfARun(c: Config, threads: nat, steps: seq<Step>)
    requires (c.multi ==> c.workers <= threads) && IsRun(c, Initial(threads), steps)
    ensures
      var s := After(c, Initial(threads), steps);
      s.listener == LastListen(steps) && Logged(s, steps)
  {
    InitialInv(c, threads);
    assert [] + steps == steps;
    RunTraced(c, Initial(threads), [], steps);
  }

  /** So a completion goes to the listener that was set last before its own call's second
      statement, and carries the reference answer to a reply a handler returned. */
  lemma CompletionsFollowTheSteps(c: Config, threads: nat, steps: seq<Step>, i: nat)
    requires (c.multi ==> c.workers <= threads) && IsRun(c, Initial(threads), steps)
    requires i < |After(c, Initial(threads), steps).done|
    ensures
      var d := After(c, Initial(threads), steps).done[i];
      && Copied(steps, Copy(d.id, d.call, d.listener))
      && exists reply :: Returned(steps, reply) && Judged(c, Answered(d.id, d.call, reply)) == Answer(d.value)
  {
    var s := After(c, Initial(threads), steps);
    HistoryOfARun(c, threads, steps);
    assert Reachable(c, threads, s);
    ReachableInv(c, threads, s);
    assert DoneOk(c, s, s.done[i]);
    var j :| 0 <= j < |s.replies| && s.replies[j].id == s.done[i].id && s.replies[j].call == s.done[i].call
             && Judged(c, s.replies[j]) == Answer(s.done[i].value);
    assert s.replies[j] == Answered(s.done[i].id, s.done[i].call, s.replies[j].reply);
  }

  // ---------------------------------------------------------------------------
  // The pool serves in order
  // ---------------------------------------------------------------------------

  function JobOf(f: Frame): Deferral { Deferral(f.call, f.id, f.listener, f.doc) }

  /** The job a step queues, if it starts a worker. */
  function QueuedBy(s: State, step: Step): seq<Deferral> {
    if step.Advance? && step.t < |s.threads| && s.threads[step.t].frames != []
       && Innermost(s.threads[step.t]).pc.Pulled?
    then [JobOf(Innermost(s.threads[step.t]))]
    else []
  }

  /** The job a pool thread holds after a step that takes one. */
  function BegunBy(s': State, step: Step): seq<Deferral> {
    if step.Take? && step.t < |s'.threads| && s'.threads[step.t].frames != []
    then [JobOf(Innermost(s'.threads[step.t]))]
    else []
  }

  ghost function JobsQueued(c: Config, s: State, steps: seq<Step>): seq<Deferral>
    requires IsRun(c, s, steps)
    decreases |steps|
  {
    if steps == [] then [] else QueuedBy(s, steps[0]) + JobsQueued(c, Apply(c, s, steps[0]), steps[1..])
  }

  ghost function JobsBegun(c: Config, s: State, steps: seq<Step>): seq<Deferral>
    requires IsRun(c, s, steps)
    decreases |steps|
  {
    if steps == [] then []
    else BegunBy(Apply(c, s, steps[0]), steps[0]) + JobsBegun(c, Apply(c, s, steps[0]), steps[1..])
  }

  lemma OneServed(c: Config, s: State, step: Step)
    requires Enabled(c, s, step)
    ensures s.queue + QueuedBy(s, step) == BegunBy(Apply(c, s, step), step) + Apply(c, s, step).queue
  {
    if step.Take? {
      assert s.queue == [s.queue[0]] + s.queue[1..];
    }
  }

  lemma ServedJoin(queue: seq<Deferral>, queued: seq<Deferral>, begun: seq<Deferral>, middle: seq<Deferral>,
                   moreQueued: seq<Deferral>, moreBegun: seq<Deferral>, left: seq<Deferral>)
    requires queue + queued == begun + middle && middle + moreQueued == moreBegun + left
    ensures queue + (queued + moreQueued) == begun + moreBegun + left
  {
    assert queue + (queued + moreQueued) == (queue + queued) + moreQueued;
    assert (begun + middle) + moreQueued == begun + (middle + moreQueued);
    assert begun + (moreBegun + left) == begun + moreBegun + left;
  }

  /** Jobs are begun in the order in which they were queued, none twice and none skipped. */
  lemma {:induction false} PoolServesInOrder(c: Config, s: State, steps: seq<Step>)
    requires IsRun(c, s, steps)
    ensures s.queue + JobsQueued(c, s, steps) == JobsBegun(c, s, steps) + After(c, s, steps).queue
    decreases |steps|
  {
    if steps != [] {
      var s', more := Apply(c, s, steps[0]), steps[1..];
      OneServed(c, s, steps[0]);
      PoolServesInOrder(c, s', more);
      ServedJoin(s.queue, QueuedBy(s, steps[0]), BegunBy(s', steps[0]), s'.queue, JobsQueued(c, s', more),
                 JobsBegun(c, s', more), After(c, s', more).queue);
    }
  }
}
