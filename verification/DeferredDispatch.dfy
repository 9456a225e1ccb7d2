/** The running provider as a transition system: threads that enter callMethod, the job
    queue, the bounded pool, each thread's stack of pushed callers, and the completions.
    Everything proved here holds for every interleaving. */
module DeferredDispatch {
  import opened Options
  import opened GlueLanguage
  import opened GlueEmitter

  // ---------------------------------------------------------------------------
  // State
  // ---------------------------------------------------------------------------

  /** Fixed for a provider's lifetime. Threads 0..workers-1 are the pool when multi. */
  datatype Config = Config(multi: bool, workers: nat, mod: ModuleDecl, abi: Abi, unknown: Document)

  /** One delivery by the proxy: the document its caller scope opened with (empty when
      there is none), and whether the host's invokable answered. */
  datatype Call = Call(entry: string, reachable: bool, name: string, noArgs: bool)

  datatype Kind = Caller | Worker

  /** Deferred calls pass Entered to Queued and return; their lambda starts at Ready, which
      is where a blocking call goes from Entered. */
  datatype Pc = Entered | Numbered | Copied | Pulled | Queued | Ready | Pushed | Handling | Replied | Popped

  /** An activation: callMethod on the thread it was delivered on, or the pool's lambda. */
  datatype Frame = Frame(kind: Kind, pc: Pc, call: Call, id: nat, listener: Option<nat>,
                         doc: string, reply: Option<string>)

  /** callers: what the module image has pushed; scopes: the host's own thread-local. */
  datatype Thread = Thread(frames: seq<Frame>, callers: seq<string>, scopes: seq<string>)

  datatype Deferral = Deferral(call: Call, id: nat, listener: Option<nat>, doc: string)

  datatype Done = Done(id: nat, call: Call, listener: Option<nat>, value: Variant)

  datatype Seen = Seen(call: Call, document: string)

  datatype Copy = Copy(id: nat, call: Call, listener: Option<nat>)

  datatype Answered = Answered(id: nat, call: Call, reply: Option<string>)

  /** copies, replies and looks are history: what was copied at a call, what its dispatch
      returned, what a handler saw. dead: an exception left a worker's lambda. */
  datatype State = State(
    threads: seq<Thread>, queue: seq<Deferral>, counter: nat, listener: Option<nat>, done: seq<Done>,
    copies: seq<Copy>, replies: seq<Answered>, looks: seq<Seen>, dead: bool)

  function Initial(threads: nat): State {
    State(seq(threads, _ => Thread([], [], [])), [], 0, None, [], [], [], [], false)
  }

  // ---------------------------------------------------------------------------
  // The pull
  // ---------------------------------------------------------------------------

  /** LogosAPI::currentCallerJson over this thread's scopes. */
  function HostAnswer(c: Config, scopes: seq<string>): Document {
    if scopes == [] || scopes[|scopes| - 1] == [] then c.unknown else scopes[|scopes| - 1]
  }

  /** LogosProviderBase::currentCallerJson: by name into the host, or the unknown document. */
  function Pull(c: Config, reachable: bool, scopes: seq<string>): Document {
    if reachable then HostAnswer(c, scopes) else c.unknown
  }

  /** The document this very call should be attributed to. */
  function Attribution(c: Config, call: Call): Document {
    if call.reachable && call.entry != [] then call.entry else c.unknown
  }

  // ---------------------------------------------------------------------------
  // Steps
  // ---------------------------------------------------------------------------

  datatype Step =
    | Enter(t: nat, call: Call)        // the proxy delivers a call on thread t
    | Advance(t: nat)                  // thread t executes its next emitted statement
    | Look(t: nat)                     // the handler on thread t reads its caller
    | Finish(t: nat, reply: Option<string>)  // the handler on thread t returns
    | Take(t: nat)                     // an idle pool thread takes the oldest job
    | Listen(l: Option<nat>)           // setEventListener

  function Innermost(th: Thread): Frame
    requires th.frames != []
  {
    th.frames[|th.frames| - 1]
  }

  predicate Enabled(c: Config, s: State, step: Step) {
    && !s.dead
    && match step
       case Enter(t, _) =>
         && t < |s.threads|
         && (s.threads[t].frames == [] ==> !(c.multi && t < c.workers))
         && (s.threads[t].frames != [] ==> Innermost(s.threads[t]).pc == Handling)
       case Advance(t) =>
         t < |s.threads| && s.threads[t].frames != [] && Innermost(s.threads[t]).pc != Handling
       case Look(t) =>
         t < |s.threads| && s.threads[t].frames != [] && Innermost(s.threads[t]).pc == Handling
       case Finish(t, _) =>
         t < |s.threads| && s.threads[t].frames != [] && Innermost(s.threads[t]).pc == Handling
       case Take(t) =>
         c.multi && t < c.workers && t < |s.threads| && s.threads[t].frames == [] && s.queue != []
       case Listen(_) => true
  }

  function Below(th: Thread): seq<Frame>
    requires th.frames != []
  {
    th.frames[..|th.frames| - 1]
  }

  /** callMethod returns to the proxy, which closes the scope it opened. */
  function Left(th: Thread): Thread
    requires th.frames != []
  {
    th.(frames := Below(th), scopes := if th.scopes == [] then [] else th.scopes[..|th.scopes| - 1])
  }

  function With(th: Thread, f: Frame): Thread
    requires th.frames != []
  {
    th.(frames := Below(th) + [f])
  }

  function Advanced(c: Config, s: State, t: nat): State
    requires Enabled(c, s, Advance(t))
  {
    var th := s.threads[t];
    var f := Innermost(th);
    var pulled := Pull(c, f.call.reachable, th.scopes);
    match f.pc
    case Entered =>
      if f.call.name == "lidl" then s.(threads := s.threads[t := Left(th)])
      else if c.multi then
        s.(threads := s.threads[t := With(th, f.(pc := Numbered, id := s.counter))], counter := s.counter + 1)
      else s.(threads := s.threads[t := With(th, f.(pc := Ready, doc := pulled))])
    case Numbered =>
      s.(threads := s.threads[t := With(th, f.(pc := Copied, listener := s.listener))],
         copies := s.copies + [Copy(f.id, f.call, s.listener)])
    case Copied => s.(threads := s.threads[t := With(th, f.(pc := Pulled, doc := pulled))])
    case Pulled =>
      s.(threads := s.threads[t := With(th, f.(pc := Queued))],
         queue := s.queue + [Deferral(f.call, f.id, f.listener, f.doc)])
    case Queued => s.(threads := s.threads[t := Left(th)])
    case Ready => s.(threads := s.threads[t := With(th, f.(pc := Pushed)).(callers := th.callers + [f.doc])])
    case Pushed => s.(threads := s.threads[t := With(th, f.(pc := Handling))])
    case Handling => s
    case Replied =>
      var callers := if th.callers == [] then [] else th.callers[..|th.callers| - 1];
      s.(threads := s.threads[t := With(th, f.(pc := Popped)).(callers := callers)])
    case Popped =>
      if f.kind == Caller then s.(threads := s.threads[t := Left(th)])
      else match ReplyAnswer(c.mod, f.call.name, f.call.noArgs, f.reply, c.abi)
        case Throws => s.(dead := true)
        case Answer(v) =>
          s.(threads := s.threads[t := th.(frames := Below(th))],
             done := s.done + [Done(f.id, f.call, f.listener, v)])
  }

  function Apply(c: Config, s: State, step: Step): State
    requires Enabled(c, s, step)
  {
    match step
    case Enter(t, call) =>
      var th := s.threads[t];
      var f := Frame(Caller, Entered, call, 0, None, [], None);
      s.(threads := s.threads[t := th.(frames := th.frames + [f], scopes := th.scopes + [call.entry])])
    case Advance(t) => Advanced(c, s, t)
    case Look(t) =>
      var th := s.threads[t];
      var seen := if th.callers == [] then [] else th.callers[|th.callers| - 1];
      s.(looks := s.looks + [Seen(Innermost(th).call, seen)])
    case Finish(t, reply) =>
      var th := s.threads[t];
      var f := Innermost(th);
      s.(threads := s.threads[t := With(th, f.(pc := Replied, reply := reply))],
         replies := if f.kind == Worker then s.replies + [Answered(f.id, f.call, reply)] else s.replies)
    case Take(t) =>
      var th := s.threads[t];
      var job := s.queue[0];
      var f := Frame(Worker, Ready, job.call, job.id, job.listener, job.doc, None);
      s.(threads := s.threads[t := th.(frames := [f])],
         queue := s.queue[1..])
    case Listen(l) => s.(listener := l)
  }

  /** Every step is enabled where it is taken. */
  ghost predicate IsRun(c: Config, s: State, steps: seq<Step>)
    decreases |steps|
  {
    steps == [] || (Enabled(c, s, steps[0]) && IsRun(c, Apply(c, s, steps[0]), steps[1..]))
  }

  function After(c: Config, s: State, steps: seq<Step>): State
    requires IsRun(c, s, steps)
    decreases |steps|
  {
    if steps == [] then s else After(c, Apply(c, s, steps[0]), steps[1..])
  }

  // ---------------------------------------------------------------------------
  // Where a call id is
  // ---------------------------------------------------------------------------

  /** How far a numbered call has come while no queue or log holds it. */
  datatype Stage = Given | PastCopy | PastReply

  predicate Owns(f: Frame, stage: Stage) {
    match stage
    case Given => f.kind == Worker || (f.pc.Numbered? || f.pc.Copied? || f.pc.Pulled?)
    case PastCopy => f.kind == Worker || (f.pc.Copied? || f.pc.Pulled?)
    case PastReply => f.kind == Worker && (f.pc.Replied? || f.pc.Popped?)
  }

  function Own(f: Frame, stage: Stage, x: nat): nat { if Owns(f, stage) && f.id == x then 1 else 0 }

  function OnFrames(frames: seq<Frame>, stage: Stage, x: nat): nat {
    if frames == [] then 0
    else OnFrames(frames[..|frames| - 1], stage, x) + Own(frames[|frames| - 1], stage, x)
  }

  /** How many activations, over all threads, own id x. */
  function OnThreads(threads: seq<Thread>, stage: Stage, x: nat): nat {
    if threads == [] then 0
    else OnThreads(threads[..|threads| - 1], stage, x) + OnFrames(threads[|threads| - 1].frames, stage, x)
  }

  /** How often x occurs. */
  function Times(ids: seq<nat>, x: nat): nat {
    if ids == [] then 0 else Times(ids[..|ids| - 1], x) + if ids[|ids| - 1] == x then 1 else 0
  }

  function Ids<T>(items: seq<T>, id: T -> nat): (ids: seq<nat>)
    ensures |ids| == |items| && forall i :: 0 <= i < |items| ==> ids[i] == id(items[i])
  {
    seq(|items|, i requires 0 <= i < |items| => id(items[i]))
  }

  function JobIds(queue: seq<Deferral>): seq<nat> { Ids(queue, (job: Deferral) => job.id) }

  function DoneIds(done: seq<Done>): seq<nat> { Ids(done, (d: Done) => d.id) }

  function CopyIds(copies: seq<Copy>): seq<nat> { Ids(copies, (copy: Copy) => copy.id) }

  function ReplyIds(replies: seq<Answered>): seq<nat> { Ids(replies, (reply: Answered) => reply.id) }

  lemma TimesSnoc(ids: seq<nat>, y: nat, more: seq<nat>, x: nat)
    requires more == ids + [y]
    ensures Times(more, x) == Times(ids, x) + if y == x then 1 else 0
  {
  }

  lemma {:induction false} TimesTail(ids: seq<nat>, x: nat)
    requires ids != []
    ensures Times(ids, x) == Times(ids[1..], x) + if ids[0] == x then 1 else 0
  {
    if |ids| > 1 {
      var n := |ids| - 1;
      TimesTail(ids[..n], x);
      assert ids[..n][1..] == ids[1..][..n - 1];
      assert ids[1..][n - 1] == ids[n];
    }
  }

  lemma {:induction false} TimesTwice(ids: seq<nat>, i: nat, j: nat)
    requires i < j < |ids| && ids[i] == ids[j]
    ensures Times(ids, ids[i]) >= 2
  {
    var n := |ids| - 1;
    if j == n {
      TimesOnce(ids[..n], i);
    } else {
      TimesTwice(ids[..n], i, j);
    }
  }

  lemma {:induction false} TimesOnce(ids: seq<nat>, i: nat)
    requires i < |ids|
    ensures Times(ids, ids[i]) >= 1
  {
    if i < |ids| - 1 {
      TimesOnce(ids[..|ids| - 1], i);
    }
  }

  lemma SnocOwn(frames: seq<Frame>, f: Frame, stage: Stage, x: nat)
    ensures OnFrames(frames + [f], stage, x) == OnFrames(frames, stage, x) + Own(f, stage, x)
  {
  }

  lemma {:induction false} OnThreadsUpdate(threads: seq<Thread>, t: nat, th: Thread, stage: Stage, x: nat)
    requires t < |threads|
    ensures OnThreads(threads[t := th], stage, x)
         == OnThreads(threads, stage, x) - OnFrames(threads[t].frames, stage, x) + OnFrames(th.frames, stage, x)
    decreases |threads|
  {
    var n := |threads| - 1;
    if t == n {
      assert threads[t := th][..n] == threads[..n];
    } else {
      assert threads[t := th][..n] == threads[..n][t := th];
      OnThreadsUpdate(threads[..n], t, th, stage, x);
    }
  }

  // ---------------------------------------------------------------------------
  // The invariant
  // ---------------------------------------------------------------------------

  predicate OnStack(f: Frame) { f.pc.Pushed? || f.pc.Handling? || f.pc.Replied? }

  /** The documents pushed by the activations on a thread and not popped yet. */
  function PushedDocs(frames: seq<Frame>): seq<string> {
    if frames == [] then []
    else
      var last := frames[|frames| - 1];
      PushedDocs(frames[..|frames| - 1]) + if OnStack(last) then [last.doc] else []
  }

  /** The scopes the proxy holds open around the calls on a thread. */
  function Entries(frames: seq<Frame>): seq<string> {
    if frames == [] then []
    else
      var last := frames[|frames| - 1];
      Entries(frames[..|frames| - 1]) + if last.kind == Caller then [last.call.entry] else []
  }

  lemma SnocDocs(frames: seq<Frame>, f: Frame)
    ensures PushedDocs(frames + [f]) == PushedDocs(frames) + if OnStack(f) then [f.doc] else []
    ensures Entries(frames + [f]) == Entries(frames) + if f.kind == Caller then [f.call.entry] else []
  {
  }

  /** The lines that queue a job, and the ones around a dispatch. */
  predicate Deferring(pc: Pc) { pc.Numbered? || pc.Copied? || pc.Pulled? || pc.Queued? }

  predicate Dispatching(pc: Pc) { pc.Ready? || pc.Pushed? || pc.Handling? || pc.Replied? || pc.Popped? }

  predicate FrameOk(c: Config, f: Frame) {
    && (f.kind == Worker ==> c.multi && Dispatching(f.pc))
    && (f.kind == Caller && !f.pc.Entered? ==> if c.multi then Deferring(f.pc) else Dispatching(f.pc))
    && (!f.pc.Entered? && !f.pc.Numbered? && !f.pc.Copied? ==> f.doc == Attribution(c, f.call))
  }

  ghost predicate ThreadOk(c: Config, th: Thread) {
    && th.callers == PushedDocs(th.frames)
    && th.scopes == Entries(th.frames)
    && (forall k :: 0 <= k < |th.frames| ==> FrameOk(c, th.frames[k]))
    && (forall k :: 0 <= k < |th.frames| - 1 ==> th.frames[k].pc == Handling)
    && (forall k :: 0 < k < |th.frames| ==> th.frames[k].kind == Caller)
  }

  /** What the histories say about an activation. */
  predicate Backed(s: State, f: Frame) {
    && (Owns(f, PastCopy) ==> Copy(f.id, f.call, f.listener) in s.copies)
    && (Owns(f, PastReply) ==> Answered(f.id, f.call, f.reply) in s.replies)
  }

  predicate DeferralOk(c: Config, s: State, j: Deferral) {
    Copy(j.id, j.call, j.listener) in s.copies && j.doc == Attribution(c, j.call)
  }

  /** What the reference makes of a reply. */
  function Judged(c: Config, a: Answered): Answer {
    ReplyAnswer(c.mod, a.call.name, a.call.noArgs, a.reply, c.abi)
  }

  ghost predicate DoneOk(c: Config, s: State, d: Done) {
    && Copy(d.id, d.call, d.listener) in s.copies
    && exists i :: 0 <= i < |s.replies| && s.replies[i].id == d.id && s.replies[i].call == d.call
                   && Judged(c, s.replies[i]) == Answer(d.value)
  }

  function Waiting(s: State, stage: Stage, x: nat): nat {
    if stage == PastReply then 0 else Times(JobIds(s.queue), x)
  }

  /** How often x was handed out, copied, or answered. */
  function Issued(s: State, stage: Stage, x: nat): nat {
    match stage
    case Given => if x < s.counter then 1 else 0
    case PastCopy => Times(CopyIds(s.copies), x)
    case PastReply => Times(ReplyIds(s.replies), x)
  }

  /** Conservation: an id handed out is in exactly one place; it was copied once if past
      the copy, and answered once if past the answer. */
  ghost predicate Accounted(s: State, stage: Stage, x: nat) {
    OnThreads(s.threads, stage, x) + Waiting(s, stage, x) + Times(DoneIds(s.done), x) == Issued(s, stage, x)
  }

  /** Everything but the accounting. */
  ghost predicate Shape(c: Config, s: State) {
    && (c.multi ==> c.workers <= |s.threads|)
    && (forall t :: 0 <= t < |s.threads| ==> SlotOk(c, s, t, s.threads[t]))
    && (forall i :: 0 <= i < |s.queue| ==> DeferralOk(c, s, s.queue[i]))
    && (s.queue != [] ==> c.multi)
    && (forall i :: 0 <= i < |s.done| ==> DoneOk(c, s, s.done[i]))
    && (forall i :: 0 <= i < |s.looks| ==> s.looks[i].document == Attribution(c, s.looks[i].call))
  }

  ghost predicate SlotOk(c: Config, s: State, t: nat, th: Thread) {
    && ThreadOk(c, th)
    && (t >= c.workers && th.frames != [] ==> th.frames[0].kind == Caller)
    && (forall k :: 0 <= k < |th.frames| ==> Backed(s, th.frames[k]))
  }

  ghost predicate Inv(c: Config, s: State) {
    Shape(c, s) && forall stage, x: nat :: Accounted(s, stage, x)
  }

  lemma InitialInv(c: Config, threads: nat)
    requires c.multi ==> c.workers <= threads
    ensures Inv(c, Initial(threads))
  {
    forall stage, x: nat ensures Accounted(Initial(threads), stage, x) {
      NoIds(threads, stage, x);
    }
  }

  lemma {:induction false} NoIds(n: nat, stage: Stage, x: nat)
    ensures OnThreads(Initial(n).threads, stage, x) == 0
  {
    if n > 0 {
      assert Initial(n).threads[..n - 1] == Initial(n - 1).threads;
      NoIds(n - 1, stage, x);
    }
  }

  // ---------------------------------------------------------------------------
  // Every step keeps it
  // ---------------------------------------------------------------------------

  /** Replacing the innermost activation on one thread. */
  lemma ThreadReplaced(c: Config, th: Thread, f: Frame, callers: seq<string>)
    requires ThreadOk(c, th) && th.frames != []
    requires FrameOk(c, f) && f.kind == Innermost(th).kind && f.call == Innermost(th).call
    requires callers == if OnStack(f) then PushedDocs(Below(th)) + [f.doc] else PushedDocs(Below(th))
    ensures ThreadOk(c, With(th, f).(callers := callers))
  {
  }

  lemma ThreadTop(c: Config, th: Thread)
    requires ThreadOk(c, th) && th.frames != []
    ensures
      var docs := PushedDocs(Below(th));
      th.callers == if OnStack(Innermost(th)) then docs + [Innermost(th).doc] else docs
    ensures th.scopes == Entries(Below(th)) + if Innermost(th).kind == Caller then [Innermost(th).call.entry] else []
  {
  }

  lemma ThreadLeft(c: Config, th: Thread)
    requires ThreadOk(c, th) && th.frames != [] && !OnStack(Innermost(th))
    ensures Innermost(th).kind == Caller ==> ThreadOk(c, Left(th))
    ensures Innermost(th).kind == Worker ==> ThreadOk(c, th.(frames := Below(th)))
  {
  }

  /** A delivery on top of what runs on a thread. */
  lemma ThreadEntered(c: Config, th: Thread, f: Frame)
    requires ThreadOk(c, th) && (th.frames != [] ==> Innermost(th).pc == Handling)
    requires f.kind == Caller && f.pc == Entered
    ensures ThreadOk(c, th.(frames := th.frames + [f], scopes := th.scopes + [f.call.entry]))
  {
    var now := th.(frames := th.frames + [f], scopes := th.scopes + [f.call.entry]);
    SnocDocs(th.frames, f);
    assert now.callers == PushedDocs(now.frames) && now.scopes == Entries(now.frames);
  }

  /** How the count of x moves when the top of thread t changes from was to now. */
  lemma Moved(threads: seq<Thread>, t: nat, th: Thread, below: seq<Frame>, was: Option<Frame>, now: Option<Frame>,
              stage: Stage, x: nat)
    requires t < |threads|
    requires threads[t].frames == (if was.None? then below else below + [was.value])
    requires th.frames == (if now.None? then below else below + [now.value])
    ensures OnThreads(threads[t := th], stage, x)
         == OnThreads(threads, stage, x) - (if was.None? then 0 else Own(was.value, stage, x))
            + if now.None? then 0 else Own(now.value, stage, x)
  {
    OnThreadsUpdate(threads, t, th, stage, x);
    if was.Some? {
      SnocOwn(below, was.value, stage, x);
    }
    if now.Some? {
      SnocOwn(below, now.value, stage, x);
    }
  }

  /** Histories only grow, so what they back stays backed. */
  lemma Grown(c: Config, s: State, s': State)
    requires Shape(c, s) && s.copies <= s'.copies && s.replies <= s'.replies
    ensures forall t :: 0 <= t < |s.threads| ==> SlotOk(c, s', t, s.threads[t])
    ensures forall i :: 0 <= i < |s.queue| ==> DeferralOk(c, s', s.queue[i])
    ensures forall i :: 0 <= i < |s.done| ==> DoneOk(c, s', s.done[i])
  {
  }

  /** The thread that moved is in order, so the whole shape is. */
  lemma ShapeKept(c: Config, s: State, s': State, t: nat)
    requires Shape(c, s) && t < |s.threads| && |s'.threads| == |s.threads|
    requires forall i :: 0 <= i < |s.threads| && i != t ==> s'.threads[i] == s.threads[i]
    requires s.copies <= s'.copies && s.replies <= s'.replies
    requires SlotOk(c, s', t, s'.threads[t])
    requires s.queue == s'.queue || (s'.queue != [] && c.multi && s.queue == s'.queue[..|s'.queue| - 1]
                                     && DeferralOk(c, s', s'.queue[|s'.queue| - 1]))
             || (s.queue != [] && s'.queue == s.queue[1..])
    requires s.done == s'.done || (s'.done != [] && s.done == s'.done[..|s'.done| - 1]
                                   && DoneOk(c, s', s'.done[|s'.done| - 1]))
    requires s.looks == s'.looks
    ensures Shape(c, s')
  {
    Grown(c, s, s');
    forall i | 0 <= i < |s'.queue| ensures DeferralOk(c, s', s'.queue[i]) {
      if s'.queue != s.queue && s.queue != [] && s'.queue == s.queue[1..] {
        assert s'.queue[i] == s.queue[i + 1];
      } else if i < |s.queue| {
        assert s'.queue[i] == s.queue[i];
      }
    }
    forall i | 0 <= i < |s'.done| ensures DoneOk(c, s', s'.done[i]) {
      if i < |s.done| {
        assert s'.done[i] == s.done[i];
      }
    }
  }

  lemma SlotReplaced(c: Config, s': State, t: nat, th: Thread, f: Frame, callers: seq<string>)
    requires SlotOk(c, s', t, th) && th.frames != []
    requires FrameOk(c, f) && f.kind == Innermost(th).kind && f.call == Innermost(th).call
    requires callers == if OnStack(f) then PushedDocs(Below(th)) + [f.doc] else PushedDocs(Below(th))
    requires Backed(s', f)
    ensures SlotOk(c, s', t, With(th, f).(callers := callers))
  {
    ThreadReplaced(c, th, f, callers);
    var now := With(th, f).(callers := callers);
    forall k | 0 <= k < |now.frames| ensures Backed(s', now.frames[k]) {
      if k < |now.frames| - 1 {
        assert now.frames[k] == th.frames[k];
      }
    }
  }

  lemma SlotLeft(c: Config, s': State, t: nat, th: Thread)
    requires SlotOk(c, s', t, th) && th.frames != [] && !OnStack(Innermost(th))
    ensures Innermost(th).kind == Caller ==> SlotOk(c, s', t, Left(th))
    ensures Innermost(th).kind == Worker ==> SlotOk(c, s', t, th.(frames := Below(th)))
  {
    ThreadLeft(c, th);
    assert forall k :: 0 <= k < |Below(th)| ==> Below(th)[k] == th.frames[k];
  }

  /** Replacing the innermost frame and nothing else that matters to the shape. */
  lemma ReplacedShape(c: Config, s: State, s': State, t: nat, f: Frame, callers: seq<string>)
    requires Shape(c, s) && t < |s.threads| && s.threads[t].frames != []
    requires s'.threads == s.threads[t := With(s.threads[t], f).(callers := callers)]
    requires s.copies <= s'.copies && s.replies <= s'.replies
    requires FrameOk(c, f) && f.kind == Innermost(s.threads[t]).kind && f.call == Innermost(s.threads[t]).call
    requires
      var docs := PushedDocs(Below(s.threads[t]));
      callers == if OnStack(f) then docs + [f.doc] else docs
    requires Backed(s', f)
    requires s.queue == s'.queue || (s'.queue != [] && c.multi && s.queue == s'.queue[..|s'.queue| - 1]
                                     && DeferralOk(c, s', s'.queue[|s'.queue| - 1]))
    requires s.done == s'.done && s.looks == s'.looks
    ensures Shape(c, s')
  {
    Grown(c, s, s');
    SlotReplaced(c, s', t, s.threads[t], f, callers);
    ShapeKept(c, s, s', t);
  }

  /** The step moves this one thread only. */
  lemma MovedShape(c: Config, s: State, s': State, t: nat, f: Frame, callers: seq<string>)
    requires Shape(c, s) && t < |s.threads| && s.threads[t].frames != []
    requires s' == s.(threads := s.threads[t := With(s.threads[t], f).(callers := callers)])
    requires FrameOk(c, f) && f.kind == Innermost(s.threads[t]).kind && f.call == Innermost(s.threads[t]).call
    requires
      var docs := PushedDocs(Below(s.threads[t]));
      callers == if OnStack(f) then docs + [f.doc] else docs
    requires Backed(s, f)
    ensures Shape(c, s')
  {
    ReplacedShape(c, s, s', t, f, callers);
  }

  // callMethod up to its return of the sentinel

  lemma CopyShape(c: Config, s: State, t: nat)
    requires Shape(c, s) && Enabled(c, s, Advance(t)) && Innermost(s.threads[t]).pc == Numbered
    ensures Shape(c, Apply(c, s, Advance(t)))
  {
    var th := s.threads[t];
    var f := Innermost(th);
    var s' := Apply(c, s, Advance(t));
    assert FrameOk(c, f) && Backed(s, f);
    ThreadTop(c, th);
    assert s'.copies[|s.copies|] == Copy(f.id, f.call, s.listener);
    ReplacedShape(c, s, s', t, f.(pc := Copied, listener := s.listener), th.callers);
  }

  lemma PullShape(c: Config, s: State, t: nat)
    requires Shape(c, s) && Enabled(c, s, Advance(t)) && Innermost(s.threads[t]).pc == Copied
    ensures Shape(c, Apply(c, s, Advance(t)))
  {
    var th := s.threads[t];
    var f := Innermost(th);
    var s' := Apply(c, s, Advance(t));
    assert FrameOk(c, f) && Backed(s, f);
    ThreadTop(c, th);
    MovedShape(c, s, s', t, f.(pc := Pulled, doc := Pull(c, f.call.reachable, th.scopes)), th.callers);
  }

  lemma StartShape(c: Config, s: State, t: nat)
    requires Shape(c, s) && Enabled(c, s, Advance(t)) && Innermost(s.threads[t]).pc == Pulled
    ensures Shape(c, Apply(c, s, Advance(t)))
  {
    var th := s.threads[t];
    var f := Innermost(th);
    var s' := Apply(c, s, Advance(t));
    assert FrameOk(c, f) && Backed(s, f);
    ThreadTop(c, th);
    ReplacedShape(c, s, s', t, f.(pc := Queued), th.callers);
  }

  lemma EnteredShape(c: Config, s: State, t: nat)
    requires Shape(c, s) && Enabled(c, s, Advance(t)) && Innermost(s.threads[t]).pc == Entered
    requires Innermost(s.threads[t]).call.name != "lidl"
    ensures Shape(c, Apply(c, s, Advance(t)))
  {
    var th := s.threads[t];
    var f := Innermost(th);
    var s' := Apply(c, s, Advance(t));
    assert FrameOk(c, f) && Backed(s, f);
    ThreadTop(c, th);
    if c.multi {
      ReplacedShape(c, s, s', t, f.(pc := Numbered, id := s.counter), th.callers);
    } else {
      PulledShape(c, s, t);
    }
  }

  lemma PulledShape(c: Config, s: State, t: nat)
    requires Shape(c, s) && Enabled(c, s, Advance(t)) && Innermost(s.threads[t]).pc == Entered
    requires Innermost(s.threads[t]).call.name != "lidl" && !c.multi
    ensures Shape(c, Apply(c, s, Advance(t)))
  {
    var th := s.threads[t];
    var f := Innermost(th);
    assert FrameOk(c, f) && Backed(s, f);
    ThreadTop(c, th);
    var pulled := Pull(c, f.call.reachable, th.scopes);
    MovedShape(c, s, Apply(c, s, Advance(t)), t, f.(pc := Ready, doc := pulled), th.callers);
  }

  lemma LeftShape(c: Config, s: State, t: nat)
    requires Shape(c, s) && t < |s.threads| && s.threads[t].frames != []
    requires !OnStack(Innermost(s.threads[t])) && Innermost(s.threads[t]).kind == Caller
    ensures Shape(c, s.(threads := s.threads[t := Left(s.threads[t])]))
  {
    var s' := s.(threads := s.threads[t := Left(s.threads[t])]);
    SlotLeft(c, s', t, s.threads[t]);
    ShapeKept(c, s, s', t);
  }

  /** callMethod returns: after the sentinel was built, or with lidl's document. */
  lemma ReturnedShape(c: Config, s: State, t: nat)
    requires Shape(c, s) && Enabled(c, s, Advance(t))
    requires var f := Innermost(s.threads[t]); f.pc == Queued || (f.pc == Entered && f.call.name == "lidl")
    ensures Shape(c, Apply(c, s, Advance(t)))
  {
    assert FrameOk(c, Innermost(s.threads[t]));
    LeftShape(c, s, t);
  }

  lemma PushShape(c: Config, s: State, t: nat)
    requires Shape(c, s) && Enabled(c, s, Advance(t)) && Innermost(s.threads[t]).pc == Ready
    ensures Shape(c, Apply(c, s, Advance(t)))
  {
    var th := s.threads[t];
    var f := Innermost(th);
    assert FrameOk(c, f) && Backed(s, f);
    ThreadTop(c, th);
    MovedShape(c, s, Apply(c, s, Advance(t)), t, f.(pc := Pushed), th.callers + [f.doc]);
  }

  lemma DispatchShape(c: Config, s: State, t: nat)
    requires Shape(c, s) && Enabled(c, s, Advance(t)) && Innermost(s.threads[t]).pc == Pushed
    ensures Shape(c, Apply(c, s, Advance(t)))
  {
    var th := s.threads[t];
    var f := Innermost(th);
    assert FrameOk(c, f) && Backed(s, f);
    ThreadTop(c, th);
    MovedShape(c, s, Apply(c, s, Advance(t)), t, f.(pc := Handling), th.callers);
  }

  /** The document on top is the innermost activation's own. */
  lemma TopCaller(c: Config, th: Thread)
    requires ThreadOk(c, th) && th.frames != [] && OnStack(Innermost(th))
    ensures th.callers == PushedDocs(Below(th)) + [Innermost(th).doc]
    ensures th.callers[..|th.callers| - 1] == PushedDocs(Below(th))
  {
  }

  lemma PoppedOk(c: Config, s: State, f: Frame)
    requires FrameOk(c, f) && Backed(s, f) && f.pc == Replied
    ensures FrameOk(c, f.(pc := Popped)) && Backed(s, f.(pc := Popped))
  {
  }

  lemma PopShape(c: Config, s: State, t: nat)
    requires Shape(c, s) && Enabled(c, s, Advance(t)) && Innermost(s.threads[t]).pc == Replied
    ensures Shape(c, Apply(c, s, Advance(t)))
  {
    var th := s.threads[t];
    TopCaller(c, th);
    PoppedOk(c, s, Innermost(th));
    PoppingState(c, s, t, PushedDocs(Below(th)));
    var f := Innermost(th).(pc := Popped);
    var s' := s.(threads := s.threads[t := With(th, f).(callers := PushedDocs(Below(th)))]);
    assert Apply(c, s, Advance(t)) == s';
    MovedShape(c, s, s', t, f, PushedDocs(Below(th)));
  }

  lemma PoppingState(c: Config, s: State, t: nat, docs: seq<string>)
    requires Enabled(c, s, Advance(t)) && Innermost(s.threads[t]).pc == Replied
    requires s.threads[t].callers != [] && s.threads[t].callers[..|s.threads[t].callers| - 1] == docs
    ensures
      var th := s.threads[t];
      Apply(c, s, Advance(t))
      == s.(threads := s.threads[t := With(th, Innermost(th).(pc := Popped)).(callers := docs)])
  {
  }

  lemma ReportedOk(c: Config, s: State, f: Frame, v: Variant)
    requires f.kind == Worker && f.pc == Popped && Backed(s, f)
    requires Judged(c, Answered(f.id, f.call, f.reply)) == Answer(v)
    ensures DoneOk(c, s, Done(f.id, f.call, f.listener, v))
  {
    var i :| 0 <= i < |s.replies| && s.replies[i] == Answered(f.id, f.call, f.reply);
  }

  lemma PoppedShape(c: Config, s: State, t: nat)
    requires Shape(c, s) && Enabled(c, s, Advance(t))
    requires Innermost(s.threads[t]).pc == Popped
    ensures Shape(c, Apply(c, s, Advance(t)))
  {
    var f := Innermost(s.threads[t]);
    var s' := Apply(c, s, Advance(t));
    assert FrameOk(c, f) && Backed(s, f);
    Grown(c, s, s');
    if !s'.dead {
      SlotLeft(c, s', t, s.threads[t]);
      if f.kind == Worker {
        ReportedOk(c, s', f, Judged(c, Answered(f.id, f.call, f.reply)).v);
      }
      ShapeKept(c, s, s', t);
    }
  }

  lemma EnterShape(c: Config, s: State, t: nat, call: Call)
    requires Shape(c, s) && Enabled(c, s, Enter(t, call))
    ensures Shape(c, Apply(c, s, Enter(t, call)))
  {
    var s' := Apply(c, s, Enter(t, call));
    Grown(c, s, s');
    ThreadEntered(c, s.threads[t], Frame(Caller, Entered, call, 0, None, [], None));
    ShapeKept(c, s, s', t);
  }

  lemma ReturnShape(c: Config, s: State, t: nat, reply: Option<string>)
    requires Shape(c, s) && Enabled(c, s, Finish(t, reply))
    ensures Shape(c, Apply(c, s, Finish(t, reply)))
  {
    var f := Innermost(s.threads[t]);
    var s' := Apply(c, s, Finish(t, reply));
    assert FrameOk(c, f) && Backed(s, f);
    ThreadTop(c, s.threads[t]);
    RepliedOk(c, s, s', f, reply);
    ReplacedShape(c, s, s', t, f.(pc := Replied, reply := reply), s.threads[t].callers);
  }

  lemma RepliedOk(c: Config, s: State, s': State, f: Frame, reply: Option<string>)
    requires FrameOk(c, f) && Backed(s, f) && f.pc == Handling && s'.copies == s.copies
    requires s'.replies == if f.kind == Worker then s.replies + [Answered(f.id, f.call, reply)] else s.replies
    ensures s.replies <= s'.replies
    ensures FrameOk(c, f.(pc := Replied, reply := reply)) && Backed(s', f.(pc := Replied, reply := reply))
  {
    assert f.kind == Worker ==> s'.replies[|s.replies|] == Answered(f.id, f.call, reply);
  }

  lemma TakeShape(c: Config, s: State, t: nat)
    requires Shape(c, s) && Enabled(c, s, Take(t))
    ensures Shape(c, Apply(c, s, Take(t)))
  {
    var job := s.queue[0];
    var f := Frame(Worker, Ready, job.call, job.id, job.listener, job.doc, None);
    var s' := Apply(c, s, Take(t));
    assert DeferralOk(c, s, job);
    assert s'.threads[t] == s.threads[t].(frames := [f]);
    ThreadTook(c, s.threads[t], f);
    ShapeKept(c, s, s', t);
  }

  /** An idle pool thread begins a lambda. */
  lemma ThreadTook(c: Config, th: Thread, f: Frame)
    requires ThreadOk(c, th) && th.frames == [] && FrameOk(c, f) && f.kind == Worker && f.pc == Ready
    ensures ThreadOk(c, th.(frames := [f]))
  {
    SnocDocs([], f);
    assert [] + [f] == [f];
  }

  lemma AdvanceShape(c: Config, s: State, t: nat)
    requires Shape(c, s) && Enabled(c, s, Advance(t))
    ensures Shape(c, Apply(c, s, Advance(t)))
  {
    match Innermost(s.threads[t]).pc
    case Entered =>
      if Innermost(s.threads[t]).call.name == "lidl" { ReturnedShape(c, s, t); } else { EnteredShape(c, s, t); }
    case Numbered => CopyShape(c, s, t);
    case Copied => PullShape(c, s, t);
    case Pulled => StartShape(c, s, t);
    case Queued => ReturnedShape(c, s, t);
    case Ready => PushShape(c, s, t);
    case Pushed => DispatchShape(c, s, t);
    case Replied => PopShape(c, s, t);
    case Popped => PoppedShape(c, s, t);
  }

  /** The handler asks who is calling, or another thread replaces the listener. */
  lemma QuietShape(c: Config, s: State, step: Step)
    requires Shape(c, s) && Enabled(c, s, step) && (step.Look? || step.Listen?)
    ensures Shape(c, Apply(c, s, step))
  {
    if step.Look? {
      ThreadTop(c, s.threads[step.t]);
      assert FrameOk(c, Innermost(s.threads[step.t]));
    }
    Grown(c, s, Apply(c, s, step));
  }

  lemma StepShape(c: Config, s: State, step: Step)
    requires Shape(c, s) && Enabled(c, s, step)
    ensures Shape(c, Apply(c, s, step))
  {
    match step
    case Advance(t) => AdvanceShape(c, s, t);
    case Enter(t, call) => EnterShape(c, s, t, call);
    case Look(t) => QuietShape(c, s, step);
    case Finish(t, reply) => ReturnShape(c, s, t, reply);
    case Take(t) => TakeShape(c, s, t);
    case Listen(l) => QuietShape(c, s, step);
  }

  // ---------------------------------------------------------------------------
  // Accounting
  // ---------------------------------------------------------------------------

  /** What one statement does to the thread it runs on: its innermost activation is
      replaced by now, or gone. */
  function Next(c: Config, s: State, t: nat): Option<Frame>
    requires Enabled(c, s, Advance(t))
  {
    var f := Innermost(s.threads[t]);
    match f.pc
    case Entered =>
      if f.call.name == "lidl" then None
      else if c.multi then Some(f.(pc := Numbered, id := s.counter))
      else Some(f.(pc := Ready, doc := Pull(c, f.call.reachable, s.threads[t].scopes)))
    case Numbered => Some(f.(pc := Copied, listener := s.listener))
    case Copied => Some(f.(pc := Pulled, doc := Pull(c, f.call.reachable, s.threads[t].scopes)))
    case Pulled => Some(f.(pc := Queued))
    case Queued => None
    case Ready => Some(f.(pc := Pushed))
    case Pushed => Some(f.(pc := Handling))
    case Handling => Some(f)
    case Replied => Some(f.(pc := Popped))
    case Popped => None
  }

  lemma AdvanceMoves(c: Config, s: State, t: nat)
    requires Enabled(c, s, Advance(t)) && !Apply(c, s, Advance(t)).dead
    ensures
      var s', th := Apply(c, s, Advance(t)), s.threads[t];
      && s'.threads == s.threads[t := s'.threads[t]]
      && s'.threads[t].frames == (if Next(c, s, t).None? then Below(th) else Below(th) + [Next(c, s, t).value])
      && th.frames == Below(th) + [Innermost(th)]
  {
  }

  lemma AdvanceRecounted(c: Config, s: State, t: nat, stage: Stage, x: nat)
    requires Enabled(c, s, Advance(t)) && !Apply(c, s, Advance(t)).dead
    ensures OnThreads(Apply(c, s, Advance(t)).threads, stage, x)
         == OnThreads(s.threads, stage, x) - Own(Innermost(s.threads[t]), stage, x)
            + if Next(c, s, t).None? then 0 else Own(Next(c, s, t).value, stage, x)
  {
    AdvanceMoves(c, s, t);
    Moved(s.threads, t, Apply(c, s, Advance(t)).threads[t], Below(s.threads[t]),
          Some(Innermost(s.threads[t])), Next(c, s, t), stage, x);
  }

  /** Handing out an id, pulling, and returning from callMethod. */
  lemma DeliveryAccounted(c: Config, s: State, t: nat, stage: Stage, x: nat)
    requires Enabled(c, s, Advance(t)) && FrameOk(c, Innermost(s.threads[t]))
    requires Accounted(s, stage, x)
    requires var pc := Innermost(s.threads[t]).pc; pc.Entered? || pc.Copied? || pc.Queued?
    ensures Accounted(Apply(c, s, Advance(t)), stage, x)
  {
    AdvanceRecounted(c, s, t, stage, x);
  }

  lemma CopyAccounted(c: Config, s: State, t: nat, stage: Stage, x: nat)
    requires Enabled(c, s, Advance(t)) && FrameOk(c, Innermost(s.threads[t]))
    requires Accounted(s, stage, x) && Innermost(s.threads[t]).pc == Numbered
    ensures Accounted(Apply(c, s, Advance(t)), stage, x)
  {
    AdvanceRecounted(c, s, t, stage, x);
    TimesSnoc(CopyIds(s.copies), Innermost(s.threads[t]).id, CopyIds(Apply(c, s, Advance(t)).copies), x);
  }

  lemma StartAccounted(c: Config, s: State, t: nat, stage: Stage, x: nat)
    requires Enabled(c, s, Advance(t)) && FrameOk(c, Innermost(s.threads[t]))
    requires Accounted(s, stage, x) && Innermost(s.threads[t]).pc == Pulled
    ensures Accounted(Apply(c, s, Advance(t)), stage, x)
  {
    AdvanceRecounted(c, s, t, stage, x);
    TimesSnoc(JobIds(s.queue), Innermost(s.threads[t]).id, JobIds(Apply(c, s, Advance(t)).queue), x);
  }

  /** The bracket around the dispatch, and the worker's report. */
  lemma BracketAccounted(c: Config, s: State, t: nat, stage: Stage, x: nat)
    requires Enabled(c, s, Advance(t)) && FrameOk(c, Innermost(s.threads[t]))
    requires Accounted(s, stage, x)
    requires var pc := Innermost(s.threads[t]).pc; pc.Ready? || pc.Pushed? || pc.Replied?
    ensures Accounted(Apply(c, s, Advance(t)), stage, x)
  {
    AdvanceRecounted(c, s, t, stage, x);
  }

  lemma PoppedAccounted(c: Config, s: State, t: nat, stage: Stage, x: nat)
    requires Enabled(c, s, Advance(t)) && FrameOk(c, Innermost(s.threads[t]))
    requires Accounted(s, stage, x) && Innermost(s.threads[t]).pc == Popped
    ensures Accounted(Apply(c, s, Advance(t)), stage, x)
  {
    var f := Innermost(s.threads[t]);
    var s' := Apply(c, s, Advance(t));
    if !s'.dead {
      AdvanceRecounted(c, s, t, stage, x);
      if f.kind == Worker {
        ReportAccounted(c, s, t, stage, x);
      }
    }
  }

  lemma ReportAccounted(c: Config, s: State, t: nat, stage: Stage, x: nat)
    requires Enabled(c, s, Advance(t)) && FrameOk(c, Innermost(s.threads[t])) && !Apply(c, s, Advance(t)).dead
    requires Accounted(s, stage, x) && Innermost(s.threads[t]).pc == Popped && Innermost(s.threads[t]).kind == Worker
    ensures Accounted(Apply(c, s, Advance(t)), stage, x)
  {
    AdvanceRecounted(c, s, t, stage, x);
    ReportLogs(c, s, t);
    TimesSnoc(DoneIds(s.done), Innermost(s.threads[t]).id, DoneIds(Apply(c, s, Advance(t)).done), x);
  }

  lemma ReportLogs(c: Config, s: State, t: nat)
    requires Enabled(c, s, Advance(t)) && !Apply(c, s, Advance(t)).dead
    requires Innermost(s.threads[t]).pc == Popped && Innermost(s.threads[t]).kind == Worker
    ensures
      var s' := Apply(c, s, Advance(t));
      && s'.queue == s.queue && s'.copies == s.copies && s'.replies == s.replies && s'.counter == s.counter
      && DoneIds(s'.done) == DoneIds(s.done) + [Innermost(s.threads[t]).id]
  {
  }

  lemma FinishMoves(c: Config, s: State, t: nat, reply: Option<string>)
    requires Enabled(c, s, Finish(t, reply))
    ensures
      var s', th := Apply(c, s, Finish(t, reply)), s.threads[t];
      && s'.threads == s.threads[t := s'.threads[t]] && s'.queue == s.queue
      && s'.threads[t].frames == Below(th) + [Innermost(th).(pc := Replied, reply := reply)]
      && th.frames == Below(th) + [Innermost(th)]
  {
  }

  lemma FinishAccounted(c: Config, s: State, t: nat, reply: Option<string>, stage: Stage, x: nat)
    requires Enabled(c, s, Finish(t, reply)) && Accounted(s, stage, x)
    ensures Accounted(Apply(c, s, Finish(t, reply)), stage, x)
  {
    var f := Innermost(s.threads[t]);
    var s' := Apply(c, s, Finish(t, reply));
    FinishMoves(c, s, t, reply);
    Moved(s.threads, t, s'.threads[t], Below(s.threads[t]), Some(f), Some(f.(pc := Replied, reply := reply)), stage, x);
    FinishLogs(c, s, t, reply);
    if f.kind == Worker {
      TimesSnoc(ReplyIds(s.replies), f.id, ReplyIds(s'.replies), x);
    }
  }

  lemma FinishLogs(c: Config, s: State, t: nat, reply: Option<string>)
    requires Enabled(c, s, Finish(t, reply))
    ensures
      var s', f := Apply(c, s, Finish(t, reply)), Innermost(s.threads[t]);
      && s'.queue == s.queue && s'.done == s.done && s'.copies == s.copies && s'.counter == s.counter
      && ReplyIds(s'.replies) == ReplyIds(s.replies) + if f.kind == Worker then [f.id] else []
  {
  }

  lemma TakeAccounted(c: Config, s: State, t: nat, stage: Stage, x: nat)
    requires Enabled(c, s, Take(t)) && Accounted(s, stage, x)
    ensures Accounted(Apply(c, s, Take(t)), stage, x)
  {
    var s' := Apply(c, s, Take(t));
    assert s'.threads[t].frames == [] + [Innermost(s'.threads[t])];
    Moved(s.threads, t, s'.threads[t], [], None, Some(Innermost(s'.threads[t])), stage, x);
    TimesTail(JobIds(s.queue), x);
    assert JobIds(s'.queue) == JobIds(s.queue)[1..];
  }

  lemma EnterAccounted(c: Config, s: State, t: nat, call: Call, stage: Stage, x: nat)
    requires Enabled(c, s, Enter(t, call)) && Accounted(s, stage, x)
    ensures Accounted(Apply(c, s, Enter(t, call)), stage, x)
  {
    var s' := Apply(c, s, Enter(t, call));
    Moved(s.threads, t, s'.threads[t], s.threads[t].frames, None,
          Some(Frame(Caller, Entered, call, 0, None, [], None)), stage, x);
  }

  lemma AdvanceAccounted(c: Config, s: State, t: nat, stage: Stage, x: nat)
    requires Enabled(c, s, Advance(t)) && FrameOk(c, Innermost(s.threads[t])) && Accounted(s, stage, x)
    ensures Accounted(Apply(c, s, Advance(t)), stage, x)
  {
    match Innermost(s.threads[t]).pc
    case Entered => DeliveryAccounted(c, s, t, stage, x);
    case Numbered => CopyAccounted(c, s, t, stage, x);
    case Copied => DeliveryAccounted(c, s, t, stage, x);
    case Pulled => StartAccounted(c, s, t, stage, x);
    case Queued => DeliveryAccounted(c, s, t, stage, x);
    case Ready => BracketAccounted(c, s, t, stage, x);
    case Pushed => BracketAccounted(c, s, t, stage, x);
    case Replied => BracketAccounted(c, s, t, stage, x);
    case Popped => PoppedAccounted(c, s, t, stage, x);
  }

  lemma StepAccounted(c: Config, s: State, step: Step, stage: Stage, x: nat)
    requires Shape(c, s) && Accounted(s, stage, x) && Enabled(c, s, step)
    ensures Accounted(Apply(c, s, step), stage, x)
  {
    match step
    case Advance(t) =>
      assert FrameOk(c, Innermost(s.threads[t]));
      AdvanceAccounted(c, s, t, stage, x);
    case Enter(t, call) => EnterAccounted(c, s, t, call, stage, x);
    case Look(t) =>
    case Finish(t, reply) => FinishAccounted(c, s, t, reply, stage, x);
    case Take(t) => TakeAccounted(c, s, t, stage, x);
    case Listen(l) =>
  }

  // ---------------------------------------------------------------------------
  // Over whole runs
  // ---------------------------------------------------------------------------

  lemma StepKeepsInv(c: Config, s: State, step: Step)
    requires Inv(c, s) && Enabled(c, s, step)
    ensures Inv(c, Apply(c, s, step))
  {
    StepShape(c, s, step);
    forall stage, x: nat ensures Accounted(Apply(c, s, step), stage, x) {
      StepAccounted(c, s, step, stage, x);
    }
  }

  lemma {:induction false} RunKeepsInv(c: Config, s: State, steps: seq<Step>)
    requires Inv(c, s) && IsRun(c, s, steps)
    ensures Inv(c, After(c, s, steps))
    decreases |steps|
  {
    if steps != [] {
      StepKeepsInv(c, s, steps[0]);
      RunKeepsInv(c, Apply(c, s, steps[0]), steps[1..]);
    }
  }

  ghost predicate Reachable(c: Config, threads: nat, s: State) {
    exists steps :: IsRun(c, Initial(threads), steps) && After(c, Initial(threads), steps) == s
  }

  lemma ReachableInv(c: Config, threads: nat, s: State)
    requires (c.multi ==> c.workers <= threads) && Reachable(c, threads, s)
    ensures Inv(c, s)
  {
    var steps :| IsRun(c, Initial(threads), steps) && After(c, Initial(threads), steps) == s;
    InitialInv(c, threads);
    RunKeepsInv(c, Initial(threads), steps);
  }

  /** In every interleaving, every completion carries an id no other completion carries,
      goes to the listener copied for that very call, and its value is the one the
      reference gives the reply that call's own dispatch returned; each call was copied
      and answered once, so "that call's own" is unambiguous. */
  lemma AtMostOneCompletion(c: Config, threads: nat, s: State, i: nat)
    requires (c.multi ==> c.workers <= threads) && Reachable(c, threads, s)
    requires i < |s.done|
    ensures forall j :: 0 <= j < |s.done| && s.done[j].id == s.done[i].id ==> j == i
    ensures s.done[i].id < s.counter
    ensures exists k :: 0 <= k < |s.copies| && s.copies[k] == Copy(s.done[i].id, s.done[i].call, s.done[i].listener)
                        && forall j :: 0 <= j < |s.copies| && s.copies[j].id == s.done[i].id ==> j == k
    ensures exists k :: 0 <= k < |s.replies| && s.replies[k].id == s.done[i].id && s.replies[k].call == s.done[i].call
                        && Judged(c, s.replies[k])
                           == Answer(s.done[i].value)
                        && forall j :: 0 <= j < |s.replies| && s.replies[j].id == s.done[i].id ==> j == k
  {
    ReachableInv(c, threads, s);
    var d := s.done[i];
    var x := d.id;
    assert DoneOk(c, s, d);
    TimesOnce(DoneIds(s.done), i);
    CopiedOnce(c, s, x);
    Unrepeated(DoneIds(s.done), x);
    Unrepeated(CopyIds(s.copies), x);
    Unrepeated(ReplyIds(s.replies), x);
    var k :| 0 <= k < |s.copies| && s.copies[k] == Copy(x, d.call, d.listener);
    assert CopyIds(s.copies)[k] == x;
    var r :| 0 <= r < |s.replies| && s.replies[r].id == x && s.replies[r].call == d.call
             && Judged(c, s.replies[r]) == Answer(d.value);
    assert ReplyIds(s.replies)[r] == x;
  }

  lemma {:induction false} StagesNest(threads: seq<Thread>, x: nat)
    ensures OnThreads(threads, PastReply, x) <= OnThreads(threads, PastCopy, x) <= OnThreads(threads, Given, x)
    decreases |threads|
  {
    if threads != [] {
      StagesNest(threads[..|threads| - 1], x);
      FrameStagesNest(threads[|threads| - 1].frames, x);
    }
  }

  lemma {:induction false} FrameStagesNest(frames: seq<Frame>, x: nat)
    ensures OnFrames(frames, PastReply, x) <= OnFrames(frames, PastCopy, x) <= OnFrames(frames, Given, x)
  {
    if frames != [] {
      FrameStagesNest(frames[..|frames| - 1], x);
    }
  }

  lemma CopiedOnce(c: Config, s: State, x: nat)
    requires Inv(c, s)
    ensures Times(DoneIds(s.done), x) <= Times(ReplyIds(s.replies), x) <= Times(CopyIds(s.copies), x) <= 1
    ensures Times(DoneIds(s.done), x) == 1 ==> x < s.counter
  {
    assert Accounted(s, Given, x) && Accounted(s, PastCopy, x) && Accounted(s, PastReply, x);
    StagesNest(s.threads, x);
  }

  lemma Unrepeated(ids: seq<nat>, x: nat)
    requires Times(ids, x) <= 1
    ensures forall i, j :: 0 <= i < |ids| && 0 <= j < |ids| && ids[i] == x && ids[j] == x ==> i == j
  {
    forall i, j | 0 <= i < |ids| && 0 <= j < |ids| && ids[i] == x && ids[j] == x ensures i == j {
      if i < j {
        TimesTwice(ids, i, j);
      } else if j < i {
        TimesTwice(ids, j, i);
      }
    }
  }

  // ---------------------------------------------------------------------------
  // Exactly one, when every dispatch returns
  // ---------------------------------------------------------------------------

  predicate Quiet(s: State) {
    s.queue == [] && forall t :: 0 <= t < |s.threads| ==> s.threads[t].frames == []
  }

  lemma {:induction false} NothingOwned(threads: seq<Thread>, stage: Stage, x: nat)
    requires forall t :: 0 <= t < |threads| ==> threads[t].frames == []
    ensures OnThreads(threads, stage, x) == 0
  {
    if threads != [] {
      NothingOwned(threads[..|threads| - 1], stage, x);
    }
  }

  ghost predicate CompletedOnce(s: State, x: nat) {
    exists i :: 0 <= i < |s.done| && s.done[i].id == x && forall j :: 0 <= j < |s.done| && s.done[j].id == x ==> j == i
  }

  /** Once nothing is in flight, every numbered call has completed exactly once. */
  lemma ExactlyOneCompletion(c: Config, threads: nat, s: State, x: nat)
    requires (c.multi ==> c.workers <= threads) && Reachable(c, threads, s)
    requires Quiet(s) && x < s.counter
    ensures CompletedOnce(s, x)
  {
    ReachableInv(c, threads, s);
    assert Accounted(s, Given, x);
    NothingOwned(s.threads, Given, x);
    CountedOnce(s, x);
  }

  lemma CountedOnce(s: State, x: nat)
    requires Times(DoneIds(s.done), x) == 1
    ensures CompletedOnce(s, x)
  {
    Occurs(DoneIds(s.done), x);
    Unrepeated(DoneIds(s.done), x);
    var i :| 0 <= i < |s.done| && DoneIds(s.done)[i] == x;
    forall j | 0 <= j < |s.done| && s.done[j].id == x ensures j == i {
      assert DoneIds(s.done)[j] == x;
    }
  }

  lemma {:induction false} Occurs(ids: seq<nat>, x: nat)
    requires Times(ids, x) > 0
    ensures exists i :: 0 <= i < |ids| && ids[i] == x
  {
    var n := |ids| - 1;
    if ids[n] != x {
      Occurs(ids[..n], x);
      var i :| 0 <= i < n && ids[..n][i] == x;
      assert ids[i] == x;
    }
  }

  /** Steps of work already accepted. */
  predicate Working(step: Step) { step.Advance? || step.Finish? || step.Take? }

  function Remaining(f: Frame): nat {
    match f.pc
    case Entered => 20
    case Numbered => 19
    case Copied => 18
    case Pulled => 17
    case Queued => 1
    case Ready => 7
    case Pushed => 6
    case Handling => 5
    case Replied => 4
    case Popped => 3
  }

  const QUEUED_WORK: nat := 8

  function FrameWork(frames: seq<Frame>): nat {
    if frames == [] then 0 else FrameWork(frames[..|frames| - 1]) + Remaining(frames[|frames| - 1])
  }

  function ThreadWork(threads: seq<Thread>): nat {
    if threads == [] then 0
    else ThreadWork(threads[..|threads| - 1]) + FrameWork(threads[|threads| - 1].frames)
  }

  function Work(s: State): nat {
    if s.dead then 0 else 1 + ThreadWork(s.threads) + QUEUED_WORK * |s.queue|
  }

  lemma {:induction false} ThreadWorkUpdate(threads: seq<Thread>, t: nat, th: Thread)
    requires t < |threads|
    ensures ThreadWork(threads[t := th])
         == ThreadWork(threads) - FrameWork(threads[t].frames) + FrameWork(th.frames)
    decreases |threads|
  {
    var n := |threads| - 1;
    if t == n {
      assert threads[t := th][..n] == threads[..n];
    } else {
      assert threads[t := th][..n] == threads[..n][t := th];
      ThreadWorkUpdate(threads[..n], t, th);
    }
  }

  /** The work on the threads, after the top of thread t goes from was to now. */
  lemma Reworked(s: State, s': State, t: nat, th: Thread, below: seq<Frame>, was: Option<Frame>, now: Option<Frame>)
    requires t < |s.threads| && s'.threads == s.threads[t := th]
    requires s.threads[t].frames == (if was.None? then below else below + [was.value])
    requires th.frames == (if now.None? then below else below + [now.value])
    ensures ThreadWork(s'.threads)
         == ThreadWork(s.threads) - (if was.None? then 0 else Remaining(was.value))
            + if now.None? then 0 else Remaining(now.value)
  {
    ThreadWorkUpdate(s.threads, t, th);
  }

  lemma NextIsLess(c: Config, s: State, t: nat)
    requires Enabled(c, s, Advance(t)) && FrameOk(c, Innermost(s.threads[t]))
    ensures
      var f, next := Innermost(s.threads[t]), Next(c, s, t);
      (if next.None? then 0 else Remaining(next.value)) + (if f.pc == Pulled then QUEUED_WORK else 0) < Remaining(f)
  {
  }

  lemma AdvanceShrinks(c: Config, s: State, t: nat)
    requires Enabled(c, s, Advance(t)) && FrameOk(c, Innermost(s.threads[t]))
    ensures Work(Apply(c, s, Advance(t))) < Work(s)
  {
    var s' := Apply(c, s, Advance(t));
    if !s'.dead {
      AdvanceMoves(c, s, t);
      Reworked(s, s', t, s'.threads[t], Below(s.threads[t]), Some(Innermost(s.threads[t])), Next(c, s, t));
      NextIsLess(c, s, t);
    }
  }

  lemma FinishShrinks(c: Config, s: State, t: nat, reply: Option<string>)
    requires Enabled(c, s, Finish(t, reply))
    ensures Work(Apply(c, s, Finish(t, reply))) < Work(s)
  {
    var f := Innermost(s.threads[t]);
    var s' := Apply(c, s, Finish(t, reply));
    FinishMoves(c, s, t, reply);
    Reworked(s, s', t, s'.threads[t], Below(s.threads[t]), Some(f), Some(f.(pc := Replied, reply := reply)));
  }

  lemma TakeShrinks(c: Config, s: State, t: nat)
    requires Enabled(c, s, Take(t))
    ensures Work(Apply(c, s, Take(t))) < Work(s)
  {
    var s' := Apply(c, s, Take(t));
    var f := Innermost(s'.threads[t]);
    assert s'.threads[t].frames == [] + [f];
    Reworked(s, s', t, s'.threads[t], [], None, Some(f));
  }

  /** Every working step uses up accepted work. */
  lemma WorkShrinks(c: Config, s: State, step: Step)
    requires Shape(c, s) && Enabled(c, s, step) && Working(step)
    ensures Work(Apply(c, s, step)) < Work(s)
  {
    match step
    case Advance(t) =>
      assert FrameOk(c, Innermost(s.threads[t]));
      AdvanceShrinks(c, s, t);
    case Finish(t, reply) => FinishShrinks(c, s, t, reply);
    case Take(t) => TakeShrinks(c, s, t);
  }

  /** Under every schedule, accepted work runs out after boundedly many steps... */
  lemma {:induction false} WorkingRunsAreBounded(c: Config, s: State, steps: seq<Step>)
    requires Inv(c, s) && IsRun(c, s, steps) && forall i :: 0 <= i < |steps| ==> Working(steps[i])
    ensures |steps| <= Work(s)
    decreases |steps|
  {
    if steps != [] {
      WorkShrinks(c, s, steps[0]);
      StepKeepsInv(c, s, steps[0]);
      WorkingRunsAreBounded(c, Apply(c, s, steps[0]), steps[1..]);
    }
  }

  /** ...and never stalls before it has: some working step is enabled until all is quiet.
      A handler that never returns is the one thing the second step kind leaves to it. */
  lemma WorkNeverStalls(c: Config, threads: nat, s: State) returns (step: Step)
    requires (c.multi ==> 0 < c.workers <= threads) && Reachable(c, threads, s)
    requires !s.dead && !Quiet(s)
    ensures Working(step) && Enabled(c, s, step)
  {
    ReachableInv(c, threads, s);
    if t :| 0 <= t < |s.threads| && s.threads[t].frames != [] {
      step := if Innermost(s.threads[t]).pc == Handling then Finish(t, None) else Advance(t);
    } else {
      step := Take(0);
    }
  }

  /** Nothing can move on its own exactly when all is quiet or a worker's lambda has thrown. */
  lemma StuckIff(c: Config, threads: nat, s: State)
    requires (c.multi ==> 0 < c.workers <= threads) && Reachable(c, threads, s)
    ensures (forall step :: Working(step) ==> !Enabled(c, s, step)) <==> s.dead || Quiet(s)
  {
    ReachableInv(c, threads, s);
    if !s.dead && !Quiet(s) {
      var step := WorkNeverStalls(c, threads, s);
      assert Working(step) && Enabled(c, s, step);
    }
  }

  // ---------------------------------------------------------------------------
  // When a reply throws
  // ---------------------------------------------------------------------------

  /** A worker on thread t is at its report, and what it would report throws. */
  ghost predicate ThrownAt(c: Config, s: State, t: nat) {
    && t < |s.threads| && s.threads[t].frames != []
    && var f := Innermost(s.threads[t]);
       f.kind == Worker && f.pc == Popped && Judged(c, Answered(f.id, f.call, f.reply)) == Throws
  }

  ghost predicate DeadOk(c: Config, s: State) { s.dead ==> exists t :: ThrownAt(c, s, t) }

  lemma StepDead(c: Config, s: State, step: Step)
    requires Enabled(c, s, step)
    ensures DeadOk(c, Apply(c, s, step))
  {
    var s' := Apply(c, s, step);
    if s'.dead {
      assert step.Advance? && s'.threads == s.threads;
      assert ThrownAt(c, s', step.t);
    }
  }

  lemma {:induction false} RunDead(c: Config, s: State, steps: seq<Step>)
    requires IsRun(c, s, steps) && DeadOk(c, s)
    ensures DeadOk(c, After(c, s, steps))
    decreases |steps|
  {
    if steps != [] {
      StepDead(c, s, steps[0]);
      RunDead(c, Apply(c, s, steps[0]), steps[1..]);
    }
  }

  lemma ReachableDead(c: Config, threads: nat, s: State)
    requires Reachable(c, threads, s)
    ensures DeadOk(c, s)
  {
    var steps :| IsRun(c, Initial(threads), steps) && After(c, Initial(threads), steps) == s;
    RunDead(c, Initial(threads), steps);
  }

  /** An id that an activation still owns is counted on the threads. */
  lemma OwnedIsCounted(threads: seq<Thread>, t: nat, stage: Stage, x: nat)
    requires t < |threads| && threads[t].frames != [] && Own(Innermost(threads[t]), stage, x) == 1
    ensures OnThreads(threads, stage, x) >= 1
  {
    var below := threads[t].(frames := Below(threads[t]));
    OnThreadsUpdate(threads, t, below, stage, x);
  }

  lemma ThrownIsNotCompleted(c: Config, s: State, t: nat)
    requires Inv(c, s) && ThrownAt(c, s, t)
    ensures var x := Innermost(s.threads[t]).id; x < s.counter && !CompletedOnce(s, x)
    ensures exists i :: 0 <= i < |s.replies| && Judged(c, s.replies[i]) == Throws
  {
    var f := Innermost(s.threads[t]);
    assert Accounted(s, Given, f.id) && Backed(s, f);
    OwnedIsCounted(s.threads, t, Given, f.id);
    if CompletedOnce(s, f.id) {
      var i :| 0 <= i < |s.done| && s.done[i].id == f.id;
      TimesOnce(DoneIds(s.done), i);
    }
    var i :| 0 <= i < |s.replies| && s.replies[i] == Answered(f.id, f.call, f.reply);
  }

  /** In a quiet state every reply was reported. */
  lemma QuietReplies(c: Config, s: State, i: nat)
    requires Inv(c, s) && Quiet(s) && i < |s.replies|
    ensures Judged(c, s.replies[i]) != Throws
  {
    var x := s.replies[i].id;
    assert Accounted(s, PastReply, x);
    NothingOwned(s.threads, PastReply, x);
    TimesOnce(ReplyIds(s.replies), i);
    Occurs(DoneIds(s.done), x);
    var j :| 0 <= j < |s.done| && DoneIds(s.done)[j] == x;
    assert DoneOk(c, s, s.done[j]);
    var k :| 0 <= k < |s.replies| && s.replies[k].id == x && Judged(c, s.replies[k]) == Answer(s.done[j].value);
    CopiedOnce(c, s, x);
    Unrepeated(ReplyIds(s.replies), x);
    assert ReplyIds(s.replies)[k] == x == ReplyIds(s.replies)[i];
  }

  ghost predicate SomeReplyThrows(c: Config, s: State) {
    exists i :: 0 <= i < |s.replies| && Judged(c, s.replies[i]) == Throws
  }

  /** Wherever a run can go no further on its own, every deferred call has completed exactly
      once if and only if no handler's reply throws; and the process has died if and only if
      one does. */
  lemma ExactlyOnceIff(c: Config, threads: nat, s: State)
    requires (c.multi ==> 0 < c.workers <= threads) && Reachable(c, threads, s)
    requires forall step :: Working(step) ==> !Enabled(c, s, step)
    ensures (forall x: nat :: x < s.counter ==> CompletedOnce(s, x)) <==> !SomeReplyThrows(c, s)
    ensures s.dead <==> SomeReplyThrows(c, s)
  {
    ReachableInv(c, threads, s);
    StuckIff(c, threads, s);
    if s.dead {
      ReachableDead(c, threads, s);
      var t :| ThrownAt(c, s, t);
      ThrownIsNotCompleted(c, s, t);
    } else {
      forall x: nat | x < s.counter ensures CompletedOnce(s, x) {
        ExactlyOneCompletion(c, threads, s, x);
      }
      forall i | 0 <= i < |s.replies| ensures Judged(c, s.replies[i]) != Throws {
        QuietReplies(c, s, i);
      }
    }
  }

  lemma {:induction false} RunsJoin(c: Config, s: State, first: seq<Step>, second: seq<Step>)
    requires IsRun(c, s, first) && IsRun(c, After(c, s, first), second)
    ensures IsRun(c, s, first + second)
    ensures After(c, s, first + second) == After(c, After(c, s, first), second)
    decreases |first|
  {
    if first == [] {
      assert first + second == second;
    } else {
      RunsJoin(c, Apply(c, s, first[0]), first[1..], second);
      assert (first + second)[1..] == first[1..] + second;
    }
  }

  lemma OneMore(c: Config, s: State, steps: seq<Step>, step: Step) returns (longer: seq<Step>)
    requires IsRun(c, s, steps) && Enabled(c, After(c, s, steps), step)
    ensures longer == steps + [step]
    ensures IsRun(c, s, longer) && After(c, s, longer) == Apply(c, After(c, s, steps), step)
  {
    longer := steps + [step];
    var s' := After(c, s, steps);
    assert [step][0] == step && [step][1..] == [];
    assert IsRun(c, Apply(c, s', step), []) && After(c, Apply(c, s', step), []) == Apply(c, s', step);
    RunsJoin(c, s, steps, [step]);
  }

  /** From s to s' thread t came to hold just f, and no other thread or history moved. */
  predicate Alone(s: State, s': State, t: nat, f: Frame) {
    && |s'.threads| == |s.threads| && t < |s.threads| && s'.threads[t].frames == [f]
    && (forall w :: 0 <= w < |s.threads| && w != t ==> s'.threads[w] == s.threads[w])
    && s'.listener == s.listener && !s'.dead && s'.done == s.done && s'.replies == s.replies
  }

  lemma NumbersOne(c: Config, s: State, t: nat, call: Call) returns (steps: seq<Step>)
    requires c.multi && c.workers <= t < |s.threads| && s.threads[t].frames == [] && !s.dead && call.name != "lidl"
    ensures IsRun(c, s, steps)
    ensures
      var s' := After(c, s, steps);
      && Alone(s, s', t, Frame(Caller, Numbered, call, s.counter, None, [], None))
      && s'.queue == s.queue && s'.counter == s.counter + 1
  {
    steps := OneMore(c, s, [], Enter(t, call));
    steps := OneMore(c, s, steps, Advance(t));
  }

  lemma PullsOne(c: Config, s: State, t: nat, call: Call) returns (steps: seq<Step>, doc: string)
    requires c.multi && c.workers <= t < |s.threads| && s.threads[t].frames == [] && !s.dead && call.name != "lidl"
    ensures IsRun(c, s, steps)
    ensures
      var s' := After(c, s, steps);
      && Alone(s, s', t, Frame(Caller, Pulled, call, s.counter, s.listener, doc, None))
      && s'.queue == s.queue && s'.counter == s.counter + 1
  {
    steps := NumbersOne(c, s, t, call);
    steps := OneMore(c, s, steps, Advance(t));
    steps := OneMore(c, s, steps, Advance(t));
    doc := Innermost(After(c, s, steps).threads[t]).doc;
  }

  /** A thread outside the pool takes a deferred call to its queue. */
  lemma QueuesOne(c: Config, s: State, t: nat, call: Call) returns (steps: seq<Step>, doc: string)
    requires c.multi && c.workers <= t < |s.threads| && s.threads[t].frames == [] && !s.dead && call.name != "lidl"
    ensures IsRun(c, s, steps)
    ensures
      var s' := After(c, s, steps);
      && Alone(s, s', t, Frame(Caller, Queued, call, s.counter, s.listener, doc, None))
      && s'.queue == s.queue + [Deferral(call, s.counter, s.listener, doc)] && s'.counter == s.counter + 1
  {
    steps, doc := PullsOne(c, s, t, call);
    steps := OneMore(c, s, steps, Advance(t));
  }

  function OfJob(job: Deferral, pc: Pc, reply: Option<string>): Frame {
    Frame(Worker, pc, job.call, job.id, job.listener, job.doc, reply)
  }

  /** An idle pool thread takes the oldest job to its handler. */
  lemma TakesOne(c: Config, s: State, t: nat) returns (steps: seq<Step>)
    requires c.multi && t < c.workers && t < |s.threads| && s.threads[t].frames == [] && s.queue != [] && !s.dead
    ensures IsRun(c, s, steps)
    ensures
      var s' := After(c, s, steps);
      && |s'.threads| == |s.threads| && s'.threads[t].frames == [OfJob(s.queue[0], Handling, None)]
      && s'.replies == s.replies && !s'.dead && s'.done == s.done && s'.counter == s.counter
  {
    steps := OneMore(c, s, [], Take(t));
    steps := OneMore(c, s, steps, Advance(t));
    steps := OneMore(c, s, steps, Advance(t));
  }

  /** Its handler returns a reply. */
  lemma AnswersOne(c: Config, s: State, t: nat, job: Deferral, reply: Option<string>) returns (steps: seq<Step>)
    requires t < |s.threads| && s.threads[t].frames == [OfJob(job, Handling, None)] && !s.dead
    ensures IsRun(c, s, steps)
    ensures
      var s' := After(c, s, steps);
      && |s'.threads| == |s.threads| && s'.threads[t].frames == [OfJob(job, Popped, reply)]
      && !s'.dead && s'.done == s.done && s'.counter == s.counter
  {
    steps := OneMore(c, s, [], Finish(t, reply));
    steps := OneMore(c, s, steps, Advance(t));
  }

  /** Any call can be the first to be deferred and answered, with any reply. */
  lemma AnswersFirst(c: Config, threads: nat, call: Call, reply: Option<string>)
    returns (steps: seq<Step>, job: Deferral)
    requires c.multi && 0 < c.workers < threads && call.name != "lidl"
    ensures IsRun(c, Initial(threads), steps) && job.call == call
    ensures
      var s := After(c, Initial(threads), steps);
      && |s.threads| == threads && s.threads[0].frames == [OfJob(job, Popped, reply)]
      && !s.dead && s.done == [] && s.counter == 1
  {
    var s0 := Initial(threads);
    var doc;
    steps, doc := QueuesOne(c, s0, c.workers, call);
    job := Deferral(call, 0, None, doc);
    var more := TakesOne(c, After(c, s0, steps), 0);
    RunsJoin(c, s0, steps, more);
    steps := steps + more;
    more := AnswersOne(c, After(c, s0, steps), 0, job, reply);
    RunsJoin(c, s0, steps, more);
    steps := steps + more;
  }

  /** It does happen, to any deferred call and any reply that throws: the call is numbered,
      the process dies, and nothing was completed. */
  lemma AThrowingReplyLosesItsCall(c: Config, threads: nat, call: Call, reply: Option<string>)
    returns (steps: seq<Step>)
    requires c.multi && 0 < c.workers < threads && call.name != "lidl"
    requires ReplyAnswer(c.mod, call.name, call.noArgs, reply, c.abi) == Throws
    ensures IsRun(c, Initial(threads), steps)
    ensures
      var s := After(c, Initial(threads), steps);
      s.dead && s.counter == 1 && s.done == [] && !CompletedOnce(s, 0)
  {
    var s0 := Initial(threads);
    var job;
    steps, job := AnswersFirst(c, threads, call, reply);
    assert job.call == call && After(c, s0, steps).threads[0].frames == [OfJob(job, Popped, reply)];
    steps := OneMore(c, s0, steps, Advance(0));
  }

  // ---------------------------------------------------------------------------
  // Caller attribution
  // ---------------------------------------------------------------------------

  /** Across threads and under any re-entrancy on one thread, what a handler reads is the
      document pulled for that very call on the thread it was delivered on. */
  lemma HandlersReadTheirOwnCaller(c: Config, threads: nat, s: State, i: nat)
    requires (c.multi ==> c.workers <= threads) && Reachable(c, threads, s)
    requires i < |s.looks|
    ensures
      var look := s.looks[i];
      look.document == if look.call.reachable && look.call.entry != [] then look.call.entry else c.unknown
    ensures s.looks[i].document != []
  {
    ReachableInv(c, threads, s);
  }

  /** A blocking call is delivered and pulls its caller. */
  lemma PullsFirst(c: Config, s: State, t: nat, call: Call) returns (steps: seq<Step>)
    requires !c.multi && t < |s.threads| && !s.dead && call.name != "lidl"
    requires s.threads[t].frames == [] || Innermost(s.threads[t]).pc == Handling
    ensures IsRun(c, s, steps)
    ensures
      var f, th := Frame(Caller, Ready, call, 0, None, Attribution(c, call), None), s.threads[t];
      After(c, s, steps)
      == s.(threads := s.threads[t := Thread(th.frames + [f], th.callers, th.scopes + [call.entry])])
  {
    steps := OneMore(c, s, [], Enter(t, call));
    var s' := After(c, s, steps);
    assert Pull(c, call.reachable, s'.threads[t].scopes) == Attribution(c, call);
    assert Below(s'.threads[t]) == s.threads[t].frames;
    steps := OneMore(c, s, steps, Advance(t));
  }

  /** A blocking call, delivered on an idle thread or while a handler runs there, gets to its
      own handler with its own document on top. */
  lemma DeliversOne(c: Config, s: State, t: nat, call: Call) returns (steps: seq<Step>)
    requires !c.multi && t < |s.threads| && !s.dead && call.name != "lidl"
    requires s.threads[t].frames == [] || Innermost(s.threads[t]).pc == Handling
    ensures IsRun(c, s, steps)
    ensures
      var doc, th := Attribution(c, call), s.threads[t];
      var f := Frame(Caller, Handling, call, 0, None, doc, None);
      After(c, s, steps)
      == s.(threads := s.threads[t := Thread(th.frames + [f], th.callers + [doc], th.scopes + [call.entry])])
  {
    steps := PullsFirst(c, s, t, call);
    assert Below(After(c, s, steps).threads[t]) == s.threads[t].frames;
    steps := OneMore(c, s, steps, Advance(t));
    assert Below(After(c, s, steps).threads[t]) == s.threads[t].frames;
    steps := OneMore(c, s, steps, Advance(t));
  }

  /** It returns, and the thread is as it was before the delivery. */
  lemma ReturnsOne(c: Config, s: State, t: nat, f: Frame, th: Thread, reply: Option<string>)
    returns (steps: seq<Step>)
    requires t < |s.threads| && !s.dead && f.kind == Caller && f.pc == Handling
    requires s.threads[t] == Thread(th.frames + [f], th.callers + [f.doc], th.scopes + [f.call.entry])
    ensures IsRun(c, s, steps) && After(c, s, steps) == s.(threads := s.threads[t := th])
  {
    steps := OneMore(c, s, [], Finish(t, reply));
    assert Below(After(c, s, steps).threads[t]) == th.frames;
    steps := OneMore(c, s, steps, Advance(t));
    assert Below(After(c, s, steps).threads[t]) == th.frames;
    assert After(c, s, steps).threads[t].callers == th.callers;
    steps := OneMore(c, s, steps, Advance(t));
    assert After(c, s, steps).threads[t] == th;
  }

  /** A whole call in which the handler reads its caller once adds that look and changes nothing
      else, on an idle thread as inside another handler. */
  lemma LooksOne(c: Config, s: State, t: nat, call: Call, reply: Option<string>) returns (steps: seq<Step>)
    requires !c.multi && t < |s.threads| && !s.dead && call.name != "lidl"
    requires s.threads[t].frames == [] || Innermost(s.threads[t]).pc == Handling
    ensures IsRun(c, s, steps)
    ensures After(c, s, steps) == s.(looks := s.looks + [Seen(call, Attribution(c, call))])
  {
    var f := Frame(Caller, Handling, call, 0, None, Attribution(c, call), None);
    steps := DeliversOne(c, s, t, call);
    steps := OneMore(c, s, steps, Look(t));
    var seen := After(c, s, steps);
    var back := ReturnsOne(c, seen, t, f, s.threads[t], reply);
    RunsJoin(c, s, steps, back);
    steps := steps + back;
    assert s.threads[t := seen.threads[t]][t := s.threads[t]] == s.threads;
  }

  /** A handler that is called back into its own thread still reads its own caller after the
      inner call has read another and returned; for any two calls there is such a run. */
  lemma NestedCallsReadTheirOwnCallers(c: Config, outer: Call, inner: Call, reply: Option<string>)
    returns (steps: seq<Step>)
    requires !c.multi && outer.name != "lidl" && inner.name != "lidl"
    ensures IsRun(c, Initial(1), steps)
    ensures
      var o, i := Seen(outer, Attribution(c, outer)), Seen(inner, Attribution(c, inner));
      After(c, Initial(1), steps).looks == [o, i, o]
  {
    var s0 := Initial(1);
    steps := DeliversOne(c, s0, 0, outer);
    steps := OneMore(c, s0, steps, Look(0));
    var handling := After(c, s0, steps);
    var more := LooksOne(c, handling, 0, inner, reply);
    more := OneMore(c, handling, more, Look(0));
    RunsJoin(c, s0, steps, more);
    steps := steps + more;
  }

  lemma {:induction false} DocsAreNeverEmpty(c: Config, frames: seq<Frame>)
    requires forall k :: 0 <= k < |frames| ==> FrameOk(c, frames[k])
    ensures forall k :: 0 <= k < |PushedDocs(frames)| ==> PushedDocs(frames)[k] != []
  {
    if frames != [] {
      DocsAreNeverEmpty(c, frames[..|frames| - 1]);
    }
  }

  /** A thread's pushed callers are exactly those of the activations still between their
      push and their pop: every return path has restored the stack it found, and no empty
      document was ever pushed. */
  lemma CallerStacksAreRestored(c: Config, threads: nat, s: State, t: nat)
    requires (c.multi ==> c.workers <= threads) && Reachable(c, threads, s)
    requires t < |s.threads|
    ensures s.threads[t].callers == PushedDocs(s.threads[t].frames)
    ensures s.threads[t].frames == [] ==> s.threads[t].callers == [] && s.threads[t].scopes == []
    ensures forall k :: 0 <= k < |s.threads[t].callers| ==> s.threads[t].callers[k] != []
  {
    ReachableInv(c, threads, s);
    DocsAreNeverEmpty(c, s.threads[t].frames);
  }

  // ---------------------------------------------------------------------------
  // The bound
  // ---------------------------------------------------------------------------

  /** The threads on which a deferred call's handler or its bracket is running. */
  ghost function Busy(s: State): set<nat> {
    set t: nat, k: nat | t < |s.threads| && k < |s.threads[t].frames| && s.threads[t].frames[k].kind == Worker :: t
  }

  /** At most the configured number of workers run at once, one job each. */
  lemma WorkersAreBounded(c: Config, threads: nat, s: State)
    requires c.multi && c.workers <= threads && Reachable(c, threads, s)
    ensures |Busy(s)| <= c.workers
    ensures forall t, k :: 0 <= t < |s.threads| && 0 < k < |s.threads[t].frames| ==>
              s.threads[t].frames[k].kind == Caller
  {
    ReachableInv(c, threads, s);
    var pool := Pool(c.workers);
    SubsetSize(Busy(s), pool);
  }

  function Pool(n: nat): (pool: set<nat>)
    ensures |pool| == n && forall t: nat :: t in pool <==> t < n
  {
    if n == 0 then {} else Pool(n - 1) + {n - 1}
  }

  lemma {:induction false} SubsetSize(a: set<nat>, b: set<nat>)
    requires a <= b
    ensures |a| <= |b|
  {
    if a != {} {
      var x :| x in a;
      SubsetSize(a - {x}, b - {x});
    }
  }
}
