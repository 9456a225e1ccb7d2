/** The transition system of DeferredDispatch takes the emitted programs' own statements: in
    their emitted order, and each with the effect the interpreter gives it. */
module EmittedSteps {
  import opened Options
  import CallIds
  import opened GlueLanguage
  import opened GlueEmitter
  import D = DeferredDispatch

  type Pc = D.Pc

  // ---------------------------------------------------------------------------
  // Their order
  // ---------------------------------------------------------------------------

  /** Other threads, the host or the handler can notice it. */
  predicate Noticeable(s: Stmt) {
    match s
    case Let(_, e) => e.Pull?
    case NextCallId(_) => true
    case CopyListener(_) => true
    case StartWorker(_, _) => true
    case PushCaller(_) => true
    case Dispatch(_, _, _) => true
    case PopCaller => true
    case Notify(_, _, _) => true
    case _ => false
  }

  /** The noticeable statements of a program, in order. */
  function Visible(b: Block): seq<Stmt> {
    match b
    case End => []
    case Then(s, rest) => VisibleOf(s) + Visible(rest)
  }

  function VisibleOf(s: Stmt): seq<Stmt> {
    match s
    case IfElse(_, yes, no) => Visible(yes) + Visible(no)
    case _ => if Noticeable(s) then [s] else []
  }

  lemma {:induction false} VisibleAppend(a: Block, b: Block)
    ensures Visible(Append(a, b)) == Visible(a) + Visible(b)
  {
    match a
    case End =>
    case Then(s, rest) => VisibleAppend(rest, b);
  }

  /** What an activation executes: callMethod after its arguments are marshalled, in the
      deferred or the blocking form, or the pool's lambda. */
  function Emitted(c: D.Config, p: Protocol, kind: D.Kind): Block {
    var voids, results := VoidNames(c.mod.methods), ResultNames(c.mod.methods);
    if kind == D.Worker then WorkerBody(c.mod, voids, results, p)
    else if c.multi then MultiDispatch(c.mod, voids, results, p)
    else SingleDispatch(c.mod, voids, results, p)
  }

  /** Where an activation is before each of its noticeable statements. */
  function Stations(kind: D.Kind, multi: bool): (stations: seq<Pc>)
    ensures |stations| == 4
  {
    if kind == D.Worker then [D.Ready, D.Pushed, D.Replied, D.Popped]
    else if multi then [D.Entered, D.Numbered, D.Copied, D.Pulled]
    else [D.Entered, D.Ready, D.Pushed, D.Replied]
  }

  predicate AtStation(kind: D.Kind, multi: bool, pc: Pc) {
    if kind == D.Worker then pc.Ready? || pc.Pushed? || pc.Replied? || pc.Popped?
    else if multi then pc.Entered? || pc.Numbered? || pc.Copied? || pc.Pulled?
    else pc.Entered? || pc.Ready? || pc.Pushed? || pc.Replied?
  }

  /** The method's name, where an activation keeps it. */
  function Called(kind: D.Kind, multi: bool): Local {
    if kind == D.Caller && !multi then MethodName else MethodCopy
  }

  function Starting(c: D.Config, p: Protocol): Stmt {
    StartWorker(Captures(VoidNames(c.mod.methods), ResultNames(c.mod.methods)), Emitted(c, p, D.Worker))
  }

  /** The statement executed at a station. */
  function NextStatement(c: D.Config, p: Protocol, kind: D.Kind, pc: Pc): Stmt
    requires AtStation(kind, c.multi, pc)
  {
    if pc.Pulled? then Starting(c, p) else Plain(kind, c.multi, pc)
  }

  function Plain(kind: D.Kind, multi: bool, pc: Pc): Stmt {
    if pc.Entered? && multi then NextCallId(CallIdVar)
    else if pc.Numbered? then CopyListener(EventCb)
    else if pc.Entered? || pc.Copied? then Let(CallerJson, Pull)
    else if pc.Ready? then PushCaller(Name(CallerJson))
    else if pc.Pushed? then Dispatch(ResultPtr, Called(kind, multi), Dumped)
    else if pc.Replied? then PopCaller
    else Notify(EventCb, CallIdVar, ValueVar)
  }

  lemma QuietFlags(voids: seq<string>, results: seq<string>)
    ensures Visible(Flags(voids, results)) == []
  {
    VisibleAppend(if results == [] then End else One(Let(IsResultMethod, On(OneOf(results), MethodName))),
                  if voids == [] then End else One(Let(IsVoidMethod, On(OneOf(voids), MethodName))));
  }

  lemma QuietThen(s: Stmt, rest: Block)
    requires Visible(rest) == [] && if s.IfElse? then Visible(s.yes) == Visible(s.no) == [] else !Noticeable(s)
    ensures Visible(Then(s, rest)) == []
  {
  }

  lemma NoticedThen(s: Stmt, rest: Block)
    requires Noticeable(s)
    ensures Visible(Then(s, rest)) == [s] + Visible(rest)
  {
  }

  lemma QuietFill(last: Stmt)
    requires !Noticeable(last) && !last.IfElse?
    ensures Visible(FillResult(last)) == []
  {
    QuietThen(last, End);
    QuietThen(SetError(), One(last));
    QuietThen(SetValue(), Then(SetError(), One(last)));
  }

  lemma QuietReply(voids: seq<string>, results: seq<string>)
    ensures Visible(WorkerReply(voids, results)) == []
  {
    var plain := One(Set(ValueVar, On(ToVariant, JResult)));
    QuietFill(Set(ValueVar, Lr()));
    QuietThen(Set(ValueVar, On(ToVariant, JResult)), End);
    assert Visible(plain) == [] && Visible(WorkerOrdinary(results)) == [];
    QuietThen(Set(ValueVar, VoidReply()), End);
    QuietThen(Let(RejectedFlag, Rejected()), One(Set(ValueVar, VoidReply())));
    assert Visible(WorkerDecode(voids, results)) == [];
    var decode := When(Apply(Negate, On(IsDiscarded, JResult)), WorkerDecode(voids, results));
    QuietThen(decode, End);
    QuietThen(Free(ResultPtr), One(decode));
  }

  /** A worker's decoding of a reply is invisible to others, and so is its answer until the
      report. */
  lemma WorkerTailVisible(m: ModuleDecl, voids: seq<string>, results: seq<string>)
    ensures Visible(WorkerTail(m, voids, results)) == [Notify(EventCb, CallIdVar, ValueVar)]
  {
    var absent := One(Set(ValueVar, NullAnswer(Name(MethodCopy), On(SameText("[]"), Dumped), m.name)));
    var branch := IfElse(Apply(Negate, On(IsNull, ResultPtr)), WorkerReply(voids, results), absent);
    var report := One(Notify(EventCb, CallIdVar, ValueVar));
    QuietReply(voids, results);
    QuietThen(absent.head, End);
    NoticedThen(report.head, End);
    assert VisibleOf(branch) == [] + [] == [];
    assert Visible(Then(branch, report)) == [] + Visible(report);
  }

  lemma SingleTailQuiet(m: ModuleDecl, voids: seq<string>, results: seq<string>)
    ensures Visible(SingleTail(m, voids, results)) == []
  {
    var absent := One(Return(NullAnswer(Name(MethodName), On(NoArgs, ArgList), m.name)));
    var parsed := Then(Free(ResultPtr), SingleParsed(voids, results));
    QuietThen(absent.head, End);
    SingleReplyQuiet(voids, results);
    QuietThen(Return(ABSENT), End);
    QuietThen(When(On(IsDiscarded, JResult), One(Return(ABSENT))), SingleReply(voids, results));
    QuietThen(Free(ResultPtr), SingleParsed(voids, results));
    QuietThen(Let(JResult, On(Parse, ResultPtr)), parsed);
    QuietThen(When(On(IsNull, ResultPtr), absent), Then(Let(JResult, On(Parse, ResultPtr)), parsed));
  }

  lemma SingleReplyQuiet(voids: seq<string>, results: seq<string>)
    ensures Visible(SingleReply(voids, results)) == []
  {
    var reply := One(Return(On(ToVariant, JResult)));
    QuietFill(Return(Lr()));
    QuietThen(reply.head, End);
    QuietThen(When(Both(On(OneOf(results), MethodName), On(IsObject, JResult)), FillResult(Return(Lr()))), reply);
    assert Visible(SingleResult(results)) == [];
    var refused := Then(Let(RejectedFlag, Rejected()), One(Return(VoidReply())));
    QuietThen(Return(VoidReply()), End);
    QuietThen(refused.head, refused.tail);
    QuietThen(When(On(OneOf(voids), MethodName), refused), SingleResult(results));
  }

  /** Push, dispatch, pop, and what follows, in either form. */
  lemma BracketVisible(called: Local, tail: Block)
    ensures
      Visible(Append(One(PushCaller(Name(CallerJson))),
                     Then(Dispatch(ResultPtr, called, Dumped), Append(One(PopCaller), tail))))
      == [PushCaller(Name(CallerJson)), Dispatch(ResultPtr, called, Dumped), PopCaller] + Visible(tail)
  {
    var push, call, pop := PushCaller(Name(CallerJson)), Dispatch(ResultPtr, called, Dumped), PopCaller;
    AppendOne(pop, tail);
    NoticedThen(pop, tail);
    NoticedThen(call, Then(pop, tail));
    AppendOne(push, Then(call, Then(pop, tail)));
    NoticedThen(push, Then(call, Then(pop, tail)));
    ThreeFirst(push, call, pop, Visible(tail));
  }

  lemma AppendOne(s: Stmt, rest: Block)
    ensures Append(One(s), rest) == Then(s, rest)
  {
    assert Append(End, rest) == rest;
  }

  lemma ThreeFirst(a: Stmt, b: Stmt, c: Stmt, rest: seq<Stmt>)
    ensures [a] + ([b] + ([c] + rest)) == [a, b, c] + rest
  {
  }

  lemma DeferVisible(c: D.Config, p: Protocol)
    requires c.multi
    ensures
      var voids, results := VoidNames(c.mod.methods), ResultNames(c.mod.methods);
      Visible(Defer(c.mod, voids, results, p))
      == [NextCallId(CallIdVar), CopyListener(EventCb), Let(CallerJson, Pull), Starting(c, p)]
  {
    var voids, results := VoidNames(c.mod.methods), ResultNames(c.mod.methods);
    var end := One(Return(On(PendingMap, CallIdVar)));
    var start := Then(StartWorker(Captures(voids, results), WorkerBody(c.mod, voids, results, p)), end);
    QuietThen(end.head, End);
    NoticedThen(start.head, end);
    var pull := Then(Let(CallerJson, Pull), start);
    NoticedThen(pull.head, start);
    var copy := Then(CopyListener(EventCb), pull);
    NoticedThen(copy.head, pull);
    NoticedThen(NextCallId(CallIdVar), copy);
  }

  lemma WorkerVisible(c: D.Config, p: Protocol)
    requires AtLeast(p, CALLER_MINOR)
    ensures Visible(Emitted(c, p, D.Worker))
         == [Plain(D.Worker, c.multi, D.Ready), Plain(D.Worker, c.multi, D.Pushed),
             Plain(D.Worker, c.multi, D.Replied), Plain(D.Worker, c.multi, D.Popped)]
  {
    var voids, results := VoidNames(c.mod.methods), ResultNames(c.mod.methods);
    WorkerTailVisible(c.mod, voids, results);
    BracketVisible(MethodCopy, WorkerTail(c.mod, voids, results));
  }

  lemma DeferredVisible(c: D.Config, p: Protocol)
    requires c.multi
    ensures Visible(Emitted(c, p, D.Caller))
         == [Plain(D.Caller, true, D.Entered), Plain(D.Caller, true, D.Numbered), Plain(D.Caller, true, D.Copied),
             Starting(c, p)]
  {
    var voids, results := VoidNames(c.mod.methods), ResultNames(c.mod.methods);
    var body := Append(Flags(voids, results), Defer(c.mod, voids, results, p));
    QuietFlags(voids, results);
    DeferVisible(c, p);
    VisibleAppend(Flags(voids, results), Defer(c.mod, voids, results, p));
    assert Emitted(c, p, D.Caller) == Then(Let(MethodCopy, Name(MethodName)), body);
  }

  lemma BlockingVisible(c: D.Config, p: Protocol)
    requires !c.multi && AtLeast(p, CALLER_MINOR)
    ensures Visible(Emitted(c, p, D.Caller))
         == [Plain(D.Caller, false, D.Entered), Plain(D.Caller, false, D.Ready), Plain(D.Caller, false, D.Pushed),
             Plain(D.Caller, false, D.Replied)]
  {
    var voids, results := VoidNames(c.mod.methods), ResultNames(c.mod.methods);
    var tail := SingleTail(c.mod, voids, results);
    SingleTailQuiet(c.mod, voids, results);
    BracketVisible(MethodName, tail);
    var rest := Then(Dispatch(ResultPtr, MethodName, Dumped), Append(One(PopCaller), tail));
    assert Emitted(c, p, D.Caller) == Append(Then(Let(CallerJson, Pull), One(PushCaller(Name(CallerJson)))), rest);
  }

  /** For every module, the noticeable statements of each emitted program are the ones the
      transition system takes at its stations. */
  lemma EmittedAtStations(c: D.Config, p: Protocol, kind: D.Kind)
    requires AtLeast(p, CALLER_MINOR)
    ensures
      var visible, at := Visible(Emitted(c, p, kind)), Stations(kind, c.multi);
      && (forall k :: 0 <= k < 4 ==> AtStation(kind, c.multi, at[k]))
      && visible == [NextStatement(c, p, kind, at[0]), NextStatement(c, p, kind, at[1]),
                     NextStatement(c, p, kind, at[2]), NextStatement(c, p, kind, at[3])]
  {
    if kind == D.Worker {
      WorkerVisible(c, p);
    } else if c.multi {
      DeferredVisible(c, p);
    } else {
      BlockingVisible(c, p);
    }
  }

  /** The system takes an activation from each station to the next, through the handler at
      the dispatch, and after the last to its return. */
  lemma StepsFollowTheEmittedPath(c: D.Config, s: D.State, t: nat, k: nat)
    requires D.Enabled(c, s, D.Advance(t))
    requires
      var f := D.Innermost(s.threads[t]);
      (f.kind == D.Caller ==> f.call.name != "lidl") && k < 4 && Stations(f.kind, c.multi)[k] == f.pc
    ensures
      var f, next := D.Innermost(s.threads[t]), D.Next(c, s, t);
      if k + 1 < 4 then
        next.Some? && next.value.pc == if f.pc.Pushed? then D.Handling else Stations(f.kind, c.multi)[k + 1]
      else if f.kind == D.Worker then next == None
      else next.Some? && next.value.pc == if c.multi then D.Queued else D.Popped
  {
  }

  // ---------------------------------------------------------------------------
  // Their effect
  // ---------------------------------------------------------------------------

  /** What a statement on thread t finds: its own thread's callers, and the shared counter
      and listener as they are then. The rest is the interpreter's own record. */
  function View(s: D.State, t: nat, m: Machine): Machine
    requires t < |s.threads|
  {
    m.(callers := s.threads[t].callers, calls := s.counter, listener := s.listener)
  }

  predicate Bound(env: Env, x: Local, v: Value) { x in env && env[x] == v }

  /** The locals an activation has bound hold what the system says of it. */
  predicate Knows(f: D.Frame, multi: bool, instance: CallIds.InstanceId, env: Env) {
    && Bound(env, Called(f.kind, multi), VStr(f.call.name))
    && (f.kind == D.Worker || D.Deferring(f.pc) ==> Bound(env, CallIdVar, VStr(CallIds.CallId(instance, f.id))))
    && (f.kind == D.Worker || (D.Deferring(f.pc) && !f.pc.Numbered?) ==> Bound(env, EventCb, VListener(f.listener)))
    && (!f.pc.Entered? && !f.pc.Numbered? && !f.pc.Copied? ==> Bound(env, CallerJson, VStr(f.doc)))
  }

  /** What the noticeable statements from here on declare. */
  function Undeclared(kind: D.Kind, multi: bool, pc: Pc): set<Local> {
    if pc.Entered? then if multi then {CallIdVar, EventCb, CallerJson} else {CallerJson, ResultPtr}
    else if pc.Numbered? then {EventCb, CallerJson}
    else if pc.Copied? then {CallerJson}
    else if pc.Ready? || pc.Pushed? then {ResultPtr}
    else {}
  }

  /** What they declare is new, and what the worker's lambda captures is, or will be, bound. */
  predicate CanRun(c: D.Config, f: D.Frame, env: Env) {
    && Undeclared(f.kind, c.multi, f.pc) !! env.Keys
    && (f.kind == D.Caller && c.multi ==> Starts(c, env.Keys + Undeclared(f.kind, c.multi, f.pc)))
  }

  predicate Starts(c: D.Config, bound: set<Local>) {
    Captures(VoidNames(c.mod.methods), ResultNames(c.mod.methods)) <= bound
  }

  /** An activation on thread t, at a station, whose locals are in order. */
  predicate Poised(c: D.Config, s: D.State, t: nat, instance: CallIds.InstanceId, env: Env) {
    && D.Enabled(c, s, D.Advance(t))
    && var f := D.Innermost(s.threads[t]);
       && AtStation(f.kind, c.multi, f.pc) && (f.kind == D.Caller ==> f.call.name != "lidl")
       && Knows(f, c.multi, instance, env) && CanRun(c, f, env)
  }

  function Interpreted(c: D.Config, p: Protocol, s: D.State, t: nat, env: Env, m: Machine, abi: Abi): Result
    requires Poised(c, s, t, m.instance, env)
  {
    var f := D.Innermost(s.threads[t]);
    Step(NextStatement(c, p, f.kind, f.pc), env, View(s, t, m), abi)
  }

  /** The thread has an activation whose locals are in order. */
  predicate Ordered(c: D.Config, s: D.State, t: nat, instance: CallIds.InstanceId, env: Env) {
    && t < |s.threads| && s.threads[t].frames != []
    && Knows(D.Innermost(s.threads[t]), c.multi, instance, env) && CanRun(c, D.Innermost(s.threads[t]), env)
  }

  /** A statement's locals: what it binds is what the activation then knows. */
  lemma OpeningLocals(c: D.Config, f: D.Frame, f': D.Frame, instance: CallIds.InstanceId, env: Env, x: Local, v: Value)
    requires Knows(f, c.multi, instance, env) && CanRun(c, f, env)
    requires f.kind == f'.kind == D.Caller && f'.call == f.call
    requires
      || (f.pc.Entered? && c.multi && f'.pc.Numbered? && x == CallIdVar && v == VStr(CallIds.CallId(instance, f'.id)))
      || (f.pc.Entered? && !c.multi && f'.pc.Ready? && x == CallerJson && v == VStr(f'.doc))
      || (f.pc.Numbered? && f'.pc.Copied? && f'.id == f.id && x == EventCb && v == VListener(f'.listener))
      || (f.pc.Copied? && f'.pc.Pulled? && f'.id == f.id && f'.listener == f.listener
          && x == CallerJson && v == VStr(f'.doc))
    ensures x !in env && Knows(f', c.multi, instance, env[x := v]) && CanRun(c, f', env[x := v])
  {
  }

  lemma OpeningMeans(multi: bool, f: D.Frame, f': D.Frame, env: Env, m: Machine, abi: Abi, x: Local, v: Value)
    requires f.kind == D.Caller && x !in env
    requires
      || (f.pc.Entered? && multi && x == CallIdVar && f'.id == m.calls && v == VStr(CallIds.CallId(m.instance, f'.id)))
      || (((f.pc.Entered? && !multi) || f.pc.Copied?) && x == CallerJson && f'.doc == abi.pulled && v == VStr(f'.doc))
      || (f.pc.Numbered? && x == EventCb && f'.listener == m.listener && v == VListener(f'.listener))
    ensures Step(Plain(f.kind, multi, f.pc), env, m, abi)
         == Normal(env[x := v], if f.pc.Entered? && multi then m.(calls := m.calls + 1) else m)
  {
  }

  lemma BracketLocals(c: D.Config, f: D.Frame, pc: Pc, instance: CallIds.InstanceId, env: Env)
    requires Knows(f, c.multi, instance, env) && CanRun(c, f, env)
    requires (f.pc.Ready? && pc.Pushed?) || (f.pc.Replied? && pc.Popped?)
    ensures Knows(f.(pc := pc), c.multi, instance, env) && CanRun(c, f.(pc := pc), env)
  {
  }

  /** A station before the dispatch or after it, and what one step makes of the state. */
  lemma Advances(c: D.Config, s: D.State, t: nat)
    requires D.Enabled(c, s, D.Advance(t)) && D.Next(c, s, t).Some? && !D.Innermost(s.threads[t]).pc.Popped?
    ensures
      var f, s' := D.Innermost(s.threads[t]), D.Apply(c, s, D.Advance(t));
      && t < |s'.threads| && s'.threads[t].frames != [] && D.Innermost(s'.threads[t]) == D.Next(c, s, t).value
      && s'.counter == s.counter + (if f.pc.Entered? && c.multi then 1 else 0)
      && s'.listener == s.listener && s'.done == s.done
      && (!f.pc.Pulled? ==> s'.queue == s.queue)
      && (!f.pc.Ready? && !f.pc.Replied? ==> s'.threads[t].callers == s.threads[t].callers)
  {
  }

  /** Up to the pull, in either form: interpreting the statement on what the thread finds
      gives what the thread finds after the system's step, with the locals that go with it. */
  lemma OpeningStatement(c: D.Config, p: Protocol, s: D.State, t: nat, env: Env, m: Machine, abi: Abi)
    requires Poised(c, s, t, m.instance, env)
    requires var f := D.Innermost(s.threads[t]); f.pc.Entered? || f.pc.Numbered? || f.pc.Copied?
    requires abi.pulled == D.Pull(c, D.Innermost(s.threads[t]).call.reachable, s.threads[t].scopes)
    ensures
      var s', r := D.Apply(c, s, D.Advance(t)), Interpreted(c, p, s, t, env, m, abi);
      && r.Normal? && Ordered(c, s', t, m.instance, r.env) && r.m == View(s', t, m)
      && s'.queue == s.queue && s'.done == s.done
  {
    var f := D.Innermost(s.threads[t]);
    var f' := D.Next(c, s, t).value;
    var (x, v) :=
      if f.pc.Entered? && c.multi then (CallIdVar, VStr(CallIds.CallId(m.instance, f'.id)))
      else if f.pc.Numbered? then (EventCb, VListener(f'.listener))
      else (CallerJson, VStr(f'.doc));
    Advances(c, s, t);
    OpeningLocals(c, f, f', m.instance, env, x, v);
    OpeningMeans(c.multi, f, f', env, View(s, t, m), abi, x, v);
  }

  lemma StartingAdvances(c: D.Config, s: D.State, t: nat)
    requires D.Enabled(c, s, D.Advance(t)) && D.Innermost(s.threads[t]).pc.Pulled?
    ensures
      var f, s' := D.Innermost(s.threads[t]), D.Apply(c, s, D.Advance(t));
      && t < |s'.threads| && s'.threads[t].callers == s.threads[t].callers
      && s'.counter == s.counter && s'.listener == s.listener
      && s'.queue == s.queue + [D.Deferral(f.call, f.id, f.listener, f.doc)]
  {
  }

  /** What the lambda captures. */
  lemma StartingLocals(c: D.Config, f: D.Frame, lambda: D.Frame, instance: CallIds.InstanceId, env: Env)
    requires Knows(f, c.multi, instance, env) && CanRun(c, f, env) && c.multi && f.kind == D.Caller && f.pc.Pulled?
    requires lambda.kind == D.Worker && lambda.pc.Ready? && lambda.call == f.call && lambda.id == f.id
    requires lambda.listener == f.listener && lambda.doc == f.doc
    ensures
      var captures := Captures(VoidNames(c.mod.methods), ResultNames(c.mod.methods));
      var captured: Env := map x | x in captures && x in env :: env[x];
      && Starts(c, env.Keys) && Knows(lambda, c.multi, instance, captured) && CanRun(c, lambda, captured)
  {
  }

  lemma StartingMeans(c: D.Config, p: Protocol, env: Env, m: Machine, abi: Abi)
    requires Starts(c, env.Keys)
    ensures
      var captures := Captures(VoidNames(c.mod.methods), ResultNames(c.mod.methods));
      var job := Job(map x | x in captures && x in env :: env[x], Emitted(c, p, D.Worker));
      Step(Starting(c, p), env, m, abi) == Normal(env, m.(jobs := m.jobs + [job]))
  {
    var captures := Captures(VoidNames(c.mod.methods), ResultNames(c.mod.methods));
    assert (map x | x in captures && x in env :: env[x]) == (map x | x in captures :: env[x]);
  }

  /** Starting the worker queues one job, whose captured locals are those of the queued call,
      and with which the lambda can run. */
  lemma StartingStatement(c: D.Config, p: Protocol, s: D.State, t: nat, env: Env, m: Machine, abi: Abi)
    requires Poised(c, s, t, m.instance, env) && D.Innermost(s.threads[t]).pc.Pulled?
    ensures
      var s', r := D.Apply(c, s, D.Advance(t)), Interpreted(c, p, s, t, env, m, abi);
      && r.Normal? && r.env == env && |r.m.jobs| == |m.jobs| + 1 && |s'.queue| == |s.queue| + 1
      && t < |s'.threads| && r.m.(jobs := m.jobs) == View(s', t, m)
      && var job, queued := r.m.jobs[|m.jobs|], s'.queue[|s.queue|];
         && job.body == Emitted(c, p, D.Worker)
         && Knows(D.OfJob(queued, D.Ready, None), c.multi, m.instance, job.env)
         && CanRun(c, D.OfJob(queued, D.Ready, None), job.env)
  {
    var f := D.Innermost(s.threads[t]);
    StartingAdvances(c, s, t);
    StartingLocals(c, f, D.OfJob(D.Deferral(f.call, f.id, f.listener, f.doc), D.Ready, None), m.instance, env);
    StartingMeans(c, p, env, View(s, t, m), abi);
  }

  /** There is something to push, and something to pop. */
  lemma BracketCallers(c: D.Config, s: D.State, t: nat)
    requires D.Shape(c, s) && D.Enabled(c, s, D.Advance(t))
    ensures
      var f, th, th' := D.Innermost(s.threads[t]), s.threads[t], D.Apply(c, s, D.Advance(t)).threads[t];
      && (f.pc.Ready? || f.pc.Replied? ==> f.doc != [])
      && (f.pc.Ready? ==> th'.callers == th.callers + [f.doc])
      && (f.pc.Replied? ==> th.callers != [] && th'.callers == th.callers[..|th.callers| - 1])
  {
    var f := D.Innermost(s.threads[t]);
    assert D.SlotOk(c, s, t, s.threads[t]) && D.FrameOk(c, f);
    D.ThreadTop(c, s.threads[t]);
    assert f.pc.Ready? || f.pc.Replied? ==> f.doc == D.Attribution(c, f.call);
  }

  lemma BracketMeans(f: D.Frame, env: Env, m: Machine, abi: Abi)
    requires Bound(env, CallerJson, VStr(f.doc)) && f.doc != []
    ensures Step(PushCaller(Name(CallerJson)), env, m, abi) == Normal(env, m.(callers := m.callers + [f.doc]))
    ensures m.callers != [] ==>
              Step(PopCaller, env, m, abi) == Normal(env, m.(callers := m.callers[..|m.callers| - 1]))
  {
  }

  /** The push and the pop around a dispatch, on the thread's own callers. */
  lemma BracketStatement(c: D.Config, p: Protocol, s: D.State, t: nat, env: Env, m: Machine, abi: Abi)
    requires D.Shape(c, s) && Poised(c, s, t, m.instance, env)
    requires var f := D.Innermost(s.threads[t]); f.pc.Ready? || f.pc.Replied?
    ensures
      var s' := D.Apply(c, s, D.Advance(t));
      Ordered(c, s', t, m.instance, env) && Interpreted(c, p, s, t, env, m, abi) == Normal(env, View(s', t, m))
  {
    var f := D.Innermost(s.threads[t]);
    Advances(c, s, t);
    BracketLocals(c, f, if f.pc.Ready? then D.Pushed else D.Popped, m.instance, env);
    BracketCallers(c, s, t);
    BracketMeans(f, env, View(s, t, m), abi);
  }

  /** What the interpreter makes of it. */
  lemma DispatchMeans(c: D.Config, f: D.Frame, args: string, env: Env, m: Machine, abi: Abi)
    requires Knows(f, c.multi, m.instance, env) && CanRun(c, f, env) && f.pc.Pushed?
    requires Bound(env, Dumped, VStr(args))
    ensures
      var reply := abi.dispatch(f.call.name, args);
      var f', r := f.(pc := D.Replied, reply := reply), Step(Plain(f.kind, c.multi, f.pc), env, m, abi);
      && r.Normal? && Knows(f', c.multi, m.instance, r.env) && CanRun(c, f', r.env)
      && Bound(r.env, ResultPtr, VCStr(reply)) && r.m.callers == m.callers
      && r.m.dispatched == m.dispatched + [Dispatched(f.call.name, args, Top(m.callers))]
  {
  }

  lemma IsOrdered(c: D.Config, s: D.State, t: nat, f: D.Frame, instance: CallIds.InstanceId, env: Env)
    requires t < |s.threads| && s.threads[t].frames != [] && D.Innermost(s.threads[t]) == f
    requires Knows(f, c.multi, instance, env) && CanRun(c, f, env)
    ensures Ordered(c, s, t, instance, env)
  {
  }

  /** Into the handler: from there it may look at its caller, and return any reply. */
  function Inside(c: D.Config, s: D.State, t: nat): (inside: D.State)
    requires D.Enabled(c, s, D.Advance(t)) && D.Innermost(s.threads[t]).pc.Pushed?
    ensures D.Enabled(c, inside, D.Look(t)) && forall reply :: D.Enabled(c, inside, D.Finish(t, reply))
    ensures inside.looks == s.looks && inside.threads[t].callers == s.threads[t].callers
    ensures D.Innermost(inside.threads[t]) == D.Innermost(s.threads[t]).(pc := D.Handling)
  {
    D.Apply(c, s, D.Advance(t))
  }

  /** What it sees when it looks. */
  function Glance(c: D.Config, s: D.State, t: nat): (seen: D.Seen)
    requires D.Enabled(c, s, D.Advance(t)) && D.Innermost(s.threads[t]).pc.Pushed?
    ensures seen.call == D.Innermost(s.threads[t]).call
    ensures s.threads[t].callers != [] ==> Top(s.threads[t].callers) == Some(seen.document)
  {
    var looks := D.Apply(c, Inside(c, s, t), D.Look(t)).looks;
    looks[|looks| - 1]
  }

  function Answering(c: D.Config, s: D.State, t: nat, reply: Option<string>): (s': D.State)
    requires D.Enabled(c, s, D.Advance(t)) && D.Innermost(s.threads[t]).pc.Pushed?
    ensures t < |s'.threads| && s'.threads[t].frames != [] && s'.threads[t].callers == s.threads[t].callers
    ensures D.Innermost(s'.threads[t]) == D.Innermost(s.threads[t]).(pc := D.Replied, reply := reply)
  {
    D.Apply(c, Inside(c, s, t), D.Finish(t, reply))
  }

  /** The dispatch: the handler that runs is the one asked for, the caller it may look at is
      the one pushed, and its reply is the activation's. */
  lemma DispatchStatement(c: D.Config, p: Protocol, s: D.State, t: nat, args: string, env: Env, m: Machine, abi: Abi)
    requires Poised(c, s, t, m.instance, env) && D.Innermost(s.threads[t]).pc.Pushed?
    requires s.threads[t].callers != [] && Bound(env, Dumped, VStr(args))
    ensures
      var f, seen := D.Innermost(s.threads[t]), Glance(c, s, t);
      var reply := abi.dispatch(f.call.name, args);
      var s', r := Answering(c, s, t, reply), Interpreted(c, p, s, t, env, m, abi);
      && r.Normal? && Ordered(c, s', t, m.instance, r.env) && Bound(r.env, ResultPtr, VCStr(reply))
      && seen.call == f.call && D.Innermost(s'.threads[t]).reply == reply
      && r.m.dispatched == m.dispatched + [Dispatched(f.call.name, args, Some(seen.document))]
      && r.m.callers == s'.threads[t].callers
  {
    var f := D.Innermost(s.threads[t]);
    var reply := abi.dispatch(f.call.name, args);
    DispatchMeans(c, f, args, env, View(s, t, m), abi);
    IsOrdered(c, Answering(c, s, t, reply), t, f.(pc := D.Replied, reply := reply), m.instance,
              Interpreted(c, p, s, t, env, m, abi).env);
  }

  /** A worker's report: one completion, to the captured listener under the captured id. */
  lemma ReportStatement(c: D.Config, p: Protocol, s: D.State, t: nat, v: Variant, env: Env, m: Machine, abi: Abi)
    requires Poised(c, s, t, m.instance, env) && D.Innermost(s.threads[t]).pc.Popped?
    requires
      var f := D.Innermost(s.threads[t]);
      && Bound(env, ValueVar, VVariant(v))
      && ReplyAnswer(c.mod, f.call.name, f.call.noArgs, f.reply, c.abi) == Answer(v)
    ensures
      var f, s' := D.Innermost(s.threads[t]), D.Apply(c, s, D.Advance(t));
      var r := Interpreted(c, p, s, t, env, m, abi);
      && r.Normal? && s'.done == s.done + [D.Done(f.id, f.call, f.listener, v)]
      && r.m.events == if f.listener.None? then m.events
                       else m.events + [Completion(f.listener.value, CallIds.CallId(m.instance, f.id), v)]
  {
  }
}
