/** Both emitted callMethod bodies compute the same reference function: same answer, one
    dispatch with the same method and arguments, on behalf of the caller pulled on the
    dispatch thread, nothing left pushed and nothing left unfreed. */
module GlueMeaning {
  import opened Options
  import opened GlueLanguage
  import opened GlueEmitter
  import CallIds
  import StringLiteral

  // ---------------------------------------------------------------------------
  // Emitted pieces, one at a time
  // ---------------------------------------------------------------------------

  function CallEnv(name: string, args: seq<Variant>): Env {
    map[MethodName := VStr(name), ArgList := VArgs(args)]
  }

  /** lidl called with arguments. */
  lemma MisuseMeans(mod: ModuleDecl, document: string, rest: Block, args: seq<Variant>, env: Env, m: Machine, abi: Abi)
    requires args != [] && Err !in env && ArgList in env && env[ArgList] == VArgs(args)
    ensures
      var misuse := Then(Let(Err, On(ArityError(mod.name), ArgList)), One(Return(On(ToVariant, Err))));
      Exec(Then(When(Apply(Negate, On(NoArgs, ArgList)), misuse), rest), env, m, abi)
      == Returned(LidlAnswer(mod, document, args, abi), m)
  {
    var misuse := Then(Let(Err, On(ArityError(mod.name), ArgList)), One(Return(On(ToVariant, Err))));
    ApplyToName(NoArgs, ArgList, env, abi);
    assert Eval(Apply(Negate, On(NoArgs, ArgList)), env, abi) == Val(VBool(true));
    ApplyToName(ArityError(mod.name), ArgList, env, abi);
    var env' := env[Err := VJson(ArityJson(|args|, mod.name))];
    ApplyToName(ToVariant, Err, env', abi);
    assert Exec(One(Return(On(ToVariant, Err))), env', m, abi) == Returned(LidlAnswer(mod, document, args, abi), m);
    ThenStep(Let(Err, On(ArityError(mod.name), ArgList)), One(Return(On(ToVariant, Err))), env, m, env', m, abi);
    TakeWhen(Apply(Negate, On(NoArgs, ArgList)), misuse, End, rest, env, m, abi);
  }

  lemma BuiltInMeans(mod: ModuleDecl, document: string, name: string, args: seq<Variant>, m: Machine, abi: Abi)
    ensures Exec(BuiltInLidl(mod, document), CallEnv(name, args), m, abi)
         == if name == "lidl" then Returned(LidlAnswer(mod, document, args, abi), m)
            else Normal(CallEnv(name, args), m)
  {
    var env := CallEnv(name, args);
    var misuse := Then(Let(Err, On(ArityError(mod.name), ArgList)), One(Return(On(ToVariant, Err))));
    var answer := One(Return(Utf8(document)));
    var yes := Then(When(Apply(Negate, On(NoArgs, ArgList)), misuse), answer);
    ApplyToName(SameText("lidl"), MethodName, env, abi);
    ApplyToName(NoArgs, ArgList, env, abi);
    assert Eval(Apply(Negate, On(NoArgs, ArgList)), env, abi) == Val(VBool(args != []));
    if name != "lidl" {
      SkipWhen(On(SameText("lidl"), MethodName), yes, End, env, m, abi);
    } else {
      if args == [] {
        SkipWhen(Apply(Negate, On(NoArgs, ArgList)), misuse, answer, env, m, abi);
        assert Exec(answer, env, m, abi) == Returned(LidlAnswer(mod, document, args, abi), m);
      } else {
        MisuseMeans(mod, document, answer, args, env, m, abi);
      }
      TakeWhen(On(SameText("lidl"), MethodName), yes, End, End, env, m, abi);
    }
  }

  function Marshalled(env: Env, args: seq<Variant>, abi: Abi): Env {
    env[JArgs := VJson(Array(Items(args, abi)))][Dumped := VStr(Sent(args, abi))]
  }

  lemma MarshalMeans(args: seq<Variant>, env: Env, m: Machine, abi: Abi)
    requires ArgList in env && env[ArgList] == VArgs(args) && JArgs !in env && Dumped !in env
    ensures Exec(Marshal(), env, m, abi) == Normal(Marshalled(env, args, abi), m)
  {
    var env1 := env[JArgs := VJson(Array([]))];
    var env2 := env[JArgs := VJson(Array(Items(args, abi)))];
    PushedInOrder([], args, abi);
    assert [] + Items(args, abi) == Items(args, abi);
    assert env1[JArgs := VJson(Array(Items(args, abi)))] == env2;
    var dump := Let(Dumped, On(Dump, JArgs));
    ApplyToName(Dump, JArgs, env2, abi);
    ThenStep(dump, End, env2, m, Marshalled(env, args, abi), m, abi);
    ThenStep(PushEach(JArgs, ArgList), One(dump), env1, m, env2, m, abi);
    ThenStep(Let(JArgs, Const(VJson(Array([])))), Then(PushEach(JArgs, ArgList), One(dump)), env, m, env1, m, abi);
  }

  predicate Holds(env: Env, x: Local, v: Value) { x in env && env[x] == v }

  lemma RejectedMeans(j: Json, env: Env, abi: Abi)
    requires Holds(env, JResult, VJson(j))
    ensures Eval(Rejected(), env, abi) == Val(VBool(Refused(j)))
  {
    ApplyToName(IsObject, JResult, env, abi);
    ApplyToName(HasKey("code"), JResult, env, abi);
    ApplyToName(KeyIsText("code"), JResult, env, abi);
    if j.Object? && Find(j.fields, "code").Some? {
      AnyCodeMeans(j, env, abi);
      assert Eval(Both(On(KeyIsText("code"), JResult), AnyCode()), env, abi) == Val(VBool(Refused(j)));
    }
    var inner := Both(On(HasKey("code"), JResult), Both(On(KeyIsText("code"), JResult), AnyCode()));
    assert j.Object? ==> Eval(inner, env, abi) == Val(VBool(Refused(j)));
  }

  lemma AnyCodeMeans(j: Json, env: Env, abi: Abi)
    requires Holds(env, JResult, VJson(j)) && j.Object? && Find(j.fields, "code").Some?
    ensures Eval(AnyCode(), env, abi) == Val(VBool(Refused(j)))
  {
    var code := Find(j.fields, "code").value;
    ApplyToName(KeyIs("code", "dispatch_failed"), JResult, env, abi);
    ApplyToName(KeyIs("code", "invalid_args"), JResult, env, abi);
    ApplyToName(KeyIs("code", "unknown_method"), JResult, env, abi);
    assert Eval(Either(On(KeyIs("code", "invalid_args"), JResult), On(KeyIs("code", "unknown_method"), JResult)),
                env, abi)
        == Val(VBool(code in {Str("invalid_args"), Str("unknown_method")}));
  }

  function VoidAnswer(j: Json, abi: Abi): Variant {
    if Refused(j) then abi.toVariant(j) else Boolean(true)
  }

  lemma VoidReplyMeans(j: Json, env: Env, abi: Abi)
    requires Holds(env, JResult, VJson(j)) && Holds(env, RejectedFlag, VBool(Refused(j)))
    ensures Eval(VoidReply(), env, abi) == Val(VVariant(VoidAnswer(j, abi)))
  {
    ApplyToName(ToVariant, JResult, env, abi);
    assert Eval(Name(RejectedFlag), env, abi) == Val(VBool(Refused(j)));
  }

  function ErrorOf(fields: seq<Field>): Variant {
    var error := Find(fields, "error");
    if error.Some? && error.value.Str? then Text(error.value.s) else Invalid
  }

  function ValueOf(fields: seq<Field>): Json {
    var value := Find(fields, "value");
    if value.Some? then value.value else Null
  }

  lemma ErrorMeans(fields: seq<Field>, env: Env, abi: Abi)
    requires Holds(env, JResult, VJson(Object(fields)))
    ensures Eval(SetError().e, env, abi) == Val(VVariant(ErrorOf(fields)))
  {
    var error := Find(fields, "error");
    ApplyToName(HasKey("error"), JResult, env, abi);
    ApplyToName(KeyIsText("error"), JResult, env, abi);
    ApplyToName(KeyText("error"), JResult, env, abi);
    assert Eval(Both(On(HasKey("error"), JResult), On(KeyIsText("error"), JResult)), env, abi)
        == Val(VBool(error.Some? && error.value.Str?));
  }

  lemma ValueMeans(fields: seq<Field>, env: Env, abi: Abi)
    requires Holds(env, JResult, VJson(Object(fields)))
    ensures Eval(SetValue().e, env, abi) == Val(VVariant(abi.toVariant(ValueOf(fields))))
  {
    ApplyToName(JsonKey("value"), JResult, env, abi);
  }

  function Filled(fields: seq<Field>, env: Env, abi: Abi): Env {
    env[LrSuccess := VBool(Find(fields, "success") == Some(Bool(true)))]
       [LrValue := VVariant(abi.toVariant(ValueOf(fields)))]
       [LrError := VVariant(ErrorOf(fields))]
  }

  lemma LrMeans(fields: seq<Field>, env: Env, abi: Abi)
    requires ResultAnswer(fields, abi).Answer?
    ensures Eval(Lr(), Filled(fields, env, abi), abi) == Val(VVariant(ResultAnswer(fields, abi).v))
  {
  }

  lemma SuccessMeans(fields: seq<Field>, env: Env, m: Machine, abi: Abi)
    requires Holds(env, JResult, VJson(Object(fields))) && LrSuccess !in env
    ensures Step(SetSuccess(), env, m, abi)
         == if ResultAnswer(fields, abi).Throws? then Threw(m)
            else Normal(env[LrSuccess := VBool(Find(fields, "success") == Some(Bool(true)))], m)
  {
    ApplyToName(BoolKey("success"), JResult, env, abi);
  }

  /** The three assignments of the LogosResult: they throw, or make its answer available. */
  lemma FillResultMeans(last: Stmt, fields: seq<Field>, env: Env, m: Machine, abi: Abi)
    requires Holds(env, JResult, VJson(Object(fields)))
    requires {LrSuccess, LrValue, LrError} !! env.Keys
    ensures Exec(FillResult(last), env, m, abi)
         == if ResultAnswer(fields, abi).Throws? then Threw(m)
            else Exec(One(last), Filled(fields, env, abi), m, abi)
  {
    SuccessMeans(fields, env, m, abi);
    if ResultAnswer(fields, abi).Answer? {
      var rest := One(last);
      var env1 := env[LrSuccess := VBool(Find(fields, "success") == Some(Bool(true)))];
      var env2 := env1[LrValue := VVariant(abi.toVariant(ValueOf(fields)))];
      ValueMeans(fields, env1, abi);
      ErrorMeans(fields, env2, abi);
      ThreeSteps(SetSuccess(), SetValue(), SetError(), rest, env, env1, env2, Filled(fields, env, abi), m, abi);
    }
  }

  lemma ThreeSteps(s1: Stmt, s2: Stmt, s3: Stmt, rest: Block, env: Env, env1: Env, env2: Env, env3: Env,
                   m: Machine, abi: Abi)
    requires Step(s1, env, m, abi) == Normal(env1, m)
    requires Step(s2, env1, m, abi) == Normal(env2, m)
    requires Step(s3, env2, m, abi) == Normal(env3, m)
    ensures Exec(Then(s1, Then(s2, Then(s3, rest))), env, m, abi) == Exec(rest, env3, m, abi)
  {
    ThenStep(s1, Then(s2, Then(s3, rest)), env, m, env1, m, abi);
    ThenStep(s2, Then(s3, rest), env1, m, env2, m, abi);
    ThenStep(s3, rest, env2, m, env3, m, abi);
  }

  /** Dispatch, then the pop (or nothing below protocol 0.6), then what follows. */
  lemma DispatchMeans(from: Local, pop: Block, tail: Block, name: string, args: string,
                      env: Env, m: Machine, abi: Abi)
    requires Holds(env, from, VStr(name)) && Holds(env, Dumped, VStr(args)) && ResultPtr !in env
    requires pop == End || (pop == One(PopCaller) && m.callers != [])
    ensures Exec(Then(Dispatch(ResultPtr, from, Dumped), Append(pop, tail)), env, m, abi)
         == Exec(tail, env[ResultPtr := VCStr(abi.dispatch(name, args))],
                 AfterDispatch(m, name, args, abi).(callers := if pop == End then m.callers
                                                               else m.callers[..|m.callers| - 1]), abi)
  {
    var m1 := AfterDispatch(m, name, args, abi);
    var env1 := env[ResultPtr := VCStr(abi.dispatch(name, args))];
    ThenStep(Dispatch(ResultPtr, from, Dumped), Append(pop, tail), env, m, env1, m1, abi);
    if pop != End {
      assert Append(pop, tail) == Then(PopCaller, tail);
      ThenStep(PopCaller, tail, env1, m1, env1, m1.(callers := m.callers[..|m.callers| - 1]), abi);
    }
  }

  /** One more dispatch seen by the module, and one string owed a free unless it was NULL. */
  function AfterDispatch(m: Machine, name: string, args: string, abi: Abi): Machine {
    m.(dispatched := m.dispatched + [Dispatched(name, args, Top(m.callers))],
       live := if abi.dispatch(name, args).Some? then m.live + 1 else m.live)
  }

  // ---------------------------------------------------------------------------
  // The blocking form
  // ---------------------------------------------------------------------------

  function Delivered(a: Answer, m: Machine): Result {
    match a
    case Answer(v) => Returned(v, m)
    case Throws => Threw(m)
  }

  /** The answer for a reply that parsed. */
  function JsonAnswer(mod: ModuleDecl, name: string, j: Json, abi: Abi): Answer {
    if IsVoid(mod, name) then Answer(VoidAnswer(j, abi))
    else if IsResult(mod, name) && j.Object? then ResultAnswer(j.fields, abi)
    else Answer(abi.toVariant(j))
  }

  lemma SingleResultMeans(results: seq<string>, name: string, j: Json, env: Env, m: Machine, abi: Abi)
    requires Holds(env, MethodName, VStr(name)) && Holds(env, JResult, VJson(j))
    requires {LrSuccess, LrValue, LrError} !! env.Keys
    ensures Exec(SingleResult(results), env, m, abi)
         == Delivered(if name in results && j.Object? then ResultAnswer(j.fields, abi)
                      else Answer(abi.toVariant(j)), m)
  {
    var ordinary := One(Return(On(ToVariant, JResult)));
    ApplyToName(ToVariant, JResult, env, abi);
    assert Exec(ordinary, env, m, abi) == Returned(abi.toVariant(j), m);
    if results != [] {
      var test := Both(On(OneOf(results), MethodName), On(IsObject, JResult));
      ApplyToName(OneOf(results), MethodName, env, abi);
      ApplyToName(IsObject, JResult, env, abi);
      assert Eval(test, env, abi) == Val(VBool(name in results && j.Object?));
      if name in results && j.Object? {
        FillResultMeans(Return(Lr()), j.fields, env, m, abi);
        if ResultAnswer(j.fields, abi).Answer? {
          LrMeans(j.fields, env, abi);
          assert Exec(One(Return(Lr())), Filled(j.fields, env, abi), m, abi)
              == Returned(ResultAnswer(j.fields, abi).v, m);
        }
        TakeWhen(test, FillResult(Return(Lr())), End, ordinary, env, m, abi);
      } else {
        SkipWhen(test, FillResult(Return(Lr())), ordinary, env, m, abi);
      }
    }
  }

  lemma SingleReplyMeans(mod: ModuleDecl, name: string, j: Json, env: Env, m: Machine, abi: Abi)
    requires Holds(env, MethodName, VStr(name)) && Holds(env, JResult, VJson(j))
    requires {RejectedFlag, LrSuccess, LrValue, LrError} !! env.Keys
    ensures Exec(SingleReply(VoidNames(mod.methods), ResultNames(mod.methods)), env, m, abi)
         == Delivered(JsonAnswer(mod, name, j, abi), m)
  {
    var voids, results := VoidNames(mod.methods), ResultNames(mod.methods);
    NameLists(mod, name);
    SingleResultMeans(results, name, j, env, m, abi);
    if voids != [] {
      var yes := Then(Let(RejectedFlag, Rejected()), One(Return(VoidReply())));
      ApplyToName(OneOf(voids), MethodName, env, abi);
      if name in voids {
        RejectedMeans(j, env, abi);
        var env' := env[RejectedFlag := VBool(Refused(j))];
        VoidReplyMeans(j, env', abi);
        assert Exec(One(Return(VoidReply())), env', m, abi) == Returned(VoidAnswer(j, abi), m);
        ThenStep(Let(RejectedFlag, Rejected()), One(Return(VoidReply())), env, m, env', m, abi);
        TakeWhen(On(OneOf(voids), MethodName), yes, End, SingleResult(results), env, m, abi);
      } else {
        SkipWhen(On(OneOf(voids), MethodName), yes, SingleResult(results), env, m, abi);
      }
    }
  }

  lemma SingleParsedMeans(mod: ModuleDecl, name: string, parsed: Option<Json>, env: Env, m: Machine, abi: Abi)
    requires Holds(env, MethodName, VStr(name)) && Holds(env, JResult, Parsed(parsed))
    requires {RejectedFlag, LrSuccess, LrValue, LrError} !! env.Keys
    ensures Exec(SingleParsed(VoidNames(mod.methods), ResultNames(mod.methods)), env, m, abi)
         == Delivered(if parsed.None? then Answer(Invalid) else JsonAnswer(mod, name, parsed.value, abi), m)
  {
    var rest := SingleReply(VoidNames(mod.methods), ResultNames(mod.methods));
    ApplyToName(IsDiscarded, JResult, env, abi);
    if parsed.None? {
      assert Exec(One(Return(ABSENT)), env, m, abi) == Returned(Invalid, m);
      TakeWhen(On(IsDiscarded, JResult), One(Return(ABSENT)), End, rest, env, m, abi);
    } else {
      SkipWhen(On(IsDiscarded, JResult), One(Return(ABSENT)), rest, env, m, abi);
      SingleReplyMeans(mod, name, parsed.value, env, m, abi);
    }
  }

  /** Parse, free, and answer: the reply string is freed exactly once. */
  lemma SingleTextMeans(mod: ModuleDecl, name: string, text: string, env: Env, m: Machine, abi: Abi)
    requires Holds(env, MethodName, VStr(name)) && Holds(env, ResultPtr, VCStr(Some(text)))
    requires {JResult, RejectedFlag, LrSuccess, LrValue, LrError} !! env.Keys && m.live > 0
    ensures Exec(Then(Let(JResult, On(Parse, ResultPtr)),
                      Then(Free(ResultPtr), SingleParsed(VoidNames(mod.methods), ResultNames(mod.methods)))),
              env, m, abi)
         == Delivered(if abi.parse(text).None? then Answer(Invalid)
                      else JsonAnswer(mod, name, abi.parse(text).value, abi), m.(live := m.live - 1))
  {
    var rest := SingleParsed(VoidNames(mod.methods), ResultNames(mod.methods));
    var env1 := env[JResult := Parsed(abi.parse(text))];
    var env2 := env1[ResultPtr := VFreed];
    var m' := m.(live := m.live - 1);
    ApplyToName(Parse, ResultPtr, env, abi);
    SingleParsedMeans(mod, name, abi.parse(text), env2, m', abi);
    ThenStep(Free(ResultPtr), rest, env1, m, env2, m', abi);
    ThenStep(Let(JResult, On(Parse, ResultPtr)), Then(Free(ResultPtr), rest), env, m, env1, m, abi);
  }

  lemma SingleTailMeans(mod: ModuleDecl, name: string, args: seq<Variant>, reply: Option<string>,
                        env: Env, m: Machine, abi: Abi)
    requires Holds(env, MethodName, VStr(name)) && Holds(env, ArgList, VArgs(args))
    requires Holds(env, ResultPtr, VCStr(reply))
    requires {JResult, RejectedFlag, LrSuccess, LrValue, LrError} !! env.Keys
    requires reply.Some? ==> m.live > 0
    ensures Exec(SingleTail(mod, VoidNames(mod.methods), ResultNames(mod.methods)), env, m, abi)
         == Delivered(ReplyAnswer(mod, name, args == [], reply, abi),
                      if reply.Some? then m.(live := m.live - 1) else m)
  {
    var refuse := One(Return(NullAnswer(Name(MethodName), On(NoArgs, ArgList), mod.name)));
    var rest := Then(Let(JResult, On(Parse, ResultPtr)),
                     Then(Free(ResultPtr), SingleParsed(VoidNames(mod.methods), ResultNames(mod.methods))));
    ApplyToName(IsNull, ResultPtr, env, abi);
    if reply.None? {
      ApplyToName(NoArgs, ArgList, env, abi);
      assert Eval(Name(MethodName), env, abi) == Val(VStr(name));
      assert Exec(refuse, env, m, abi) == Returned(NullReply(name, args == [], mod.name, abi), m);
      TakeWhen(On(IsNull, ResultPtr), refuse, End, rest, env, m, abi);
    } else {
      SingleTextMeans(mod, name, reply.value, env, m, abi);
      SkipWhen(On(IsNull, ResultPtr), refuse, rest, env, m, abi);
    }
  }

  /** Below protocol 0.6: no push, so the module reads whatever this thread had. */
  lemma UnguardedDispatchMeans(mod: ModuleDecl, name: string, args: seq<Variant>, env: Env, m: Machine, abi: Abi)
    requires Holds(env, MethodName, VStr(name)) && Holds(env, ArgList, VArgs(args))
    requires Holds(env, Dumped, VStr(Sent(args, abi)))
    requires {ResultPtr, JResult, RejectedFlag, LrSuccess, LrValue, LrError} !! env.Keys
    ensures Exec(Then(Dispatch(ResultPtr, MethodName, Dumped),
                      Append(End, SingleTail(mod, VoidNames(mod.methods), ResultNames(mod.methods)))), env, m, abi)
         == Delivered(ReplyAnswer(mod, name, args == [], abi.dispatch(name, Sent(args, abi)), abi),
                      m.(dispatched := m.dispatched + [Dispatched(name, Sent(args, abi), Top(m.callers))]))
  {
    var reply := abi.dispatch(name, Sent(args, abi));
    DispatchMeans(MethodName, End, SingleTail(mod, VoidNames(mod.methods), ResultNames(mod.methods)),
                  name, Sent(args, abi), env, m, abi);
    SingleTailMeans(mod, name, args, reply, env[ResultPtr := VCStr(reply)],
                    AfterDispatch(m, name, Sent(args, abi), abi), abi);
  }

  lemma PoppedDispatchMeans(mod: ModuleDecl, name: string, args: seq<Variant>, env: Env, m: Machine, abi: Abi)
    requires Holds(env, MethodName, VStr(name)) && Holds(env, ArgList, VArgs(args))
    requires Holds(env, Dumped, VStr(Sent(args, abi))) && m.callers != []
    requires {ResultPtr, JResult, RejectedFlag, LrSuccess, LrValue, LrError} !! env.Keys
    ensures Exec(Then(Dispatch(ResultPtr, MethodName, Dumped),
                      Append(One(PopCaller), SingleTail(mod, VoidNames(mod.methods), ResultNames(mod.methods)))),
                 env, m, abi)
         == Delivered(ReplyAnswer(mod, name, args == [], abi.dispatch(name, Sent(args, abi)), abi),
                      m.(callers := m.callers[..|m.callers| - 1],
                         dispatched := m.dispatched + [Dispatched(name, Sent(args, abi), Top(m.callers))]))
  {
    var reply := abi.dispatch(name, Sent(args, abi));
    DispatchMeans(MethodName, One(PopCaller), SingleTail(mod, VoidNames(mod.methods), ResultNames(mod.methods)),
                  name, Sent(args, abi), env, m, abi);
    SingleTailMeans(mod, name, args, reply, env[ResultPtr := VCStr(reply)],
                    AfterDispatch(m, name, Sent(args, abi), abi).(callers := m.callers[..|m.callers| - 1]), abi);
  }

  /** The push of the pulled document, for whatever block follows. */
  lemma PushMeans(rest: Block, env: Env, m: Machine, abi: Abi)
    requires CallerJson !in env
    ensures Exec(Append(Then(Let(CallerJson, Pull), One(PushCaller(Name(CallerJson)))), rest), env, m, abi)
         == Exec(rest, env[CallerJson := VStr(abi.pulled)], m.(callers := m.callers + [abi.pulled]), abi)
  {
    var env1 := env[CallerJson := VStr(abi.pulled)];
    var pushed := m.(callers := m.callers + [abi.pulled]);
    assert Append(One(PushCaller(Name(CallerJson))), rest) == Then(PushCaller(Name(CallerJson)), rest);
    assert Append(Then(Let(CallerJson, Pull), One(PushCaller(Name(CallerJson)))), rest)
        == Then(Let(CallerJson, Pull), Then(PushCaller(Name(CallerJson)), rest));
    assert Eval(Name(CallerJson), env1, abi) == Val(VStr(abi.pulled));
    ThenStep(Let(CallerJson, Pull), Then(PushCaller(Name(CallerJson)), rest), env, m, env1, m, abi);
    ThenStep(PushCaller(Name(CallerJson)), rest, env1, m, env1, pushed, abi);
  }

  lemma BracketedDispatchMeans(mod: ModuleDecl, p: Protocol, name: string, args: seq<Variant>,
                               env: Env, m: Machine, abi: Abi)
    requires env == Marshalled(CallEnv(name, args), args, abi) && AtLeast(p, CALLER_MINOR)
    ensures
      Exec(SingleDispatch(mod, VoidNames(mod.methods), ResultNames(mod.methods), p), env, m, abi)
      == Delivered(ReplyAnswer(mod, name, args == [], abi.dispatch(name, Sent(args, abi)), abi),
                   m.(dispatched := m.dispatched + [Dispatched(name, Sent(args, abi), Some(abi.pulled))]))
  {
    var tail := SingleTail(mod, VoidNames(mod.methods), ResultNames(mod.methods));
    PushMeans(Then(Dispatch(ResultPtr, MethodName, Dumped), Append(One(PopCaller), tail)), env, m, abi);
    var pushed := m.(callers := m.callers + [abi.pulled]);
    PoppedDispatchMeans(mod, name, args, env[CallerJson := VStr(abi.pulled)], pushed, abi);
    assert pushed.callers[..|m.callers|] == m.callers;
  }

  lemma SingleDispatchMeans(mod: ModuleDecl, p: Protocol, name: string, args: seq<Variant>,
                            env: Env, m: Machine, abi: Abi)
    requires env == Marshalled(CallEnv(name, args), args, abi)
    ensures
      var seen := Dispatched(name, Sent(args, abi),
                             if AtLeast(p, CALLER_MINOR) then Some(abi.pulled) else Top(m.callers));
      Exec(SingleDispatch(mod, VoidNames(mod.methods), ResultNames(mod.methods), p), env, m, abi)
      == Delivered(ReplyAnswer(mod, name, args == [], abi.dispatch(name, Sent(args, abi)), abi),
                   m.(dispatched := m.dispatched + [seen]))
  {
    if AtLeast(p, CALLER_MINOR) {
      BracketedDispatchMeans(mod, p, name, args, env, m, abi);
    } else {
      UnguardedDispatchMeans(mod, name, args, env, m, abi);
    }
  }

  lemma SentInOrder(args: seq<Variant>, abi: Abi)
    ensures InOrder(Sent(args, abi), args, abi)
  {
    EachInItsPlace(args, abi);
    assert Sent(args, abi) == DumpArray(Items(args, abi), abi);
  }

  /** The whole blocking body. */
  lemma SingleMeansReference(mod: ModuleDecl, document: string, p: Protocol, name: string, args: seq<Variant>,
                             m: Machine, abi: Abi)
    ensures
      var seen := Dispatched(name, Sent(args, abi),
                             if AtLeast(p, CALLER_MINOR) then Some(abi.pulled) else Top(m.callers));
      Exec(EmitSingle(mod, document, p), CallEnv(name, args), m, abi)
      == if name == "lidl" then Returned(LidlAnswer(mod, document, args, abi), m)
         else Delivered(ReplyAnswer(mod, name, args == [], abi.dispatch(name, Sent(args, abi)), abi),
                        m.(dispatched := m.dispatched + [seen]))
    ensures InOrder(Sent(args, abi), args, abi)
  {
    SentInOrder(args, abi);
    var env := CallEnv(name, args);
    var dispatch := SingleDispatch(mod, VoidNames(mod.methods), ResultNames(mod.methods), p);
    ExecAppend(BuiltInLidl(mod, document), Append(Marshal(), dispatch), env, m, abi);
    BuiltInMeans(mod, document, name, args, m, abi);
    ExecAppend(Marshal(), dispatch, env, m, abi);
    MarshalMeans(args, env, m, abi);
    SingleDispatchMeans(mod, p, name, args, Marshalled(env, args, abi), m, abi);
  }

  // ---------------------------------------------------------------------------
  // The deferred form
  // ---------------------------------------------------------------------------

  /** A conditional whose chosen branch completes: the names it declared are gone. */
  lemma BranchMeans(c: Expr, b: bool, yes: Block, no: Block, inner: Env, outer: Env, env: Env,
                    m: Machine, m': Machine, abi: Abi)
    requires Eval(c, env, abi) == Val(VBool(b))
    requires Exec(if b then yes else no, env, m, abi) == Normal(inner, m')
    requires outer == map x | x in inner && x in env :: inner[x]
    ensures Step(IfElse(c, yes, no), env, m, abi) == Normal(outer, m')
    ensures Exec(One(IfElse(c, yes, no)), env, m, abi) == Normal(outer, m')
  {
  }

  /** A worker's answer: the value it will report, or an exception out of its lambda. */
  function Stored(a: Answer, env: Env, m: Machine): Result {
    match a
    case Answer(v) => Normal(env[ValueVar := VVariant(v)], m)
    case Throws => Threw(m)
  }

  predicate WorkerEnv(env: Env, voids: seq<string>, results: seq<string>, name: string) {
    && ValueVar in env
    && (voids != [] ==> Holds(env, IsVoidMethod, VBool(name in voids)))
    && (results != [] ==> Holds(env, IsResultMethod, VBool(name in results)))
    && {RejectedFlag, LrSuccess, LrValue, LrError} !! env.Keys
  }

  lemma StoreMeans(e: Expr, v: Variant, env: Env, m: Machine, abi: Abi)
    requires ValueVar in env && Eval(e, env, abi) == Val(VVariant(v))
    ensures Exec(One(Set(ValueVar, e)), env, m, abi) == Normal(env[ValueVar := VVariant(v)], m)
  {
  }

  lemma WorkerResultMeans(fields: seq<Field>, env: Env, m: Machine, abi: Abi)
    requires Holds(env, JResult, VJson(Object(fields))) && ValueVar in env
    requires {LrSuccess, LrValue, LrError} !! env.Keys
    ensures Exec(FillResult(Set(ValueVar, Lr())), env, m, abi)
         == Stored(ResultAnswer(fields, abi), Filled(fields, env, abi), m)
  {
    FillResultMeans(Set(ValueVar, Lr()), fields, env, m, abi);
    if ResultAnswer(fields, abi).Answer? {
      LrMeans(fields, env, abi);
      StoreMeans(Lr(), ResultAnswer(fields, abi).v, Filled(fields, env, abi), m, abi);
    }
  }

  lemma WorkerOrdinaryMeans(voids: seq<string>, results: seq<string>, name: string, j: Json,
                            env: Env, m: Machine, abi: Abi)
    requires WorkerEnv(env, voids, results, name) && Holds(env, JResult, VJson(j))
    ensures Exec(WorkerOrdinary(results), env, m, abi)
         == Stored(if name in results && j.Object? then ResultAnswer(j.fields, abi)
                   else Answer(abi.toVariant(j)), env, m)
  {
    var ordinary := One(Set(ValueVar, On(ToVariant, JResult)));
    ApplyToName(ToVariant, JResult, env, abi);
    StoreMeans(On(ToVariant, JResult), abi.toVariant(j), env, m, abi);
    if results != [] {
      var test := Both(Name(IsResultMethod), On(IsObject, JResult));
      var yes := FillResult(Set(ValueVar, Lr()));
      ApplyToName(IsObject, JResult, env, abi);
      assert Eval(Name(IsResultMethod), env, abi) == Val(VBool(name in results));
      assert Eval(test, env, abi) == Val(VBool(name in results && j.Object?));
      if name in results && j.Object? {
        WorkerResultMeans(j.fields, env, m, abi);
        var answer := ResultAnswer(j.fields, abi);
        if answer.Answer? {
          var inner := Filled(j.fields, env, abi)[ValueVar := VVariant(answer.v)];
          var outer := env[ValueVar := VVariant(answer.v)];
          assert outer == map x | x in inner && x in env :: inner[x];
          BranchMeans(test, true, yes, ordinary, inner, outer, env, m, m, abi);
        } else {
          TakeWhen(test, yes, ordinary, End, env, m, abi);
        }
      } else {
        var outer := env[ValueVar := VVariant(abi.toVariant(j))];
        assert outer == map x | x in outer && x in env :: outer[x];
        BranchMeans(test, false, yes, ordinary, outer, outer, env, m, m, abi);
      }
    }
  }

  lemma WorkerVoidMeans(j: Json, env: Env, m: Machine, abi: Abi)
    requires Holds(env, JResult, VJson(j)) && ValueVar in env && RejectedFlag !in env
    ensures Exec(Then(Let(RejectedFlag, Rejected()), One(Set(ValueVar, VoidReply()))), env, m, abi)
         == Normal(env[RejectedFlag := VBool(Refused(j))][ValueVar := VVariant(VoidAnswer(j, abi))], m)
  {
    RejectedMeans(j, env, abi);
    var env1 := env[RejectedFlag := VBool(Refused(j))];
    VoidReplyMeans(j, env1, abi);
    StoreMeans(VoidReply(), VoidAnswer(j, abi), env1, m, abi);
    ThenStep(Let(RejectedFlag, Rejected()), One(Set(ValueVar, VoidReply())), env, m, env1, m, abi);
  }

  lemma WorkerDecodeMeans(mod: ModuleDecl, name: string, j: Json, env: Env, m: Machine, abi: Abi)
    requires WorkerEnv(env, VoidNames(mod.methods), ResultNames(mod.methods), name)
    requires Holds(env, JResult, VJson(j))
    ensures Exec(WorkerDecode(VoidNames(mod.methods), ResultNames(mod.methods)), env, m, abi)
         == Stored(JsonAnswer(mod, name, j, abi), env, m)
  {
    var voids, results := VoidNames(mod.methods), ResultNames(mod.methods);
    NameLists(mod, name);
    WorkerOrdinaryMeans(voids, results, name, j, env, m, abi);
    if voids != [] {
      var test := Name(IsVoidMethod);
      var yes, no := Then(Let(RejectedFlag, Rejected()), One(Set(ValueVar, VoidReply()))), WorkerOrdinary(results);
      assert Eval(test, env, abi) == Val(VBool(name in voids));
      var answer := JsonAnswer(mod, name, j, abi);
      if name in voids {
        WorkerVoidMeans(j, env, m, abi);
        var inner := env[RejectedFlag := VBool(Refused(j))][ValueVar := VVariant(VoidAnswer(j, abi))];
        var outer := env[ValueVar := VVariant(VoidAnswer(j, abi))];
        assert outer == map x | x in inner && x in env :: inner[x];
        BranchMeans(test, true, yes, no, inner, outer, env, m, m, abi);
      } else if answer.Answer? {
        var outer := env[ValueVar := VVariant(answer.v)];
        assert outer == map x | x in outer && x in env :: outer[x];
        BranchMeans(test, false, yes, no, outer, outer, env, m, m, abi);
      } else {
        ThrowElse(test, yes, no, env, m, abi);
      }
    }
  }

  lemma ThrowElse(c: Expr, yes: Block, no: Block, env: Env, m: Machine, abi: Abi)
    requires Eval(c, env, abi) == Val(VBool(false)) && Exec(no, env, m, abi).Threw?
    ensures Step(IfElse(c, yes, no), env, m, abi) == Exec(no, env, m, abi)
    ensures Exec(One(IfElse(c, yes, no)), env, m, abi) == Exec(no, env, m, abi)
  {
  }

  lemma ThrowThen(s: Stmt, rest: Block, env: Env, m: Machine, m': Machine, abi: Abi)
    requires Step(s, env, m, abi) == Threw(m')
    ensures Exec(Then(s, rest), env, m, abi) == Threw(m')
  {
  }

  /** What follows the parse and the free: decode unless the reply was not JSON. */
  lemma WorkerParsedMeans(mod: ModuleDecl, name: string, parsed: Option<Json>, env: Env, m: Machine, abi: Abi)
    requires WorkerEnv(env, VoidNames(mod.methods), ResultNames(mod.methods), name)
    requires Holds(env, JResult, Parsed(parsed)) && Holds(env, ValueVar, VVariant(Invalid))
    ensures Exec(One(When(Apply(Negate, On(IsDiscarded, JResult)),
                          WorkerDecode(VoidNames(mod.methods), ResultNames(mod.methods)))), env, m, abi)
         == Stored(if parsed.None? then Answer(Invalid) else JsonAnswer(mod, name, parsed.value, abi), env, m)
  {
    var test := Apply(Negate, On(IsDiscarded, JResult));
    var yes := WorkerDecode(VoidNames(mod.methods), ResultNames(mod.methods));
    ApplyToName(IsDiscarded, JResult, env, abi);
    assert Eval(test, env, abi) == Val(VBool(parsed.Some?));
    if parsed.None? {
      SkipWhen(test, yes, End, env, m, abi);
      assert env[ValueVar := VVariant(Invalid)] == env;
    } else {
      WorkerDecodeMeans(mod, name, parsed.value, env, m, abi);
      var answer := JsonAnswer(mod, name, parsed.value, abi);
      if answer.Answer? {
        var outer := env[ValueVar := VVariant(answer.v)];
        assert outer == map x | x in outer && x in env :: outer[x];
        BranchMeans(test, true, yes, End, outer, outer, env, m, m, abi);
      } else {
        TakeWhen(test, yes, End, End, env, m, abi);
      }
    }
  }

  lemma WorkerReplyMeans(mod: ModuleDecl, name: string, text: string, env: Env, m: Machine, abi: Abi)
    requires WorkerEnv(env, VoidNames(mod.methods), ResultNames(mod.methods), name)
    requires Holds(env, ResultPtr, VCStr(Some(text))) && Holds(env, ValueVar, VVariant(Invalid))
    requires JResult !in env && m.live > 0
    ensures
      var parsed := abi.parse(text);
      Exec(WorkerReply(VoidNames(mod.methods), ResultNames(mod.methods)), env, m, abi)
      == Stored(if parsed.None? then Answer(Invalid) else JsonAnswer(mod, name, parsed.value, abi),
                env[JResult := Parsed(parsed)][ResultPtr := VFreed], m.(live := m.live - 1))
  {
    var voids, results := VoidNames(mod.methods), ResultNames(mod.methods);
    var rest := One(When(Apply(Negate, On(IsDiscarded, JResult)), WorkerDecode(voids, results)));
    var env1 := env[JResult := Parsed(abi.parse(text))];
    var env2 := env1[ResultPtr := VFreed];
    var m' := m.(live := m.live - 1);
    ApplyToName(Parse, ResultPtr, env, abi);
    ThenStep(Let(JResult, On(Parse, ResultPtr)), Then(Free(ResultPtr), rest), env, m, env1, m, abi);
    ThenStep(Free(ResultPtr), rest, env1, m, env2, m', abi);
    WorkerParsedMeans(mod, name, abi.parse(text), env2, m', abi);
  }

  /** What a finished worker leaves behind: one event to the listener it was given. */
  function Reported(a: Answer, l: Option<nat>, callId: string, m: Machine): Result {
    match a
    case Throws => Threw(m)
    case Answer(v) =>
      Normal(map[], if l.None? then m else m.(events := m.events + [Completion(l.value, callId, v)]))
  }

  /** Results compared without the names that go out of scope with the lambda. */
  function NoNames(r: Result): Result {
    match r
    case Normal(_, m) => Normal(map[], m)
    case _ => r
  }

  lemma NotifyMeans(v: Variant, l: Option<nat>, callId: string, env: Env, m: Machine, abi: Abi)
    requires Holds(env, EventCb, VListener(l)) && Holds(env, CallIdVar, VStr(callId))
    requires Holds(env, ValueVar, VVariant(v))
    ensures NoNames(Exec(One(Notify(EventCb, CallIdVar, ValueVar)), env, m, abi))
         == Reported(Answer(v), l, callId, m)
  {
  }

  predicate JobEnv(env: Env, voids: seq<string>, results: seq<string>, name: string, args: string,
                   callId: string, l: Option<nat>, caller: Document) {
    && env.Keys == Captures(voids, results)
    && Holds(env, MethodCopy, VStr(name)) && Holds(env, Dumped, VStr(args))
    && Holds(env, CallIdVar, VStr(callId)) && Holds(env, EventCb, VListener(l))
    && Holds(env, CallerJson, VStr(caller))
    && (voids != [] ==> Holds(env, IsVoidMethod, VBool(name in voids)))
    && (results != [] ==> Holds(env, IsResultMethod, VBool(name in results)))
  }

  lemma WorkerBranchMeans(mod: ModuleDecl, name: string, args: string, noArgs: bool, reply: Option<string>,
                          env: Env, m: Machine, abi: Abi)
    requires WorkerEnv(env, VoidNames(mod.methods), ResultNames(mod.methods), name) && JResult !in env
    requires Holds(env, MethodCopy, VStr(name)) && Holds(env, Dumped, VStr(args))
    requires Holds(env, ResultPtr, VCStr(reply)) && Holds(env, ValueVar, VVariant(Invalid))
    requires noArgs <==> args == "[]"
    requires reply.Some? ==> m.live > 0
    ensures
      var m' := if reply.Some? then m.(live := m.live - 1) else m;
      Step(IfElse(Apply(Negate, On(IsNull, ResultPtr)), WorkerReply(VoidNames(mod.methods), ResultNames(mod.methods)),
                  One(Set(ValueVar, NullAnswer(Name(MethodCopy), On(SameText("[]"), Dumped), mod.name)))), env, m, abi)
      == Stored(ReplyAnswer(mod, name, noArgs, reply, abi),
                if reply.Some? then env[ResultPtr := VFreed] else env, m')
  {
    var test := Apply(Negate, On(IsNull, ResultPtr));
    var yes := WorkerReply(VoidNames(mod.methods), ResultNames(mod.methods));
    var refusal := NullAnswer(Name(MethodCopy), On(SameText("[]"), Dumped), mod.name);
    ApplyToName(IsNull, ResultPtr, env, abi);
    assert Eval(test, env, abi) == Val(VBool(reply.Some?));
    var answer := ReplyAnswer(mod, name, noArgs, reply, abi);
    if reply.None? {
      ApplyToName(SameText("[]"), Dumped, env, abi);
      assert Eval(Name(MethodCopy), env, abi) == Val(VStr(name));
      StoreMeans(refusal, answer.v, env, m, abi);
      var outer := env[ValueVar := VVariant(answer.v)];
      assert outer == map x | x in outer && x in env :: outer[x];
      BranchMeans(test, false, yes, One(Set(ValueVar, refusal)), outer, outer, env, m, m, abi);
    } else {
      WorkerReplyMeans(mod, name, reply.value, env, m, abi);
      var m' := m.(live := m.live - 1);
      if answer.Answer? {
        var inner :=
          env[JResult := Parsed(abi.parse(reply.value))][ResultPtr := VFreed][ValueVar := VVariant(answer.v)];
        var outer := env[ResultPtr := VFreed][ValueVar := VVariant(answer.v)];
        assert outer == map x | x in inner && x in env :: inner[x];
        BranchMeans(test, true, yes, One(Set(ValueVar, refusal)), inner, outer, env, m, m', abi);
      } else {
        TakeWhen(test, yes, One(Set(ValueVar, refusal)), End, env, m, abi);
      }
    }
  }

  predicate TailEnv(env: Env, voids: seq<string>, results: seq<string>, name: string, args: string,
                    callId: string, l: Option<nat>, reply: Option<string>) {
    && WorkerEnv(env[ValueVar := VVariant(Invalid)], voids, results, name)
    && Holds(env, MethodCopy, VStr(name)) && Holds(env, Dumped, VStr(args))
    && Holds(env, CallIdVar, VStr(callId)) && Holds(env, EventCb, VListener(l))
    && Holds(env, ResultPtr, VCStr(reply)) && {ValueVar, JResult} !! env.Keys
  }

  lemma JobEnvAfterDispatch(env: Env, voids: seq<string>, results: seq<string>, name: string, args: string,
                            callId: string, l: Option<nat>, caller: Document, reply: Option<string>)
    requires JobEnv(env, voids, results, name, args, callId, l, caller)
    ensures TailEnv(env[ResultPtr := VCStr(reply)], voids, results, name, args, callId, l, reply)
    ensures ResultPtr !in env
  {
    assert {RejectedFlag, LrSuccess, LrValue, LrError, ValueVar, JResult, ResultPtr} !! Captures(voids, results);
  }

  lemma WorkerTailMeans(mod: ModuleDecl, name: string, args: string, noArgs: bool, reply: Option<string>,
                        callId: string, l: Option<nat>, env: Env, m: Machine, abi: Abi)
    requires TailEnv(env, VoidNames(mod.methods), ResultNames(mod.methods), name, args, callId, l, reply)
    requires noArgs <==> args == "[]"
    requires reply.Some? ==> m.live > 0
    ensures NoNames(Exec(WorkerTail(mod, VoidNames(mod.methods), ResultNames(mod.methods)), env, m, abi))
         == Reported(ReplyAnswer(mod, name, noArgs, reply, abi), l, callId,
                     if reply.Some? then m.(live := m.live - 1) else m)
  {
    var voids, results := VoidNames(mod.methods), ResultNames(mod.methods);
    var branch := IfElse(Apply(Negate, On(IsNull, ResultPtr)), WorkerReply(voids, results),
                         One(Set(ValueVar, NullAnswer(Name(MethodCopy), On(SameText("[]"), Dumped), mod.name))));
    var notify := One(Notify(EventCb, CallIdVar, ValueVar));
    var env1 := env[ValueVar := VVariant(Invalid)];
    ThenStep(Let(ValueVar, ABSENT), Then(branch, notify), env, m, env1, m, abi);
    WorkerBranchMeans(mod, name, args, noArgs, reply, env1, m, abi);
    var m' := if reply.Some? then m.(live := m.live - 1) else m;
    var answer := ReplyAnswer(mod, name, noArgs, reply, abi);
    if answer.Answer? {
      var env2 := (if reply.Some? then env1[ResultPtr := VFreed] else env1)[ValueVar := VVariant(answer.v)];
      ThenStep(branch, notify, env1, m, env2, m', abi);
      NotifyMeans(answer.v, l, callId, env2, m', abi);
    } else {
      ThrowThen(branch, notify, env1, m, m', abi);
    }
  }

  /** The lambda after its dispatch, whatever the caller stack was restored to. */
  lemma AfterDispatchMeans(mod: ModuleDecl, name: string, args: string, noArgs: bool, callId: string,
                           l: Option<nat>, caller: Document, callers: seq<string>, env: Env, m: Machine, abi: Abi)
    requires JobEnv(env, VoidNames(mod.methods), ResultNames(mod.methods), name, args, callId, l, caller)
    requires noArgs <==> args == "[]"
    ensures NoNames(Exec(WorkerTail(mod, VoidNames(mod.methods), ResultNames(mod.methods)),
                         env[ResultPtr := VCStr(abi.dispatch(name, args))],
                         AfterDispatch(m, name, args, abi).(callers := callers), abi))
         == Reported(ReplyAnswer(mod, name, noArgs, abi.dispatch(name, args), abi), l, callId,
                     m.(callers := callers, dispatched := m.dispatched + [Dispatched(name, args, Top(m.callers))]))
  {
    var reply := abi.dispatch(name, args);
    JobEnvAfterDispatch(env, VoidNames(mod.methods), ResultNames(mod.methods), name, args, callId, l, caller, reply);
    WorkerTailMeans(mod, name, args, noArgs, reply, callId, l, env[ResultPtr := VCStr(reply)],
                    AfterDispatch(m, name, args, abi).(callers := callers), abi);
  }

  /** The lambda with its tail left abstract: push or not, dispatch, pop or not, tail. */
  lemma WorkerFrame(p: Protocol, tail: Block, name: string, args: string, caller: Document,
                    env: Env, m: Machine, abi: Abi)
    requires Holds(env, MethodCopy, VStr(name)) && Holds(env, Dumped, VStr(args))
    requires Holds(env, CallerJson, VStr(caller)) && ResultPtr !in env
    ensures
      var seenBy := if AtLeast(p, CALLER_MINOR) then m.(callers := m.callers + [caller]) else m;
      Exec(Append(Guarded(p, One(PushCaller(Name(CallerJson))), One(Ignore(CallerJson))),
                  Then(Dispatch(ResultPtr, MethodCopy, Dumped), Append(Guarded(p, One(PopCaller), End), tail))),
           env, m, abi)
      == Exec(tail, env[ResultPtr := VCStr(abi.dispatch(name, args))],
              AfterDispatch(seenBy, name, args, abi).(callers := m.callers), abi)
  {
    if AtLeast(p, CALLER_MINOR) {
      var pushed := m.(callers := m.callers + [caller]);
      WorkerOpening(Then(Dispatch(ResultPtr, MethodCopy, Dumped), Append(One(PopCaller), tail)), caller, env, m, abi);
      DispatchMeans(MethodCopy, One(PopCaller), tail, name, args, env, pushed, abi);
      assert pushed.callers[..|m.callers|] == m.callers;
    } else {
      WorkerOpening(Then(Dispatch(ResultPtr, MethodCopy, Dumped), Append(End, tail)), caller, env, m, abi);
      DispatchMeans(MethodCopy, End, tail, name, args, env, m, abi);
    }
  }

  lemma WorkerOpening(rest: Block, caller: Document, env: Env, m: Machine, abi: Abi)
    requires Holds(env, CallerJson, VStr(caller))
    ensures Exec(Append(One(PushCaller(Name(CallerJson))), rest), env, m, abi)
         == Exec(rest, env, m.(callers := m.callers + [caller]), abi)
    ensures Exec(Append(One(Ignore(CallerJson)), rest), env, m, abi) == Exec(rest, env, m, abi)
  {
  }

  /** The lambda, run on any worker thread: what that thread would itself pull plays no
      part, and the handler sees the document captured at the call. */
  lemma WorkerMeansReference(mod: ModuleDecl, p: Protocol, name: string, args: string, noArgs: bool,
                             callId: string, l: Option<nat>, caller: Document, env: Env, m: Machine, abi: Abi)
    requires JobEnv(env, VoidNames(mod.methods), ResultNames(mod.methods), name, args, callId, l, caller)
    requires noArgs <==> args == "[]"
    ensures
      var seen := Dispatched(name, args, if AtLeast(p, CALLER_MINOR) then Some(caller) else Top(m.callers));
      NoNames(Exec(WorkerBody(mod, VoidNames(mod.methods), ResultNames(mod.methods), p), env, m, abi))
      == Reported(ReplyAnswer(mod, name, noArgs, abi.dispatch(name, args), abi), l, callId,
                  m.(dispatched := m.dispatched + [seen]))
  {
    var tail := WorkerTail(mod, VoidNames(mod.methods), ResultNames(mod.methods));
    var seenBy := if AtLeast(p, CALLER_MINOR) then m.(callers := m.callers + [caller]) else m;
    assert ResultPtr !in Captures(VoidNames(mod.methods), ResultNames(mod.methods));
    WorkerFrame(p, tail, name, args, caller, env, m, abi);
    AfterDispatchMeans(mod, name, args, noArgs, callId, l, caller, m.callers, env, seenBy, abi);
  }

  function Flagged(env: Env, voids: seq<string>, results: seq<string>, name: string): Env {
    var env1 := if results == [] then env else env[IsResultMethod := VBool(name in results)];
    if voids == [] then env1 else env1[IsVoidMethod := VBool(name in voids)]
  }

  lemma FlagsMeans(voids: seq<string>, results: seq<string>, name: string, env: Env, m: Machine, abi: Abi)
    requires Holds(env, MethodName, VStr(name)) && {IsResultMethod, IsVoidMethod} !! env.Keys
    ensures Exec(Flags(voids, results), env, m, abi) == Normal(Flagged(env, voids, results, name), m)
  {
    var first := if results == [] then End else One(Let(IsResultMethod, On(OneOf(results), MethodName)));
    var second := if voids == [] then End else One(Let(IsVoidMethod, On(OneOf(voids), MethodName)));
    var env1 := if results == [] then env else env[IsResultMethod := VBool(name in results)];
    ExecAppend(first, second, env, m, abi);
    ApplyToName(OneOf(results), MethodName, env, abi);
    ApplyToName(OneOf(voids), MethodName, env1, abi);
    if results != [] {
      ThenStep(Let(IsResultMethod, On(OneOf(results), MethodName)), End, env, m, env1, m, abi);
    }
    if voids != [] {
      ThenStep(Let(IsVoidMethod, On(OneOf(voids), MethodName)), End, env1, m,
               Flagged(env, voids, results, name), m, abi);
    }
  }

  function Captured(env: Env, captures: set<Local>): Env {
    map x | x in captures && x in env :: env[x]
  }

  function Deferred(env: Env, m: Machine, abi: Abi): Env {
    env[CallIdVar := VStr(CallIds.CallId(m.instance, m.calls))]
       [EventCb := VListener(m.listener)]
       [CallerJson := VStr(abi.pulled)]
  }

  /** The job queued for a call: the lambda with its captured values. */
  function QueuedJob(mod: ModuleDecl, p: Protocol, name: string, args: seq<Variant>, m: Machine, abi: Abi): Job {
    var voids, results := VoidNames(mod.methods), ResultNames(mod.methods);
    var env := Flagged(Marshalled(CallEnv(name, args), args, abi)[MethodCopy := VStr(name)], voids, results, name);
    Job(Captured(Deferred(env, m, abi), Captures(voids, results)), WorkerBody(mod, voids, results, p))
  }

  lemma StartMeans(captures: set<Local>, body: Block, id: string, env: Env, m: Machine, abi: Abi)
    requires Holds(env, CallIdVar, VStr(id)) && captures <= env.Keys
    ensures Exec(Then(StartWorker(captures, body), One(Return(On(PendingMap, CallIdVar)))), env, m, abi)
         == Returned(Pending(id), m.(jobs := m.jobs + [Job(Captured(env, captures), body)]))
  {
    var last := One(Return(On(PendingMap, CallIdVar)));
    var job := Job(Captured(env, captures), body);
    assert (map x | x in captures :: env[x]) == job.env;
    var m' := m.(jobs := m.jobs + [job]);
    ApplyToName(PendingMap, CallIdVar, env, abi);
    assert Exec(last, env, m', abi) == Returned(Pending(id), m');
    ThenStep(StartWorker(captures, body), last, env, m, env, m', abi);
  }

  lemma DeferMeans(captures: set<Local>, body: Block, env: Env, m: Machine, abi: Abi)
    requires {CallIdVar, EventCb, CallerJson} !! env.Keys
    requires captures - {CallIdVar, EventCb, CallerJson} <= env.Keys
    ensures Exec(Then(NextCallId(CallIdVar),
                      Then(CopyListener(EventCb),
                           Then(Let(CallerJson, Pull),
                                Then(StartWorker(captures, body), One(Return(On(PendingMap, CallIdVar))))))),
              env, m, abi)
         == Returned(Pending(CallIds.CallId(m.instance, m.calls)),
                     m.(calls := m.calls + 1,
                        jobs := m.jobs + [Job(Captured(Deferred(env, m, abi), captures), body)]))
  {
    var id := CallIds.CallId(m.instance, m.calls);
    var m' := m.(calls := m.calls + 1);
    StartMeans(captures, body, id, Deferred(env, m, abi), m', abi);
    ThreePrologueSteps(Then(StartWorker(captures, body), One(Return(On(PendingMap, CallIdVar)))), env, m, abi);
  }

  lemma ThreePrologueSteps(rest: Block, env: Env, m: Machine, abi: Abi)
    requires {CallIdVar, EventCb, CallerJson} !! env.Keys
    ensures Exec(Then(NextCallId(CallIdVar), Then(CopyListener(EventCb), Then(Let(CallerJson, Pull), rest))),
                 env, m, abi)
         == Exec(rest, Deferred(env, m, abi), m.(calls := m.calls + 1), abi)
  {
    var env1 := env[CallIdVar := VStr(CallIds.CallId(m.instance, m.calls))];
    var env2 := env1[EventCb := VListener(m.listener)];
    var m' := m.(calls := m.calls + 1);
    ThenStep(Let(CallerJson, Pull), rest, env2, m', Deferred(env, m, abi), m', abi);
    ThenStep(CopyListener(EventCb), Then(Let(CallerJson, Pull), rest), env1, m', env2, m', abi);
    ThenStep(NextCallId(CallIdVar), Then(CopyListener(EventCb), Then(Let(CallerJson, Pull), rest)),
             env, m, env1, m', abi);
  }

  /** The copy of the name and the two flags, for whatever block follows. */
  lemma PrologueMeans(voids: seq<string>, results: seq<string>, rest: Block, name: string, env: Env, m: Machine,
                      abi: Abi)
    requires Holds(env, MethodName, VStr(name)) && {MethodCopy, IsResultMethod, IsVoidMethod} !! env.Keys
    ensures Exec(Then(Let(MethodCopy, Name(MethodName)), Append(Flags(voids, results), rest)), env, m, abi)
         == Exec(rest, Flagged(env[MethodCopy := VStr(name)], voids, results, name), m, abi)
  {
    var env1 := env[MethodCopy := VStr(name)];
    assert Eval(Name(MethodName), env, abi) == Val(VStr(name));
    ThenStep(Let(MethodCopy, Name(MethodName)), Append(Flags(voids, results), rest), env, m, env1, m, abi);
    ExecAppend(Flags(voids, results), rest, env1, m, abi);
    FlagsMeans(voids, results, name, env1, m, abi);
  }

  lemma MultiDispatchMeans(mod: ModuleDecl, p: Protocol, name: string, args: seq<Variant>, m: Machine, abi: Abi)
    ensures Exec(MultiDispatch(mod, VoidNames(mod.methods), ResultNames(mod.methods), p),
                 Marshalled(CallEnv(name, args), args, abi), m, abi)
         == Returned(Pending(CallIds.CallId(m.instance, m.calls)),
                     m.(calls := m.calls + 1, jobs := m.jobs + [QueuedJob(mod, p, name, args, m, abi)]))
  {
    var voids, results := VoidNames(mod.methods), ResultNames(mod.methods);
    var env := Marshalled(CallEnv(name, args), args, abi);
    PrologueMeans(voids, results, Defer(mod, voids, results, p), name, env, m, abi);
    DeferMeans(Captures(voids, results), WorkerBody(mod, voids, results, p),
               Flagged(env[MethodCopy := VStr(name)], voids, results, name), m, abi);
  }

  /** The whole deferred body: a sentinel carrying the call's id, and one queued job. */
  lemma MultiDefersOneJob(mod: ModuleDecl, document: string, p: Protocol, name: string, args: seq<Variant>,
                          m: Machine, abi: Abi)
    ensures Exec(EmitMulti(mod, document, p), CallEnv(name, args), m, abi)
         == if name == "lidl" then Returned(LidlAnswer(mod, document, args, abi), m)
            else Returned(Pending(CallIds.CallId(m.instance, m.calls)),
                          m.(calls := m.calls + 1, jobs := m.jobs + [QueuedJob(mod, p, name, args, m, abi)]))
  {
    var env := CallEnv(name, args);
    var dispatch := MultiDispatch(mod, VoidNames(mod.methods), ResultNames(mod.methods), p);
    ExecAppend(BuiltInLidl(mod, document), Append(Marshal(), dispatch), env, m, abi);
    BuiltInMeans(mod, document, name, args, m, abi);
    if name != "lidl" {
      ExecAppend(Marshal(), dispatch, env, m, abi);
      MarshalMeans(args, env, m, abi);
      MultiDispatchMeans(mod, p, name, args, m, abi);
    }
  }

  lemma QueuedJobCaptures(mod: ModuleDecl, p: Protocol, name: string, args: seq<Variant>, m: Machine, abi: Abi)
    ensures JobEnv(QueuedJob(mod, p, name, args, m, abi).env, VoidNames(mod.methods), ResultNames(mod.methods),
                   name, Sent(args, abi), CallIds.CallId(m.instance, m.calls), m.listener, abi.pulled)
    ensures InOrder(Sent(args, abi), args, abi)
  {
    SentInOrder(args, abi);
    var env := Marshalled(CallEnv(name, args), args, abi)[MethodCopy := VStr(name)];
    assert Holds(env, Dumped, VStr(Sent(args, abi)));
    CapturedHolds(VoidNames(mod.methods), ResultNames(mod.methods), name, Sent(args, abi), env, m, abi);
  }

  /** The captures are the copies made before, whatever the flags. */
  lemma CapturedHolds(voids: seq<string>, results: seq<string>, name: string, args: string, env: Env, m: Machine,
                      abi: Abi)
    requires Holds(env, MethodCopy, VStr(name)) && Holds(env, Dumped, VStr(args))
    ensures JobEnv(Captured(Deferred(Flagged(env, voids, results, name), m, abi), Captures(voids, results)),
                   voids, results, name, args, CallIds.CallId(m.instance, m.calls), m.listener, abi.pulled)
  {
  }

  /** The two emitted forms agree: for every module, protocol, name, argument list and
      backend, the deferred call's completion carries the value the blocking call returns,
      after the same dispatch, on behalf of the same caller wherever callers are pushed at
      all; and one throws exactly when the other does. What the worker thread would itself
      pull (other) and the callers already standing on it (standing) are arbitrary. */
  lemma SingleAndMultiAgree(mod: ModuleDecl, document: string, p: Protocol, name: string, args: seq<Variant>,
                            m: Machine, abi: Abi, other: Document, standing: seq<string>)
    ensures
      var single := Exec(EmitSingle(mod, document, p), CallEnv(name, args), m, abi);
      var multi := Exec(EmitMulti(mod, document, p), CallEnv(name, args), m, abi);
      if name == "lidl" then single == multi && single.Returned?
      else
        var id := CallIds.CallId(m.instance, m.calls);
        && (single.Returned? || single.Threw?)
        && multi.Returned? && multi.v == Pending(id) && |multi.m.jobs| == |m.jobs| + 1
        && var job := multi.m.jobs[|m.jobs|];
           var worker := NoNames(Exec(job.body, job.env, m.(callers := standing), abi.(pulled := other)));
           var caller := if AtLeast(p, CALLER_MINOR) then Some(abi.pulled) else Top(standing);
           var after := single.m.(callers := standing,
                                  dispatched := m.dispatched + [Dispatched(name, Sent(args, abi), caller)]);
           && (AtLeast(p, CALLER_MINOR) ==> after.dispatched == single.m.dispatched)
           && (single.Returned? ==>
                 worker == Normal(
                   map[],
                   if m.listener.None? then after
                   else after.(events := m.events + [Completion(m.listener.value, id, single.v)])))
           && (single.Threw? ==> worker == Threw(after))
  {
    SingleMeansReference(mod, document, p, name, args, m, abi);
    MultiDefersOneJob(mod, document, p, name, args, m, abi);
    if name != "lidl" {
      QueuedJobCaptures(mod, p, name, args, m, abi);
      DumpIsBracketsIffEmpty(Items(args, abi), abi);
      WorkerMeansReference(mod, p, name, Sent(args, abi), args == [], CallIds.CallId(m.instance, m.calls), m.listener,
                           abi.pulled, QueuedJob(mod, p, name, args, m, abi).env, m.(callers := standing),
                           abi.(pulled := other));
      PulledPlaysNoPart(mod, name, args == [], abi.dispatch(name, Sent(args, abi)), abi, other);
    }
  }

  lemma PulledPlaysNoPart(mod: ModuleDecl, name: string, noArgs: bool, reply: Option<string>, abi: Abi, other: Document)
    ensures ReplyAnswer(mod, name, noArgs, reply, abi.(pulled := other)) == ReplyAnswer(mod, name, noArgs, reply, abi)
  {
  }

  // ---------------------------------------------------------------------------
  // What the answers are
  // ---------------------------------------------------------------------------

  /** A NULL dispatch is refused by name exactly when the module lists methods, lists none
      of that name, and the call is not a bare name() or version(). */
  lemma NullReplyRefuses(name: string, noArgs: bool, origin: string, abi: Abi, refusal: Variant)
    requires refusal == abi.toVariant(Object([Field("code", Str("unknown_method")),
                                              Field("message", Str("unknown method '" + name + "'")),
                                              Field("origin", Str(origin))]))
    requires refusal != Invalid
    ensures NullReply(name, noArgs, origin, abi) == refusal <==>
              && !(noArgs && name in {"name", "version"})
              && abi.listed.Some?
              && abi.parse(abi.listed.value).Some?
              && var listed := abi.parse(abi.listed.value).value;
                 && listed.Array? && listed.items != []
                 && forall i :: 0 <= i < |listed.items| ==>
                      !(listed.items[i].Object? && Find(listed.items[i].fields, "name") == Some(Str(name)))
    ensures NullReply(name, noArgs, origin, abi) in {Invalid, refusal}
  {
  }

  /** What lidl answers: the embedded document, or with arguments a refusal that counts them. */
  lemma LidlAnswers(mod: ModuleDecl, document: string, args: seq<Variant>, abi: Abi)
    ensures args == [] ==> LidlAnswer(mod, document, args, abi) == Text(StringLiteral.CString(document))
    ensures args != [] ==>
              LidlAnswer(mod, document, args, abi)
              == abi.toVariant(Object([Field("code", Str("invalid_args")),
                                       Field("message",
                                             Str("expected 0 arguments, got " + CallIds.Decimal(|args|))),
                                       Field("origin", Str(mod.name))]))
  {
  }

  /** Callers are pushed from protocol 0.6 on. */
  lemma CallersFromProtocolSix(p: Protocol)
    ensures AtLeast(p, CALLER_MINOR) <==> p.Protocol? && !(p.major == 0 && p.minor < 6)
  {
  }

  /** The one reply that makes either form throw: an object from a result method whose
      success is present and not a boolean. In a pool worker nothing catches it. */
  lemma ThrowsExactlyWhen(mod: ModuleDecl, name: string, noArgs: bool, reply: Option<string>, abi: Abi)
    ensures ReplyAnswer(mod, name, noArgs, reply, abi).Throws? <==>
              && reply.Some? && abi.parse(reply.value).Some?
              && !IsVoid(mod, name) && IsResult(mod, name)
              && var j := abi.parse(reply.value).value;
                 j.Object? && Find(j.fields, "success").Some? && !Find(j.fields, "success").value.Bool?
  {
  }
}
