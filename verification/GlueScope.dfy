/** What a C++ compiler checks of the emitted bodies, on every path, taken or not: names are
    declared before use, and the worker's capture list is neither short nor idle. */
module GlueScope {
  import opened GlueLanguage
  import opened GlueEmitter

  lemma UsedOn(op: Op, x: Local)
    ensures Used(On(op, x)) == {x}
  {
  }

  lemma RejectedNames()
    ensures Used(Rejected()) == {JResult} && Used(VoidReply()) == {RejectedFlag, JResult}
  {
  }

  lemma FillNames(last: Stmt)
    requires StatementExact(last)
    ensures Unbound(FillResult(last)) == {JResult} + (Mentions(last) - {LrSuccess, LrValue, LrError})
    ensures CapturesExact(FillResult(last))
  {
    UsedOn(BoolKey("success"), JResult);
    UsedOn(JsonKey("value"), JResult);
    UsedOn(HasKey("error"), JResult);
    UsedOn(KeyIsText("error"), JResult);
    UsedOn(KeyText("error"), JResult);
    var test := Both(On(HasKey("error"), JResult), On(KeyIsText("error"), JResult));
    assert Used(test) == {JResult} && Used(ABSENT) == {};
    assert Used(SetError().e) == {JResult};
    assert Used(SetValue().e) == {JResult};
    OneNames(last);
    ThenNames(SetError(), One(last));
    ThenNames(SetValue(), Then(SetError(), One(last)));
    ThenNames(SetSuccess(), Then(SetValue(), Then(SetError(), One(last))));
  }

  lemma WhenNames(c: Expr, yes: Block)
    requires CapturesExact(yes)
    ensures Mentions(When(c, yes)) == Used(c) + Unbound(yes) && StatementExact(When(c, yes))
  {
  }

  lemma VoidNamesUsed(last: Stmt)
    requires last == Return(VoidReply()) || last == Set(ValueVar, VoidReply())
    ensures Unbound(Then(Let(RejectedFlag, Rejected()), One(last))) == {JResult} + if last.Set? then {ValueVar} else {}
    ensures CapturesExact(Then(Let(RejectedFlag, Rejected()), One(last)))
  {
    RejectedNames();
    OneNames(last);
    ThenNames(Let(RejectedFlag, Rejected()), One(last));
  }

  // ---------------------------------------------------------------------------
  // The blocking body
  // ---------------------------------------------------------------------------

  lemma SingleReplyNames(voids: seq<string>, results: seq<string>)
    ensures Unbound(SingleReply(voids, results)) <= {MethodName, JResult} && CapturesExact(SingleReply(voids, results))
  {
    var ordinary := Return(On(ToVariant, JResult));
    UsedOn(ToVariant, JResult);
    OneNames(ordinary);
    if results != [] {
      var test := Both(On(OneOf(results), MethodName), On(IsObject, JResult));
      UsedOn(OneOf(results), MethodName);
      UsedOn(IsObject, JResult);
      assert Used(Lr()) == {LrSuccess, LrValue, LrError};
      FillNames(Return(Lr()));
      WhenNames(test, FillResult(Return(Lr())));
      ThenNames(When(test, FillResult(Return(Lr()))), One(ordinary));
    }
    if voids != [] {
      var yes := Then(Let(RejectedFlag, Rejected()), One(Return(VoidReply())));
      UsedOn(OneOf(voids), MethodName);
      VoidNamesUsed(Return(VoidReply()));
      WhenNames(On(OneOf(voids), MethodName), yes);
      ThenNames(When(On(OneOf(voids), MethodName), yes), SingleResult(results));
    }
  }

  lemma SingleTailNames(m: ModuleDecl, voids: seq<string>, results: seq<string>)
    ensures Unbound(SingleTail(m, voids, results)) <= {MethodName, ArgList, ResultPtr}
    ensures CapturesExact(SingleTail(m, voids, results))
  {
    SingleReplyNames(voids, results);
    UsedOn(IsDiscarded, JResult);
    OneNames(Return(ABSENT));
    WhenNames(On(IsDiscarded, JResult), One(Return(ABSENT)));
    ThenNames(When(On(IsDiscarded, JResult), One(Return(ABSENT))), SingleReply(voids, results));
    ThenNames(Free(ResultPtr), SingleParsed(voids, results));
    UsedOn(Parse, ResultPtr);
    var rest := Then(Let(JResult, On(Parse, ResultPtr)), Then(Free(ResultPtr), SingleParsed(voids, results)));
    ThenNames(Let(JResult, On(Parse, ResultPtr)), Then(Free(ResultPtr), SingleParsed(voids, results)));
    var refuse := Return(NullAnswer(Name(MethodName), On(NoArgs, ArgList), m.name));
    UsedOn(NoArgs, ArgList);
    assert Used(Name(MethodName)) == {MethodName};
    assert Mentions(refuse) == {MethodName, ArgList};
    OneNames(refuse);
    UsedOn(IsNull, ResultPtr);
    WhenNames(On(IsNull, ResultPtr), One(refuse));
    ThenNames(When(On(IsNull, ResultPtr), One(refuse)), rest);
  }

  /** Dispatch, pop or nothing, and the statements after them. */
  lemma DispatchNames(p: Protocol, from: Local, tail: Block)
    requires CapturesExact(tail)
    ensures Unbound(Then(Dispatch(ResultPtr, from, Dumped), Append(Guarded(p, One(PopCaller), End), tail)))
         == {from, Dumped} + (Unbound(tail) - {ResultPtr})
    ensures CapturesExact(Then(Dispatch(ResultPtr, from, Dumped), Append(Guarded(p, One(PopCaller), End), tail)))
  {
    OneNames(PopCaller);
    UnboundAppend(Guarded(p, One(PopCaller), End), tail);
    ThenNames(Dispatch(ResultPtr, from, Dumped), Append(Guarded(p, One(PopCaller), End), tail));
  }

  lemma PushNames(p: Protocol, rest: Block)
    requires CapturesExact(rest)
    ensures
      var single := Append(Guarded(p, Then(Let(CallerJson, Pull), One(PushCaller(Name(CallerJson)))), End), rest);
      var worker := Append(Guarded(p, One(PushCaller(Name(CallerJson))), One(Ignore(CallerJson))), rest);
      && Unbound(single) <= Unbound(rest) && CapturesExact(single)
      && Unbound(worker) == {CallerJson} + Unbound(rest) && CapturesExact(worker)
  {
    assert Used(Name(CallerJson)) == {CallerJson};
    OneNames(PushCaller(Name(CallerJson)));
    OneNames(Ignore(CallerJson));
    ThenNames(Let(CallerJson, Pull), One(PushCaller(Name(CallerJson))));
    UnboundAppend(Guarded(p, Then(Let(CallerJson, Pull), One(PushCaller(Name(CallerJson)))), End), rest);
    UnboundAppend(Guarded(p, One(PushCaller(Name(CallerJson))), One(Ignore(CallerJson))), rest);
  }

  lemma SingleNames(m: ModuleDecl, voids: seq<string>, results: seq<string>, p: Protocol)
    ensures Unbound(SingleDispatch(m, voids, results, p)) <= {MethodName, ArgList, Dumped}
    ensures CapturesExact(SingleDispatch(m, voids, results, p))
  {
    SingleTailNames(m, voids, results);
    var tail := SingleTail(m, voids, results);
    DispatchNames(p, MethodName, tail);
    PushNames(p, Then(Dispatch(ResultPtr, MethodName, Dumped), Append(Guarded(p, One(PopCaller), End), tail)));
  }

  // ---------------------------------------------------------------------------
  // The deferred body
  // ---------------------------------------------------------------------------

  lemma WorkerOrdinaryNames(results: seq<string>)
    ensures Unbound(WorkerOrdinary(results)) == {ValueVar, JResult} + if results == [] then {} else {IsResultMethod}
    ensures CapturesExact(WorkerOrdinary(results))
  {
    var ordinary := Set(ValueVar, On(ToVariant, JResult));
    UsedOn(ToVariant, JResult);
    OneNames(ordinary);
    if results != [] {
      var test := Both(Name(IsResultMethod), On(IsObject, JResult));
      UsedOn(IsObject, JResult);
      assert Used(Name(IsResultMethod)) == {IsResultMethod};
      assert Used(test) == {IsResultMethod, JResult};
      assert Used(Lr()) == {LrSuccess, LrValue, LrError};
      FillNames(Set(ValueVar, Lr()));
      OneNames(IfElse(test, FillResult(Set(ValueVar, Lr())), One(ordinary)));
    }
  }

  function Flagging(voids: seq<string>, results: seq<string>): set<Local> {
    (if voids == [] then {} else {IsVoidMethod}) + if results == [] then {} else {IsResultMethod}
  }

  lemma WorkerReplyNames(voids: seq<string>, results: seq<string>)
    ensures Unbound(WorkerReply(voids, results)) == {ValueVar, ResultPtr} + Flagging(voids, results)
    ensures CapturesExact(WorkerReply(voids, results))
  {
    WorkerOrdinaryNames(results);
    var decode := WorkerDecode(voids, results);
    if voids != [] {
      var yes := Then(Let(RejectedFlag, Rejected()), One(Set(ValueVar, VoidReply())));
      VoidNamesUsed(Set(ValueVar, VoidReply()));
      assert Used(Name(IsVoidMethod)) == {IsVoidMethod};
      OneNames(IfElse(Name(IsVoidMethod), yes, WorkerOrdinary(results)));
    }
    assert Unbound(decode) == {ValueVar, JResult} + Flagging(voids, results) && CapturesExact(decode);
    var test := Apply(Negate, On(IsDiscarded, JResult));
    UsedOn(IsDiscarded, JResult);
    assert Used(test) == {JResult};
    WhenNames(test, decode);
    OneNames(When(test, decode));
    ThenNames(Free(ResultPtr), One(When(test, decode)));
    UsedOn(Parse, ResultPtr);
    ThenNames(Let(JResult, On(Parse, ResultPtr)), Then(Free(ResultPtr), One(When(test, decode))));
  }

  lemma ReportNames(m: ModuleDecl, reply: Block)
    requires CapturesExact(reply)
    ensures
      var no := One(Set(ValueVar, NullAnswer(Name(MethodCopy), On(SameText("[]"), Dumped), m.name)));
      var tail := Then(Let(ValueVar, ABSENT),
                       Then(IfElse(Apply(Negate, On(IsNull, ResultPtr)), reply, no),
                            One(Notify(EventCb, CallIdVar, ValueVar))));
      && Unbound(tail) == {ResultPtr, MethodCopy, Dumped, EventCb, CallIdVar} + (Unbound(reply) - {ValueVar})
      && CapturesExact(tail)
  {
    var refusal := NullAnswer(Name(MethodCopy), On(SameText("[]"), Dumped), m.name);
    UsedOn(SameText("[]"), Dumped);
    assert Used(Name(MethodCopy)) == {MethodCopy};
    assert Used(refusal) == {MethodCopy, Dumped};
    var no, test := One(Set(ValueVar, refusal)), Apply(Negate, On(IsNull, ResultPtr));
    OneNames(Set(ValueVar, refusal));
    UsedOn(IsNull, ResultPtr);
    assert Used(test) == {ResultPtr};
    var branch, notify := IfElse(test, reply, no), Notify(EventCb, CallIdVar, ValueVar);
    assert Mentions(branch) == {ResultPtr} + Unbound(reply) + {ValueVar, MethodCopy, Dumped};
    OneNames(notify);
    ThenNames(branch, One(notify));
    assert Used(ABSENT) == {};
    ThenNames(Let(ValueVar, ABSENT), Then(branch, One(notify)));
  }

  /** The lambda takes from outside exactly what the generated capture list names. */
  lemma WorkerNames(m: ModuleDecl, voids: seq<string>, results: seq<string>, p: Protocol)
    ensures Unbound(WorkerBody(m, voids, results, p)) == Captures(voids, results)
    ensures CapturesExact(WorkerBody(m, voids, results, p))
  {
    WorkerReplyNames(voids, results);
    ReportNames(m, WorkerReply(voids, results));
    var tail := WorkerTail(m, voids, results);
    DispatchNames(p, MethodCopy, tail);
    PushNames(p, Then(Dispatch(ResultPtr, MethodCopy, Dumped), Append(Guarded(p, One(PopCaller), End), tail)));
  }

  lemma DeferNames(m: ModuleDecl, voids: seq<string>, results: seq<string>, p: Protocol)
    ensures Unbound(Defer(m, voids, results, p)) == Captures(voids, results) - {CallIdVar, EventCb, CallerJson}
    ensures CapturesExact(Defer(m, voids, results, p))
  {
    WorkerNames(m, voids, results, p);
    var start := StartWorker(Captures(voids, results), WorkerBody(m, voids, results, p));
    var last := Return(On(PendingMap, CallIdVar));
    UsedOn(PendingMap, CallIdVar);
    OneNames(last);
    ThenNames(start, One(last));
    ThenNames(Let(CallerJson, Pull), Then(start, One(last)));
    ThenNames(CopyListener(EventCb), Then(Let(CallerJson, Pull), Then(start, One(last))));
    ThenNames(NextCallId(CallIdVar), Then(CopyListener(EventCb), Then(Let(CallerJson, Pull), Then(start, One(last)))));
  }

  lemma MultiNames(m: ModuleDecl, voids: seq<string>, results: seq<string>, p: Protocol)
    ensures Unbound(MultiDispatch(m, voids, results, p)) <= {MethodName, Dumped}
    ensures CapturesExact(MultiDispatch(m, voids, results, p))
  {
    DeferNames(m, voids, results, p);
    FlagNames(voids, results);
    UnboundAppend(Flags(voids, results), Defer(m, voids, results, p));
    assert Used(Name(MethodName)) == {MethodName};
    ThenNames(Let(MethodCopy, Name(MethodName)), Append(Flags(voids, results), Defer(m, voids, results, p)));
  }

  lemma FlagNames(voids: seq<string>, results: seq<string>)
    ensures Unbound(Flags(voids, results)) <= {MethodName} && CapturesExact(Flags(voids, results))
    ensures Declared(Flags(voids, results)) == Flagging(voids, results)
  {
    var isResult := Let(IsResultMethod, On(OneOf(results), MethodName));
    var isVoid := Let(IsVoidMethod, On(OneOf(voids), MethodName));
    UsedOn(OneOf(results), MethodName);
    UsedOn(OneOf(voids), MethodName);
    OneNames(isResult);
    OneNames(isVoid);
    UnboundAppend(if results == [] then End else One(isResult), if voids == [] then End else One(isVoid));
  }

  // ---------------------------------------------------------------------------
  // Both bodies
  // ---------------------------------------------------------------------------

  lemma OpeningNames(m: ModuleDecl, document: string, rest: Block)
    ensures Unbound(Append(BuiltInLidl(m, document), Append(Marshal(), rest)))
         <= {MethodName, ArgList} + (Unbound(rest) - {JArgs, Dumped})
    ensures CapturesExact(Append(BuiltInLidl(m, document), Append(Marshal(), rest))) <==> CapturesExact(rest)
  {
    var answer, dump := Return(Utf8(document)), Let(Dumped, On(Dump, JArgs));
    var misuse := Then(Let(Err, On(ArityError(m.name), ArgList)), One(Return(On(ToVariant, Err))));
    var test := Apply(Negate, On(NoArgs, ArgList));
    UsedOn(ToVariant, Err);
    UsedOn(ArityError(m.name), ArgList);
    UsedOn(NoArgs, ArgList);
    UsedOn(SameText("lidl"), MethodName);
    UsedOn(Dump, JArgs);
    OneNames(Return(On(ToVariant, Err)));
    ThenNames(Let(Err, On(ArityError(m.name), ArgList)), One(Return(On(ToVariant, Err))));
    assert Used(test) == {ArgList};
    WhenNames(test, misuse);
    OneNames(answer);
    ThenNames(When(test, misuse), One(answer));
    WhenNames(On(SameText("lidl"), MethodName), Then(When(test, misuse), One(answer)));
    OneNames(When(On(SameText("lidl"), MethodName), Then(When(test, misuse), One(answer))));
    OneNames(dump);
    ThenNames(PushEach(JArgs, ArgList), One(dump));
    ThenNames(Let(JArgs, Const(VJson(Array([])))), Then(PushEach(JArgs, ArgList), One(dump)));
    UnboundAppend(Marshal(), rest);
    UnboundAppend(BuiltInLidl(m, document), Append(Marshal(), rest));
  }

  /** Every module, either form, any protocol: only the two parameters come from outside. */
  lemma EmittedNamesAreInScope(m: ModuleDecl, document: string, p: Protocol)
    ensures Unbound(EmitSingle(m, document, p)) <= {MethodName, ArgList} && CapturesExact(EmitSingle(m, document, p))
    ensures Unbound(EmitMulti(m, document, p)) <= {MethodName, ArgList} && CapturesExact(EmitMulti(m, document, p))
  {
    var voids, results := VoidNames(m.methods), ResultNames(m.methods);
    OpeningNames(m, document, SingleDispatch(m, voids, results, p));
    OpeningNames(m, document, MultiDispatch(m, voids, results, p));
    SingleNames(m, voids, results, p);
    MultiNames(m, voids, results, p);
  }
}
