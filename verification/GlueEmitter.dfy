/** The module contract, the reference answer of a call on it, and the generator's two
    callMethod bodies, blocking and deferred. */
module GlueEmitter {
  import opened Options
  import opened GlueLanguage
  import StringLiteral

  // ---------------------------------------------------------------------------
  // The contract
  // ---------------------------------------------------------------------------

  datatype MethodDecl = MethodDecl(name: string, resultReturn: bool, hasReturnType: bool)

  datatype ModuleDecl = ModuleDecl(name: string, methods: seq<MethodDecl>)

  predicate IsResult(m: ModuleDecl, name: string) {
    exists i :: 0 <= i < |m.methods| && m.methods[i].name == name && m.methods[i].resultReturn
  }

  predicate IsVoid(m: ModuleDecl, name: string) {
    exists i :: 0 <= i < |m.methods| && m.methods[i].name == name
                && !m.methods[i].resultReturn && !m.methods[i].hasReturnType
  }

  /** LOGOS_PROTOCOL_VERSION_MAJOR and _MINOR, when the header defines them. */
  datatype Protocol = Unversioned | Protocol(major: nat, minor: nat)

  /** The guard spelled out in the emitted preprocessor lines. */
  predicate AtLeast(p: Protocol, minor: nat) {
    p.Protocol? && (p.major > 0 || (p.major == 0 && p.minor >= minor))
  }

  const CALLER_MINOR: nat := 6

  // ---------------------------------------------------------------------------
  // What a call means
  // ---------------------------------------------------------------------------

  datatype Answer = Answer(v: Variant) | Throws

  /** The closed set of refusal codes a void method may answer with. */
  predicate Refused(j: Json) {
    j.Object? && Find(j.fields, "code") in
      {Some(Str("dispatch_failed")), Some(Str("invalid_args")), Some(Str("unknown_method"))}
  }

  /** The LogosResult rebuilt from {success, value, error}. */
  function ResultAnswer(fields: seq<Field>, abi: Abi): Answer {
    var success := Find(fields, "success");
    var value := Find(fields, "value");
    var error := Find(fields, "error");
    if success.Some? && !success.value.Bool? then Throws
    else Answer(Outcome(success.Some? && success.value.b,
                        abi.toVariant(if value.Some? then value.value else Null),
                        if error.Some? && error.value.Str? then Text(error.value.s) else Invalid))
  }

  function ReplyAnswer(m: ModuleDecl, name: string, noArgs: bool, reply: Option<string>, abi: Abi): Answer {
    if reply.None? then Answer(NullReply(name, noArgs, m.name, abi))
    else match abi.parse(reply.value)
      case None => Answer(Invalid)
      case Some(j) =>
        if IsVoid(m, name) then Answer(if Refused(j) then abi.toVariant(j) else Boolean(true))
        else if IsResult(m, name) && j.Object? then ResultAnswer(j.fields, abi)
        else Answer(abi.toVariant(j))
  }

  function LidlAnswer(m: ModuleDecl, document: string, args: seq<Variant>, abi: Abi): Variant {
    if args == [] then Text(StringLiteral.CString(document))
    else abi.toVariant(ArityJson(|args|, m.name))
  }

  function Sent(args: seq<Variant>, abi: Abi): string {
    DumpArray(Items(args, abi), abi)
  }

  /** The text is the dump of the arguments, each converted, in the order of the call. */
  ghost predicate InOrder(text: string, args: seq<Variant>, abi: Abi) {
    exists items :: |items| == |args| && (forall k :: 0 <= k < |args| ==> items[k] == abi.toJson(args[k]))
                    && text == DumpArray(items, abi)
  }

  // ---------------------------------------------------------------------------
  // The emitted statements
  // ---------------------------------------------------------------------------

  function ResultNames(methods: seq<MethodDecl>): seq<string> {
    if methods == [] then []
    else
      var last := methods[|methods| - 1];
      ResultNames(methods[..|methods| - 1]) + if last.resultReturn then [last.name] else []
  }

  function VoidNames(methods: seq<MethodDecl>): seq<string> {
    if methods == [] then []
    else
      var last := methods[|methods| - 1];
      VoidNames(methods[..|methods| - 1])
      + if !last.resultReturn && !last.hasReturnType then [last.name] else []
  }

  lemma {:induction false} NameLists(m: ModuleDecl, name: string)
    ensures name in ResultNames(m.methods) <==> IsResult(m, name)
    ensures name in VoidNames(m.methods) <==> IsVoid(m, name)
    decreases |m.methods|
  {
    if m.methods != [] {
      var n := |m.methods| - 1;
      NameLists(m.(methods := m.methods[..n]), name);
      assert forall i :: 0 <= i < n ==> m.methods[..n][i] == m.methods[i];
      assert m.methods[n] in m.methods;
    }
  }

  function On(op: Op, x: Local): Expr { Apply(op, Name(x)) }

  const ABSENT: Expr := Const(VVariant(Invalid))

  const YES: Expr := Const(VVariant(Boolean(true)))

  /** QString::fromUtf8 of an embedded literal. */
  function Utf8(text: string): Expr { Const(VVariant(Text(StringLiteral.CString(text)))) }

  function BuiltInLidl(m: ModuleDecl, document: string): Block {
    One(When(On(SameText("lidl"), MethodName),
             Then(When(Apply(Negate, On(NoArgs, ArgList)),
                       Then(Let(Err, On(ArityError(m.name), ArgList)), One(Return(On(ToVariant, Err))))),
                  One(Return(Utf8(document))))))
  }

  function Marshal(): Block {
    Then(Let(JArgs, Const(VJson(Array([])))),
         Then(PushEach(JArgs, ArgList),
              One(Let(Dumped, On(Dump, JArgs)))))
  }

  function Guarded(p: Protocol, yes: Block, no: Block): Block {
    if AtLeast(p, CALLER_MINOR) then yes else no
  }

  function AnyCode(): Expr {
    Either(On(KeyIs("code", "dispatch_failed"), JResult),
           Either(On(KeyIs("code", "invalid_args"), JResult),
                  On(KeyIs("code", "unknown_method"), JResult)))
  }

  function Rejected(): Expr {
    Both(On(IsObject, JResult),
         Both(On(HasKey("code"), JResult), Both(On(KeyIsText("code"), JResult), AnyCode())))
  }

  function VoidReply(): Expr { Choose(Name(RejectedFlag), On(ToVariant, JResult), YES) }

  function SetSuccess(): Stmt { Let(LrSuccess, On(BoolKey("success"), JResult)) }

  function SetValue(): Stmt { Let(LrValue, Apply(ToVariant, On(JsonKey("value"), JResult))) }

  function SetError(): Stmt {
    Let(LrError, Choose(Both(On(HasKey("error"), JResult), On(KeyIsText("error"), JResult)),
                           On(KeyText("error"), JResult), ABSENT))
  }

  function FillResult(last: Stmt): Block {
    Then(SetSuccess(), Then(SetValue(), Then(SetError(), One(last))))
  }

  function Lr(): Expr { MakeResult(Name(LrSuccess), Name(LrValue), Name(LrError)) }

  /** The blocking body after the dispatch. */
  function SingleTail(m: ModuleDecl, voids: seq<string>, results: seq<string>): Block {
    Then(When(On(IsNull, ResultPtr),
              One(Return(NullAnswer(Name(MethodName), On(NoArgs, ArgList), m.name)))),
         Then(Let(JResult, On(Parse, ResultPtr)),
              Then(Free(ResultPtr), SingleParsed(voids, results))))
  }

  function SingleParsed(voids: seq<string>, results: seq<string>): Block {
    Then(When(On(IsDiscarded, JResult), One(Return(ABSENT))), SingleReply(voids, results))
  }

  function SingleReply(voids: seq<string>, results: seq<string>): Block {
    if voids == [] then SingleResult(results)
    else Then(When(On(OneOf(voids), MethodName),
                   Then(Let(RejectedFlag, Rejected()), One(Return(VoidReply())))),
              SingleResult(results))
  }

  function SingleResult(results: seq<string>): Block {
    if results == [] then One(Return(On(ToVariant, JResult)))
    else Then(When(Both(On(OneOf(results), MethodName), On(IsObject, JResult)), FillResult(Return(Lr()))),
              One(Return(On(ToVariant, JResult))))
  }

  function SingleDispatch(m: ModuleDecl, voids: seq<string>, results: seq<string>, p: Protocol): Block {
    Append(Guarded(p, Then(Let(CallerJson, Pull), One(PushCaller(Name(CallerJson)))), End),
           Then(Dispatch(ResultPtr, MethodName, Dumped),
                Append(Guarded(p, One(PopCaller), End), SingleTail(m, voids, results))))
  }

  function EmitSingle(m: ModuleDecl, document: string, p: Protocol): Block {
    Append(BuiltInLidl(m, document),
           Append(Marshal(), SingleDispatch(m, VoidNames(m.methods), ResultNames(m.methods), p)))
  }

  /** The pool worker's lambda. */
  function WorkerBody(m: ModuleDecl, voids: seq<string>, results: seq<string>, p: Protocol): Block {
    Append(Guarded(p, One(PushCaller(Name(CallerJson))), One(Ignore(CallerJson))),
           Then(Dispatch(ResultPtr, MethodCopy, Dumped),
                Append(Guarded(p, One(PopCaller), End), WorkerTail(m, voids, results))))
  }

  function WorkerTail(m: ModuleDecl, voids: seq<string>, results: seq<string>): Block {
    Then(Let(ValueVar, ABSENT),
         Then(IfElse(Apply(Negate, On(IsNull, ResultPtr)), WorkerReply(voids, results),
                     One(Set(ValueVar, NullAnswer(Name(MethodCopy), On(SameText("[]"), Dumped), m.name)))),
              One(Notify(EventCb, CallIdVar, ValueVar))))
  }

  function WorkerReply(voids: seq<string>, results: seq<string>): Block {
    Then(Let(JResult, On(Parse, ResultPtr)),
         Then(Free(ResultPtr),
              One(When(Apply(Negate, On(IsDiscarded, JResult)), WorkerDecode(voids, results)))))
  }

  function WorkerDecode(voids: seq<string>, results: seq<string>): Block {
    if voids == [] then WorkerOrdinary(results)
    else One(IfElse(Name(IsVoidMethod),
                    Then(Let(RejectedFlag, Rejected()), One(Set(ValueVar, VoidReply()))),
                    WorkerOrdinary(results)))
  }

  function WorkerOrdinary(results: seq<string>): Block {
    if results == [] then One(Set(ValueVar, On(ToVariant, JResult)))
    else One(IfElse(Both(Name(IsResultMethod), On(IsObject, JResult)),
                    FillResult(Set(ValueVar, Lr())),
                    One(Set(ValueVar, On(ToVariant, JResult)))))
  }

  function Captures(voids: seq<string>, results: seq<string>): set<Local> {
    {MethodCopy, Dumped}
    + (if voids == [] then {} else {IsVoidMethod})
    + (if results == [] then {} else {IsResultMethod})
    + {CallIdVar, EventCb, CallerJson}
  }

  function Flags(voids: seq<string>, results: seq<string>): Block {
    Append(if results == [] then End else One(Let(IsResultMethod, On(OneOf(results), MethodName))),
           if voids == [] then End else One(Let(IsVoidMethod, On(OneOf(voids), MethodName))))
  }

  function Defer(m: ModuleDecl, voids: seq<string>, results: seq<string>, p: Protocol): Block {
    Then(NextCallId(CallIdVar),
         Then(CopyListener(EventCb),
              Then(Let(CallerJson, Pull),
                   Then(StartWorker(Captures(voids, results), WorkerBody(m, voids, results, p)),
                        One(Return(On(PendingMap, CallIdVar)))))))
  }

  function MultiDispatch(m: ModuleDecl, voids: seq<string>, results: seq<string>, p: Protocol): Block {
    Then(Let(MethodCopy, Name(MethodName)),
         Append(Flags(voids, results), Defer(m, voids, results, p)))
  }

  function EmitMulti(m: ModuleDecl, document: string, p: Protocol): Block {
    Append(BuiltInLidl(m, document),
           Append(Marshal(), MultiDispatch(m, VoidNames(m.methods), ResultNames(m.methods), p)))
  }

  /** The generator itself: the name lists are filled in loops, the text buffer grows. */
  method MakeCallMethod(m: ModuleDecl, document: string, multi: bool, p: Protocol) returns (c: Block)
    ensures c == if multi then EmitMulti(m, document, p) else EmitSingle(m, document, p)
  {
    var resultMethods: seq<string> := [];
    for i := 0 to |m.methods|
      invariant resultMethods == ResultNames(m.methods[..i])
    {
      var read := m.methods[..i + 1];
      assert read[..i] == m.methods[..i] && read[i] == m.methods[i];
      if m.methods[i].resultReturn {
        resultMethods := resultMethods + [m.methods[i].name];
      }
    }
    var voidMethods: seq<string> := [];
    for i := 0 to |m.methods|
      invariant voidMethods == VoidNames(m.methods[..i])
    {
      var read := m.methods[..i + 1];
      assert read[..i] == m.methods[..i] && read[i] == m.methods[i];
      if !m.methods[i].resultReturn && !m.methods[i].hasReturnType {
        voidMethods := voidMethods + [m.methods[i].name];
      }
    }
    assert m.methods[..|m.methods|] == m.methods;
    assert voidMethods == VoidNames(m.methods) && resultMethods == ResultNames(m.methods);
    c := BuiltInLidl(m, document);
    c := Append(c, Marshal());
    if !multi {
      c := Append(c, SingleDispatch(m, voidMethods, resultMethods, p));
      AppendIsAssociative(BuiltInLidl(m, document), Marshal(), SingleDispatch(m, voidMethods, resultMethods, p));
    } else {
      var workerCaptures := {MethodCopy, Dumped};
      if voidMethods != [] {
        workerCaptures := workerCaptures + {IsVoidMethod};
      }
      if resultMethods != [] {
        workerCaptures := workerCaptures + {IsResultMethod};
      }
      workerCaptures := workerCaptures + {CallIdVar, EventCb, CallerJson};
      var start := StartWorker(workerCaptures, WorkerBody(m, voidMethods, resultMethods, p));
      var deferral := Then(NextCallId(CallIdVar),
                           Then(CopyListener(EventCb),
                                Then(Let(CallerJson, Pull),
                                     Then(start, One(Return(On(PendingMap, CallIdVar)))))));
      assert workerCaptures == Captures(voidMethods, resultMethods);
      assert deferral == Defer(m, voidMethods, resultMethods, p);
      c := Append(c, Then(Let(MethodCopy, Name(MethodName)), Append(Flags(voidMethods, resultMethods), deferral)));
      AppendIsAssociative(BuiltInLidl(m, document), Marshal(), MultiDispatch(m, voidMethods, resultMethods, p));
    }
  }
}
