/** The fragment of C++ the generator emits for callMethod, with a meaning.
    Execution is stuck on an unbound name, a use of a freed or null C string, a member
    read that C++ leaves undefined, or a pop with no caller pushed. */
module GlueLanguage {
  import opened Options
  import CallIds

  // ---------------------------------------------------------------------------
  // Values that cross the module ABI
  // ---------------------------------------------------------------------------

  /** Every JSON value has a non-empty text (section 3 of RFC 8259). */
  type JsonText = s: string | s != [] witness "null"

  datatype Json =
    | Null
    | Bool(b: bool)
    | Number(text: JsonText)
    | Str(s: string)
    | Array(items: seq<Json>)
    | Object(fields: seq<Field>)

  datatype Field = Field(key: string, value: Json)

  /** The value of the first field with this key. */
  function Find(fields: seq<Field>, key: string): (r: Option<Json>)
    ensures r.None? <==> forall i :: 0 <= i < |fields| ==> fields[i].key != key
    ensures r.Some? ==> exists i :: 0 <= i < |fields| && fields[i] == Field(key, r.value)
                                    && forall j :: 0 <= j < i ==> fields[j].key != key
  {
    if fields == [] then None
    else if fields[0].key == key then Some(fields[0].value)
    else Find(fields[1..], key)
  }

  /** QVariant, as far as callMethod distinguishes its contents. */
  datatype Variant =
    | Invalid
    | Boolean(b: bool)
    | Text(s: string)
    | Outcome(success: bool, value: Variant, error: Variant)
    | Pending(callId: string)
    | Other(id: int)

  /** A caller document is never empty: on this ABI an empty one is not an identity. */
  type Document = s: string | s != [] witness "{}"

  /** Everything callMethod reaches outside itself; all of it is arbitrary. */
  datatype Abi = Abi(
    toJson: Variant -> Json,                          // logos::qvariantToNlohmann
    toVariant: Json -> Variant,                       // logos::nlohmannToQVariant
    itemText: Json -> JsonText,                       // how an array element is dumped
    parse: string -> Option<Json>,                    // None: discarded
    dispatch: (string, string) -> Option<string>,     // None: NULL
    listed: Option<string>,                           // logos_module_get_methods
    pulled: Document)                                 // currentCallerJson, on this thread

  function Joined(texts: seq<JsonText>): string {
    if texts == [] then []
    else if |texts| == 1 then texts[0]
    else texts[0] + [','] + Joined(texts[1..])
  }

  function Texts(items: seq<Json>, abi: Abi): (texts: seq<JsonText>)
    ensures |texts| == |items|
  {
    seq<JsonText>(|items|, i requires 0 <= i < |items| => abi.itemText(items[i]))
  }

  /** The dump of a JSON array (section 5 of RFC 8259). */
  function DumpArray(items: seq<Json>, abi: Abi): string {
    ['['] + Joined(Texts(items, abi)) + [']']
  }

  lemma {:induction false} JoinedSnoc(texts: seq<JsonText>, t: JsonText)
    requires texts != []
    ensures Joined(texts + [t]) == Joined(texts) + [','] + t
  {
    if |texts| == 1 {
      assert (texts + [t])[1..] == [t];
    } else {
      assert (texts + [t])[1..] == texts[1..] + [t];
      JoinedSnoc(texts[1..], t);
    }
  }

  /** One more item at the end of the array is one more text at the end of its dump. */
  lemma DumpSnoc(items: seq<Json>, j: Json, abi: Abi)
    ensures DumpArray([j], abi) == ['['] + abi.itemText(j) + [']']
    ensures items != [] ==>
              DumpArray(items + [j], abi)
              == DumpArray(items, abi)[..|DumpArray(items, abi)| - 1] + [','] + abi.itemText(j) + [']']
  {
    if items != [] {
      assert Texts(items + [j], abi) == Texts(items, abi) + [abi.itemText(j)];
      JoinedSnoc(Texts(items, abi), abi.itemText(j));
    }
  }

  /** The multi worker tests the dump where the blocking form tests the argument list. */
  lemma DumpIsBracketsIffEmpty(items: seq<Json>, abi: Abi)
    ensures DumpArray(items, abi) == "[]" <==> items == []
  {
  }

  function RejectionJson(code: string, message: string, origin: string): Json {
    Object([Field("code", Str(code)), Field("message", Str(message)), Field("origin", Str(origin))])
  }

  // ---------------------------------------------------------------------------
  // The helper lidlNullReply, emitted beside callMethod
  // ---------------------------------------------------------------------------

  predicate Names(entry: Json, called: string) {
    entry.Object? && Find(entry.fields, "name") == Some(Str(called))
  }

  predicate AnyNames(listed: seq<Json>, called: string)
    ensures AnyNames(listed, called) <==> exists i :: 0 <= i < |listed| && Names(listed[i], called)
  {
    listed != [] && (Names(listed[0], called) || AnyNames(listed[1..], called))
  }

  function NullReply(called: string, noArgs: bool, origin: string, abi: Abi): Variant {
    if noArgs && (called == "name" || called == "version") then Invalid
    else if abi.listed.None? then Invalid
    else match abi.parse(abi.listed.value)
      case Some(Array(items)) =>
        if items == [] || AnyNames(items, called) then Invalid
        else abi.toVariant(RejectionJson("unknown_method", "unknown method '" + called + "'", origin))
      case _ => Invalid
  }

  // ---------------------------------------------------------------------------
  // Programs
  // ---------------------------------------------------------------------------

  /** The locals of the emitted bodies: methodName, args, err, jArgs, dumped, callerJson,
      result, jResult, __rejected, the three fields of lr, and, in the deferred form,
      method, isResultMethod, isVoidMethod, callId, eventCb, value. */
  datatype Local =
    | MethodName | ArgList | Err | JArgs | Dumped | CallerJson | ResultPtr | JResult
    | RejectedFlag | LrSuccess | LrValue | LrError
    | MethodCopy | IsResultMethod | IsVoidMethod | CallIdVar | EventCb | ValueVar

  /** Operators of one operand. */
  datatype Op =
    | SameText(text: string)
    | OneOf(names: seq<string>)          // QSet::contains
    | NoArgs                             // args.isEmpty()
    | ArityError(origin: string)         // lidl()'s invalid_args object
    | Dump
    | IsNull
    | Parse
    | IsDiscarded
    | IsObject
    | HasKey(key: string)
    | KeyIsText(key: string)
    | KeyIs(key: string, text: string)
    | BoolKey(key: string)               // value(key, false)
    | JsonKey(key: string)               // value(key, json())
    | KeyText(key: string)               // QVariant(text of the member)
    | ToVariant
    | Negate
    | PendingMap

  datatype Expr =
    | Name(x: Local)
    | Const(v: Value)
    | Pull                                     // currentCallerJson()
    | Apply(op: Op, a: Expr)
    | Both(a: Expr, b: Expr)                   // &&
    | Either(a: Expr, b: Expr)                 // ||
    | Choose(c: Expr, a: Expr, b: Expr)        // ?:
    | MakeResult(a: Expr, b: Expr, c: Expr)    // LogosResult
    | NullAnswer(a: Expr, b: Expr, origin: string)

  datatype Stmt =
    | Let(x: Local, e: Expr)
    | Set(x: Local, e: Expr)
    | IfElse(c: Expr, yes: Block, no: Block)
    | Return(e: Expr)
    | PushEach(x: Local, list: Local)        // for (a : args) jArgs.push_back(...)
    | Dispatch(x: Local, called: Local, args: Local)
    | PushCaller(e: Expr)
    | PopCaller
    | Free(x: Local)
    | Ignore(x: Local)                        // (void)x
    | NextCallId(x: Local)
    | CopyListener(x: Local)
    | StartWorker(captures: set<Local>, body: Block)
    | Notify(listener: Local, callId: Local, value: Local)

  datatype Block = End | Then(head: Stmt, tail: Block)

  function Append(a: Block, b: Block): Block {
    match a
    case End => b
    case Then(s, rest) => Then(s, Append(rest, b))
  }

  function One(s: Stmt): Block { Then(s, End) }

  function When(c: Expr, yes: Block): Stmt { IfElse(c, yes, End) }

  lemma AppendIsAssociative(a: Block, b: Block, c: Block)
    ensures Append(Append(a, b), c) == Append(a, Append(b, c))
  {
  }

  // ---------------------------------------------------------------------------
  // Running them
  // ---------------------------------------------------------------------------

  datatype Value =
    | VStr(s: string)
    | VBool(b: bool)
    | VVariant(v: Variant)
    | VJson(j: Json)
    | VDiscarded
    | VArgs(args: seq<Variant>)
    | VCStr(p: Option<string>)
    | VFreed
    | VListener(l: Option<nat>)

  type Env = map<Local, Value>

  /** What the module saw: which method, with which arguments, on whose behalf. */
  datatype Dispatched = Dispatched(called: string, args: string, caller: Option<string>)

  datatype Completion = Completion(listener: nat, callId: string, value: Variant)

  datatype Job = Job(env: Env, body: Block)

  /** callers: this thread's stack of pushed documents; live: C strings owed a free. */
  datatype Machine = Machine(
    callers: seq<string>, live: nat, dispatched: seq<Dispatched>,
    instance: CallIds.InstanceId, calls: nat, listener: Option<nat>,
    jobs: seq<Job>, events: seq<Completion>)

  datatype Evaluated = Val(v: Value) | Thrown | Wrong

  datatype Result =
    | Normal(env: Env, m: Machine)
    | Returned(v: Variant, m: Machine)
    | Threw(m: Machine)
    | Stuck

  function Top(callers: seq<string>): Option<string> {
    if callers == [] then None else Some(callers[|callers| - 1])
  }

  function Member(v: Value, key: string): Option<Json> {
    if v.VJson? && v.j.Object? then Find(v.j.fields, key) else None
  }

  function Truth(e: Evaluated, yes: Evaluated, no: Evaluated): Evaluated {
    match e
    case Val(VBool(b)) => if b then yes else no
    case Thrown => Thrown
    case _ => Wrong
  }

  function Eval(e: Expr, env: Env, abi: Abi): Evaluated {
    match e
    case Name(x) => if x in env then Val(env[x]) else Wrong
    case Const(v) => Val(v)
    case Pull => Val(VStr(abi.pulled))
    case Apply(op, a) =>
      (match Eval(a, env, abi)
       case Val(v) => ApplyOp(op, v, abi)
       case r => r)
    case Both(a, b) => Truth(Eval(a, env, abi), Eval(b, env, abi), Val(VBool(false)))
    case Either(a, b) => Truth(Eval(a, env, abi), Val(VBool(true)), Eval(b, env, abi))
    case Choose(c, a, b) => Truth(Eval(c, env, abi), Eval(a, env, abi), Eval(b, env, abi))
    case MakeResult(a, b, c) =>
      (match (Eval(a, env, abi), Eval(b, env, abi), Eval(c, env, abi))
       case (Val(VBool(s)), Val(VVariant(v)), Val(VVariant(w))) => Val(VVariant(Outcome(s, v, w)))
       case _ => Wrong)
    case NullAnswer(a, b, origin) =>
      (match (Eval(a, env, abi), Eval(b, env, abi))
       case (Val(VStr(called)), Val(VBool(noArgs))) => Val(VVariant(NullReply(called, noArgs, origin, abi)))
       case _ => Wrong)
  }

  function ApplyOp(op: Op, v: Value, abi: Abi): Evaluated {
    match op
    case SameText(text) => if v.VStr? then Val(VBool(v.s == text)) else Wrong
    case OneOf(names) => if v.VStr? then Val(VBool(v.s in names)) else Wrong
    case NoArgs => if v.VArgs? then Val(VBool(v.args == [])) else Wrong
    case ArityError(origin) => if v.VArgs? then Val(VJson(ArityJson(|v.args|, origin))) else Wrong
    case Dump => if v.VJson? && v.j.Array? then Val(VStr(DumpArray(v.j.items, abi))) else Wrong
    case IsNull => if v.VCStr? then Val(VBool(v.p.None?)) else Wrong
    case Parse => if v.VCStr? && v.p.Some? then Val(Parsed(abi.parse(v.p.value))) else Wrong
    case IsDiscarded => if v.VJson? || v.VDiscarded? then Val(VBool(v.VDiscarded?)) else Wrong
    case IsObject => if v.VJson? then Val(VBool(v.j.Object?)) else Wrong
    case HasKey(key) => if v.VJson? then Val(VBool(Member(v, key).Some?)) else Wrong
    case KeyIsText(key) =>
      if Member(v, key).Some? then Val(VBool(Member(v, key).value.Str?)) else Wrong
    case KeyIs(key, text) =>
      if Member(v, key).Some? then Val(VBool(Member(v, key).value == Str(text))) else Wrong
    case BoolKey(key) =>
      // nlohmann's value() throws on a non-object, and on a member that is not a boolean
      if !v.VJson? then Wrong
      else if !v.j.Object? then Thrown
      else if Member(v, key).None? then Val(VBool(false))
      else if Member(v, key).value.Bool? then Val(VBool(Member(v, key).value.b))
      else Thrown
    case JsonKey(key) =>
      if !v.VJson? then Wrong
      else if !v.j.Object? then Thrown
      else Val(VJson(if Member(v, key).Some? then Member(v, key).value else Null))
    case KeyText(key) =>
      if Member(v, key).Some? && Member(v, key).value.Str? then Val(VVariant(Text(Member(v, key).value.s)))
      else Wrong
    case ToVariant => if v.VJson? then Val(VVariant(abi.toVariant(v.j))) else Wrong
    case Negate => if v.VBool? then Val(VBool(!v.b)) else Wrong
    case PendingMap => if v.VStr? then Val(VVariant(Pending(v.s))) else Wrong
  }

  function ArityJson(got: nat, origin: string): Json {
    RejectionJson("invalid_args", "expected 0 arguments, got " + CallIds.Decimal(got), origin)
  }

  function Parsed(j: Option<Json>): Value {
    match j
    case None => VDiscarded
    case Some(parsed) => VJson(parsed)
  }

  /** An operator on a bound name, in one step. */
  lemma ApplyToName(op: Op, x: Local, env: Env, abi: Abi)
    requires x in env
    ensures Eval(Apply(op, Name(x)), env, abi) == ApplyOp(op, env[x], abi)
  {
  }

  /** The arguments as JSON values, each in its place. */
  function Items(args: seq<Variant>, abi: Abi): (items: seq<Json>)
    ensures |items| == |args|
  {
    seq(|args|, i requires 0 <= i < |args| => abi.toJson(args[i]))
  }

  /** What is dumped is every argument in its own place, and its text in that place. */
  lemma EachInItsPlace(args: seq<Variant>, abi: Abi)
    ensures forall k :: 0 <= k < |args| ==>
              && Items(args, abi)[k] == abi.toJson(args[k])
              && Texts(Items(args, abi), abi)[k] == abi.itemText(abi.toJson(args[k]))
  {
  }

  /** The emitted loop: the arguments pushed back one by one. */
  function PushedBack(items: seq<Json>, args: seq<Variant>, abi: Abi): seq<Json>
    decreases |args|
  {
    if args == [] then items else PushedBack(items + [abi.toJson(args[0])], args[1..], abi)
  }

  lemma {:induction false} PushedInOrder(items: seq<Json>, args: seq<Variant>, abi: Abi)
    ensures PushedBack(items, args, abi) == items + Items(args, abi)
    decreases |args|
  {
    if args == [] {
      assert Items(args, abi) == [];
    } else {
      PushedInOrder(items + [abi.toJson(args[0])], args[1..], abi);
      assert Items(args, abi) == [abi.toJson(args[0])] + Items(args[1..], abi);
    }
  }

  /** Leaving a block drops the names it declared. */
  function Leave(r: Result, outer: Env): Result {
    match r
    case Normal(env, m) => Normal(map x | x in env && x in outer :: env[x], m)
    case _ => r
  }

  function Exec(b: Block, env: Env, m: Machine, abi: Abi): Result {
    match b
    case End => Normal(env, m)
    case Then(s, rest) =>
      (match Step(s, env, m, abi)
       case Normal(env', m') => Exec(rest, env', m', abi)
       case r => r)
  }

  function Bind(x: Local, e: Evaluated, env: Env, m: Machine): Result {
    match e
    case Val(v) => Normal(env[x := v], m)
    case Thrown => Threw(m)
    case Wrong => Stuck
  }

  function Step(s: Stmt, env: Env, m: Machine, abi: Abi): Result {
    match s
    case Let(x, e) => if x in env then Stuck else Bind(x, Eval(e, env, abi), env, m)
    case Set(x, e) => if x !in env then Stuck else Bind(x, Eval(e, env, abi), env, m)
    case IfElse(c, yes, no) =>
      (match Eval(c, env, abi)
       case Val(VBool(b)) => Leave(if b then Exec(yes, env, m, abi) else Exec(no, env, m, abi), env)
       case Thrown => Threw(m)
       case _ => Stuck)
    case Return(e) =>
      (match Eval(e, env, abi)
       case Val(VVariant(v)) => Returned(v, m)
       case Thrown => Threw(m)
       case _ => Stuck)
    case PushEach(x, list) =>
      if x in env && list in env && env[x].VJson? && env[x].j.Array? && env[list].VArgs? then
        Normal(env[x := VJson(Array(PushedBack(env[x].j.items, env[list].args, abi)))], m)
      else Stuck
    case Dispatch(x, called, args) =>
      if x !in env && called in env && args in env && env[called].VStr? && env[args].VStr? then
        var reply := abi.dispatch(env[called].s, env[args].s);
        var seen := Dispatched(env[called].s, env[args].s, Top(m.callers));
        Normal(env[x := VCStr(reply)],
               m.(dispatched := m.dispatched + [seen], live := if reply.Some? then m.live + 1 else m.live))
      else Stuck
    case PushCaller(e) =>
      (match Eval(e, env, abi)
       case Val(VStr(s)) => if s == [] then Stuck else Normal(env, m.(callers := m.callers + [s]))
       case _ => Stuck)
    case PopCaller =>
      if m.callers == [] then Stuck else Normal(env, m.(callers := m.callers[..|m.callers| - 1]))
    case Free(x) =>
      if x in env && env[x].VCStr? && env[x].p.Some? && m.live > 0 then
        Normal(env[x := VFreed], m.(live := m.live - 1))
      else Stuck
    case Ignore(x) => if x in env then Normal(env, m) else Stuck
    case NextCallId(x) =>
      if x in env then Stuck
      else Normal(env[x := VStr(CallIds.CallId(m.instance, m.calls))], m.(calls := m.calls + 1))
    case CopyListener(x) => if x in env then Stuck else Normal(env[x := VListener(m.listener)], m)
    case StartWorker(captures, body) =>
      if captures <= env.Keys then
        Normal(env, m.(jobs := m.jobs + [Job(map x | x in captures :: env[x], body)]))
      else Stuck
    case Notify(l, callId, value) =>
      if l in env && callId in env && value in env
         && env[l].VListener? && env[callId].VStr? && env[value].VVariant? then
        Normal(env, if env[l].l.None? then m
                    else m.(events := m.events + [Completion(env[l].l.value, env[callId].s, env[value].v)]))
      else Stuck
  }

  /** One statement that completes, then the rest. */
  lemma ThenStep(s: Stmt, rest: Block, env: Env, m: Machine, env': Env, m': Machine, abi: Abi)
    requires Step(s, env, m, abi) == Normal(env', m')
    ensures Exec(Then(s, rest), env, m, abi) == Exec(rest, env', m', abi)
  {
  }

  /** A conditional without an else whose test fails changes nothing. */
  lemma SkipWhen(c: Expr, yes: Block, rest: Block, env: Env, m: Machine, abi: Abi)
    requires Eval(c, env, abi) == Val(VBool(false))
    ensures Step(When(c, yes), env, m, abi) == Normal(env, m)
    ensures Exec(Then(When(c, yes), rest), env, m, abi) == Exec(rest, env, m, abi)
  {
  }

  /** A conditional that leaves the function does so for the block after it. */
  lemma TakeWhen(c: Expr, yes: Block, no: Block, rest: Block, env: Env, m: Machine, abi: Abi)
    requires Eval(c, env, abi) == Val(VBool(true))
    requires !Exec(yes, env, m, abi).Normal?
    ensures Step(IfElse(c, yes, no), env, m, abi) == Exec(yes, env, m, abi)
    ensures Exec(Then(IfElse(c, yes, no), rest), env, m, abi) == Exec(yes, env, m, abi)
  {
  }

  lemma {:induction false} ExecAppend(a: Block, b: Block, env: Env, m: Machine, abi: Abi)
    ensures Exec(Append(a, b), env, m, abi)
         == (match Exec(a, env, m, abi)
             case Normal(env', m') => Exec(b, env', m', abi)
             case r => r)
  {
    match a
    case End =>
    case Then(s, rest) =>
      match Step(s, env, m, abi)
      case Normal(env', m') => ExecAppend(rest, b, env', m', abi);
      case _ =>
  }

  // ---------------------------------------------------------------------------
  // Static scoping: what a C++ compiler demands of every path, taken or not
  // ---------------------------------------------------------------------------

  function Used(e: Expr): set<Local> {
    match e
    case Name(x) => {x}
    case Const(_) => {}
    case Pull => {}
    case Apply(_, a) => Used(a)
    case Both(a, b) => Used(a) + Used(b)
    case Either(a, b) => Used(a) + Used(b)
    case Choose(c, a, b) => Used(c) + Used(a) + Used(b)
    case MakeResult(a, b, c) => Used(a) + Used(b) + Used(c)
    case NullAnswer(a, b, _) => Used(a) + Used(b)
  }

  function Declares(s: Stmt): set<Local> {
    match s
    case Let(x, _) => {x}
    case Dispatch(x, _, _) => {x}
    case NextCallId(x) => {x}
    case CopyListener(x) => {x}
    case _ => {}
  }

  /** The names a block takes from the scope around it. */
  function Unbound(b: Block): set<Local> {
    match b
    case End => {}
    case Then(s, rest) => Mentions(s) + (Unbound(rest) - Declares(s))
  }

  function Mentions(s: Stmt): set<Local> {
    match s
    case Let(_, e) => Used(e)
    case Set(x, e) => {x} + Used(e)
    case IfElse(c, yes, no) => Used(c) + Unbound(yes) + Unbound(no)
    case Return(e) => Used(e)
    case PushEach(x, list) => {x, list}
    case Dispatch(_, called, args) => {called, args}
    case PushCaller(e) => Used(e)
    case PopCaller => {}
    case Free(x) => {x}
    case Ignore(x) => {x}
    case NextCallId(_) => {}
    case CopyListener(_) => {}
    case StartWorker(captures, _) => captures
    case Notify(l, callId, value) => {l, callId, value}
  }

  /** Every capture list in the block names exactly what its lambda uses. */
  predicate CapturesExact(b: Block) {
    match b
    case End => true
    case Then(s, rest) => StatementExact(s) && CapturesExact(rest)
  }

  predicate StatementExact(s: Stmt) {
    match s
    case StartWorker(captures, body) => captures == Unbound(body) && CapturesExact(body)
    case IfElse(_, yes, no) => CapturesExact(yes) && CapturesExact(no)
    case _ => true
  }

  function Declared(b: Block): set<Local> {
    match b
    case End => {}
    case Then(s, rest) => Declares(s) + Declared(rest)
  }

  lemma ThenNames(s: Stmt, rest: Block)
    ensures Unbound(Then(s, rest)) == Mentions(s) + (Unbound(rest) - Declares(s))
    ensures CapturesExact(Then(s, rest)) <==> StatementExact(s) && CapturesExact(rest)
  {
  }

  lemma OneNames(s: Stmt)
    ensures Unbound(One(s)) == Mentions(s)
    ensures CapturesExact(One(s)) <==> StatementExact(s)
  {
  }

  lemma {:induction false} UnboundAppend(a: Block, b: Block)
    ensures Unbound(Append(a, b)) == Unbound(a) + (Unbound(b) - Declared(a))
    ensures Declared(Append(a, b)) == Declared(a) + Declared(b)
    ensures CapturesExact(Append(a, b)) <==> CapturesExact(a) && CapturesExact(b)
  {
    match a
    case End =>
    case Then(s, rest) => UnboundAppend(rest, b);
  }
}
