/** QtProviderObject::callMethod: finding a method by name and arity, decoding its arguments
    against the declared types, and calling it. */
module LegacyDispatch {
  import opened Options
  import opened ArgOwnership

  datatype Method = Method(name: string, params: seq<MetaType>, kind: MetaType)

  /** The wrapped QObject: whether it is a PluginInterface, has a LogosAPI, and its methods. */
  datatype Plugin = Plugin(isPlugin: bool, hasApi: bool, provider: string, methods: seq<Method>)

  /** The canonical codec and QVariant::convert, which are not part of this model. A decoded
      value has the type asked for, and so has a converted one. */
  datatype Codec = Codec(decode: (Value, MetaType, nat) -> Decoding, convert: (Value, MetaType) -> Option<int>,
                         text: Value -> int)

  datatype Decoding = Decoded(content: int) | Mismatch(reason: string)

  datatype Verdict = Accepted(out: Value) | Rejected(reason: string) | Unchecked

  datatype Message =
    | UnknownMethod(name: string)
    | ExpectedArity(expected: nat, got: nat)
    | NoOverload(name: string, got: nat)
    | Reason(text: string)

  datatype Code = UNKNOWN_METHOD | INVALID_ARGS | DISPATCH_FAILED

  datatype Reply =
    | Invalid                                       // QVariant()
    | MethodList
    | NoEvents
    | Rejection(code: Code, origin: string, message: Message)
    | Returned(value: Value)
    | True                                          // what a void method answers

  predicate Matches(m: Method, name: string, args: nat) { m.name == name && |m.params| == args }

  // ---------------------------------------------------------------------------
  // Resolution
  // ---------------------------------------------------------------------------

  /** The first loop: the lowest index with this name and arity. */
  method Resolve(methods: seq<Method>, name: string, args: nat) returns (index: Option<nat>)
    ensures index.Some? ==>
              && index.value < |methods| && Matches(methods[index.value], name, args)
              && forall i :: 0 <= i < index.value ==> !Matches(methods[i], name, args)
    ensures index.None? ==> forall i :: 0 <= i < |methods| ==> !Matches(methods[i], name, args)
  {
    var i := 0;
    while i < |methods|
      invariant 0 <= i <= |methods|
      invariant forall j :: 0 <= j < i ==> !Matches(methods[j], name, args)
    {
      if methods[i].name == name && |methods[i].params| == args {
        return Some(i);
      }
      i := i + 1;
    }
    return None;
  }

  /** The arities a name has. */
  function Arities(methods: seq<Method>, name: string): set<nat> {
    set i | 0 <= i < |methods| && methods[i].name == name :: |methods[i].params|
  }

  /** The second loop, which lists each arity once. */
  method ListArities(methods: seq<Method>, name: string) returns (arities: seq<nat>)
    ensures forall n :: n in arities <==> n in Arities(methods, name)
    ensures |arities| == |Arities(methods, name)|
  {
    arities := [];
    var i := 0;
    while i < |methods|
      invariant 0 <= i <= |methods|
      invariant forall n :: n in arities <==> n in Arities(methods[..i], name)
      invariant |arities| == |Arities(methods[..i], name)|
    {
      ArityAdded(methods, i, name);
      ArityCounted(methods, i, name);
      if methods[i].name == name && |methods[i].params| !in arities {
        arities := arities + [|methods[i].params|];
      }
      i := i + 1;
    }
    assert methods[..i] == methods;
  }

  lemma ArityAdded(methods: seq<Method>, i: nat, name: string)
    requires i < |methods|
    ensures Arities(methods[..i + 1], name)
            == Arities(methods[..i], name) + if methods[i].name == name then {|methods[i].params|} else {}
  {
  }

  lemma ArityCounted(methods: seq<Method>, i: nat, name: string)
    requires i < |methods|
    ensures |Arities(methods[..i + 1], name)|
            == |Arities(methods[..i], name)|
               + if methods[i].name == name && |methods[i].params| !in Arities(methods[..i], name) then 1 else 0
  {
    ArityAdded(methods, i, name);
    var before, n := Arities(methods[..i], name), |methods[i].params|;
    if methods[i].name == name && n !in before {
      assert |before + {n}| == |before| + 1;
    } else {
      assert Arities(methods[..i + 1], name) == before;
    }
  }

  // ---------------------------------------------------------------------------
  // Decoding
  // ---------------------------------------------------------------------------

  /** qtArgDecode */
  function Decide(codec: Codec, v: Value, t: MetaType, position: nat): (r: Verdict)
    ensures r.Unchecked? <==> !Decodes(t)
    ensures r.Accepted? ==> r.out.kind == t && codec.decode(v, t, position) == Decoded(r.out.content)
    ensures r.Rejected? ==> codec.decode(v, t, position) == Mismatch(r.reason)
  {
    if !Decodes(t) then Unchecked
    else
      match codec.decode(v, t, position)
      case Decoded(content) => Accepted(Value(t, content))
      case Mismatch(reason) => Rejected(reason)
  }

  /** What one argument becomes when it is not rejected. */
  function Coerced(codec: Codec, v: Value, t: MetaType, position: nat): (c: Value)
    requires !Decide(codec, v, t, position).Rejected?
    ensures Decodes(t) ==> c.kind == t
    ensures Decodes(t) ==> codec.decode(v, t, position) == Decoded(c.content)
    ensures !Decodes(t) && (v.kind == t || codec.convert(v, t).None?) ==> c == v
    ensures !Decodes(t) && v.kind != t && codec.convert(v, t).Some? ==> c == Value(t, codec.convert(v, t).value)
  {
    match Decide(codec, v, t, position)
    case Accepted(out) => out
    case Unchecked =>
      if v.kind == t then v
      else
        match codec.convert(v, t)
        case Some(content) => Value(t, content)
        case None => v
  }

  /** Every argument up to n got past the codec. */
  predicate Passes(codec: Codec, args: seq<Value>, params: seq<MetaType>, n: nat)
    requires |args| == |params| && n <= |args|
  {
    forall k :: 0 <= k < n ==> !Decide(codec, args[k], params[k], k).Rejected?
  }

  /** Argument k is the first the codec rejects, for this reason. */
  predicate RejectsFirst(codec: Codec, args: seq<Value>, params: seq<MetaType>, k: nat, reason: string)
    requires |args| == |params| && k < |args|
  {
    Passes(codec, args, params, k) && Decide(codec, args[k], params[k], k) == Rejected(reason)
  }

  function CoercedArgs(codec: Codec, args: seq<Value>, params: seq<MetaType>): (c: seq<Value>)
    requires |args| == |params| && Passes(codec, args, params, |args|)
    ensures |c| == |args| && forall k :: 0 <= k < |args| ==> c[k] == Coerced(codec, args[k], params[k], k)
  {
    seq(|args|, k requires 0 <= k < |args| => Coerced(codec, args[k], params[k], k))
  }

  /** The decode loop: the first rejected argument's reason, or every argument in the form
      the method declares. */
  method DecodeArgs(codec: Codec, args: seq<Value>, params: seq<MetaType>)
    returns (rejected: Option<string>, coerced: seq<Value>)
    requires |args| == |params|
    ensures rejected.None? <==> Passes(codec, args, params, |args|)
    ensures rejected.None? ==> coerced == CoercedArgs(codec, args, params)
    ensures rejected.Some? ==> exists k :: 0 <= k < |args| && RejectsFirst(codec, args, params, k, rejected.value)
  {
    coerced := args;
    var i := 0;
    while i < |params| && i < |coerced|
      invariant 0 <= i <= |args| == |coerced| && Passes(codec, args, params, i)
      invariant forall k :: 0 <= k < i ==> coerced[k] == Coerced(codec, args[k], params[k], k)
      invariant forall k :: i <= k < |args| ==> coerced[k] == args[k]
    {
      var verdict := Decide(codec, coerced[i], params[i], i);
      if verdict.Rejected? {
        assert RejectsFirst(codec, args, params, i, verdict.reason);
        return Some(verdict.reason), coerced;
      }
      if verdict.Accepted? {
        coerced := coerced[i := verdict.out];
      } else if coerced[i].kind != params[i] {
        var converted := codec.convert(coerced[i], params[i]);
        if converted.Some? {
          coerced := coerced[i := Value(params[i], converted.value)];
        }
      }
      i := i + 1;
    }
    return None, coerced;
  }

  // ---------------------------------------------------------------------------
  // The call
  // ---------------------------------------------------------------------------

  /** Names the adapter answers itself, without arguments. */
  predicate Framework(name: string, args: nat) {
    args == 0 && name in {"getPluginMethods", "getPluginEvents", "getPluginInterface"}
  }

  /** name() and version() may be absent; the proxy in front answers them. */
  predicate Bare(name: string, args: nat) { args == 0 && name in {"name", "version"} }

  /** What a call that matches no method answers. */
  ghost predicate Unresolved(p: Plugin, name: string, args: nat, reply: Reply) {
    var arities := Arities(p.methods, name);
    && (reply == Invalid <==> Bare(name, args))
    && (!Bare(name, args) ==>
          && reply.Rejection? && reply.origin == p.provider
          && (reply.code == UNKNOWN_METHOD <==> arities == {})
          && (reply.code == INVALID_ARGS <==> arities != {})
          && (arities == {} ==> reply.message == UnknownMethod(name))
          && (reply.message.ExpectedArity? <==> |arities| == 1)
          && (reply.message.ExpectedArity? ==>
                reply.message.expected in arities && reply.message.got == args != reply.message.expected)
          && (|arities| > 1 ==> reply.message == NoOverload(name, args)))
  }

  /** The last block of the dispatch: no method matched. */
  method RefuseUnresolved(p: Plugin, name: string, args: nat) returns (reply: Reply)
    requires forall i :: 0 <= i < |p.methods| ==> !Matches(p.methods[i], name, args)
    ensures Unresolved(p, name, args, reply)
  {
    if args == 0 && (name == "name" || name == "version") {
      return Invalid;
    }
    var arities := ListArities(p.methods, name);
    if arities == [] {
      return Rejection(UNKNOWN_METHOD, p.provider, UnknownMethod(name));
    }
    var message := if |arities| == 1 then ExpectedArity(arities[0], args) else NoOverload(name, args);
    return Rejection(INVALID_ARGS, p.provider, message);
  }

  /** callMethod. tried: a by-name call was made, on which arguments. */
  method CallMethod(heap: Heap, wrapped: Option<Plugin>, name: string, args: seq<Value>, codec: Codec,
                    call: Invocation, grows: nat -> bool)
    returns (reply: Reply, tried: Option<seq<Value>>)
    modifies heap
    ensures wrapped.None? || name == "" ==> reply == Invalid
    ensures wrapped.Some? && Framework(name, |args|) ==>
              reply == if name == "getPluginEvents" then NoEvents else MethodList
    ensures !Dispatches(wrapped, name, |args|) ==> tried.None?
    ensures wrapped.Some? && !Framework(name, |args|) && !(wrapped.value.isPlugin && wrapped.value.hasApi) ==>
              reply == Invalid
    ensures Dispatches(wrapped, name, |args|) ==>
              Dispatched(wrapped.value, name, args, codec, call, reply, tried)
    ensures forall k :: |old(heap.cells)| <= k < |heap.cells| ==> heap.cells[k].deletes == [heap.cells[k].value.kind]
    ensures old(heap.cells) <= heap.cells
  {
    tried := None;
    if wrapped.None? {
      return Invalid, None;
    }
    if name == "" {
      return Invalid, None;
    }
    if name == "getPluginMethods" && args == [] {
      return MethodList, None;
    }
    if name == "getPluginEvents" && args == [] {
      return NoEvents, None;
    }
    if name == "getPluginInterface" && args == [] {
      return MethodList, None;
    }
    var p := wrapped.value;
    if !p.isPlugin {
      return Invalid, None;
    }
    if !p.hasApi {
      return Invalid, None;
    }
    var index := Resolve(p.methods, name, |args|);
    if index.None? {
      reply := RefuseUnresolved(p, name, |args|);
      return reply, None;
    }
    var m := p.methods[index.value];
    assert Lowest(p.methods, name, |args|, index.value);
    var rejected, coerced := DecodeArgs(codec, args, m.params);
    if rejected.Some? {
      return Rejection(DISPATCH_FAILED, p.provider, Reason(rejected.value)), None;
    }
    if !Returnable(m.kind) {
      return Invalid, None;
    }
    var called, result;
    ghost var during;
    called, result, during := InvokeMethodByArgCount(heap, call, name, coerced, m.kind, codec.text, grows);
    if called {
      tried := Some(AllMarshalled(coerced, codec.text));
    }
    reply := if result.None? then Invalid else if m.kind == Void then True else Returned(result.value);
  }

  predicate Dispatches(wrapped: Option<Plugin>, name: string, args: nat) {
    wrapped.Some? && name != "" && !Framework(name, args) && wrapped.value.isPlugin && wrapped.value.hasApi
  }

  ghost predicate Lowest(methods: seq<Method>, name: string, args: nat, i: nat) {
    i < |methods| && Matches(methods[i], name, args) && forall j :: 0 <= j < i ==> !Matches(methods[j], name, args)
  }

  /** A dispatched call is resolved to the lowest matching entry, whose body is reached only
      with every argument past the codec, in the forms that entry declares. */
  ghost predicate Dispatched(p: Plugin, name: string, args: seq<Value>, codec: Codec, call: Invocation, reply: Reply,
                             tried: Option<seq<Value>>)
  {
    if forall i :: 0 <= i < |p.methods| ==> !Matches(p.methods[i], name, |args|) then
      Unresolved(p, name, |args|, reply) && tried.None?
    else
      exists i: nat :: && Lowest(p.methods, name, |args|, i)
                       && DispatchedTo(p.methods[i], p, name, args, codec, call, reply, tried)
  }

  ghost predicate DispatchedTo(m: Method, p: Plugin, name: string, args: seq<Value>, codec: Codec, call: Invocation,
                               reply: Reply, tried: Option<seq<Value>>)
    requires |m.params| == |args|
  {
    if !Passes(codec, args, m.params, |args|) then
      && tried.None?
      && reply.Rejection? && reply.code == DISPATCH_FAILED && reply.origin == p.provider && reply.message.Reason?
      && exists k :: 0 <= k < |args| && RejectsFirst(codec, args, m.params, k, reply.message.text)
    else if !Returnable(m.kind) || |args| > MAX_ARGS then tried.None? && reply == Invalid
    else
      && tried == Some(AllMarshalled(CoercedArgs(codec, args, m.params), codec.text))
      && match call(name, tried.value)
         case None => reply == Invalid
         case Some(value) => reply == if m.kind == Void then True else Returned(value)
  }

  /** Of the decoded parameter types exactly eleven reach the by-name call as themselves,
      with the decoded value; an argument of any other decoded type arrives as a QString. */
  lemma DeclaredTypesTravelIff(codec: Codec, args: seq<Value>, params: seq<MetaType>, k: nat)
    requires |args| == |params| && Passes(codec, args, params, |args|) && k < |args| && Decodes(params[k])
    ensures
      var passed := AllMarshalled(CoercedArgs(codec, args, params), codec.text)[k];
      && (passed.kind == params[k] <==> params[k] in BOTH)
      && (params[k] in BOTH ==> Decide(codec, args[k], params[k], k) == Accepted(passed))
      && (params[k] !in BOTH ==> passed.kind == QString)
  {
  }
}
