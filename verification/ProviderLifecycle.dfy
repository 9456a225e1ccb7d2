/** LogosAPIProvider: registration with a re-entrant initializer, validators set at any time,
    transports that may decline, and destruction. */
module ProviderLifecycle {
  import opened Options
  import opened Tokens

  /** A handshake object's name is derived from the module's and never equals a module's. */
  datatype Surface = Handshake(name: string) | Business(name: string)

  /** The shared ModuleProxy: its validator and the tokens saved through it. */
  datatype Proxy = Proxy(validator: Option<nat>, saved: map<string, string>)

  /** What user code may do while the provider calls it: a script of public operations, and
      of writes to the process's token ring. */
  datatype Op =
    | RegisterProvider(name: string, provider: Option<Module>)
    | RegisterObject(name: string, instance: Object)
    | SetTokenValidator(validator: Option<nat>)
    | SaveToken(from: string, token: string)
    | WriteRing(key: string, token: string)

  /** A LogosProviderObject, seen as what its init does. */
  datatype Module = Module(init: seq<Op>)

  /** A QObject: null; a plain one, wrapped as it is; or a provider plugin, whose
      createProviderObject runs create and may answer null. */
  datatype Object = Null | Wrapped(init: seq<Op>) | Plugin(create: seq<Op>, made: Option<Module>, init: seq<Op>)

  // ---------------------------------------------------------------------------
  // What a script registers
  // ---------------------------------------------------------------------------

  /** The operation gets past its argument checks. */
  predicate Attempts(op: Op) {
    || (op.RegisterProvider? && op.name != "" && op.provider.Some?)
    || (op.RegisterObject? && op.name != "" && !op.instance.Null?)
  }

  predicate Registers(ops: seq<Op>) { exists i :: 0 <= i < |ops| && Attempts(ops[i]) }

  /** The names under which running ops publishes a business object, in order; has: one was
      registered already. */
  function Names(ops: seq<Op>, has: bool): seq<string>
    decreases ops
  {
    if ops == [] || has then [] else NamesOf(ops[0]) + Names(ops[1..], Attempts(ops[0]))
  }

  function NamesOf(op: Op): seq<string>
    decreases op
  {
    if !Attempts(op) then []
    else if op.RegisterProvider? || op.instance.Wrapped? then [op.name]
    else
      Names(op.instance.create, false)
      + (if Registers(op.instance.create) && op.instance.made.Some? then [] else [op.name])
  }

  /** Through the wrapped path an object is published under its own name, after whatever its
      createProviderObject published. */
  lemma ObjectNames(name: string, instance: Object)
    requires name != "" && !instance.Null?
    ensures
      var op := Op.RegisterObject(name, instance);
      && Attempts(op)
      && (instance.Wrapped? ==> NamesOf(op) == [name])
      && (instance.Plugin? && instance.made.None? ==> NamesOf(op) == Names(instance.create, false) + [name])
  {
  }

  lemma NamesJoin(a: seq<string>, b: seq<string>, name: string)
    ensures a + b + [name] == a + (b + [name])
  {
  }

  lemma NamesSplit(ops: seq<Op>, has: bool)
    requires ops != []
    ensures Registers(ops) <==> Attempts(ops[0]) || Registers(ops[1..])
    ensures Names(ops, has)
            == (if has then [] else NamesOf(ops[0])) + Names(ops[1..], has || Attempts(ops[0]))
  {
  }

  // ---------------------------------------------------------------------------
  // What a script does besides
  // ---------------------------------------------------------------------------

  /** What executing a script leaves, apart from registrations: a validator set, a token saved
      through the proxy, a write to the ring, the anchors seeded. */
  datatype Effect =
    | Validates(validator: Option<nat>)
    | Saves(from: string, token: string)
    | Writes(key: string, token: string)
    | Seeds

  /** The effects of the operations that running ops executes, nested ones in their place;
      has: one was registered already. */
  function Effects(ops: seq<Op>, has: bool): seq<Effect>
    decreases ops, 1
  {
    if ops == [] then [] else EffectsOf(ops[0], has) + Effects(ops[1..], has || Attempts(ops[0]))
  }

  function EffectsOf(op: Op, has: bool): seq<Effect>
    decreases op, 1
  {
    match op
    case SetTokenValidator(validator) => [Validates(validator)]
    case SaveToken(from, token) => if has then [Saves(from, token)] else []
    case WriteRing(key, token) => [Writes(key, token)]
    case RegisterProvider(name, provider) =>
      if has || name == "" || provider.None? then [] else Around(provider.value.init)
    case RegisterObject(name, instance) =>
      if has || name == "" then [] else ObjectEffects(instance)
  }

  /** The anchors are seeded, then the initializer runs, with the proxy there. */
  function Around(init: seq<Op>): seq<Effect>
    decreases init, 2
  {
    [Seeds] + Effects(init, true)
  }

  function ObjectEffects(instance: Object): seq<Effect>
    decreases instance, 0
  {
    match instance
    case Null => []
    case Wrapped(init) => Around(init)
    case Plugin(create, made, init) =>
      Effects(create, false)
      + (if made.None? then Around(init)
         else if Registers(create) then []
         else Around(made.value.init))
  }

  /** An initializer that registers nothing takes effect line by line. */
  lemma {:induction false} InitTakesEffect(name: string, init: seq<Op>)
    requires name != "" && forall k :: 0 <= k < |init| ==> !init[k].RegisterProvider? && !init[k].RegisterObject?
    ensures
      var effects := Effects([Op.RegisterProvider(name, Some(Module(init)))], false);
      && |effects| == |init| + 1 && effects[0] == Seeds
      && forall k :: 0 <= k < |init| ==>
           effects[k + 1] == match init[k]
                             case SetTokenValidator(validator) => Validates(validator)
                             case SaveToken(from, token) => Saves(from, token)
                             case WriteRing(key, token) => Writes(key, token)
                             case _ => Seeds
  {
    PlainEffects(init);
    var op := Op.RegisterProvider(name, Some(Module(init)));
    assert [op][1..] == [] && EffectsOf(op, false) == [Seeds] + Effects(init, true);
  }

  lemma {:induction false} PlainEffects(ops: seq<Op>)
    requires forall k :: 0 <= k < |ops| ==> !ops[k].RegisterProvider? && !ops[k].RegisterObject?
    ensures |Effects(ops, true)| == |ops|
    ensures forall k :: 0 <= k < |ops| ==> EffectsOf(ops[k], true) == [Effects(ops, true)[k]]
  {
    if ops != [] {
      PlainEffects(ops[1..]);
      assert |EffectsOf(ops[0], true)| == 1;
    }
  }

  lemma {:induction false} EffectsJoin(a: seq<Op>, b: seq<Op>, has: bool)
    ensures Effects(a + b, has) == Effects(a, has) + Effects(b, has || Registers(a))
  {
    if a == [] {
      assert a + b == b;
    } else {
      assert (a + b)[0] == a[0] && (a + b)[1..] == a[1..] + b;
      NamesSplit(a, has);
      EffectsJoin(a[1..], b, has || Attempts(a[0]));
    }
  }

  /** Registering a QObject is registering the provider that wraps it; a provider plugin's is
      running its createProviderObject and registering what that made; and where that answered
      null, the wrapped QObject after all, whatever was registered meanwhile. */
  lemma ObjectTakesEffect(name: string, instance: Object)
    requires name != ""
    ensures
      var effects := Effects([Op.RegisterObject(name, instance)], false);
      match instance
      case Null => effects == []
      case Wrapped(init) => effects == Effects([Op.RegisterProvider(name, Some(Module(init)))], false)
      case Plugin(create, Some(made), _) =>
        effects == Effects(create + [Op.RegisterProvider(name, Some(made))], false)
      case Plugin(create, None, init) =>
        effects == Effects(create, false) + Effects([Op.RegisterProvider(name, Some(Module(init)))], false)
  {
    var op := Op.RegisterObject(name, instance);
    assert [op][1..] == [];
    assert Effects([op], false) == EffectsOf(op, false);
    match instance
    case Null =>
    case Wrapped(init) => OneRegisters(name, Module(init), false);
    case Plugin(create, Some(made), _) =>
      EffectsJoin(create, [Op.RegisterProvider(name, Some(made))], false);
      OneRegisters(name, made, Registers(create));
    case Plugin(create, None, init) => OneRegisters(name, Module(init), false);
  }

  lemma OneRegisters(name: string, provider: Module, has: bool)
    requires name != ""
    ensures Effects([Op.RegisterProvider(name, Some(provider))], has) == if has then [] else Around(provider.init)
  {
    var op := Op.RegisterProvider(name, Some(provider));
    assert [op][1..] == [] && Effects([op], has) == EffectsOf(op, has);
  }

  /** The last validator set, the ring, and what was saved through the proxy. */
  datatype Memory = Memory(validator: Option<nat>, ring: Ring, saved: map<string, string>)

  function Play(m: Memory, e: Effect, hostToken: string): Memory {
    match e
    case Validates(validator) => m.(validator := validator)
    case Saves(from, token) => m.(saved := m.saved[from := token])
    case Writes(key, token) => m.(ring := m.ring[key := token])
    case Seeds =>
      if hostToken == "" then m else m.(ring := Kept(Kept(m.ring, CORE, hostToken), CAPABILITY, hostToken))
  }

  function PlayAll(m: Memory, effects: seq<Effect>, hostToken: string): Memory {
    if effects == [] then m
    else Play(PlayAll(m, effects[..|effects| - 1], hostToken), effects[|effects| - 1], hostToken)
  }

  lemma {:induction false} PlayJoin(m: Memory, a: seq<Effect>, b: seq<Effect>, hostToken: string)
    ensures PlayAll(m, a + b, hostToken) == PlayAll(PlayAll(m, a, hostToken), b, hostToken)
  {
    if b == [] {
      assert a + b == a;
    } else {
      assert (a + b)[..|a + b| - 1] == a + b[..|b| - 1];
      PlayJoin(m, a, b[..|b| - 1], hostToken);
    }
  }

  lemma PlaySplit(m: Memory, ops: seq<Op>, has: bool, hostToken: string)
    requires ops != []
    ensures PlayAll(m, Effects(ops, has), hostToken)
            == PlayAll(PlayAll(m, EffectsOf(ops[0], has), hostToken), Effects(ops[1..], has || Attempts(ops[0])),
                       hostToken)
  {
    PlayJoin(m, EffectsOf(ops[0], has), Effects(ops[1..], has || Attempts(ops[0])), hostToken);
  }

  lemma PlayOne(m: Memory, e: Effect, hostToken: string)
    ensures PlayAll(m, [e], hostToken) == Play(m, e, hostToken)
  {
    assert [e][..0] == [];
    assert PlayAll(m, [e][..0], hostToken) == m;
  }

  /** The last one set. */
  function LastValidator(effects: seq<Effect>, before: Option<nat>): Option<nat> {
    if effects == [] then before
    else
      var last := effects[|effects| - 1];
      if last.Validates? then last.validator else LastValidator(effects[..|effects| - 1], before)
  }

  /** The last value written under a key. */
  function LastWrite(effects: seq<Effect>, key: string, before: string): string {
    if effects == [] then before
    else
      var last := effects[|effects| - 1];
      if last.Writes? && last.key == key then last.token else LastWrite(effects[..|effects| - 1], key, before)
  }

  /** What is remembered: the validator set last, and under each key but the two anchors the
      value written last. */
  lemma {:induction false} LastOnesWin(m: Memory, effects: seq<Effect>, hostToken: string, key: string)
    ensures PlayAll(m, effects, hostToken).validator == LastValidator(effects, m.validator)
    ensures key != CORE && key != CAPABILITY ==>
              GetToken(PlayAll(m, effects, hostToken).ring, key) == LastWrite(effects, key, GetToken(m.ring, key))
  {
    if effects != [] {
      LastOnesWin(m, effects[..|effects| - 1], hostToken, key);
    }
  }

  // ---------------------------------------------------------------------------
  // What a provider did, in order
  // ---------------------------------------------------------------------------

  /** guarded: at that moment the proxy's validator was the last one set and, for a
      handshake under a host that published a token, both trust anchors were non-empty;
      served: which registration's provider answers on it. */
  datatype Mark =
    | Offered(surface: Surface, transport: nat, guarded: bool, served: nat)
    | InitBegins(name: string)
    | InitEnds(name: string)

  function Offers(surface: Surface, n: nat): seq<Mark> {
    if n == 0 then [] else Offers(surface, n - 1) + [Offered(surface, n - 1, true, 0)]
  }

  /** One whole registration over n transports: every transport is offered the handshake,
      then the initializer runs from beginning to end, then every transport is offered the
      business object. Whichever registration it is, the first one's provider answers. */
  function Registration(name: string, n: nat): seq<Mark> {
    Offers(Handshake(name), n) + [InitBegins(name), InitEnds(name)] + Offers(Business(name), n)
  }

  function Registrations(names: seq<string>, n: nat): seq<Mark> {
    if names == [] then [] else Registrations(names[..|names| - 1], n) + Registration(names[|names| - 1], n)
  }

  lemma {:induction false} OffersAt(x: Surface, n: nat)
    ensures |Offers(x, n)| == n && forall t :: 0 <= t < n ==> Offers(x, n)[t] == Offered(x, t, true, 0)
  {
    if n > 0 {
      OffersAt(x, n - 1);
    }
  }

  /** At position k a business object is offered only after its own initializer began, at b,
      and ended, with every transport offered the handshake before it began. */
  ghost predicate InOrder(log: seq<Mark>, k: nat, b: nat, n: nat)
    requires k < |log| && log[k].Offered? && log[k].surface.Business?
  {
    var name := log[k].surface.name;
    && log[k].guarded && b + 1 < k && log[b] == InitBegins(name) && log[b + 1] == InitEnds(name)
    && forall t :: 0 <= t < n ==> Offered(Handshake(name), t, true, 0) in log[..b]
  }

  lemma InOrderBefore(front: seq<Mark>, more: seq<Mark>, k: nat, b: nat, n: nat)
    requires k < |front| && front[k].Offered? && front[k].surface.Business? && InOrder(front, k, b, n)
    ensures InOrder(front + more, k, b, n)
  {
    assert (front + more)[..b] == front[..b];
  }

  /** Where the marks of one registration are. */
  lemma RegistrationAt(name: string, n: nat, k: nat)
    requires k < |Registration(name, n)|
    ensures |Registration(name, n)| == 2 * n + 2
    ensures Registration(name, n)[k] ==
              if k < n then Offered(Handshake(name), k, true, 0)
              else if k == n then InitBegins(name)
              else if k == n + 1 then InitEnds(name)
              else Offered(Business(name), k - n - 2, true, 0)
  {
    OffersAt(Handshake(name), n);
    OffersAt(Business(name), n);
  }

  lemma LastInOrder(front: seq<Mark>, name: string, n: nat, k: nat)
    requires var log := front + Registration(name, n);
             |front| <= k < |log| && log[k].Offered? && log[k].surface.Business?
    ensures InOrder(front + Registration(name, n), k, |front| + n, n)
  {
    var log, b := front + Registration(name, n), |front| + n;
    RegistrationAt(name, n, k - |front|);
    RegistrationAt(name, n, n);
    RegistrationAt(name, n, n + 1);
    forall t | 0 <= t < n ensures Offered(Handshake(name), t, true, 0) in log[..b] {
      RegistrationAt(name, n, t);
      assert log[..b][|front| + t] == Registration(name, n)[t];
    }
  }

  lemma {:induction false} BusinessFollowsInit(names: seq<string>, n: nat, k: nat) returns (b: nat)
    requires k < |Registrations(names, n)| && Registrations(names, n)[k].Offered?
    requires Registrations(names, n)[k].surface.Business?
    ensures InOrder(Registrations(names, n), k, b, n)
  {
    var front, name := Registrations(names[..|names| - 1], n), names[|names| - 1];
    if k < |front| {
      b := BusinessFollowsInit(names[..|names| - 1], n, k);
      InOrderBefore(front, Registration(name, n), k, b, n);
    } else {
      b := |front| + n;
      LastInOrder(front, name, n, k);
    }
  }

  /** The registration whose initializer is running, if any. */
  function Opening(open: seq<string>, n: nat): seq<Mark> {
    if open == [] then [] else Offers(Handshake(open[0]), n) + [InitBegins(open[0])]
  }

  lemma LogOpens(log: seq<Mark>, names: seq<string>, name: string, n: nat)
    requires log == Registrations(names, n) + Opening([], n)
    ensures log + Offers(Handshake(name), n) + [InitBegins(name)] == Registrations(names, n) + Opening([name], n)
  {
  }

  lemma ClosesApart(done: seq<Mark>, first: seq<Mark>, begins: Mark, ends: Mark, last: seq<Mark>)
    ensures done + (first + [begins]) + [ends] + last == done + (first + [begins, ends] + last)
  {
  }

  lemma LogCloses(log: seq<Mark>, names: seq<string>, name: string, n: nat)
    requires log == Registrations(names, n) + Opening([name], n)
    ensures log + [InitEnds(name)] + Offers(Business(name), n) == Registrations(names + [name], n) + Opening([], n)
  {
    assert (names + [name])[..|names|] == names;
    ClosesApart(Registrations(names, n), Offers(Handshake(name), n), InitBegins(name), InitEnds(name),
                Offers(Business(name), n));
  }

  // ---------------------------------------------------------------------------
  // The provider
  // ---------------------------------------------------------------------------

  /** The surfaces that registrations so far have offered. */
  predicate Announced(x: Surface, names: seq<string>, open: seq<string>) {
    match x
    case Business(n) => n in names
    case Handshake(n) => n in names + open
  }

  /** What is on each transport: what was offered and it accepts. */
  ghost predicate OnTransports(published: seq<set<Surface>>, accepts: (nat, Surface) -> bool, names: seq<string>,
                               open: seq<string>)
  {
    forall i, x :: 0 <= i < |published| ==> (x in published[i] <==> accepts(i, x) && Announced(x, names, open))
  }

  predicate Taken(n: nat, accepts: (nat, Surface) -> bool, x: Surface) { exists i :: 0 <= i < n && accepts(i, x) }

  function Face(name: string, business: bool): Surface { if business then Business(name) else Handshake(name) }

  /** The name of the latest registration whose surface some transport took; empty for none. */
  function Recorded(n: nat, accepts: (nat, Surface) -> bool, names: seq<string>, business: bool): string {
    if names == [] then ""
    else
      var front, last := names[..|names| - 1], names[|names| - 1];
      if Taken(n, accepts, Face(last, business)) then last else Recorded(n, accepts, front, business)
  }

  lemma {:induction false} RecordedWasTaken(n: nat, accepts: (nat, Surface) -> bool, names: seq<string>, business: bool,
                                            name: string)
    requires name in names && Taken(n, accepts, Face(name, business))
    ensures
      var latest := Recorded(n, accepts, names, business);
      latest in names && Taken(n, accepts, Face(latest, business))
  {
    var front, last := names[..|names| - 1], names[|names| - 1];
    if !Taken(n, accepts, Face(last, business)) {
      assert names == front + [last];
      RecordedWasTaken(n, accepts, front, business, name);
    }
  }

  /** The provider records the names of the latest registration some transport took. */
  predicate Remembers(n: nat, accepts: (nat, Surface) -> bool, names: seq<string>, open: seq<string>,
                      objectName: string, handshakeName: string)
  {
    objectName == Recorded(n, accepts, names, true) && handshakeName == Recorded(n, accepts, names + open, false)
  }

  lemma RecordedSnoc(n: nat, accepts: (nat, Surface) -> bool, names: seq<string>, name: string, business: bool)
    ensures Recorded(n, accepts, names + [name], business)
            == if Taken(n, accepts, Face(name, business)) then name else Recorded(n, accepts, names, business)
  {
    assert (names + [name])[..|names|] == names;
  }

  lemma HandshakeRemembered(n: nat, accepts: (nat, Surface) -> bool, name: string, names: seq<string>,
                            objectName: string, handshakeName: string)
    requires Remembers(n, accepts, names, [], objectName, handshakeName)
    ensures Remembers(n, accepts, names, [name], objectName,
                      if Taken(n, accepts, Handshake(name)) then name else handshakeName)
  {
    RecordedSnoc(n, accepts, names, name, false);
    assert names + [] == names;
  }

  lemma BusinessRemembered(n: nat, accepts: (nat, Surface) -> bool, name: string, names: seq<string>,
                           objectName: string, handshakeName: string)
    requires Remembers(n, accepts, names, [name], objectName, handshakeName)
    ensures Remembers(n, accepts, names + [name], [],
                      if Taken(n, accepts, Business(name)) then name else objectName, handshakeName)
  {
    RecordedSnoc(n, accepts, names, name, true);
    assert names + [name] + [] == names + [name];
  }

  // What destruction leaves behind

  /** On transport i, x was offered and kept under a name that is not the recorded one. */
  predicate Outlives(n: nat, accepts: (nat, Surface) -> bool, names: seq<string>, open: seq<string>,
                     i: nat, x: Surface)
  {
    && i < n && accepts(i, x) && Announced(x, names, open)
    && x.name != Recorded(n, accepts, if x.Business? then names else names + open, x.Business?)
  }

  predicate TakenUnder(n: nat, accepts: (nat, Surface) -> bool, names: seq<string>, open: seq<string>, x: Surface) {
    Announced(x, names, open) && Taken(n, accepts, x)
  }

  /** No two registrations under different names had the same kind of surface taken. */
  ghost predicate OneNameTaken(n: nat, accepts: (nat, Surface) -> bool, names: seq<string>, open: seq<string>) {
    forall x, y :: TakenUnder(n, accepts, names, open, x) && TakenUnder(n, accepts, names, open, y)
                   && x.Business? == y.Business? ==>
      x.name == y.name
  }

  lemma OutlivesNoneIff(n: nat, accepts: (nat, Surface) -> bool, names: seq<string>, open: seq<string>)
    ensures (forall i: nat, x :: !Outlives(n, accepts, names, open, i, x)) <==> OneNameTaken(n, accepts, names, open)
  {
    if OneNameTaken(n, accepts, names, open) {
      forall i: nat, x ensures !Outlives(n, accepts, names, open, i, x) {
        if Outlives(n, accepts, names, open, i, x) {
          var all := if x.Business? then names else names + open;
          assert Face(x.name, x.Business?) == x && Taken(n, accepts, x);
          RecordedWasTaken(n, accepts, all, x.Business?, x.name);
          var y := Face(Recorded(n, accepts, all, x.Business?), x.Business?);
          assert TakenUnder(n, accepts, names, open, x) && TakenUnder(n, accepts, names, open, y);
        }
      }
    } else {
      var x, y :| TakenUnder(n, accepts, names, open, x) && TakenUnder(n, accepts, names, open, y)
                  && x.Business? == y.Business? && x.name != y.name;
      var i :| 0 <= i < n && accepts(i, x);
      var j :| 0 <= j < n && accepts(j, y);
      assert Outlives(n, accepts, names, open, i, x) || Outlives(n, accepts, names, open, j, y);
    }
  }

  lemma OneRegistrationTaken(n: nat, accepts: (nat, Surface) -> bool, names: seq<string>, open: seq<string>)
    requires |names + open| <= 1
    ensures OneNameTaken(n, accepts, names, open)
  {
    forall x, y | TakenUnder(n, accepts, names, open, x) && TakenUnder(n, accepts, names, open, y)
      ensures x.name == y.name
    {
      assert x.name == (names + open)[0] == y.name;
    }
  }

  /** Every transport was offered x, and kept it exactly when it accepts it. */
  ghost predicate Spread(before: seq<set<Surface>>, after: seq<set<Surface>>, accepts: (nat, Surface) -> bool,
                         x: Surface)
  {
    && |after| == |before|
    && forall i :: 0 <= i < |after| ==> after[i] == if accepts(i, x) then before[i] + {x} else before[i]
  }

  lemma HandshakeShown(before: seq<set<Surface>>, after: seq<set<Surface>>, accepts: (nat, Surface) -> bool,
                       name: string, names: seq<string>)
    requires OnTransports(before, accepts, names, []) && Spread(before, after, accepts, Handshake(name))
    ensures OnTransports(after, accepts, names, [name])
  {
  }

  lemma BusinessShown(before: seq<set<Surface>>, after: seq<set<Surface>>, accepts: (nat, Surface) -> bool,
                      name: string, names: seq<string>)
    requires OnTransports(before, accepts, names, [name]) && Spread(before, after, accepts, Business(name))
    ensures OnTransports(after, accepts, names + [name], [])
  {
  }

  /** The transports, the recorded names and the log are those of the registrations. */
  ghost predicate Consistent(published: seq<set<Surface>>, accepts: (nat, Surface) -> bool, objectName: string,
                             handshakeName: string, names: seq<string>, open: seq<string>, log: seq<Mark>)
  {
    && "" !in names && "" !in open && |open| <= 1
    && OnTransports(published, accepts, names, open)
    && Remembers(|published|, accepts, names, open, objectName, handshakeName)
    && log == Registrations(names, |published|) + Opening(open, |published|)
  }

  lemma HandshakeConsistent(before: seq<set<Surface>>, after: seq<set<Surface>>, accepts: (nat, Surface) -> bool,
                            objectName: string, handshakeName: string, names: seq<string>, name: string, log: seq<Mark>)
    requires Consistent(before, accepts, objectName, handshakeName, names, [], log) && name != ""
    requires Spread(before, after, accepts, Handshake(name))
    ensures Consistent(after, accepts, objectName,
                       if Taken(|after|, accepts, Handshake(name)) then name else handshakeName,
                       names, [name], log + Offers(Handshake(name), |after|) + [InitBegins(name)])
  {
    LogOpens(log, names, name, |after|);
    HandshakeShown(before, after, accepts, name, names);
    HandshakeRemembered(|after|, accepts, name, names, objectName, handshakeName);
  }

  lemma BusinessConsistent(before: seq<set<Surface>>, after: seq<set<Surface>>, accepts: (nat, Surface) -> bool,
                           objectName: string, handshakeName: string, names: seq<string>, name: string, log: seq<Mark>)
    requires Consistent(before, accepts, objectName, handshakeName, names, [name], log)
    requires Spread(before, after, accepts, Business(name))
    ensures Consistent(after, accepts,
                       if Taken(|after|, accepts, Business(name)) then name else objectName, handshakeName,
                       names + [name], [], log + [InitEnds(name)] + Offers(Business(name), |after|))
  {
    LogCloses(log, names, name, |after|);
    BusinessShown(before, after, accepts, name, names);
    BusinessRemembered(|after|, accepts, name, names, objectName, handshakeName);
  }

  lemma NoneLeft(published: seq<set<Surface>>, accepts: (nat, Surface) -> bool, names: seq<string>, open: seq<string>)
    requires forall i, x :: 0 <= i < |published| ==>
               (x in published[i] <==> Outlives(|published|, accepts, names, open, i, x))
    ensures (forall i :: 0 <= i < |published| ==> published[i] == {})
       <==> OneNameTaken(|published|, accepts, names, open)
  {
    OutlivesNoneIff(|published|, accepts, names, open);
    if forall i :: 0 <= i < |published| ==> published[i] == {} {
      forall i: nat, x ensures !Outlives(|published|, accepts, names, open, i, x) {
        if i < |published| {
          assert x !in published[i];
        }
      }
    } else {
      var i :| 0 <= i < |published| && published[i] != {};
      var x :| x in published[i];
      assert Outlives(|published|, accepts, names, open, i, x);
    }
  }

  /** The configured transports whose host could be created. */
  function Started(configured: seq<bool>): seq<bool> {
    if configured == [] then []
    else Started(configured[..|configured| - 1]) + if configured[|configured| - 1] then [true] else []
  }

  class Provider {
    const accepts: (nat, Surface) -> bool      // whether a transport takes a surface
    const hostToken: string                    // the authToken property; empty without one or without a parent
    var published: seq<set<Surface>>           // per transport
    var proxy: Option<Proxy>
    var pending: Option<nat>
    var objectName: string
    var handshakeName: string
    var ring: map<string, string>
    ghost var log: seq<Mark>
    ghost var names: seq<string>               // finished registrations
    ghost var open: seq<string>                // the one whose initializer is running
    ghost var wraps: nat                       // which registration's provider the proxy wraps, counted from 0

    function Remembered(): Memory
      reads this`pending, this`ring, this`proxy
    {
      Memory(pending, ring, if proxy.Some? then proxy.value.saved else map[])
    }

    /** The proxy's validator is always the last one set, and there is a proxy whenever
        anything is on a transport; the transports, the recorded names and the log are
        those of the registrations so far. */
    ghost predicate Valid()
      reads this
    {
      && (proxy.Some? ==> proxy.value.validator == pending)
      && (proxy.None? ==> names == open == [])
      && (proxy.Some? ==> wraps == 0 && (names != [] || open != []))
      && Consistent(published, accepts, objectName, handshakeName, names, open, log)
    }

    /** What holds at the moment a surface is offered to a transport. */
    ghost predicate Guarded(x: Surface)
      reads this`proxy, this`pending, this`ring
    {
      && proxy.Some? && proxy.value.validator == pending
      && (x.Handshake? && hostToken != "" ==> GetToken(ring, CORE) != "" && GetToken(ring, CAPABILITY) != "")
    }

    constructor (accepts: (nat, Surface) -> bool, hostToken: string, standard: bool, configured: seq<bool>,
                 ring: map<string, string>)
      ensures Valid() && Fresh() && this.accepts == accepts && this.hostToken == hostToken && this.ring == ring
      ensures configured == [] ==> |published| == if standard then 1 else 0
      ensures configured != [] ==> |published| == |Started(configured)|
    {
      this.accepts, this.hostToken, this.ring := accepts, hostToken, ring;
      published, proxy, pending, objectName, handshakeName := [], None, None, "", "";
      log, names, open := [], [], [];
      new;
      if configured == [] {
        if standard {
          published := [{}];
        }
      } else {
        var i := 0;
        while i < |configured|
          invariant 0 <= i <= |configured| && |published| == |Started(configured[..i])|
          invariant forall k :: 0 <= k < |published| ==> published[k] == {}
          invariant proxy.None? && pending.None? && objectName == handshakeName == ""
          invariant log == [] && names == open == []
          invariant this.ring == ring
        {
          assert configured[..i + 1][..i] == configured[..i];
          if configured[i] {
            published := published + [{}];
          }
          i := i + 1;
        }
        assert configured[..i] == configured;
      }
    }

    ghost predicate Fresh()
      reads this
    {
      && proxy.None? && pending.None? && objectName == handshakeName == "" && log == [] && names == open == []
      && forall k :: 0 <= k < |published| ==> published[k] == {}
    }

    /** setTokenValidator */
    method SetTokenValidator(validator: Option<nat>)
      requires Valid()
      modifies this`pending, this`proxy
      ensures Valid() && pending == validator && (proxy.Some? <==> old(proxy).Some?)
      ensures Remembered() == old(Remembered()).(validator := validator)
    {
      pending := validator;
      if proxy.Some? {
        proxy := Some(proxy.value.(validator := pending));
      }
    }

    /** saveToken */
    method SaveToken(from: string, token: string) returns (ok: bool)
      requires Valid()
      modifies this`proxy
      ensures Valid() && ok == old(proxy).Some? && (proxy.Some? <==> ok)
      ensures ok ==> proxy.value.saved == old(proxy).value.saved[from := token]
      ensures !ok ==> unchanged(`proxy)
    {
      if proxy.None? {
        return false;
      }
      proxy := Some(proxy.value.(saved := proxy.value.saved[from := token]));
      return true;
    }

    /** seedHandshakeTrustAnchor: both anchors end up non-empty, and nothing that was already
        there is overwritten. */
    method SeedHandshakeTrustAnchor()
      modifies this`ring
      ensures hostToken != "" ==> GetToken(ring, CORE) != "" && GetToken(ring, CAPABILITY) != ""
      ensures forall key :: GetToken(old(ring), key) != "" ==> GetToken(ring, key) == GetToken(old(ring), key)
      ensures forall key :: GetToken(ring, key) == GetToken(old(ring), key)
                            || (key in {CORE, CAPABILITY} && GetToken(ring, key) == hostToken)
      ensures ring == if hostToken == "" then old(ring)
                      else Kept(Kept(old(ring), CORE, hostToken), CAPABILITY, hostToken)
    {
      ring := SeedAnchors(ring, hostToken);
    }

    /** The loop over the transports, in either publish method. */
    method Offer(x: Surface) returns (taken: bool)
      requires Guarded(x) && wraps == 0
      modifies this`published, this`log
      ensures |published| == |old(published)| && log == old(log) + Offers(x, |published|)
      ensures taken <==> Taken(|published|, accepts, x)
      ensures Spread(old(published), published, accepts, x)
    {
      taken := false;
      var i := 0;
      while i < |published|
        invariant 0 <= i <= |published| == |old(published)| && log == old(log) + Offers(x, i)
        invariant taken <==> exists k :: 0 <= k < i && accepts(k, x)
        invariant forall k :: 0 <= k < i ==>
                    published[k] == if accepts(k, x) then old(published)[k] + {x} else old(published)[k]
        invariant forall k :: i <= k < |published| ==> published[k] == old(published)[k]
      {
        if accepts(i, x) {
          published := published[i := published[i] + {x}];
          taken := true;
        }
        log := log + [Offered(x, i, Guarded(x), wraps)];
        i := i + 1;
      }
    }

    /** The proxy that both surfaces share is made once, around the provider at hand. */
    method MakeProxy()
      modifies this`proxy, this`wraps
      ensures proxy.Some? && (old(proxy).Some? ==> unchanged(this))
      ensures old(proxy).None? ==> wraps == |names| && proxy.value == Proxy(pending, map[])
    {
      if proxy.None? {
        proxy := Some(Proxy(None, map[]));
        wraps := |names|;
        if pending.Some? {
          proxy := Some(proxy.value.(validator := pending));
        }
      }
    }

    /** The handshake surface on every transport; the initializer comes next. */
    method OfferHandshake(name: string)
      requires Guarded(Handshake(name)) && wraps == 0 && open == [] && name != ""
      requires Consistent(published, accepts, objectName, handshakeName, names, [], log)
      modifies this`published, this`log, this`handshakeName, this`open
      ensures open == [name] && |published| == |old(published)|
      ensures Consistent(published, accepts, objectName, handshakeName, names, [name], log)
    {
      ghost var before, was := published, log;
      var taken := Offer(Handshake(name));
      HandshakeConsistent(before, published, accepts, objectName, handshakeName, names, name, was);
      if taken {
        handshakeName := name;
      }
      log := log + [InitBegins(name)];
      open := [name];
    }

    method PublishHandshake(name: string)
      requires Valid() && open == [] && name != ""
      modifies this
      ensures Valid() && proxy.Some? && open == [name] && unchanged(`names, `pending, `objectName)
      ensures |published| == |old(published)|
      ensures forall key :: GetToken(old(ring), key) != "" ==> GetToken(ring, key) == GetToken(old(ring), key)
      ensures Remembered() == Play(old(Remembered()), Seeds, hostToken)
    {
      MakeProxy();
      SeedHandshakeTrustAnchor();
      assert Remembered() == Play(old(Remembered()), Seeds, hostToken);
      OfferHandshake(name);
    }

    method PublishProvider(name: string) returns (ok: bool)
      requires Valid() && open == [name] && proxy.Some?
      modifies this
      ensures Valid() && proxy.Some? && open == [] && names == old(names) + [name]
      ensures |published| == |old(published)|
      ensures ok <==> Taken(|published|, accepts, Business(name))
      ensures Remembered() == old(Remembered())
    {
      ghost var before, was := published, log;
      log := log + [InitEnds(name)];
      if pending.Some? {
        proxy := Some(proxy.value.(validator := pending));
      }
      ok := Offer(Business(name));
      BusinessConsistent(before, published, accepts, objectName, handshakeName, names, name, was);
      if ok {
        objectName := name;
      }
      names, open := names + [name], [];
    }

    /** Handshake, initializer, business object. */
    method PublishAround(name: string, init: seq<Op>) returns (ok: bool)
      requires Valid() && open == [] && name != ""
      modifies this
      ensures Valid() && proxy.Some? && open == [] && names == old(names) + [name]
      ensures |published| == |old(published)|
      ensures ok <==> Taken(|published|, accepts, Business(name))
      ensures Remembered() == PlayAll(old(Remembered()), Around(init), hostToken)
      decreases init, 1
    {
      PlayOne(Remembered(), Seeds, hostToken);
      PlayJoin(Remembered(), [Seeds], Effects(init, true), hostToken);
      PublishHandshake(name);
      Run(init);
      ok := PublishProvider(name);
    }

    /** What running user code does to the provider, whatever it calls. */
    twostate predicate Registered(added: seq<string>, some: bool)
      reads this
    {
      && |published| == |old(published)| && unchanged(`open)
      && (if added == [] then unchanged(`names) else names == old(names) + added)
      && (proxy.Some? <==> old(proxy).Some? || some)
      && (old(proxy).Some? ==> unchanged(`published, `objectName, `handshakeName))
    }

    /** registerObject with a provider */
    method RegisterProvider(name: string, provider: Option<Module>) returns (ok: bool)
      requires Valid()
      modifies this
      ensures Valid()
      ensures
        var op := Op.RegisterProvider(name, provider);
        Registered(if old(proxy).Some? then [] else NamesOf(op), Attempts(op))
      ensures ok <==> provider.Some? && name != "" && old(proxy).None? && Taken(|published|, accepts, Business(name))
      ensures
        var effects := EffectsOf(Op.RegisterProvider(name, provider), old(proxy).Some?);
        Remembered() == PlayAll(old(Remembered()), effects, hostToken)
      decreases provider, 0
    {
      if provider.None? {
        return false;
      }
      if name == "" {
        return false;
      }
      if proxy.Some? {
        return false;
      }
      ok := PublishAround(name, provider.value.init);
    }

    /** registerObject's provider plugin path: done unless createProviderObject answered null. */
    method RegisterCreated(name: string, instance: Object) returns (done: bool, ok: bool)
      requires Valid() && proxy.None? && name != "" && instance.Plugin?
      modifies this
      ensures Valid() && (done <==> instance.made.Some?)
      ensures done ==> Registered(NamesOf(Op.RegisterObject(name, instance)), true)
      ensures done ==> Remembered() == PlayAll(old(Remembered()), ObjectEffects(instance), hostToken)
      ensures done ==> (ok <==> !Registers(instance.create) && Taken(|published|, accepts, Business(name)))
      ensures !done ==> Registered(Names(instance.create, false), Registers(instance.create))
      ensures !done ==> Remembered() == PlayAll(old(Remembered()), Effects(instance.create, false), hostToken)
      decreases instance, 0
    {
      ghost var was := Remembered();
      Run(instance.create);
      done := instance.made.Some?;
      if done {
        PlayJoin(was, Effects(instance.create, false),
                 EffectsOf(Op.RegisterProvider(name, instance.made), Registers(instance.create)), hostToken);
        ok := RegisterProvider(name, instance.made);
      } else {
        ok := false;
      }
    }

    /** registerObject with a QObject */
    method RegisterObject(name: string, instance: Object) returns (ok: bool)
      requires Valid()
      modifies this
      ensures Valid()
      ensures old(proxy).Some? ==> Registered([], true)
      ensures old(proxy).None? ==>
                var op := Op.RegisterObject(name, instance);
                Registered(NamesOf(op), Attempts(op))
      ensures Remembered() == PlayAll(old(Remembered()), EffectsOf(Op.RegisterObject(name, instance), old(proxy).Some?),
                                      hostToken)
      ensures ok <==>
                && old(proxy).None? && name != "" && !instance.Null? && Taken(|published|, accepts, Business(name))
                && !(instance.Plugin? && instance.made.Some? && Registers(instance.create))
      decreases instance, 1
    {
      if instance.Null? {
        return false;
      }
      if name == "" {
        return false;
      }
      if proxy.Some? {
        return false;
      }
      ObjectNames(name, instance);
      ghost var was, memory := names, Remembered();
      if instance.Plugin? {
        var done;
        done, ok := RegisterCreated(name, instance);
        if done {
          return ok;
        }
        PlayJoin(memory, Effects(instance.create, false), Around(instance.init), hostToken);
        NamesJoin(was, Names(instance.create, false), name);
      }
      ghost var first := names;
      ok := PublishAround(name, instance.init);
      assert names == first + [name];
    }

    /** A write to the process's ring from outside the provider. */
    method WriteRing(key: string, token: string)
      requires Valid()
      modifies this`ring
      ensures Valid() && ring == old(ring)[key := token]
    {
      ring := ring[key := token];
    }

    method Perform(op: Op)
      requires Valid()
      modifies this
      ensures Valid() && Registered(if old(proxy).Some? then [] else NamesOf(op), Attempts(op))
      ensures Remembered() == PlayAll(old(Remembered()), EffectsOf(op, old(proxy).Some?), hostToken)
      decreases op, 0
    {
      if op.RegisterProvider? {
        var _ := RegisterProvider(op.name, op.provider);
      } else if op.RegisterObject? {
        var _ := RegisterObject(op.name, op.instance);
      } else {
        PerformOther(op);
      }
    }

    /** The operations that register nothing. */
    method PerformOther(op: Op)
      requires Valid() && !op.RegisterProvider? && !op.RegisterObject?
      modifies this
      ensures Valid() && |published| == |old(published)| && (proxy.Some? <==> old(proxy).Some?)
      ensures unchanged(`published, `objectName, `handshakeName, `names, `open)
      ensures Remembered() == PlayAll(old(Remembered()), EffectsOf(op, old(proxy).Some?), hostToken)
    {
      match op
      case SetTokenValidator(validator) =>
        PlayOne(Remembered(), Validates(validator), hostToken);
        SetTokenValidator(validator);
        assert Remembered() == Play(old(Remembered()), Validates(validator), hostToken);
      case SaveToken(from, token) =>
        PlayOne(Remembered(), Saves(from, token), hostToken);
        var _ := SaveToken(from, token);
      case WriteRing(key, token) =>
        PlayOne(Remembered(), Writes(key, token), hostToken);
        WriteRing(key, token);
    }

    /** Any public operations, in any order; also what an initializer does. */
    method Run(ops: seq<Op>)
      requires Valid()
      modifies this
      ensures Valid() && Registered(Names(ops, old(proxy).Some?), Registers(ops))
      ensures Remembered() == PlayAll(old(Remembered()), Effects(ops, old(proxy).Some?), hostToken)
      decreases ops, 0
    {
      if ops != [] {
        ghost var was, has := Remembered(), proxy.Some?;
        Perform(ops[0]);
        ghost var first := names;
        Run(ops[1..]);
        assert names == first + Names(ops[1..], has || Attempts(ops[0]));
        NamesSplit(ops, has);
        PlaySplit(was, ops, has, hostToken);
      }
    }

    /** The destructor withdraws the recorded names. What is left is exactly what was taken
        under another; so nothing is left exactly when no two names were taken, in
        particular after at most one registration, finished or not. */
    method Destroy()
      requires Valid()
      modifies this`published
      ensures |published| == |old(published)|
      ensures forall i, x :: 0 <= i < |published| ==>
                (x in published[i] <==> Outlives(|published|, accepts, names, open, i, x))
      ensures (forall i :: 0 <= i < |published| ==> published[i] == {})
              <==> OneNameTaken(|published|, accepts, names, open)
      ensures |names + open| <= 1 ==> OneNameTaken(|published|, accepts, names, open)
    {
      ghost var was := published;
      if objectName != "" {
        Withdraw(Business(objectName));
      }
      if handshakeName != "" {
        Withdraw(Handshake(handshakeName));
      }
      forall i, x | 0 <= i < |published|
        ensures x in published[i] <==> Outlives(|published|, accepts, names, open, i, x)
      {
        assert x in was[i] <==> accepts(i, x) && Announced(x, names, open);
      }
      NoneLeft(published, accepts, names, open);
      if |names + open| <= 1 {
        OneRegistrationTaken(|published|, accepts, names, open);
      }
    }

    /** unpublishObject on every transport */
    method Withdraw(x: Surface)
      modifies this`published
      ensures |published| == |old(published)|
      ensures forall i :: 0 <= i < |published| ==> published[i] == old(published)[i] - {x}
    {
      var i := 0;
      while i < |published|
        invariant 0 <= i <= |published| == |old(published)|
        invariant forall k :: 0 <= k < i ==> published[k] == old(published)[k] - {x}
        invariant forall k :: i <= k < |published| ==> published[k] == old(published)[k]
      {
        published := published[i := published[i] - {x}];
        i := i + 1;
      }
    }
  }

  /** Whatever is live on any transport, at any point at which user code runs, is guarded by
      the validator last set. */
  lemma LiveIsGuarded(p: Provider, i: nat, x: Surface)
    requires p.Valid() && i < |p.published| && x in p.published[i]
    ensures p.proxy.Some? && p.proxy.value.validator == p.pending && p.accepts(i, x)
  {
    assert Announced(x, p.names, p.open);
  }

  // ---------------------------------------------------------------------------
  // Whole lives
  // ---------------------------------------------------------------------------

  /** The first operation that gets past its checks is a plugin whose createProviderObject
      registers on its own: twice over, or once while answering null. */
  predicate Doubles(ops: seq<Op>)
    decreases ops
  {
    ops != [] && if Attempts(ops[0]) then DoublesOf(ops[0]) else Doubles(ops[1..])
  }

  predicate DoublesOf(op: Op)
    decreases op
  {
    && op.RegisterObject? && op.instance.Plugin?
    && (Doubles(op.instance.create) || (op.instance.made.None? && Registers(op.instance.create)))
  }

  /** At most one business object is published exactly when nothing doubles. */
  lemma {:induction false} AtMostOneIff(ops: seq<Op>)
    ensures |Names(ops, false)| <= 1 <==> !Doubles(ops)
    ensures Names(ops, false) != [] <==> Registers(ops)
    decreases ops, 1
  {
    if ops != [] {
      assert Registers(ops) <==> Attempts(ops[0]) || Registers(ops[1..]);
      if Attempts(ops[0]) {
        AtMostOneOf(ops[0]);
        assert Names(ops[1..], true) == [];
      } else {
        AtMostOneIff(ops[1..]);
      }
    }
  }

  lemma {:induction false} AtMostOneOf(op: Op)
    requires Attempts(op)
    ensures |NamesOf(op)| >= 1 && (|NamesOf(op)| <= 1 <==> !DoublesOf(op))
    decreases op, 0
  {
    if op.RegisterObject? && op.instance.Plugin? {
      AtMostOneIff(op.instance.create);
    }
  }

  /** In particular when no createProviderObject registers anything. */
  lemma {:induction false} QuietCreateRegistersOnce(ops: seq<Op>)
    requires forall i :: 0 <= i < |ops| && ops[i].RegisterObject? && ops[i].instance.Plugin? ==>
               !Registers(ops[i].instance.create)
    ensures |Names(ops, false)| <= 1
    decreases |ops|
  {
    if ops != [] {
      if Attempts(ops[0]) {
        if ops[0].RegisterObject? && ops[0].instance.Plugin? {
          AtMostOneIff(ops[0].instance.create);
        }
      } else {
        QuietCreateRegistersOnce(ops[1..]);
      }
    }
  }

  /** A provider's whole life: the log is its registrations, each complete and in order; what
      outlives it is what transports took under any but the latest name they took, so nothing
      does exactly when no two names were taken, in particular when nothing doubles. */
  method Live(accepts: (nat, Surface) -> bool, hostToken: string, standard: bool, configured: seq<bool>,
              ring: map<string, string>, ops: seq<Op>)
    returns (p: Provider)
    ensures p.names == Names(ops, false) && p.log == Registrations(p.names, |p.published|)
    ensures p.Remembered() == PlayAll(Memory(None, ring, map[]), Effects(ops, false), hostToken)
    ensures p.accepts == accepts && forall i, x :: 0 <= i < |p.published| ==>
              (x in p.published[i] <==> Outlives(|p.published|, accepts, Names(ops, false), [], i, x))
    ensures (forall i :: 0 <= i < |p.published| ==> p.published[i] == {})
            <==> OneNameTaken(|p.published|, accepts, Names(ops, false), [])
    ensures !Doubles(ops) ==> |p.names| <= 1 && OneNameTaken(|p.published|, accepts, Names(ops, false), [])
  {
    p := RunWhole(accepts, hostToken, standard, configured, ring, ops);
    AtMostOneIff(ops);
    p.Destroy();
    assert p.names + p.open == p.names;
  }

  method RunWhole(accepts: (nat, Surface) -> bool, hostToken: string, standard: bool, configured: seq<bool>,
                  ring: map<string, string>, ops: seq<Op>)
    returns (p: Provider)
    ensures fresh(p) && p.Valid() && p.accepts == accepts && p.open == [] && p.names == Names(ops, false)
    ensures p.log == Registrations(p.names, |p.published|)
    ensures p.Remembered() == PlayAll(Memory(None, ring, map[]), Effects(ops, false), hostToken)
  {
    p := new Provider(accepts, hostToken, standard, configured, ring);
    p.Run(ops);
    FinishedLog(p.log, p.names, |p.published|);
  }

  lemma FinishedLog(log: seq<Mark>, names: seq<string>, n: nat)
    requires log == Registrations(names, n) + Opening([], n)
    ensures log == Registrations(names, n)
  {
  }

  /** createProviderObject registers first and answers null; the plugin is then registered
      as it is. */
  function Doubling(first: string, second: string): seq<Op> {
    [Op.RegisterObject(second, Plugin([Op.RegisterObject(first, Wrapped([]))], None, []))]
  }

  lemma DoublingNames(first: string, second: string)
    requires first != "" && second != ""
    ensures Names(Doubling(first, second), false) == [first, second] && Doubles(Doubling(first, second))
  {
    var ops := Doubling(first, second);
    var create := ops[0].instance.create;
    assert Attempts(ops[0]) && Attempts(create[0]);
    assert Names(create[1..], true) == [] && Names(create, false) == NamesOf(create[0]) == [first];
    assert Names(ops[1..], true) == [] && NamesOf(ops[0]) == [first] + [second];
  }

  /** What a second registration costs: a transport that took the first name keeps it exactly
      when some transport took the second. */
  lemma SecondShadowsFirst(n: nat, accepts: (nat, Surface) -> bool, first: string, second: string, i: nat)
    requires first != second && i < n
    ensures Outlives(n, accepts, [first, second], [], i, Business(first))
            <==> accepts(i, Business(first)) && Taken(n, accepts, Business(second))
  {
    RecordedSnoc(n, accepts, [first], second, true);
    RecordedSnoc(n, accepts, [], first, true);
    assert [first] + [second] == [first, second] && [] + [first] == [first];
    if accepts(i, Business(first)) {
      assert Taken(n, accepts, Business(first));
    }
  }

  /** A second registration runs its own provider's initializer, and then publishes, under its
      own name, the provider of the first. */
  lemma {:induction false} SecondIsServedByTheFirst(first: string, second: string, n: nat, i: nat)
    requires i < n
    ensures
      var log := Registrations([first, second], n);
      InitEnds(second) in log && Offered(Business(second), i, true, 0) in log
  {
    var log, front := Registrations([first, second], n), Registrations([first], n);
    assert [first, second][..1] == [first];
    RegistrationAt(second, n, 0);
    RegistrationAt(second, n, n + 1);
    RegistrationAt(second, n, n + 2 + i);
    assert log[|front| + n + 1] == Registration(second, n)[n + 1];
    assert log[|front| + n + 2 + i] == Registration(second, n)[n + 2 + i];
  }

  method SecondRegistrationLeaks(p: Provider, ops: seq<Op>, first: string, second: string)
    requires p.Valid() && p.Fresh() && Names(ops, false) == [first, second] && first != second
    modifies p
    ensures |p.published| == |old(p.published)| && p.log == Registrations([first, second], |p.published|)
    ensures forall i :: 0 <= i < |p.published| ==>
              (Business(first) in p.published[i]
               <==> p.accepts(i, Business(first)) && Taken(|p.published|, p.accepts, Business(second)))
  {
    p.Run(ops);
    p.Destroy();
    assert p.names == [first, second] && p.open == [];
    forall i | 0 <= i < |p.published|
      ensures Business(first) in p.published[i]
              <==> p.accepts(i, Business(first)) && Taken(|p.published|, p.accepts, Business(second))
    {
      SecondShadowsFirst(|p.published|, p.accepts, first, second, i);
    }
  }
}
