/** Admitting a consumer to a running host: isolate a token store, mint, register with
    capability_module, adopt; and rotating its credential. Every line of the source is one
    step, and steps of different operations interleave freely. */
module ConsumerAdmission {
  import opened Options
  import opened Tokens

  // ---------------------------------------------------------------------------
  // Assumed of TokenManager and ModuleProxy, which are not part of this model
  // ---------------------------------------------------------------------------

  /** A store's keys: the two role labels, and the names of targets. */
  datatype Key = Core | CapabilityModule | Target(name: string)

  type Store = map<Key, string>

  /** TokenManager::bootstrapKeys. */
  predicate Bootstrap(k: Key) { !k.Target? }

  /** TokenManager::adoptCredential: the credential under every bootstrap key. */
  function Adopted(store: Store, credential: string): Store {
    store[Core := credential][CapabilityModule := credential]
  }

  lemma AdoptedEverywhere(store: Store, credential: string, k: Key)
    ensures Bootstrap(k) ==> GetToken(Adopted(store, credential), k) == credential
    ensures !Bootstrap(k) ==> GetToken(Adopted(store, credential), k) == GetToken(store, k)
  {
  }

  /** Which token store an API object presents from. */
  datatype StoreRef = Ambient | Private(identity: string)

  datatype Kind = Admit | Reissue

  /** Where an operation stands. Registered: capability_module answered true. */
  datatype Pc = Start | Isolated | Minted | HasHost | HasClient | HasToken | Registered | Cleared | Done | Failed

  /** host is the host API's store, when there is one; first: this operation created the
      identity's store. */
  datatype Op = Op(kind: Kind, identity: string, host: Option<StoreRef>, pc: Pc, credential: string,
                   hostToken: string, first: bool)

  /** ring: the process's own store; stores: the isolated ones; vended: names the ring was
      handed out under; record: whom capability_module knows by which credential.
      accepted, minted and adopted are history. */
  datatype World = World(
    ring: Store, stores: map<string, Store>, vended: set<string>, record: map<string, string>,
    ops: seq<Op>, accepted: set<(string, string)>, minted: map<string, string>,
    adopted: set<(string, string)>)

  function Initial(ring: Store, vended: set<string>): World {
    World(ring, map[], vended, map[], [], {}, map[], {})
  }

  /** The host-issued values: what the trusted channel presents. */
  predicate AnchorOf(ring: Store, c: string) {
    c != "" && (GetToken(ring, Core) == c || GetToken(ring, CapabilityModule) == c)
  }

  /** The values the trusted channel presents are those under the bootstrap keys. */
  lemma AnchorIff(ring: Store, c: string)
    ensures AnchorOf(ring, c) <==> c != "" && exists k :: Bootstrap(k) && k in ring && ring[k] == c
  {
    assert Bootstrap(Core) && Bootstrap(CapabilityModule);
  }

  predicate IsAnchor(w: World, c: string) { AnchorOf(w.ring, c) }

  datatype Principal = Host | Consumer(identity: string)

  /** ModuleProxy's authorization: whom a presented token speaks as. */
  function SpeaksAs(w: World, token: string): set<Principal> {
    (if IsAnchor(w, token) then {Host} else {}) + set id | id in w.record && w.record[id] == token :: Consumer(id)
  }

  /** informModuleToken: refused unless the trusted channel asks; it may be lost, and may
      answer false even after recording. */
  datatype Inform = Lost | Recorded(answer: bool)

  // ---------------------------------------------------------------------------
  // Steps
  // ---------------------------------------------------------------------------

  /** The lines of an operation. */
  datatype Action =
    | Isolate                                // the checks before the mint, and forIdentity
    | Mint(secret: string)
    | CheckHost
    | GetClient(present: bool)
    | ReadToken
    | InformCap(inform: Inform)
    | Reset
    | AdoptFor

  datatype Step =
    | Begin(kind: Kind, identity: string, host: Option<StoreRef>)
    | Own(i: nat, action: Action)            // operation i executes its next line
    | ForIdentity(identity: string)          // LogosAPI::forIdentity on its own
    | Vend(identity: string)                 // a null-store LogosAPI under this name
    | CoAdopt(into: StoreRef, credential: string)   // adoptConsumerCredential
    | CacheTarget(identity: string, target: Key, token: string)  // a client keeps a grant

  predicate At(w: World, i: nat, pc: Pc) { i < |w.ops| && w.ops[i].pc == pc }

  predicate CanPerform(w: World, i: nat, action: Action) {
    match action
    case Isolate => At(w, i, Start)
    case Mint(secret) => At(w, i, Isolated) && secret != "" && secret !in w.minted
    case CheckHost => At(w, i, Minted)
    case GetClient(_) => At(w, i, HasHost)
    case ReadToken => At(w, i, HasClient)
    case InformCap(_) => At(w, i, HasToken)
    case Reset => At(w, i, Registered) && w.ops[i].kind == Reissue
    case AdoptFor => i < |w.ops| && w.ops[i].pc == (if w.ops[i].kind == Reissue then Cleared else Registered)
  }

  predicate Enabled(w: World, step: Step) {
    match step
    case Own(i, action) => CanPerform(w, i, action)
    case CacheTarget(identity, target, token) =>
      // a grant is minted for its target and is never the host's own token
      identity in w.stores && target.Target? && !IsAnchor(w, token)
    case _ => true
  }

  /** isolateIdentity: idempotent; refused once the ring was vended under the name. */
  predicate CanIsolate(w: World, identity: string) { identity in w.stores || identity !in w.vended }

  /** An operation's line touches neither the ring nor any other operation. */
  predicate OwnLine(w: World, w': World, i: nat) {
    && i < |w.ops| && |w'.ops| == |w.ops| && w'.ring == w.ring && w'.ops == w.ops[i := w'.ops[i]]
    && w'.ops[i].identity == w.ops[i].identity
  }

  /** Nor, except where it isolates, resets or adopts, any isolated store. */
  predicate StoresKept(w: World, w': World) { w'.stores == w.stores && w'.adopted == w.adopted }

  function WithOp(w: World, i: nat, op: Op): (w': World)
    requires i < |w.ops| && op.identity == w.ops[i].identity
    ensures OwnLine(w, w', i) && StoresKept(w, w') && w'.ops[i] == op
  {
    w.(ops := w.ops[i := op])
  }

  function Fail(w: World, i: nat): (w': World)
    requires i < |w.ops|
    ensures OwnLine(w, w', i) && StoresKept(w, w') && w'.ops[i].pc == Failed
  {
    WithOp(w, i, w.ops[i].(pc := Failed))
  }

  /** The capability_module token of an API object's store. */
  function PresentedBy(ring: Store, stores: map<string, Store>, ref: StoreRef): string {
    match ref
    case Ambient => GetToken(ring, CapabilityModule)
    case Private(id) => if id in stores then GetToken(stores[id], CapabilityModule) else ""
  }

  /** A check that either ends the operation or moves it on. */
  function Checked(w: World, i: nat, passed: bool, next: Pc): (w': World)
    requires i < |w.ops|
    ensures OwnLine(w, w', i) && StoresKept(w, w') && w'.ops[i].pc == (if passed then next else Failed)
  {
    if passed then WithOp(w, i, w.ops[i].(pc := next)) else Fail(w, i)
  }

  /** isolateIdentity makes a name's store, empty. */
  function NewlyIsolated(w: World, i: nat): (w': World)
    requires i < |w.ops|
    ensures OwnLine(w, w', i)
  {
    var id := w.ops[i].identity;
    WithOp(w, i, w.ops[i].(pc := Isolated, first := true)).(stores := w.stores[id := map[]])
  }

  /** The checks before the mint; for an admission, LogosAPI::forIdentity. */
  function CheckedIsolation(w: World, i: nat): (w': World)
    requires i < |w.ops|
    ensures OwnLine(w, w', i) && (w'.ops[i].pc == Failed ==> StoresKept(w, w'))
    ensures (w'.ops[i].pc == Failed || w'.ops[i].pc == Isolated) && w'.adopted == w.adopted
  {
    var op := w.ops[i];
    if op.identity == "" then Fail(w, i)
    else if op.identity in w.stores then WithOp(w, i, op.(pc := Isolated))
    else if op.kind == Reissue || op.identity in w.vended then Fail(w, i)
    else NewlyIsolated(w, i)
  }

  function Minting(w: World, i: nat, secret: string): (w': World)
    requires i < |w.ops|
    ensures OwnLine(w, w', i) && StoresKept(w, w') && w'.ops[i].pc == Minted
  {
    WithOp(w, i, w.ops[i].(pc := Minted, credential := secret)).(minted := w.minted[secret := w.ops[i].identity])
  }

  function ReadingToken(w: World, i: nat): (w': World)
    requires i < |w.ops|
    ensures OwnLine(w, w', i) && StoresKept(w, w') && w'.ops[i].pc != Done
  {
    var token := if w.ops[i].host.None? then "" else PresentedBy(w.ring, w.stores, w.ops[i].host.value);
    if token == "" then Fail(w, i) else WithOp(w, i, w.ops[i].(pc := HasToken, hostToken := token))
  }

  function Informed(w: World, i: nat, inform: Inform): (w': World)
    requires i < |w.ops|
    ensures OwnLine(w, w', i) && StoresKept(w, w') && w'.ops[i].pc != Done
  {
    var op := w.ops[i];
    if inform.Lost? || !IsAnchor(w, op.hostToken) then Fail(w, i)
    else
      WithOp(w, i, op.(pc := if inform.answer then Registered else Failed))
      .(record := w.record[op.identity := op.credential], accepted := w.accepted + {(op.identity, op.credential)})
  }

  function Clearing(w: World, i: nat): (w': World)
    requires i < |w.ops|
    ensures OwnLine(w, w', i) && w'.ops[i].pc == Cleared && w'.adopted == w.adopted
  {
    var id := w.ops[i].identity;
    WithOp(w, i, w.ops[i].(pc := Cleared)).(stores := if id in w.stores then w.stores[id := map[]] else w.stores)
  }

  /** adoptCredentialFor: refused for a store nobody isolated and for the host's token. */
  function AdoptedFor(w: World, i: nat): (w': World)
    requires i < |w.ops|
    ensures OwnLine(w, w', i)
  {
    var op := w.ops[i];
    var id, c := op.identity, op.credential;
    if id !in w.stores || c == "" || IsAnchor(w, c) then Fail(w, i)
    else WithOp(w, i, op.(pc := Done)).(stores := w.stores[id := Adopted(w.stores[id], c)],
                                        adopted := w.adopted + {(id, c)})
  }

  function Perform(w: World, i: nat, action: Action): (w': World)
    requires CanPerform(w, i, action)
    ensures OwnLine(w, w', i)
    ensures !action.AdoptFor? ==>
              w'.ops[i].pc != Done && w'.adopted == w.adopted && (w'.ops[i].pc == Failed ==> StoresKept(w, w'))
    ensures !action.Isolate? && !action.Reset? && !action.AdoptFor? ==> StoresKept(w, w')
  {
    match action
    case Isolate => CheckedIsolation(w, i)
    case Mint(secret) => Minting(w, i, secret)
    case CheckHost => Checked(w, i, w.ops[i].host.Some?, HasHost)
    case GetClient(present) => Checked(w, i, present, HasClient)
    case ReadToken => ReadingToken(w, i)
    case InformCap(inform) => Informed(w, i, inform)
    case Reset => Clearing(w, i)
    case AdoptFor => AdoptedFor(w, i)
  }

  function Apply(w: World, step: Step): World
    requires Enabled(w, step)
  {
    match step
    case Begin(kind, identity, host) =>
      w.(ops := w.ops + [Op(kind, identity, host, Start, "", "", false)])
    case Own(i, action) => Perform(w, i, action)
    case ForIdentity(id) =>
      if id == "" || !CanIsolate(w, id) || id in w.stores then w else w.(stores := w.stores[id := map[]])
    case Vend(id) => if id in w.stores then w else w.(vended := w.vended + {id})
    case CoAdopt(into, c) =>
      if c == "" || into.Private? then w else w.(ring := Adopted(w.ring, c))
    case CacheTarget(id, target, token) =>
      w.(stores := w.stores[id := w.stores[id][target := token]])
  }

  // ---------------------------------------------------------------------------
  // Register before adopt: every interleaving, no assumption on the schedule
  // ---------------------------------------------------------------------------

  predicate PastMint(op: Op) { !op.pc.Start? && !op.pc.Isolated? && !op.pc.Failed? }

  ghost predicate OpOk(w: World, op: Op) {
    && (PastMint(op) ==> op.credential in w.minted && w.minted[op.credential] == op.identity)
    && ((op.pc.Registered? || op.pc.Cleared? || op.pc.Done?) ==> (op.identity, op.credential) in w.accepted)
    && (op.kind == Admit ==> op.pc != Cleared)
  }

  ghost predicate Safe(w: World) {
    && (forall i :: 0 <= i < |w.ops| ==> OpOk(w, w.ops[i]))
    && (forall id, k :: id in w.stores && k in w.stores[id] && Bootstrap(k) ==> (id, w.stores[id][k]) in w.accepted)
    && (forall p :: p in w.accepted ==> p.1 in w.minted && w.minted[p.1] == p.0)
    && (forall id :: id in w.record ==> (id, w.record[id]) in w.accepted)
    && w.adopted <= w.accepted
  }

  ghost predicate IsRun(w: World, steps: seq<Step>)
    decreases |steps|
  {
    steps == [] || (Enabled(w, steps[0]) && IsRun(Apply(w, steps[0]), steps[1..]))
  }

  function After(w: World, steps: seq<Step>): World
    requires IsRun(w, steps)
    decreases |steps|
  {
    if steps == [] then w else After(Apply(w, steps[0]), steps[1..])
  }

  lemma IsolateIsSafe(w: World, i: nat)
    requires Safe(w) && CanPerform(w, i, Isolate)
    ensures Safe(CheckedIsolation(w, i))
  {
    assert OpOk(w, w.ops[i]);
  }

  lemma MintIsSafe(w: World, i: nat, secret: string)
    requires Safe(w) && CanPerform(w, i, Mint(secret))
    ensures Safe(Perform(w, i, Mint(secret)))
  {
  }

  lemma LookupIsSafe(w: World, i: nat, action: Action)
    requires Safe(w) && CanPerform(w, i, action)
    requires action.CheckHost? || action.GetClient? || action.ReadToken?
    ensures Safe(Perform(w, i, action))
  {
    assert OpOk(w, w.ops[i]);
  }

  lemma InformIsSafe(w: World, i: nat, inform: Inform)
    requires Safe(w) && CanPerform(w, i, InformCap(inform))
    ensures Safe(Perform(w, i, InformCap(inform)))
  {
    assert OpOk(w, w.ops[i]);
  }

  lemma ResetIsSafe(w: World, i: nat)
    requires Safe(w) && CanPerform(w, i, Reset)
    ensures Safe(Perform(w, i, Reset))
  {
  }

  lemma AdoptIsSafe(w: World, i: nat)
    requires Safe(w) && CanPerform(w, i, AdoptFor)
    ensures Safe(AdoptedFor(w, i))
  {
    assert OpOk(w, w.ops[i]);
  }

  lemma PerformIsSafe(w: World, i: nat, action: Action)
    requires Safe(w) && CanPerform(w, i, action)
    ensures Safe(Perform(w, i, action))
  {
    match action
    case Isolate => IsolateIsSafe(w, i);
    case Mint(secret) => MintIsSafe(w, i, secret);
    case CheckHost => LookupIsSafe(w, i, action);
    case GetClient(present) => LookupIsSafe(w, i, action);
    case ReadToken => LookupIsSafe(w, i, action);
    case InformCap(inform) => InformIsSafe(w, i, inform);
    case Reset => ResetIsSafe(w, i);
    case AdoptFor => AdoptIsSafe(w, i);
  }

  lemma StepIsSafe(w: World, step: Step)
    requires Safe(w) && Enabled(w, step)
    ensures Safe(Apply(w, step))
  {
    if step.Own? {
      PerformIsSafe(w, step.i, step.action);
    }
  }

  lemma {:induction false} RunIsSafe(w: World, steps: seq<Step>)
    requires Safe(w) && IsRun(w, steps)
    ensures Safe(After(w, steps))
    decreases |steps|
  {
    if steps != [] {
      StepIsSafe(w, steps[0]);
      RunIsSafe(Apply(w, steps[0]), steps[1..]);
    }
  }

  /** In every reachable state, failed and half-finished operations included, a bootstrap
      credential in an isolated store was accepted by capability_module, for that identity. */
  lemma RegisterBeforeAdopt(ring: Store, vended: set<string>, steps: seq<Step>, id: string, key: Key)
    requires IsRun(Initial(ring, vended), steps)
    ensures
      var w := After(Initial(ring, vended), steps);
      id in w.stores && Bootstrap(key) && key in w.stores[id] ==>
        && (id, w.stores[id][key]) in w.accepted
        && w.stores[id][key] in w.minted && w.minted[w.stores[id][key]] == id
  {
    RunIsSafe(Initial(ring, vended), steps);
  }

  // ---------------------------------------------------------------------------
  // A name has one kind of store
  // ---------------------------------------------------------------------------

  /** The step asks for one kind of store for the name. */
  predicate Uses(w: World, step: Step, id: string)
    requires Enabled(w, step)
  {
    id != "" && (step == Vend(id) || step == ForIdentity(id)
                 || (step.Own? && step.action.Isolate? && w.ops[step.i].identity == id && w.ops[step.i].kind == Admit))
  }

  /** The first use decides: a name is isolated if that asks for a store of its own, and
      stays on the ring if it asks for the ring. */
  ghost predicate FirstAsksApart(w: World, steps: seq<Step>, id: string)
    requires IsRun(w, steps)
    decreases |steps|
  {
    steps != [] && if Uses(w, steps[0], id) then !steps[0].Vend? else FirstAsksApart(Apply(w, steps[0]), steps[1..], id)
  }

  lemma {:induction false} KindIsKept(w: World, steps: seq<Step>, id: string)
    requires IsRun(w, steps) && w.stores.Keys !! w.vended && (id in w.stores || id in w.vended)
    ensures
      var w' := After(w, steps);
      (id in w'.stores <==> id in w.stores) && (id in w'.vended <==> id in w.vended)
    decreases |steps|
  {
    if steps != [] {
      OneKind(w, steps[0], id);
      KindIsKept(Apply(w, steps[0]), steps[1..], id);
    }
  }

  /** From w to w' a name that has a kind keeps it; one that has none gets what it asks for. */
  ghost predicate KindNext(w: World, w': World, id: string, apart: bool, vend: bool) {
    && w'.stores.Keys !! w'.vended
    && (id in w.stores || id in w.vended ==>
          (id in w'.stores <==> id in w.stores) && (id in w'.vended <==> id in w.vended))
    && (id !in w.stores && id !in w.vended && id != "" ==>
          (id in w'.stores <==> apart) && (id in w'.vended <==> vend))
  }

  lemma IsolateKind(w: World, i: nat, id: string)
    requires i < |w.ops| && w.stores.Keys !! w.vended
    ensures KindNext(w, CheckedIsolation(w, i), id, w.ops[i].kind == Admit && w.ops[i].identity == id, false)
  {
  }

  lemma OtherLineKind(w: World, i: nat, action: Action)
    requires CanPerform(w, i, action) && !action.Isolate?
    ensures Perform(w, i, action).stores.Keys == w.stores.Keys && Perform(w, i, action).vended == w.vended
  {
  }

  lemma OneKind(w: World, step: Step, id: string)
    requires Enabled(w, step) && w.stores.Keys !! w.vended
    ensures KindNext(w, Apply(w, step), id, Uses(w, step, id) && !step.Vend?, Uses(w, step, id) && step.Vend?)
  {
    if step.Own? {
      if step.action.Isolate? {
        IsolateKind(w, step.i, id);
      } else {
        OtherLineKind(w, step.i, step.action);
      }
    }
  }

  /** Over every run a name that was not handed the ring before is isolated exactly when its
      first use asks for a store of its own. */
  lemma {:induction false} FirstUseDecides(w: World, steps: seq<Step>, id: string)
    requires IsRun(w, steps) && w.stores.Keys !! w.vended && id != "" && id !in w.stores && id !in w.vended
    ensures id in After(w, steps).stores <==> FirstAsksApart(w, steps, id)
    decreases |steps|
  {
    if steps != [] {
      OneKind(w, steps[0], id);
      if Uses(w, steps[0], id) {
        KindIsKept(Apply(w, steps[0]), steps[1..], id);
      } else {
        FirstUseDecides(Apply(w, steps[0]), steps[1..], id);
      }
    }
  }

  // ---------------------------------------------------------------------------
  // No isolated store holds the host's token
  // ---------------------------------------------------------------------------

  ghost predicate HeldNowhere(w: World, c: string) {
    forall id, k :: id in w.stores && k in w.stores[id] ==> w.stores[id][k] != c
  }

  ghost predicate Separated(w: World) {
    forall c :: IsAnchor(w, c) ==> HeldNowhere(w, c)
  }

  /** adoptConsumerCredential checks which store it was given, not which value. Pointed at
      the host's own ring it keeps the separation exactly when no isolated store already
      holds the value. */
  lemma CoAdoptSeparatesIff(w: World, c: string)
    requires c != ""
    ensures Separated(Apply(w, CoAdopt(Ambient, c))) <==> HeldNowhere(w, c)
  {
    var w' := Apply(w, CoAdopt(Ambient, c));
    assert forall x :: IsAnchor(w', x) <==> x == c;
    assert HeldNowhere(w', c) <==> HeldNowhere(w, c);
  }

  lemma OthersKeepSeparation(w: World, step: Step)
    requires Separated(w) && Enabled(w, step) && !step.CoAdopt?
    ensures Separated(Apply(w, step)) && Apply(w, step).ring == w.ring
    ensures forall p :: p in Apply(w, step).adopted && p !in w.adopted ==> !IsAnchor(w, p.1)
  {
    var w' := Apply(w, step);
    if step.Own? {
      assert OwnLine(w, w', step.i);
      forall c | IsAnchor(w', c) ensures HeldNowhere(w', c) {
        assert IsAnchor(w, c);
      }
    } else {
      assert w'.ring == w.ring && w'.adopted == w.adopted;
      forall c | IsAnchor(w', c) ensures HeldNowhere(w', c) {
        assert IsAnchor(w, c) && HeldNowhere(w, c);
      }
    }
  }

  /** The step does not make a value that an isolated store holds the host's token. */
  ghost predicate Unheld(w: World, step: Step) {
    step.CoAdopt? && step.into.Ambient? && step.credential != "" ==> HeldNowhere(w, step.credential)
  }

  lemma StepSeparatesIff(w: World, step: Step)
    requires Separated(w) && Enabled(w, step)
    ensures Separated(Apply(w, step)) <==> Unheld(w, step)
  {
    if !step.CoAdopt? {
      OthersKeepSeparation(w, step);
    } else if step.into.Ambient? && step.credential != "" {
      CoAdoptSeparatesIff(w, step.credential);
    }
  }

  ghost predicate NeverInstalled(w: World, c: string) { forall p :: p in w.adopted ==> p.1 != c }

  /** A co-adopted value is foreign: no isolated store holds it, and it was never installed
      as an identity's credential, not even one that is superseded by now. */
  ghost predicate Foreign(w: World, step: Step) {
    step.CoAdopt? && step.into.Ambient? && step.credential != "" ==>
      HeldNowhere(w, step.credential) && NeverInstalled(w, step.credential)
  }

  /** Credentials that were ever installed in an isolated store are not the host's token. */
  ghost predicate Apart(w: World) {
    Separated(w) && forall p :: p in w.adopted ==> !IsAnchor(w, p.1)
  }

  lemma CoAdoptKeepsApartIff(w: World, c: string)
    requires c != ""
    ensures Apart(Apply(w, CoAdopt(Ambient, c))) <==> HeldNowhere(w, c) && NeverInstalled(w, c)
  {
    CoAdoptSeparatesIff(w, c);
    assert forall x :: IsAnchor(Apply(w, CoAdopt(Ambient, c)), x) <==> x == c;
  }

  lemma StepKeepsApartIff(w: World, step: Step)
    requires Apart(w) && Enabled(w, step)
    ensures Apart(Apply(w, step)) <==> Foreign(w, step)
  {
    if !step.CoAdopt? {
      OthersKeepSeparation(w, step);
    } else if step.into.Ambient? && step.credential != "" {
      CoAdoptKeepsApartIff(w, step.credential);
    }
  }

  /** Whom an identity's credential should speak as: the identity while it is the one on
      record, nobody once it is not. */
  function OwnVoice(w: World, id: string, c: string): set<Principal> {
    if id in w.record && w.record[id] == c then {Consumer(id)} else {}
  }

  /** Identity separation: no isolated store holds the host's token, and whatever was ever
      installed for an identity speaks as that identity alone, and as nobody when superseded. */
  ghost predicate IdentitiesSeparate(w: World) {
    Separated(w) && forall p :: p in w.adopted ==> SpeaksAs(w, p.1) == OwnVoice(w, p.0, p.1)
  }

  lemma CredentialSpeaksAsItsIdentity(w: World, id: string, c: string)
    requires Safe(w) && (id, c) in w.adopted
    ensures SpeaksAs(w, c) == OwnVoice(w, id, c) + if IsAnchor(w, c) then {Host} else {}
  {
    forall other | other in w.record && w.record[other] == c ensures other == id {
      assert (other, c) in w.accepted && (id, c) in w.accepted;
    }
  }

  lemma SeparateIffApart(w: World)
    requires Safe(w)
    ensures IdentitiesSeparate(w) <==> Apart(w)
  {
    forall p | p in w.adopted ensures SpeaksAs(w, p.1) == OwnVoice(w, p.0, p.1) <==> !IsAnchor(w, p.1) {
      assert (p.0, p.1) == p;
      CredentialSpeaksAsItsIdentity(w, p.0, p.1);
      assert Host !in OwnVoice(w, p.0, p.1);
    }
  }

  // a property, and a condition on the steps, at every point of a run

  ghost predicate AlwaysSeparated(w: World, steps: seq<Step>)
    requires IsRun(w, steps)
    decreases |steps|
  {
    Separated(w) && (steps == [] || AlwaysSeparated(Apply(w, steps[0]), steps[1..]))
  }

  ghost predicate AlwaysUnheld(w: World, steps: seq<Step>)
    requires IsRun(w, steps)
    decreases |steps|
  {
    steps == [] || (Unheld(w, steps[0]) && AlwaysUnheld(Apply(w, steps[0]), steps[1..]))
  }

  ghost predicate AlwaysIdentities(w: World, steps: seq<Step>)
    requires IsRun(w, steps)
    decreases |steps|
  {
    IdentitiesSeparate(w) && (steps == [] || AlwaysIdentities(Apply(w, steps[0]), steps[1..]))
  }

  ghost predicate AlwaysForeign(w: World, steps: seq<Step>)
    requires IsRun(w, steps)
    decreases |steps|
  {
    steps == [] || (Foreign(w, steps[0]) && AlwaysForeign(Apply(w, steps[0]), steps[1..]))
  }

  /** A run keeps the host's token out of the isolated stores at every point exactly when
      every value co-adopted into the ring is unheld at that time. */
  lemma {:induction false} HostTokenStaysOutIff(w: World, steps: seq<Step>)
    requires IsRun(w, steps) && Separated(w)
    ensures AlwaysSeparated(w, steps) <==> AlwaysUnheld(w, steps)
    decreases |steps|
  {
    if steps != [] {
      StepSeparatesIff(w, steps[0]);
      if Unheld(w, steps[0]) {
        HostTokenStaysOutIff(Apply(w, steps[0]), steps[1..]);
      }
    }
  }

  lemma {:induction false} IdentitiesStayIff(w: World, steps: seq<Step>)
    requires IsRun(w, steps) && Safe(w) && Apart(w)
    ensures AlwaysIdentities(w, steps) <==> AlwaysForeign(w, steps)
    decreases |steps|
  {
    SeparateIffApart(w);
    if steps != [] {
      var next := Apply(w, steps[0]);
      StepIsSafe(w, steps[0]);
      StepKeepsApartIff(w, steps[0]);
      if Foreign(w, steps[0]) {
        IdentitiesStayIff(next, steps[1..]);
      } else {
        SeparateIffApart(next);
      }
    }
  }

  /** Identity separation holds at every point of a run, whatever it interleaves, exactly
      when every value co-adopted into the host's ring is foreign to it at that time. */
  lemma IdentitySeparationIff(ring: Store, vended: set<string>, steps: seq<Step>)
    requires IsRun(Initial(ring, vended), steps)
    ensures AlwaysIdentities(Initial(ring, vended), steps) <==> AlwaysForeign(Initial(ring, vended), steps)
    ensures AlwaysSeparated(Initial(ring, vended), steps) <==> AlwaysUnheld(Initial(ring, vended), steps)
  {
    IdentitiesStayIff(Initial(ring, vended), steps);
    HostTokenStaysOutIff(Initial(ring, vended), steps);
  }

  // ---------------------------------------------------------------------------
  // Building runs
  // ---------------------------------------------------------------------------

  lemma {:induction false} RunsJoin(w: World, first: seq<Step>, second: seq<Step>)
    requires IsRun(w, first) && IsRun(After(w, first), second)
    ensures IsRun(w, first + second) && After(w, first + second) == After(After(w, first), second)
    decreases |first|
  {
    if first == [] {
      assert first + second == second;
    } else {
      RunsJoin(Apply(w, first[0]), first[1..], second);
      assert (first + second)[1..] == first[1..] + second;
    }
  }

  lemma OneMore(w: World, steps: seq<Step>, step: Step) returns (longer: seq<Step>)
    requires IsRun(w, steps) && Enabled(After(w, steps), step)
    ensures longer == steps + [step]
    ensures IsRun(w, longer) && After(w, longer) == Apply(After(w, steps), step)
  {
    longer := steps + [step];
    var w' := After(w, steps);
    assert [step][0] == step && [step][1..] == [];
    assert IsRun(Apply(w', step), []) && After(Apply(w', step), []) == Apply(w', step);
    RunsJoin(w, steps, [step]);
  }

  /** An operation before its mint, on an identity with a store. */
  predicate Opening(w: World, i: nat) {
    && (At(w, i, Start) || At(w, i, Isolated))
    && w.ops[i].identity != "" && w.ops[i].identity in w.stores && w.ops[i].host == Some(Ambient)
  }

  lemma ReachesMinted(w: World, i: nat, secret: string) returns (steps: seq<Step>)
    requires Opening(w, i) && secret != "" && secret !in w.minted
    ensures IsRun(w, steps)
    ensures After(w, steps) ==
              w.(ops := w.ops[i := w.ops[i].(pc := Minted, credential := secret)],
                 minted := w.minted[secret := w.ops[i].identity])
  {
    steps := [];
    if At(w, i, Start) {
      steps := OneMore(w, steps, Own(i, Isolate));
    }
    steps := OneMore(w, steps, Own(i, Mint(secret)));
  }

  lemma ReachesToken(w: World, i: nat) returns (steps: seq<Step>)
    requires At(w, i, Minted) && w.ops[i].host == Some(Ambient) && GetToken(w.ring, CapabilityModule) != ""
    ensures IsRun(w, steps)
    ensures After(w, steps) ==
              w.(ops := w.ops[i := w.ops[i].(pc := HasToken, hostToken := GetToken(w.ring, CapabilityModule))])
  {
    steps := OneMore(w, [], Own(i, CheckHost));
    steps := OneMore(w, steps, Own(i, GetClient(true)));
    steps := OneMore(w, steps, Own(i, ReadToken));
  }

  /** The lines of an operation up to an accepted registration, from wherever its host speaks
      with the trusted channel's token. */
  lemma ReachesRegistered(w: World, i: nat, secret: string) returns (steps: seq<Step>)
    requires Opening(w, i) && secret != "" && secret !in w.minted && GetToken(w.ring, CapabilityModule) != ""
    ensures IsRun(w, steps)
    ensures
      var w', op, token := After(w, steps), w.ops[i], GetToken(w.ring, CapabilityModule);
      && w'.ops == w.ops[i := op.(pc := Registered, credential := secret, hostToken := token)]
      && w'.record == w.record[op.identity := secret]
      && w'.ring == w.ring && w'.stores == w.stores && w'.minted == w.minted[secret := op.identity]
      && w'.adopted == w.adopted
  {
    steps := ReachesMinted(w, i, secret);
    var more := ReachesToken(After(w, steps), i);
    RunsJoin(w, steps, more);
    steps := OneMore(w, steps + more, Own(i, InformCap(Recorded(true))));
  }

  /** The lines of an operation after its registration. */
  lemma Installs(w: World, i: nat) returns (steps: seq<Step>)
    requires At(w, i, Registered) && w.ops[i].identity in w.stores
    requires w.ops[i].credential != "" && !IsAnchor(w, w.ops[i].credential)
    ensures IsRun(w, steps)
    ensures
      var w', op := After(w, steps), w.ops[i];
      var kept := if op.kind == Reissue then map[] else w.stores[op.identity];
      && w'.ops == w.ops[i := op.(pc := Done)] && w'.ring == w.ring && w'.record == w.record
      && w'.stores == w.stores[op.identity := Adopted(kept, op.credential)]
      && w'.adopted == w.adopted + {(op.identity, op.credential)} && w'.minted == w.minted
  {
    steps := [];
    if w.ops[i].kind == Reissue {
      steps := OneMore(w, steps, Own(i, Reset));
    }
    steps := OneMore(w, steps, Own(i, AdoptFor));
  }

  // ---------------------------------------------------------------------------
  // The two ways co-adoption breaks identity separation, both reachable
  // ---------------------------------------------------------------------------

  /** A whole reissue of an isolated identity by the host. */
  lemma Reissued(w: World, id: string, secret: string) returns (steps: seq<Step>)
    requires id != "" && id in w.stores && GetToken(w.ring, CapabilityModule) != ""
    requires secret != "" && secret !in w.minted && !IsAnchor(w, secret)
    ensures IsRun(w, steps)
    ensures
      var w' := After(w, steps);
      && w'.ring == w.ring && w'.stores == w.stores[id := Adopted(map[], secret)]
      && w'.record == w.record[id := secret]
      && w'.adopted == w.adopted + {(id, secret)} && w'.minted == w.minted[secret := id]
  {
    var i := |w.ops|;
    steps := OneMore(w, [], Begin(Reissue, id, Some(Ambient)));
    var more := ReachesRegistered(After(w, steps), i, secret);
    RunsJoin(w, steps, more);
    steps := steps + more;
    more := Installs(After(w, steps), i);
    RunsJoin(w, steps, more);
    steps := steps + more;
  }

  /** The host's ring adopts a value an isolated store holds: the identity that holds it now
      speaks as the host. */
  lemma CoAdoptingAHeldCredential(id: string, secret: string, anchor: string) returns (steps: seq<Step>)
    requires id != "" && secret != "" && anchor != "" && secret != anchor
    ensures IsRun(Initial(map[CapabilityModule := anchor], {}), steps)
    ensures
      var w := After(Initial(map[CapabilityModule := anchor], {}), steps);
      !Separated(w) && id in w.stores && Host in SpeaksAs(w, GetToken(w.stores[id], CapabilityModule))
  {
    var w0 := Initial(map[CapabilityModule := anchor], {});
    steps := OneMore(w0, [], ForIdentity(id));
    var more := Reissued(After(w0, steps), id, secret);
    RunsJoin(w0, steps, more);
    steps := steps + more;
    var w := After(w0, steps);
    steps := OneMore(w0, steps, CoAdopt(Ambient, secret));
    assert w.stores[id][CapabilityModule] == secret && !HeldNowhere(w, secret);
    CoAdoptSeparatesIff(w, secret);
  }

  lemma Superseded(id: string, older: string, newer: string, anchor: string) returns (steps: seq<Step>)
    requires id != "" && older != "" && newer != "" && anchor != "" && older != newer && anchor !in {older, newer}
    ensures IsRun(Initial(map[CapabilityModule := anchor], {}), steps)
    ensures
      var w := After(Initial(map[CapabilityModule := anchor], {}), steps);
      && w.stores == map[id := Adopted(map[], newer)] && w.record == map[id := newer] && (id, older) in w.adopted
  {
    var w0 := Initial(map[CapabilityModule := anchor], {});
    steps := OneMore(w0, [], ForIdentity(id));
    var more := Reissued(After(w0, steps), id, older);
    RunsJoin(w0, steps, more);
    steps := steps + more;
    more := Reissued(After(w0, steps), id, newer);
    RunsJoin(w0, steps, more);
    steps := steps + more;
  }

  /** It adopts a superseded credential: no store holds it, so the host's token stays out of
      all of them, and still whoever kept that credential speaks as the host. */
  lemma CoAdoptingASupersededCredential(id: string, older: string, newer: string, anchor: string)
    returns (steps: seq<Step>)
    requires id != "" && older != "" && newer != "" && anchor != "" && older != newer && anchor !in {older, newer}
    ensures IsRun(Initial(map[CapabilityModule := anchor], {}), steps)
    ensures
      var w := After(Initial(map[CapabilityModule := anchor], {}), steps);
      && Separated(w) && (id, older) in w.adopted && id in w.record && w.record[id] == newer
      && SpeaksAs(w, older) == {Host}
  {
    var w0 := Initial(map[CapabilityModule := anchor], {});
    steps := Superseded(id, older, newer, anchor);
    var w := After(w0, steps);
    CoAdoptSeparatesIff(w, older);
    steps := OneMore(w0, steps, CoAdopt(Ambient, older));
  }
}
