/** Which way a token points. Outbound: what this module presents to a peer. Inbound: what a
    peer presents to this module. Both live in one map, inbound ones under a reserved
    prefix; a module has two such maps, the host image's and its own. */
module TokenDirection {
  import opened Tokens

  // ---------------------------------------------------------------------------
  // Assumed of TokenManager
  // ---------------------------------------------------------------------------

  type Store = Ring

  datatype Door = Outbound | Inbound

  /** saveToken uses the bare name, saveInboundToken the reserved prefix before it. */
  function KeyOf(prefix: string, door: Door, peer: string): string {
    if door == Inbound then prefix + peer else peer
  }

  function Look(prefix: string, s: Store, door: Door, peer: string): string { GetToken(s, KeyOf(prefix, door, peer)) }

  predicate Reserved(prefix: string, key: string) { prefix <= key }

  /** One token reaching a store; gentle writes leave a value that is already there. */
  datatype Write = Write(door: Door, peer: string, token: string, gentle: bool)

  function Put(prefix: string, s: Store, w: Write): Store {
    if w.gentle && Look(prefix, s, w.door, w.peer) != "" then s else s[KeyOf(prefix, w.door, w.peer) := w.token]
  }

  function PutAll(prefix: string, s: Store, ws: seq<Write>): Store {
    if ws == [] then s else Put(prefix, PutAll(prefix, s, ws[..|ws| - 1]), ws[|ws| - 1])
  }

  // ---------------------------------------------------------------------------
  // One write
  // ---------------------------------------------------------------------------

  /** An inbound write reaches an outbound lookup exactly when the name looked up spells the
      reserved key itself. */
  lemma InboundReachesOutboundIff(prefix: string, s: Store, caller: string, token: string, peer: string)
    requires token != Look(prefix, s, Outbound, peer)
    ensures
      var s' := Put(prefix, s, Write(Inbound, caller, token, false));
      Look(prefix, s', Outbound, peer) != Look(prefix, s, Outbound, peer) <==> peer == prefix + caller
  {
  }

  /** The names outbound writes use stay out of the reserved part. */
  predicate Plain(prefix: string, ws: seq<Write>) {
    forall w :: w in ws && w.door == Outbound ==> !Reserved(prefix, w.peer)
  }

  lemma KeysApart(prefix: string, d: Door, p: string, e: Door, q: string)
    requires d == Outbound ==> !Reserved(prefix, p)
    requires e == Outbound ==> !Reserved(prefix, q)
    ensures KeyOf(prefix, d, p) == KeyOf(prefix, e, q) <==> d == e && p == q
  {
    if d == e == Inbound && prefix + p == prefix + q {
      assert p == (prefix + p)[|prefix|..] == (prefix + q)[|prefix|..] == q;
    }
  }

  /** A write is seen by its own direction's lookups of its own peer, and by no other. */
  lemma LookAfterPut(prefix: string, s: Store, w: Write, door: Door, peer: string)
    requires w.door == Outbound ==> !Reserved(prefix, w.peer)
    requires door == Outbound ==> !Reserved(prefix, peer)
    ensures
      var was := Look(prefix, s, door, peer);
      Look(prefix, Put(prefix, s, w), door, peer) ==
        if w.door == door && w.peer == peer && !(w.gentle && was != "") then w.token else was
  {
    KeysApart(prefix, door, peer, w.door, w.peer);
  }

  // ---------------------------------------------------------------------------
  // Any run of writes
  // ---------------------------------------------------------------------------

  function Only(ws: seq<Write>, door: Door): seq<Write> {
    if ws == [] then []
    else Only(ws[..|ws| - 1], door) + if ws[|ws| - 1].door == door then [ws[|ws| - 1]] else []
  }

  /** Neither direction sees the other: what a lookup answers after a run is what it answers
      after that direction's own writes alone. */
  lemma {:induction false} DirectionsDoNotInterfere(prefix: string, s: Store, ws: seq<Write>, door: Door, peer: string)
    requires Plain(prefix, ws) && (door == Outbound ==> !Reserved(prefix, peer))
    ensures Look(prefix, PutAll(prefix, s, ws), door, peer)
            == Look(prefix, PutAll(prefix, s, Only(ws, door)), door, peer)
  {
    if ws != [] {
      var front, last := ws[..|ws| - 1], ws[|ws| - 1];
      assert Plain(prefix, front) && last in ws;
      DirectionsDoNotInterfere(prefix, s, front, door, peer);
      LookAfterPut(prefix, PutAll(prefix, s, front), last, door, peer);
      if last.door == door {
        var only := Only(ws, door);
        assert only[..|only| - 1] == Only(front, door);
        LookAfterPut(prefix, PutAll(prefix, s, Only(front, door)), last, door, peer);
      } else {
        assert Only(ws, door) == Only(front, door);
      }
    }
  }

  // ---------------------------------------------------------------------------
  // The two images of a module
  // ---------------------------------------------------------------------------

  /** What each operation of a run writes, to the host image and to the module's own. */
  datatype Op =
    | Inform(caller: string, token: string, hasApi: bool, taken: bool)  // cdylib informModuleToken
    | QtInform(caller: string, token: string, hasApi: bool)             // the wrapped QObject's
    | OnInit(authToken: string)
    | SeedAnchor(hostToken: string)
    | CacheHost(peer: string, token: string)        // a client keeps what requestModule gave it
    | CacheModule(peer: string, token: string)

  /** inbound: the protocol has an inbound door in the module's ABI (0.8 and later). */
  function HostWrites(op: Op): seq<Write> {
    match op
    case Inform(caller, token, hasApi, _) => if hasApi then [Write(Inbound, caller, token, false)] else []
    case QtInform(caller, token, hasApi) => if hasApi then [Write(Inbound, caller, token, false)] else []
    case SeedAnchor(hostToken) =>
      if hostToken == "" then []
      else [Write(Outbound, CORE, hostToken, true), Write(Outbound, CAPABILITY, hostToken, true)]
    case CacheHost(peer, token) => [Write(Outbound, peer, token, false)]
    case _ => []
  }

  function ModuleWrites(op: Op, inbound: bool): seq<Write> {
    match op
    case Inform(caller, token, _, taken) =>
      if taken then [Write(if inbound then Inbound else Outbound, caller, token, false)] else []
    case OnInit(authToken) =>
      if authToken == "" then []
      else [Write(Outbound, CORE, authToken, false), Write(Outbound, CAPABILITY, authToken, false)]
    case CacheModule(peer, token) => [Write(Outbound, peer, token, false)]
    case _ => []
  }

  datatype Image = HostImage | OwnImage

  function WritesOf(op: Op, image: Image, inbound: bool): seq<Write> {
    if image == HostImage then HostWrites(op) else ModuleWrites(op, inbound)
  }

  /** What a module's operations write to one of its images. */
  function Writes(ops: seq<Op>, image: Image, inbound: bool): seq<Write> {
    if ops == [] then []
    else Writes(ops[..|ops| - 1], image, inbound) + WritesOf(ops[|ops| - 1], image, inbound)
  }

  lemma {:induction false} PutAllJoin(prefix: string, s: Store, a: seq<Write>, b: seq<Write>)
    ensures PutAll(prefix, s, a + b) == PutAll(prefix, PutAll(prefix, s, a), b)
  {
    if b == [] {
      assert a + b == a;
    } else {
      assert (a + b)[..|a + b| - 1] == a + b[..|b| - 1];
      PutAllJoin(prefix, s, a, b[..|b| - 1]);
    }
  }

  lemma RunStep(prefix: string, s: Store, ops: seq<Op>, i: nat, image: Image, inbound: bool)
    requires i < |ops|
    ensures PutAll(prefix, s, Writes(ops[..i + 1], image, inbound))
            == PutAll(prefix, PutAll(prefix, s, Writes(ops[..i], image, inbound)), WritesOf(ops[i], image, inbound))
  {
    assert ops[..i + 1][..i] == ops[..i];
    PutAllJoin(prefix, s, Writes(ops[..i], image, inbound), WritesOf(ops[i], image, inbound));
  }

  class Module {
    const prefix: string
    const inbound: bool
    var host: Store
    var own: Store

    constructor (prefix: string, inbound: bool)
      ensures host == own == map[] && this.prefix == prefix && this.inbound == inbound
    {
      this.prefix, this.inbound := prefix, inbound;
      host, own := map[], map[];
    }

    /** LogosProviderBase::informModuleToken, and QtProviderObject's */
    method InformHost(caller: string, token: string, hasApi: bool) returns (ok: bool)
      modifies this`host
      ensures ok == hasApi
      ensures host == PutAll(prefix, old(host), HostWrites(QtInform(caller, token, hasApi)))
    {
      if !hasApi {
        return false;
      }
      host := host[prefix + caller := token];
      var write := Write(Inbound, caller, token, false);
      assert [write][..0] == [];
      assert host == Put(prefix, old(host), write);
      return true;
    }

    /** The emitted informModuleToken: both images, whatever the first one answered. */
    method InformModuleToken(caller: string, token: string, hasApi: bool, taken: bool) returns (ok: bool)
      modifies this
      ensures ok <==> hasApi && taken
      ensures host == PutAll(prefix, old(host), HostWrites(Inform(caller, token, hasApi, taken)))
      ensures own == PutAll(prefix, old(own), ModuleWrites(Inform(caller, token, hasApi, taken), inbound))
    {
      var hostOk := InformHost(caller, token, hasApi);
      var write := Write(if inbound then Inbound else Outbound, caller, token, false);
      assert [write][..0] == [];
      if taken {
        if inbound {
          own := own[prefix + caller := token];
        } else {
          own := own[caller := token];
        }
        assert own == Put(prefix, old(own), write);
      }
      return hostOk && taken;
    }

    /** The token part of the emitted onInit. */
    method OnInit(authToken: string)
      modifies this`own
      ensures own == PutAll(prefix, old(own), ModuleWrites(Op.OnInit(authToken), inbound))
      ensures authToken != "" ==> GetToken(own, CORE) == GetToken(own, CAPABILITY) == authToken
      ensures authToken == "" ==> own == old(own)
    {
      if authToken != "" {
        own := own[CORE := authToken];
        own := own[CAPABILITY := authToken];
        ghost var first := Write(Outbound, CORE, authToken, false);
        ghost var second := Write(Outbound, CAPABILITY, authToken, false);
        assert [first, second][..1] == [first] && [first][..0] == [];
        assert ModuleWrites(Op.OnInit(authToken), inbound) == [first, second];
        assert PutAll(prefix, old(own), [first]) == Put(prefix, old(own), first);
        assert own == Put(prefix, Put(prefix, old(own), first), second);
      }
    }

    /** seedHandshakeTrustAnchor: the loop over the two keys, keeping what is there. */
    method SeedAnchor(hostToken: string)
      modifies this`host
      ensures host == PutAll(prefix, old(host), HostWrites(Op.SeedAnchor(hostToken)))
    {
      host := SeedAnchors(host, hostToken);
      if hostToken != "" {
        ghost var first, second := Write(Outbound, CORE, hostToken, true), Write(Outbound, CAPABILITY, hostToken, true);
        assert [first, second][..1] == [first] && [first][..0] == [];
        assert PutAll(prefix, old(host), [first]) == Put(prefix, old(host), first);
      }
    }

    method Perform(op: Op)
      modifies this
      ensures host == PutAll(prefix, old(host), HostWrites(op))
      ensures own == PutAll(prefix, old(own), ModuleWrites(op, inbound))
    {
      match op
      case Inform(caller, token, hasApi, taken) => var _ := InformModuleToken(caller, token, hasApi, taken);
      case QtInform(caller, token, hasApi) => var _ := InformHost(caller, token, hasApi);
      case OnInit(authToken) => OnInit(authToken);
      case SeedAnchor(hostToken) => SeedAnchor(hostToken);
      case CacheHost(peer, token) =>
        assert [Write(Outbound, peer, token, false)][..0] == [];
        host := host[peer := token];
      case CacheModule(peer, token) =>
        assert [Write(Outbound, peer, token, false)][..0] == [];
        own := own[peer := token];
    }

    /** Any life of a module, in both images. */
    method Run(ops: seq<Op>)
      modifies this
      ensures host == PutAll(prefix, old(host), Writes(ops, HostImage, inbound))
      ensures own == PutAll(prefix, old(own), Writes(ops, OwnImage, inbound))
    {
      var i := 0;
      while i < |ops|
        invariant 0 <= i <= |ops|
        invariant host == PutAll(prefix, old(host), Writes(ops[..i], HostImage, inbound))
        invariant own == PutAll(prefix, old(own), Writes(ops[..i], OwnImage, inbound))
      {
        Perform(ops[i]);
        RunStep(prefix, old(host), ops, i, HostImage, inbound);
        RunStep(prefix, old(own), ops, i, OwnImage, inbound);
        i := i + 1;
      }
      assert ops[..i] == ops;
    }
  }

  // ---------------------------------------------------------------------------
  // Many modules
  // ---------------------------------------------------------------------------

  /** How a grant travels. The caller's client keeps the token in the host image, in its own
      image, or both: a wrapped QObject calls through the host's LogosAPI, a cdylib through
      its own stack. The callee is told as a wrapped QObject or as a cdylib; the host image
      takes it if there is an API object, its own image if its side accepts. */
  datatype Route = Route(host: bool, own: bool, wrapped: bool, hasApi: bool, taken: bool)

  /** capability_module grants caller a token for callee: the caller keeps it for its own
      calls, the callee is told what the caller will present. Or a module starts, and both
      its images are seeded with the host's token. */
  datatype Event =
    | Grant(caller: string, callee: string, token: string, route: Route)
    | Start(started: string, hostToken: string)

  /** What an event is to module m, in order. */
  function OpsAt(e: Event, m: string): seq<Op> {
    match e
    case Grant(caller, callee, token, route) => KeptOps(e, m) + ToldOps(e, m)
    case Start(started, hostToken) => if started == m then [SeedAnchor(hostToken), OnInit(hostToken)] else []
  }

  function KeptOps(e: Event, m: string): seq<Op>
    requires e.Grant?
  {
    (if e.caller == m && e.route.host then [CacheHost(e.callee, e.token)] else [])
    + (if e.caller == m && e.route.own then [CacheModule(e.callee, e.token)] else [])
  }

  function ToldOps(e: Event, m: string): seq<Op>
    requires e.Grant?
  {
    if e.callee != m then []
    else if e.route.wrapped then [QtInform(e.caller, e.token, e.route.hasApi)]
    else [Inform(e.caller, e.token, e.route.hasApi, e.route.taken)]
  }

  function OpsOf(events: seq<Event>, m: string): seq<Op> {
    if events == [] then [] else OpsOf(events[..|events| - 1], m) + OpsAt(events[|events| - 1], m)
  }

  /** An image of module m after a run. */
  function After(prefix: string, inbound: bool, events: seq<Event>, m: string, image: Image): Store {
    PutAll(prefix, map[], Writes(OpsOf(events, m), image, inbound))
  }

  // What should be there, said of the events alone

  /** The event hands m, in this image, a token to present to peer. */
  predicate Gives(e: Event, m: string, image: Image, peer: string) {
    e.Grant? && e.caller == m && e.callee == peer && if image == HostImage then e.route.host else e.route.own
  }

  /** The event tells m, in this image, what peer will present. */
  predicate Tells(e: Event, m: string, image: Image, peer: string) {
    && e.Grant? && e.callee == m && e.caller == peer
    && if image == HostImage then e.route.hasApi else !e.route.wrapped && e.route.taken
  }

  /** The event concerns this direction: inbound what m is told, outbound what it is given,
      and in its own image, without an inbound door, what it is told as well. */
  predicate Concerns(e: Event, m: string, image: Image, door: Door, peer: string, inbound: bool) {
    if door == Inbound then Tells(e, m, image, peer) && (image == HostImage || inbound)
    else Gives(e, m, image, peer) || (image == OwnImage && !inbound && Tells(e, m, image, peer))
  }

  /** The token of the last such event, if any. */
  function Latest(events: seq<Event>, m: string, image: Image, door: Door, peer: string, inbound: bool): string {
    if events == [] then ""
    else
      var front, e := events[..|events| - 1], events[|events| - 1];
      if Concerns(e, m, image, door, peer, inbound) then e.token else Latest(front, m, image, door, peer, inbound)
  }

  /** Peers' names and the role labels stay out of the reserved part. */
  ghost predicate PlainNames(prefix: string, events: seq<Event>) {
    && !Reserved(prefix, CORE) && !Reserved(prefix, CAPABILITY)
    && forall e :: e in events && e.Grant? ==> !Reserved(prefix, e.callee) && !Reserved(prefix, e.caller)
  }

  lemma {:induction false} WritesJoin(ops: seq<Op>, more: seq<Op>, image: Image, inbound: bool)
    ensures Writes(ops + more, image, inbound) == Writes(ops, image, inbound) + Writes(more, image, inbound)
  {
    if more == [] {
      assert ops + more == ops;
    } else {
      var front, last := more[..|more| - 1], WritesOf(more[|more| - 1], image, inbound);
      assert (ops + more)[..|ops + more| - 1] == ops + front;
      WritesJoin(ops, front, image, inbound);
      var x, y := Writes(ops, image, inbound), Writes(front, image, inbound);
      assert (x + y) + last == x + (y + last);
    }
  }

  lemma OneOp(op: Op, image: Image, inbound: bool)
    ensures Writes([op], image, inbound) == WritesOf(op, image, inbound)
  {
    assert [op][..0] == [];
    assert Writes([op][..0], image, inbound) == [];
    assert [] + WritesOf(op, image, inbound) == WritesOf(op, image, inbound);
  }

  /** A lookup after some of a module's operations, one operation at a time. */
  lemma OpsApart(prefix: string, s: Store, ops: seq<Op>, more: seq<Op>, image: Image, inbound: bool)
    ensures PutAll(prefix, s, Writes(ops + more, image, inbound))
            == PutAll(prefix, PutAll(prefix, s, Writes(ops, image, inbound)), Writes(more, image, inbound))
  {
    WritesJoin(ops, more, image, inbound);
    PutAllJoin(prefix, s, Writes(ops, image, inbound), Writes(more, image, inbound));
  }

  lemma OneWrite(prefix: string, s: Store, w: Write, door: Door, peer: string)
    requires w.door == Outbound ==> !Reserved(prefix, w.peer)
    requires door == Outbound ==> !Reserved(prefix, peer)
    ensures
      var was := Look(prefix, s, door, peer);
      Look(prefix, PutAll(prefix, s, [w]), door, peer) ==
        if w.door == door && w.peer == peer && !(w.gentle && was != "") then w.token else was
  {
    assert [w][..0] == [];
    LookAfterPut(prefix, s, w, door, peer);
  }

  lemma KeptWrites(e: Event, m: string, image: Image, inbound: bool)
    requires e.Grant?
    ensures Writes(KeptOps(e, m), image, inbound)
            == if Gives(e, m, image, e.callee) then [Write(Outbound, e.callee, e.token, false)] else []
  {
    var host := if e.caller == m && e.route.host then [CacheHost(e.callee, e.token)] else [];
    var own := if e.caller == m && e.route.own then [CacheModule(e.callee, e.token)] else [];
    OneOp(CacheHost(e.callee, e.token), image, inbound);
    OneOp(CacheModule(e.callee, e.token), image, inbound);
    WritesJoin(host, own, image, inbound);
  }

  /** What the caller keeps is what it is given, and reaches no inbound lookup. */
  lemma KeptLook(prefix: string, s: Store, e: Event, m: string, image: Image, door: Door, peer: string, inbound: bool)
    requires e.Grant? && !Reserved(prefix, e.callee) && (door == Outbound ==> !Reserved(prefix, peer))
    ensures Look(prefix, PutAll(prefix, s, Writes(KeptOps(e, m), image, inbound)), door, peer)
            == if door == Outbound && Gives(e, m, image, peer) then e.token else Look(prefix, s, door, peer)
  {
    KeptWrites(e, m, image, inbound);
    OneWrite(prefix, s, Write(Outbound, e.callee, e.token, false), door, peer);
  }

  /** What the callee is told. */
  lemma ToldLook(prefix: string, s: Store, e: Event, m: string, image: Image, door: Door, peer: string, inbound: bool)
    requires e.Grant? && !Reserved(prefix, e.caller) && (door == Outbound ==> !Reserved(prefix, peer))
    ensures
      var reached := if image == HostImage || inbound then Inbound else Outbound;
      Look(prefix, PutAll(prefix, s, Writes(ToldOps(e, m), image, inbound)), door, peer)
      == if door == reached && Tells(e, m, image, peer) then e.token else Look(prefix, s, door, peer)
  {
    OneOp(QtInform(e.caller, e.token, e.route.hasApi), image, inbound);
    OneOp(Inform(e.caller, e.token, e.route.hasApi, e.route.taken), image, inbound);
    var reached := if image == HostImage || inbound then Inbound else Outbound;
    OneWrite(prefix, s, Write(reached, e.caller, e.token, false), door, peer);
  }

  lemma StartWrites(token: string, image: Image, inbound: bool)
    ensures
      var gentle := image == HostImage;
      Writes([SeedAnchor(token), OnInit(token)], image, inbound) ==
        if token == "" then []
        else [Write(Outbound, CORE, token, gentle), Write(Outbound, CAPABILITY, token, gentle)]
  {
    OneOp(SeedAnchor(token), image, inbound);
    OneOp(OnInit(token), image, inbound);
    WritesJoin([SeedAnchor(token)], [OnInit(token)], image, inbound);
  }

  lemma TwoWrites(prefix: string, s: Store, v: Write, w: Write, door: Door, peer: string)
    requires v.door == w.door == Outbound && !Reserved(prefix, v.peer) && !Reserved(prefix, w.peer)
    requires door == Outbound ==> !Reserved(prefix, peer) && peer != v.peer && peer != w.peer
    ensures Look(prefix, PutAll(prefix, s, [v, w]), door, peer) == Look(prefix, s, door, peer)
  {
    PutAllJoin(prefix, s, [v], [w]);
    assert [v] + [w] == [v, w];
    OneWrite(prefix, s, v, door, peer);
    OneWrite(prefix, PutAll(prefix, s, [v]), w, door, peer);
  }

  /** Seeding both images at a start touches no inbound entry and no peer's outbound one. */
  lemma StartLook(prefix: string, s: Store, token: string, image: Image, door: Door, peer: string, inbound: bool)
    requires !Reserved(prefix, CORE) && !Reserved(prefix, CAPABILITY)
    requires door == Outbound ==> !Reserved(prefix, peer) && peer != CORE && peer != CAPABILITY
    ensures Look(prefix, PutAll(prefix, s, Writes([SeedAnchor(token), OnInit(token)], image, inbound)), door, peer)
            == Look(prefix, s, door, peer)
  {
    StartWrites(token, image, inbound);
    var gentle := image == HostImage;
    TwoWrites(prefix, s, Write(Outbound, CORE, token, gentle), Write(Outbound, CAPABILITY, token, gentle), door, peer);
  }

  /** What seeding gives under the two anchors: in the module's own image the host's token, in
      the host image the host's token unless something was there. */
  lemma AnchorWrites(prefix: string, s: Store, token: string, gentle: bool)
    requires !Reserved(prefix, CORE) && !Reserved(prefix, CAPABILITY)
    ensures
      var s' := PutAll(prefix, s, [Write(Outbound, CORE, token, gentle), Write(Outbound, CAPABILITY, token, gentle)]);
      && GetToken(s', CORE) == (if gentle && GetToken(s, CORE) != "" then GetToken(s, CORE) else token)
      && GetToken(s', CAPABILITY) == if gentle && GetToken(s, CAPABILITY) != "" then GetToken(s, CAPABILITY) else token
  {
    var v, w := Write(Outbound, CORE, token, gentle), Write(Outbound, CAPABILITY, token, gentle);
    assert [v, w][..1] == [v] && [v][..0] == [];
    assert PutAll(prefix, s, [v]) == Put(prefix, s, v);
    assert PutAll(prefix, s, [v, w]) == Put(prefix, Put(prefix, s, v), w);
  }

  /** A start seeds both images, whatever happened before. */
  lemma StartSeedsBothImages(prefix: string, inbound: bool, events: seq<Event>, m: string, token: string)
    requires token != "" && !Reserved(prefix, CORE) && !Reserved(prefix, CAPABILITY)
    ensures
      var own := After(prefix, inbound, events + [Start(m, token)], m, OwnImage);
      GetToken(own, CORE) == token && GetToken(own, CAPABILITY) == token
    ensures
      var was := After(prefix, inbound, events, m, HostImage);
      var host := After(prefix, inbound, events + [Start(m, token)], m, HostImage);
      && GetToken(host, CORE) == (if GetToken(was, CORE) == "" then token else GetToken(was, CORE))
      && GetToken(host, CAPABILITY) == if GetToken(was, CAPABILITY) == "" then token else GetToken(was, CAPABILITY)
  {
    var e := Start(m, token);
    assert (events + [e])[..|events|] == events;
    OpsApart(prefix, map[], OpsOf(events, m), OpsAt(e, m), OwnImage, inbound);
    OpsApart(prefix, map[], OpsOf(events, m), OpsAt(e, m), HostImage, inbound);
    StartWrites(token, OwnImage, inbound);
    StartWrites(token, HostImage, inbound);
    AnchorWrites(prefix, After(prefix, inbound, events, m, OwnImage), token, false);
    AnchorWrites(prefix, After(prefix, inbound, events, m, HostImage), token, true);
  }

  lemma EventLook(prefix: string, s: Store, e: Event, m: string, image: Image, door: Door, peer: string, inbound: bool)
    requires PlainNames(prefix, [e])
    requires door == Outbound ==> !Reserved(prefix, peer) && peer != CORE && peer != CAPABILITY
    ensures Look(prefix, PutAll(prefix, s, Writes(OpsAt(e, m), image, inbound)), door, peer)
            == if Concerns(e, m, image, door, peer, inbound) then e.token else Look(prefix, s, door, peer)
  {
    if e.Start? {
      StartLook(prefix, s, e.hostToken, image, door, peer, inbound);
    } else {
      assert e in [e];
      var kept := PutAll(prefix, s, Writes(KeptOps(e, m), image, inbound));
      OpsApart(prefix, s, KeptOps(e, m), ToldOps(e, m), image, inbound);
      KeptLook(prefix, s, e, m, image, door, peer, inbound);
      ToldLook(prefix, kept, e, m, image, door, peer, inbound);
    }
  }

  /** After any run of grants and starts, over any routes, every lookup of a peer, in either
      image and either direction, answers the last event that concerns it. */
  lemma {:induction false} LooksUpTheLatest(prefix: string, events: seq<Event>, m: string, image: Image, door: Door,
                                            peer: string, inbound: bool)
    requires PlainNames(prefix, events)
    requires door == Outbound ==> !Reserved(prefix, peer) && peer != CORE && peer != CAPABILITY
    ensures Look(prefix, After(prefix, inbound, events, m, image), door, peer)
            == Latest(events, m, image, door, peer, inbound)
  {
    if events != [] {
      var front, e := events[..|events| - 1], events[|events| - 1];
      assert e in events && [e][0] == e;
      LooksUpTheLatest(prefix, front, m, image, door, peer, inbound);
      OpsApart(prefix, map[], OpsOf(front, m), OpsAt(e, m), image, inbound);
      EventLook(prefix, After(prefix, inbound, front, m, image), e, m, image, door, peer, inbound);
    }
  }

  // ---------------------------------------------------------------------------
  // Who may call whom
  // ---------------------------------------------------------------------------

  /** What m's authorization, which scans the host image, accepts from a caller. */
  function Accepts(prefix: string, inbound: bool, events: seq<Event>, m: string, caller: string): string {
    Look(prefix, After(prefix, inbound, events, m, HostImage), Inbound, caller)
  }

  /** What m presents when it calls a peer from this image. */
  function Presents(prefix: string, inbound: bool, events: seq<Event>, m: string, image: Image, callee: string): string
  {
    Look(prefix, After(prefix, inbound, events, m, image), Outbound, callee)
  }

  /** The last token granted to caller for callee among the events that pass. */
  function Granted(events: seq<Event>, caller: string, callee: string, passes: Event -> bool): string {
    if events == [] then ""
    else
      var front, e := events[..|events| - 1], events[|events| - 1];
      if e.Grant? && e.caller == caller && e.callee == callee && passes(e) then e.token
      else Granted(front, caller, callee, passes)
  }

  /** A module accepts from a caller exactly what was last granted to that caller for it and
      reached it, wherever callers keep their own tokens: a grant the other way round, kept
      in the very image that is scanned, gives the peer nothing. */
  lemma AcceptsWhatWasGranted(prefix: string, inbound: bool, events: seq<Event>, m: string, caller: string)
    requires PlainNames(prefix, events)
    ensures Accepts(prefix, inbound, events, m, caller)
            == Granted(events, caller, m, (e: Event) => e.Grant? && e.route.hasApi)
  {
    LooksUpTheLatest(prefix, events, m, HostImage, Inbound, caller, inbound);
    LatestInbound(events, m, caller, inbound);
  }

  lemma {:induction false} LatestInbound(events: seq<Event>, m: string, caller: string, inbound: bool)
    ensures Latest(events, m, HostImage, Inbound, caller, inbound)
            == Granted(events, caller, m, (e: Event) => e.Grant? && e.route.hasApi)
  {
    if events != [] {
      LatestInbound(events[..|events| - 1], m, caller, inbound);
    }
  }

  predicate KeptIn(e: Event, image: Image) { e.Grant? && if image == HostImage then e.route.host else e.route.own }

  /** A module presents to a peer exactly what was last granted to it and kept in the image
      it calls from: with an inbound door, being called by a peer leaves it nothing to
      present to that peer. In the host image the door plays no part. */
  lemma PresentsWhatWasGranted(prefix: string, inbound: bool, events: seq<Event>, m: string, image: Image,
                               callee: string)
    requires PlainNames(prefix, events) && !Reserved(prefix, callee) && callee != CORE && callee != CAPABILITY
    requires image == HostImage || inbound
    ensures Presents(prefix, inbound, events, m, image, callee)
            == Granted(events, m, callee, (e: Event) => KeptIn(e, image))
  {
    LooksUpTheLatest(prefix, events, m, image, Outbound, callee, inbound);
    LatestOutbound(events, m, image, callee, inbound);
  }

  lemma {:induction false} LatestOutbound(events: seq<Event>, m: string, image: Image, callee: string, inbound: bool)
    requires image == HostImage || inbound
    ensures Latest(events, m, image, Outbound, callee, inbound)
            == Granted(events, m, callee, (e: Event) => KeptIn(e, image))
  {
    if events != [] {
      LatestOutbound(events[..|events| - 1], m, image, callee, inbound);
    }
  }

  lemma OnlyEntry(prefix: string, w: Write)
    requires !w.gentle
    ensures PutAll(prefix, map[], [w]) == map[KeyOf(prefix, w.door, w.peer) := w.token]
  {
    assert [w][..0] == [];
  }

  lemma SpelledOutIff(prefix: string, name: string)
    ensures prefix + name == name <==> prefix == ""
  {
    assert |prefix + name| == |prefix| + |name|;
  }

  /** The other direction depends on the reserved prefix: a grant that the caller keeps in its
      host image lets the callee call back with the same token exactly when inbound and
      outbound entries share their keys. */
  lemma GrantAuthorizesBackIff(prefix: string, inbound: bool, caller: string, callee: string, token: string,
                               route: Route)
    requires token != "" && caller != callee && route.host
    ensures Accepts(prefix, inbound, [Grant(caller, callee, token, route)], caller, callee) == token <==> prefix == ""
  {
    var e := Grant(caller, callee, token, route);
    assert [e][..0] == [] && ToldOps(e, caller) == [];
    assert OpsOf([e], caller) == KeptOps(e, caller);
    KeptWrites(e, caller, HostImage, inbound);
    var w := Write(Outbound, callee, token, false);
    OnlyEntry(prefix, w);
    SpelledOutIff(prefix, callee);
  }

  /** And on the inbound door of the module's own image: one grant makes a cdylib callee
      present the caller's token back to it exactly when there is none. */
  lemma OneGrantPointsBackIff(prefix: string, inbound: bool, caller: string, callee: string, token: string,
                              route: Route)
    requires PlainNames(prefix, [Grant(caller, callee, token, route)])
    requires token != "" && caller != callee && caller != CORE && caller != CAPABILITY
    requires !route.wrapped && route.taken
    ensures Presents(prefix, inbound, [Grant(caller, callee, token, route)], callee, OwnImage, caller) == token
            <==> !inbound
  {
    var e := Grant(caller, callee, token, route);
    assert e in [e] && [e][..0] == [];
    LooksUpTheLatest(prefix, [e], callee, OwnImage, Outbound, caller, inbound);
  }
}
