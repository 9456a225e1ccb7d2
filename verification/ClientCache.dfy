/** LogosAPI::getClient: a hash table under an equality that depends on the mode, whose
    entries freeze a setting when they are made. */
module ClientCache {
  import opened Options

  datatype Mode = Remote | Local | Mock

  /** LogosTransportConfig, with the fields its equality and its hash go over. */
  datatype Transport = Transport(protocol: int, host: string, port: int, caFile: string, certFile: string,
                                 keyFile: string, verifyPeer: bool, codec: int)

  datatype Key = Key(target: string, mode: Mode, transport: Transport)

  /** operator== on cache keys */
  predicate Same(a: Key, b: Key) {
    if a.target != b.target then false
    else if a.mode != b.mode then false
    else if a.mode == Remote then a.transport == b.transport
    else true
  }

  /** What a connection depends on: the transport only in Remote mode. */
  datatype Canonical = Canonical(target: string, mode: Mode, transport: Option<Transport>)

  function Canon(k: Key): Canonical {
    Canonical(k.target, k.mode, if k.mode == Remote then Some(k.transport) else None)
  }

  lemma SameIffCanonical(a: Key, b: Key)
    ensures Same(a, b) <==> Canon(a) == Canon(b)
  {
  }

  lemma SameIsAnEquivalence(a: Key, b: Key, c: Key)
    ensures Same(a, a)
    ensures Same(a, b) ==> Same(b, a)
    ensures Same(a, b) && Same(b, c) ==> Same(a, c)
  {
  }

  /** Qt's and the library's hash functions, whatever they are: one per field type, and the
      mixing step of qHashMulti. */
  datatype Hashing = Hashing(text: string -> nat, number: int -> nat, flag: bool -> nat, mix: (nat, nat) -> nat)

  /** qHashMulti: the fields' hashes mixed into the seed, in order. */
  function Mixed(h: Hashing, seed: nat, fields: seq<nat>): nat
    decreases |fields|
  {
    if fields == [] then seed else Mixed(h, h.mix(seed, fields[0]), fields[1..])
  }

  function ModeNumber(mode: Mode): int {
    match mode
    case Remote => 0
    case Local => 1
    case Mock => 2
  }

  /** qHash of a transport */
  function TransportHash(h: Hashing, t: Transport, seed: nat): nat {
    Mixed(h, seed, [h.number(t.protocol), h.text(t.host), h.number(t.port), h.text(t.caFile), h.text(t.certFile),
                    h.text(t.keyFile), h.flag(t.verifyPeer), h.number(t.codec)])
  }

  /** qHash of a cache key */
  function KeyHash(h: Hashing, k: Key, seed: nat): nat {
    if k.mode == Remote then
      Mixed(h, seed, [h.text(k.target), h.number(ModeNumber(k.mode)), TransportHash(h, k.transport, 0)])
    else
      Mixed(h, seed, [h.text(k.target), h.number(ModeNumber(k.mode))])
  }

  /** What a hash table needs of its key type. */
  lemma SameKeysHashEqually(h: Hashing, a: Key, b: Key, seed: nat)
    requires Same(a, b)
    ensures KeyHash(h, a, seed) == KeyHash(h, b, seed)
  {
  }

  // ---------------------------------------------------------------------------
  // The cache
  // ---------------------------------------------------------------------------

  /** A LogosAPIClient: which object it is, and what it was constructed with. */
  datatype Client = Client(serial: nat, target: string, origin: string, transport: Transport, capability: Transport)

  datatype Entry = Entry(key: Key, client: Client)

  type Contents = map<Canonical, Client>

  /** Process-wide and per-object settings a lookup reads. */
  datatype Settings = Settings(mode: Mode, standard: Transport, override: Option<Transport>)

  /** The transport a new client dials capability_module on. */
  function CapabilityTransport(s: Settings): Transport {
    if s.override.Some? then s.override.value else s.standard
  }

  function KeyFor(s: Settings, target: string, transport: Transport): Key { Key(target, s.mode, transport) }

  /** The reference: a plain map over canonical keys, filled on first use. */
  function Cached(m: Contents, name: string, s: Settings, target: string, transport: Transport): (m': Contents)
    ensures Canon(KeyFor(s, target, transport)) in m'
  {
    var c := Canon(KeyFor(s, target, transport));
    if c in m then m else m[c := Client(|m|, target, name, transport, CapabilityTransport(s))]
  }

  /** The entries whose keys hash alike; a QHash compares only those with ==. */
  type Groups = map<nat, seq<Entry>>

  function Group(groups: Groups, h: nat): seq<Entry> { if h in groups then groups[h] else [] }

  predicate Listed(group: seq<Entry>, k: Key) { exists i :: 0 <= i < |group| && Same(group[i].key, k) }

  ghost predicate EntryOk(h: Hashing, seed: nat, hash: nat, e: Entry, contents: Contents) {
    KeyHash(h, e.key, seed) == hash && Canon(e.key) in contents && contents[Canon(e.key)] == e.client
  }

  /** The table is exactly the map: every entry sits in its key's group and is the map's,
      and every client of the map is found under any spelling of its key. */
  ghost predicate Represents(h: Hashing, seed: nat, groups: Groups, contents: Contents) {
    && (forall hash, i :: hash in groups && 0 <= i < |groups[hash]| ==>
          EntryOk(h, seed, hash, groups[hash][i], contents))
    && (forall k: Key {:trigger Listed(Group(groups, KeyHash(h, k, seed)), k)} ::
          Canon(k) in contents ==> Listed(Group(groups, KeyHash(h, k, seed)), k))
  }

  /** Clients are numbered by construction, one per canonical key. */
  ghost predicate Numbered(contents: Contents) {
    && (forall c :: c in contents ==> contents[c].serial < |contents|)
    && (forall c, d :: c in contents && d in contents && contents[c].serial == contents[d].serial ==> c == d)
  }

  lemma Inserting(h: Hashing, seed: nat, groups: Groups, contents: Contents, key: Key, client: Client)
    requires Represents(h, seed, groups, contents) && Canon(key) !in contents
    ensures
      var hash := KeyHash(h, key, seed);
      Represents(h, seed, groups[hash := Group(groups, hash) + [Entry(key, client)]], contents[Canon(key) := client])
  {
    var hash := KeyHash(h, key, seed);
    var groups' := groups[hash := Group(groups, hash) + [Entry(key, client)]];
    var contents' := contents[Canon(key) := client];
    forall x, i | x in groups' && 0 <= i < |groups'[x]| ensures EntryOk(h, seed, x, groups'[x][i], contents') {
      if x != hash || i < |Group(groups, hash)| {
        assert EntryOk(h, seed, x, groups[x][i], contents);
      }
    }
    forall k: Key | Canon(k) in contents' ensures Listed(Group(groups', KeyHash(h, k, seed)), k) {
      if Canon(k) == Canon(key) {
        SameIffCanonical(key, k);
        SameKeysHashEqually(h, key, k, seed);
        assert groups'[hash][|Group(groups, hash)|].key == key;
      } else {
        var group := Group(groups, KeyHash(h, k, seed));
        assert Listed(group, k);
        var i :| 0 <= i < |group| && Same(group[i].key, k);
        assert Group(groups', KeyHash(h, k, seed))[i] == group[i];
      }
    }
  }

  datatype Call =
    | Lookup(target: string, transport: Option<Transport>)
    | SetCapability(capability: Transport)
    | SetGlobals(mode: Mode, standard: Transport)

  function NextSettings(s: Settings, call: Call): Settings {
    match call
    case Lookup(_, _) => s
    case SetCapability(t) => s.(override := Some(t))
    case SetGlobals(mode, standard) => Settings(mode, standard, s.override)
  }

  /** The transport a lookup asks for. */
  function Asked(s: Settings, call: Call): Transport
    requires call.Lookup?
  {
    if call.transport.Some? then call.transport.value else s.standard
  }

  function KeyOf(s: Settings, call: Call): Canonical
    requires call.Lookup?
  {
    Canon(KeyFor(s, call.target, Asked(s, call)))
  }

  function NextContents(m: Contents, name: string, s: Settings, call: Call): (m': Contents)
    ensures call.Lookup? ==> KeyOf(s, call) in m'
  {
    if call.Lookup? then Cached(m, name, s, call.target, Asked(s, call)) else m
  }

  /** m_clients of one LogosAPI. */
  class LogosApi {
    const name: string
    const hashing: Hashing
    const seed: nat
    var settings: Settings
    var groups: Groups
    var constructed: nat
    ghost var contents: Contents

    ghost predicate Valid()
      reads this
    {
      Represents(hashing, seed, groups, contents) && Numbered(contents) && constructed == |contents|
    }

    constructor (name: string, hashing: Hashing, seed: nat, settings: Settings)
      ensures Valid() && contents == map[] && this.settings == settings && this.name == name
    {
      this.name, this.hashing, this.seed, this.settings := name, hashing, seed, settings;
      groups, constructed := map[], 0;
      contents := map[];
    }

    /** constFind: the first entry of the key's group whose key is equal. */
    method Find(key: Key) returns (found: Option<Client>)
      requires Valid()
      ensures found == if Canon(key) in contents then Some(contents[Canon(key)]) else None
    {
      var h := KeyHash(hashing, key, seed);
      var group := Group(groups, h);
      var i := 0;
      while i < |group|
        invariant 0 <= i <= |group|
        invariant forall j :: 0 <= j < i ==> !Same(group[j].key, key)
      {
        if Same(group[i].key, key) {
          assert EntryOk(hashing, seed, h, groups[h][i], contents);
          SameIffCanonical(group[i].key, key);
          return Some(group[i].client);
        }
        i := i + 1;
      }
      assert !Listed(group, key);
      return None;
    }

    /** getClient with an explicit transport: the client of the canonical key, constructed
        on the first lookup only, with the capability transport then in force. */
    method GetClient(target: string, transport: Transport) returns (client: Client)
      requires Valid()
      modifies this
      ensures Valid() && settings == old(settings)
      ensures contents == Cached(old(contents), name, settings, target, transport)
      ensures client == contents[Canon(KeyFor(settings, target, transport))]
    {
      var key := Key(target, settings.mode, transport);
      var found := Find(key);
      if found.Some? {
        return found.value;
      }
      var capability := if settings.override.Some? then settings.override.value else settings.standard;
      client := Client(constructed, target, name, transport, capability);
      constructed := constructed + 1;
      Inserting(hashing, seed, groups, contents, key, client);
      var h := KeyHash(hashing, key, seed);
      groups := groups[h := Group(groups, h) + [Entry(key, client)]];
      contents := contents[Canon(key) := client];
    }

    /** getClient without a transport: the process-wide default. */
    method GetClientDefault(target: string) returns (client: Client)
      requires Valid()
      modifies this
      ensures Valid() && settings == old(settings)
      ensures contents == Cached(old(contents), name, settings, target, settings.standard)
      ensures client == contents[Canon(KeyFor(settings, target, settings.standard))]
    {
      client := GetClient(target, settings.standard);
    }

    method SetCapabilityModuleTransport(transport: Transport)
      requires Valid()
      modifies this`settings
      ensures Valid() && settings == old(settings).(override := Some(transport)) && contents == old(contents)
    {
      settings := settings.(override := Some(transport));
    }

    /** LogosModeConfig and LogosTransportConfigGlobal, seen from this object. */
    method SetGlobals(mode: Mode, standard: Transport)
      requires Valid()
      modifies this`settings
      ensures Valid() && settings == Settings(mode, standard, old(settings).override) && contents == old(contents)
    {
      settings := Settings(mode, standard, settings.override);
    }

    method Perform(call: Call) returns (answer: Option<Client>)
      requires Valid()
      modifies this
      ensures Valid() && settings == NextSettings(old(settings), call)
      ensures contents == NextContents(old(contents), name, old(settings), call)
      ensures answer == if call.Lookup? then Some(contents[KeyOf(old(settings), call)]) else None
    {
      match call
      case Lookup(target, transport) =>
        var client;
        if transport.Some? {
          client := GetClient(target, transport.value);
        } else {
          client := GetClientDefault(target);
        }
        answer := Some(client);
      case SetCapability(t) =>
        SetCapabilityModuleTransport(t);
        answer := None;
      case SetGlobals(mode, standard) =>
        SetGlobals(mode, standard);
        answer := None;
    }
  }

  // ---------------------------------------------------------------------------
  // Whole runs
  // ---------------------------------------------------------------------------

  /** The settings before call i. */
  function SettingsAt(s: Settings, calls: seq<Call>, i: nat): Settings
    requires i <= |calls|
  {
    if i == 0 then s else NextSettings(SettingsAt(s, calls, i - 1), calls[i - 1])
  }

  /** What the plain map holds before call i of a fresh object's life. */
  function ContentsAt(name: string, s: Settings, calls: seq<Call>, i: nat): Contents
    requires i <= |calls|
  {
    if i == 0 then map[]
    else NextContents(ContentsAt(name, s, calls, i - 1), name, SettingsAt(s, calls, i - 1), calls[i - 1])
  }

  predicate IsLookup(calls: seq<Call>, i: nat) { i < |calls| && calls[i].Lookup? }

  function KeyAt(s: Settings, calls: seq<Call>, i: nat): Canonical
    requires IsLookup(calls, i)
  {
    KeyOf(SettingsAt(s, calls, i), calls[i])
  }

  function AnswerAt(name: string, s: Settings, calls: seq<Call>, i: nat): Client
    requires IsLookup(calls, i)
  {
    ContentsAt(name, s, calls, i + 1)[KeyAt(s, calls, i)]
  }

  lemma {:induction false} ContentsGrow(name: string, s: Settings, calls: seq<Call>, i: nat, j: nat)
    requires i <= j <= |calls|
    ensures
      var m, m' := ContentsAt(name, s, calls, i), ContentsAt(name, s, calls, j);
      forall c :: c in m ==> c in m' && m'[c] == m[c]
  {
    if i < j {
      ContentsGrow(name, s, calls, i, j - 1);
    }
  }

  lemma StillHeld(name: string, s: Settings, calls: seq<Call>, i: nat, j: nat)
    requires IsLookup(calls, i) && i < j <= |calls|
    ensures KeyAt(s, calls, i) in ContentsAt(name, s, calls, j)
    ensures ContentsAt(name, s, calls, j)[KeyAt(s, calls, i)] == AnswerAt(name, s, calls, i)
  {
  }

  lemma {:induction false} ContentsNumbered(name: string, s: Settings, calls: seq<Call>, i: nat)
    requires i <= |calls|
    ensures Numbered(ContentsAt(name, s, calls, i))
  {
    if i > 0 {
      ContentsNumbered(name, s, calls, i - 1);
    }
  }

  lemma SameClientIffCanonical(name: string, s: Settings, calls: seq<Call>, i: nat, j: nat)
    requires IsLookup(calls, i) && IsLookup(calls, j)
    ensures AnswerAt(name, s, calls, i) == AnswerAt(name, s, calls, j) <==> KeyAt(s, calls, i) == KeyAt(s, calls, j)
  {
    StillHeld(name, s, calls, i, |calls|);
    StillHeld(name, s, calls, j, |calls|);
    ContentsNumbered(name, s, calls, |calls|);
  }

  // the same, said of the calls alone

  /** The mode and the default transport that the last SetGlobals before call i gave. */
  function Globals(calls: seq<Call>, i: nat, initial: (Mode, Transport)): (Mode, Transport)
    requires i <= |calls|
  {
    if i == 0 then initial
    else if calls[i - 1].SetGlobals? then (calls[i - 1].mode, calls[i - 1].standard)
    else Globals(calls, i - 1, initial)
  }

  /** The argument of the last SetCapability before call i. */
  function Override(calls: seq<Call>, i: nat, initial: Option<Transport>): Option<Transport>
    requires i <= |calls|
  {
    if i == 0 then initial
    else if calls[i - 1].SetCapability? then Some(calls[i - 1].capability)
    else Override(calls, i - 1, initial)
  }

  lemma {:induction false} SettingsFollowTheCalls(s: Settings, calls: seq<Call>, i: nat)
    requires i <= |calls|
    ensures
      var globals := Globals(calls, i, (s.mode, s.standard));
      SettingsAt(s, calls, i) == Settings(globals.0, globals.1, Override(calls, i, s.override))
  {
    if i > 0 {
      SettingsFollowTheCalls(s, calls, i - 1);
    }
  }

  /** The transport a lookup gives, or the default. */
  function Wanted(s: Settings, calls: seq<Call>, i: nat): Transport
    requires IsLookup(calls, i)
  {
    if calls[i].transport.Some? then calls[i].transport.value else Globals(calls, i, (s.mode, s.standard)).1
  }

  /** The override last set, or the default. */
  function Dialled(s: Settings, calls: seq<Call>, i: nat): Transport
    requires i <= |calls|
  {
    var override := Override(calls, i, s.override);
    if override.Some? then override.value else Globals(calls, i, (s.mode, s.standard)).1
  }

  /** Two lookups ask for one connection: the same target in the same mode, and in Remote mode
      over the same transport. */
  predicate SameConnection(s: Settings, calls: seq<Call>, i: nat, j: nat)
    requires IsLookup(calls, i) && IsLookup(calls, j)
  {
    var mode := Globals(calls, i, (s.mode, s.standard)).0;
    && calls[i].target == calls[j].target && mode == Globals(calls, j, (s.mode, s.standard)).0
    && (mode == Remote ==> Wanted(s, calls, i) == Wanted(s, calls, j))
  }

  lemma SameConnectionIff(s: Settings, calls: seq<Call>, i: nat, j: nat)
    requires IsLookup(calls, i) && IsLookup(calls, j)
    ensures SameConnection(s, calls, i, j) <==> KeyAt(s, calls, i) == KeyAt(s, calls, j)
  {
    SettingsFollowTheCalls(s, calls, i);
    SettingsFollowTheCalls(s, calls, j);
  }

  /** Over any run, whatever was switched in between, two lookups answer the same client
      exactly when they ask for one connection. */
  lemma SameClientIffSameKey(name: string, s: Settings, calls: seq<Call>, i: nat, j: nat)
    requires IsLookup(calls, i) && IsLookup(calls, j)
    ensures AnswerAt(name, s, calls, i) == AnswerAt(name, s, calls, j) <==> SameConnection(s, calls, i, j)
  {
    SameConnectionIff(s, calls, i, j);
    SameClientIffCanonical(name, s, calls, i, j);
  }

  /** Lookup f is the first of its key, and the client is what f's call constructed: for the
      object's own name, over the transport asked for, with the capability transport then in
      force. */
  ghost predicate BornAt(name: string, s: Settings, calls: seq<Call>, f: nat, client: Client)
    requires IsLookup(calls, f)
  {
    && client.target == calls[f].target && client.origin == name
    && client.transport == Wanted(s, calls, f) && client.capability == Dialled(s, calls, f)
    && forall g :: 0 <= g < f && IsLookup(calls, g) ==> !SameConnection(s, calls, g, f)
  }

  /** Whatever the map holds was constructed by its key's first lookup. */
  lemma {:induction false} FirstLookup(name: string, s: Settings, calls: seq<Call>, i: nat, c: Canonical)
    returns (f: nat)
    requires i <= |calls| && c in ContentsAt(name, s, calls, i)
    ensures f < i && IsLookup(calls, f) && KeyAt(s, calls, f) == c
    ensures BornAt(name, s, calls, f, ContentsAt(name, s, calls, i)[c])
  {
    f := i - 1;
    if c in ContentsAt(name, s, calls, f) {
      f := FirstLookup(name, s, calls, f, c);
    } else {
      SettingsFollowTheCalls(s, calls, f);
      forall g | 0 <= g < f && IsLookup(calls, g) ensures !SameConnection(s, calls, g, f) {
        StillHeld(name, s, calls, g, f);
        SameConnectionIff(s, calls, g, f);
      }
    }
  }

  /** A client keeps the capability transport in force at its key's first lookup, however
      often that setting changes afterwards. */
  lemma CapabilityIsFrozen(name: string, s: Settings, calls: seq<Call>, i: nat) returns (f: nat)
    requires IsLookup(calls, i)
    ensures f <= i && IsLookup(calls, f) && SameConnection(s, calls, f, i)
    ensures BornAt(name, s, calls, f, AnswerAt(name, s, calls, i))
  {
    f := FirstLookup(name, s, calls, i + 1, KeyAt(s, calls, i));
    SameConnectionIff(s, calls, f, i);
  }

  ghost predicate Answered(name: string, s: Settings, calls: seq<Call>, i: nat, answers: seq<Option<Client>>) {
    && |answers| == i <= |calls|
    && forall j :: 0 <= j < i ==>
         answers[j] == if IsLookup(calls, j) then Some(AnswerAt(name, s, calls, j)) else None
  }

  /** One more call, answered from the map it leaves. */
  lemma AnsweredNext(name: string, s: Settings, calls: seq<Call>, i: nat, answers: seq<Option<Client>>,
                     settings: Settings, contents: Contents, answer: Option<Client>)
    requires i < |calls| && Answered(name, s, calls, i, answers)
    requires settings == SettingsAt(s, calls, i)
    requires contents == NextContents(ContentsAt(name, s, calls, i), name, settings, calls[i])
    requires answer == if calls[i].Lookup? then Some(contents[KeyOf(settings, calls[i])]) else None
    ensures contents == ContentsAt(name, s, calls, i + 1)
    ensures NextSettings(settings, calls[i]) == SettingsAt(s, calls, i + 1)
    ensures Answered(name, s, calls, i + 1, answers + [answer])
  {
  }

  /** The hash table answers what the plain map does, over any run, and constructs one
      client per canonical key. */
  method Run(api: LogosApi, calls: seq<Call>) returns (answers: seq<Option<Client>>)
    requires api.Valid() && api.contents == map[]
    modifies api
    ensures Answered(api.name, old(api.settings), calls, |calls|, answers)
    ensures api.constructed == |ContentsAt(api.name, old(api.settings), calls, |calls|)|
  {
    ghost var s := api.settings;
    answers := [];
    var i := 0;
    while i < |calls|
      invariant 0 <= i <= |calls| && api.Valid() && Answered(api.name, s, calls, i, answers)
      invariant api.settings == SettingsAt(s, calls, i) && api.contents == ContentsAt(api.name, s, calls, i)
    {
      ghost var settings := api.settings;
      var answer := api.Perform(calls[i]);
      AnsweredNext(api.name, s, calls, i, answers, settings, api.contents, answer);
      answers := answers + [answer];
      i := i + 1;
    }
  }
}
