/** The admission verbs as the host runs them, imperative and line by line; and that a verb
    which is not interrupted is a run of the step machine with the same effect. */
module ConsumerHost {
  import opened Options
  import opened Tokens
  import opened ConsumerAdmission

  /** One process: its own ring, the isolated stores, and what capability_module recorded. */
  datatype Memory = Memory(ring: Store, stores: map<string, Store>, vended: set<string>, record: map<string, string>)

  /** What a verb depends on: the host's API object and its client, the minted secret, and
      how capability_module's answer travels. */
  datatype Channel = Channel(host: Option<StoreRef>, client: bool, secret: string, inform: Inform)

  /** The host may speak to capability_module: it has an API object and a client, and the
      token it would present is the trusted channel's. */
  predicate Trusted(m: Memory, ch: Channel) {
    ch.host.Some? && ch.client && AnchorOf(m.ring, PresentedBy(m.ring, m.stores, ch.host.value))
  }

  /** Registered, and the answer said so. */
  predicate Registers(m: Memory, ch: Channel) { Trusted(m, ch) && ch.inform == Recorded(true) }

  function RecordAfter(m: Memory, identity: string, ch: Channel): map<string, string> {
    if Trusted(m, ch) && ch.inform.Recorded? then m.record[identity := ch.secret] else m.record
  }

  predicate MayIsolate(m: Memory, identity: string) {
    identity != "" && (identity in m.stores || identity !in m.vended)
  }

  /** admitConsumer answers a credential exactly when every check passes; the identity then
      presents precisely the credential on record. On failure no store changed, except
      that a first admission leaves the store it created, empty. */
  ghost predicate Admits(m: Memory, m': Memory, identity: string, ch: Channel, credential: Option<string>) {
    && m'.ring == m.ring && m'.vended == m.vended
    && (credential.Some? <==> MayIsolate(m, identity) && Registers(m, ch) && !AnchorOf(m.ring, ch.secret))
    && m'.record == (if MayIsolate(m, identity) then RecordAfter(m, identity, ch) else m.record)
    && (credential.Some? ==>
          && credential.value == ch.secret
          && identity in m'.record && m'.record[identity] == ch.secret
          && identity in m'.stores && (forall k :: Bootstrap(k) ==> GetToken(m'.stores[identity], k) == ch.secret)
          && var kept := if identity in m.stores then m.stores[identity] else map[];
             m'.stores == m.stores[identity := Adopted(kept, ch.secret)])
    && (credential.None? ==>
          m'.stores == if MayIsolate(m, identity) && identity !in m.stores then m.stores[identity := map[]]
                       else m.stores)
  }

  /** reissueConsumerCredential answers a credential exactly when every check passes; the
      store then holds that credential and nothing of the previous incarnation. On failure
      the store is as it was, unless the new credential was accepted but could not be
      installed, which leaves it empty. */
  ghost predicate Reissues(m: Memory, m': Memory, identity: string, ch: Channel, credential: string) {
    && m'.ring == m.ring && m'.vended == m.vended
    && (credential != "" <==>
          identity != "" && identity in m.stores && Registers(m, ch) && !AnchorOf(m.ring, ch.secret))
    && m'.record == (if identity != "" && identity in m.stores then RecordAfter(m, identity, ch) else m.record)
    && (credential != "" ==>
          && credential == ch.secret && identity in m'.record && m'.record[identity] == ch.secret
          && m'.stores == m.stores[identity := Adopted(map[], ch.secret)])
    && (credential == "" ==>
          m'.stores == if identity != "" && identity in m.stores && Registers(m, ch)
                       then m.stores[identity := map[]] else m.stores)
  }

  // ---------------------------------------------------------------------------
  // The verbs
  // ---------------------------------------------------------------------------

  class Process {
    var ring: Store
    var stores: map<string, Store>
    var vended: set<string>
    var record: map<string, string>

    function Contents(): (m: Memory)
      reads this
      ensures m.ring == ring && m.stores == stores && m.vended == vended && m.record == record
    {
      Memory(ring, stores, vended, record)
    }

    constructor (ring: Store)
      ensures Contents() == Memory(ring, map[], {}, map[])
    {
      this.ring, stores, vended, record := ring, map[], {}, map[];
    }

    /** registerAtCapability */
    method RegisterAtCapability(identity: string, credential: string, ch: Channel) returns (ok: bool)
      requires credential == ch.secret
      modifies this`record
      ensures ok <==> Registers(old(Contents()), ch)
      ensures record == RecordAfter(old(Contents()), identity, ch)
    {
      if ch.host.None? {
        return false;
      }
      if !ch.client {
        return false;
      }
      var token := PresentedBy(ring, stores, ch.host.value);
      if token == "" {
        return false;
      }
      if ch.inform.Lost? || !AnchorOf(ring, token) {
        return false;
      }
      record := record[identity := credential];
      return ch.inform.answer;
    }

    /** TokenManager::adoptCredentialFor */
    method AdoptCredentialFor(identity: string, credential: string) returns (ok: bool)
      modifies this`stores
      ensures ok <==> identity in old(stores) && credential != "" && !AnchorOf(ring, credential)
      ensures stores == if ok then old(stores)[identity := Adopted(old(stores)[identity], credential)] else old(stores)
    {
      if identity !in stores || credential == "" || AnchorOf(ring, credential) {
        return false;
      }
      stores := stores[identity := Adopted(stores[identity], credential)];
      return true;
    }

    /** LogosAPI::forIdentity, seen from the stores */
    method ForIdentity(identity: string) returns (ok: bool)
      modifies this`stores
      ensures ok <==> MayIsolate(old(Contents()), identity)
      ensures stores == if ok && identity !in old(stores) then old(stores)[identity := map[]] else old(stores)
    {
      if identity == "" || (identity !in stores && identity in vended) {
        return false;
      }
      if identity !in stores {
        stores := stores[identity := map[]];
      }
      return true;
    }

    method AdmitConsumer(identity: string, ch: Channel) returns (credential: Option<string>)
      requires ch.secret != ""
      modifies this
      ensures Admits(old(Contents()), Contents(), identity, ch, credential)
    {
      if identity == "" {
        return None;
      }
      var isolated := ForIdentity(identity);
      if !isolated {
        return None;
      }
      var registered := RegisterAtCapability(identity, ch.secret, ch);
      if !registered {
        return None;
      }
      var installed := AdoptCredentialFor(identity, ch.secret);
      if !installed {
        return None;
      }
      return Some(ch.secret);
    }

    method ReissueConsumerCredential(consumer: Option<string>, ch: Channel) returns (credential: string)
      requires ch.secret != ""
      modifies this
      ensures consumer.Some? ==> Reissues(old(Contents()), Contents(), consumer.value, ch, credential)
      ensures consumer.None? ==> Contents() == old(Contents()) && credential == ""
    {
      if consumer.None? {
        return "";
      }
      var identity := consumer.value;
      if identity == "" {
        return "";
      }
      if identity !in stores {
        return "";
      }
      var registered := RegisterAtCapability(identity, ch.secret, ch);
      if !registered {
        return "";
      }
      stores := stores[identity := map[]];
      var installed := AdoptCredentialFor(identity, ch.secret);
      if !installed {
        return "";
      }
      return ch.secret;
    }

    /** adoptConsumerCredential: only ever into the process's own ring, under both roles. */
    method AdoptConsumerCredential(store: Option<StoreRef>, credential: string)
      modifies this`ring
      ensures ring == if store == Some(Ambient) && credential != ""
                      then old(ring)[Core := credential][CapabilityModule := credential] else old(ring)
    {
      if store.None? || credential == "" {
        return;
      }
      if store.value != Ambient {
        return;
      }
      ring := Adopted(ring, credential);
    }
  }

  // ---------------------------------------------------------------------------
  // A verb that is not interrupted is a run of the step machine
  // ---------------------------------------------------------------------------

  function InMemory(w: World): Memory { Memory(w.ring, w.stores, w.vended, w.record) }

  /** Operation i's own lines, with nobody else's in between, lead from w to w'. */
  ghost predicate Reaches(w: World, w': World, i: nat) {
    exists steps :: IsRun(w, steps) && After(w, steps) == w' && OnlyOf(steps, i)
  }

  predicate OnlyOf(steps: seq<Step>, i: nat) { forall s :: s in steps ==> s.Own? && s.i == i }

  lemma Via(w: World, m: World, w': World, i: nat)
    requires Reaches(w, m, i) && Reaches(m, w', i)
    ensures Reaches(w, w', i)
  {
    var first :| IsRun(w, first) && After(w, first) == m && OnlyOf(first, i);
    var second :| IsRun(m, second) && After(m, second) == w' && OnlyOf(second, i);
    RunsJoin(w, first, second);
    assert OnlyOf(first + second, i);
  }

  lemma Line(w: World, i: nat, action: Action)
    requires CanPerform(w, i, action)
    ensures Reaches(w, Perform(w, i, action), i)
  {
    var steps := OneMore(w, [], Own(i, action));
    assert OnlyOf(steps, i);
  }

  /** The world as one operation sees it. */
  ghost predicate Shows(w: World, i: nat, m: Memory, op: Op) { i < |w.ops| && w.ops[i] == op && InMemory(w) == m }

  lemma CheckLine(w: World, i: nat, action: Action, m: Memory, op: Op, passed: bool, next: Pc) returns (w': World)
    requires CanPerform(w, i, action) && Shows(w, i, m, op)
    requires (action == CheckHost && passed == op.host.Some? && next == HasHost)
             || (action == GetClient(passed) && next == HasClient)
    ensures Reaches(w, w', i) && Shows(w', i, m, op.(pc := if passed then next else Failed))
  {
    w' := Checked(w, i, passed, next);
    Line(w, i, action);
  }

  lemma ReadLine(w: World, i: nat, m: Memory, op: Op) returns (w': World)
    requires At(w, i, HasClient) && Shows(w, i, m, op) && op.host.Some?
    ensures Reaches(w, w', i)
    ensures var token := PresentedBy(m.ring, m.stores, op.host.value);
            Shows(w', i, m, if token == "" then op.(pc := Failed) else op.(pc := HasToken, hostToken := token))
  {
    w' := ReadingToken(w, i);
    Line(w, i, ReadToken);
  }

  lemma InformLine(w: World, i: nat, inform: Inform, m: Memory, op: Op) returns (w': World)
    requires At(w, i, HasToken) && Shows(w, i, m, op)
    ensures Reaches(w, w', i)
    ensures if inform.Lost? || !AnchorOf(m.ring, op.hostToken) then Shows(w', i, m, op.(pc := Failed))
            else Shows(w', i, m.(record := m.record[op.identity := op.credential]),
                       op.(pc := if inform.answer then Registered else Failed))
  {
    w' := Informed(w, i, inform);
    Line(w, i, InformCap(inform));
  }

  lemma ResetLine(w: World, i: nat, m: Memory, op: Op) returns (w': World)
    requires CanPerform(w, i, Reset) && Shows(w, i, m, op) && op.identity in m.stores
    ensures Reaches(w, w', i)
    ensures Shows(w', i, m.(stores := m.stores[op.identity := map[]]), op.(pc := Cleared))
  {
    w' := Clearing(w, i);
    Line(w, i, Reset);
  }

  lemma AdoptLine(w: World, i: nat, m: Memory, op: Op) returns (w': World)
    requires CanPerform(w, i, AdoptFor) && Shows(w, i, m, op) && op.identity in m.stores && op.credential != ""
    ensures Reaches(w, w', i)
    ensures if AnchorOf(m.ring, op.credential) then Shows(w', i, m, op.(pc := Failed))
            else Shows(w', i, m.(stores := m.stores[op.identity := Adopted(m.stores[op.identity], op.credential)]),
                       op.(pc := Done))
  {
    w' := AdoptedFor(w, i);
    Line(w, i, AdoptFor);
  }

  lemma IsolateLine(w: World, i: nat, m: Memory, op: Op) returns (w': World)
    requires At(w, i, Start) && Shows(w, i, m, op)
    ensures Reaches(w, w', i) && w'.minted == w.minted
    ensures
      if op.identity == "" || (op.identity !in m.stores && (op.kind == Reissue || op.identity in m.vended)) then
        Shows(w', i, m, op.(pc := Failed))
      else if op.identity in m.stores then Shows(w', i, m, op.(pc := Isolated))
      else Shows(w', i, m.(stores := m.stores[op.identity := map[]]), op.(pc := Isolated, first := true))
  {
    w' := CheckedIsolation(w, i);
    Line(w, i, Isolate);
  }

  lemma MintLine(w: World, i: nat, secret: string, m: Memory, op: Op) returns (w': World)
    requires CanPerform(w, i, Mint(secret)) && Shows(w, i, m, op)
    ensures Reaches(w, w', i) && Shows(w', i, m, op.(pc := Minted, credential := secret))
  {
    w' := Minting(w, i, secret);
    Line(w, i, Mint(secret));
  }

  /** The three lookups of registerAtCapability: all succeed, or the operation has failed. */
  lemma Lookups(w: World, i: nat, client: bool, m: Memory, op: Op) returns (w': World)
    requires At(w, i, Minted) && Shows(w, i, m, op)
    ensures Reaches(w, w', i)
    ensures
      if op.host.Some? && client && PresentedBy(m.ring, m.stores, op.host.value) != "" then
        Shows(w', i, m, op.(pc := HasToken, hostToken := PresentedBy(m.ring, m.stores, op.host.value)))
      else Shows(w', i, m, op.(pc := Failed))
  {
    w' := CheckLine(w, i, CheckHost, m, op, op.host.Some?, HasHost);
    if op.host.Some? {
      var hosted := w';
      w' := CheckLine(hosted, i, GetClient(client), m, op.(pc := HasHost), client, HasClient);
      Via(w, hosted, w', i);
      if client {
        var ready := w';
        w' := ReadLine(ready, i, m, op.(pc := HasClient));
        Via(w, ready, w', i);
      }
    }
  }

  /** What a verb answers: its credential, once its operation is done. */
  function Answered(w: World, i: nat): string
    requires i < |w.ops|
  {
    if w.ops[i].pc == Done then w.ops[i].credential else ""
  }

  /** The store after an accepted registration. */
  function Installed(m: Memory, op: Op): Store {
    var kept := if op.kind == Reissue || op.identity !in m.stores then map[] else m.stores[op.identity];
    if AnchorOf(m.ring, op.credential) then kept else Adopted(kept, op.credential)
  }

  /** Where an operation ends whose registration was accepted. */
  function Ending(m: Memory, op: Op): Pc { if AnchorOf(m.ring, op.credential) then Failed else Done }

  lemma LastLines(w: World, i: nat, m: Memory, op: Op) returns (w': World)
    requires At(w, i, Registered) && Shows(w, i, m, op) && op.identity in m.stores && op.credential != ""
    ensures Reaches(w, w', i)
    ensures Shows(w', i, m.(stores := m.stores[op.identity := Installed(m, op)]), op.(pc := Ending(m, op)))
  {
    if op.kind == Reissue {
      var cleared := ResetLine(w, i, m, op);
      w' := AdoptLine(cleared, i, m.(stores := m.stores[op.identity := map[]]), op.(pc := Cleared));
      Via(w, cleared, w', i);
    } else {
      w' := AdoptLine(w, i, m, op);
      assert m.stores == m.stores[op.identity := m.stores[op.identity]];
    }
  }

  /** The lines after the mint. */
  lemma RegisteringLines(w: World, i: nat, ch: Channel, m: Memory, op: Op) returns (w': World)
    requires At(w, i, Minted) && Shows(w, i, m, op)
    requires op.host == ch.host && op.credential == ch.secret != "" && op.identity in m.stores
    ensures Reaches(w, w', i) && i < |w'.ops|
    ensures InMemory(w') ==
      m.(record := RecordAfter(m, op.identity, ch),
         stores := if Registers(m, ch) then m.stores[op.identity := Installed(m, op)] else m.stores)
    ensures Answered(w', i) == if Registers(m, ch) && !AnchorOf(m.ring, ch.secret) then ch.secret else ""
  {
    w' := Lookups(w, i, ch.client, m, op);
    if w'.ops[i].pc == HasToken {
      var holding := w';
      w' := InformLine(holding, i, ch.inform, m, holding.ops[i]);
      Via(w, holding, w', i);
      if w'.ops[i].pc == Registered {
        var registered := w';
        w' := LastLines(registered, i, InMemory(registered), registered.ops[i]);
        Via(w, registered, w', i);
      }
    }
  }

  /** The lines up to the mint. */
  lemma FirstLines(w: World, i: nat, secret: string, m: Memory, op: Op) returns (w': World)
    requires At(w, i, Start) && secret != "" && secret !in w.minted && Shows(w, i, m, op)
    ensures Reaches(w, w', i) && i < |w'.ops|
    ensures
      var goesOn := op.identity != "" && (op.identity in m.stores || (op.kind == Admit && op.identity !in m.vended));
      && InMemory(w') ==
           m.(stores := if goesOn && op.identity !in m.stores then m.stores[op.identity := map[]] else m.stores)
      && if goesOn then
           w'.ops[i] == op.(pc := Minted, credential := secret, first := op.identity !in m.stores || op.first)
         else w'.ops[i].pc == Failed
  {
    w' := IsolateLine(w, i, m, op);
    if w'.ops[i].pc == Isolated {
      var isolated := w';
      w' := MintLine(isolated, i, secret, InMemory(isolated), isolated.ops[i]);
      Via(w, isolated, w', i);
    }
  }

  /** An isolation the verb itself made changes none of its later checks. */
  lemma IsolatedChannel(m: Memory, identity: string, ch: Channel)
    requires identity !in m.stores
    ensures Registers(m.(stores := m.stores[identity := map[]]), ch) == Registers(m, ch)
    ensures RecordAfter(m.(stores := m.stores[identity := map[]]), identity, ch) == RecordAfter(m, identity, ch)
  {
  }

  predicate GoesOn(m: Memory, kind: Kind, identity: string) {
    identity != "" && (identity in m.stores || (kind == Admit && identity !in m.vended))
  }

  lemma LinesOfAVerb(w: World, kind: Kind, identity: string, ch: Channel) returns (begun: World, w': World)
    requires ch.secret != "" && ch.secret !in w.minted
    ensures begun == Apply(w, Begin(kind, identity, ch.host)) && Reaches(begun, w', |w.ops|) && |w.ops| < |w'.ops|
    ensures
      var m, answer := InMemory(w), Answered(w', |w.ops|);
      var op := Op(kind, identity, ch.host, Minted, ch.secret, "", false);
      if !GoesOn(m, kind, identity) then InMemory(w') == m && answer == ""
      else
        && answer == (if Registers(m, ch) && !AnchorOf(m.ring, ch.secret) then ch.secret else "")
        && InMemory(w') ==
             m.(record := RecordAfter(m, identity, ch),
                stores := if Registers(m, ch) then m.stores[identity := Installed(m, op)]
                          else if identity in m.stores then m.stores else m.stores[identity := map[]])
  {
    begun := Apply(w, Begin(kind, identity, ch.host));
    var i, m := |w.ops|, InMemory(w);
    w' := FirstLines(begun, i, ch.secret, m, begun.ops[i]);
    if w'.ops[i].pc == Minted {
      var minted := w';
      w' := RegisteringLines(minted, i, ch, InMemory(minted), minted.ops[i]);
      Via(begun, minted, w', i);
      if identity !in m.stores {
        IsolatedChannel(m, identity, ch);
        assert m.stores[identity := map[]][identity := Installed(InMemory(minted), minted.ops[i])]
            == m.stores[identity := Installed(InMemory(minted), minted.ops[i])];
      }
    }
  }

  /** What admitConsumer and reissueConsumerCredential do when called on their own. */
  lemma VerbIsARun(w: World, kind: Kind, identity: string, ch: Channel) returns (begun: World, w': World)
    requires ch.secret != "" && ch.secret !in w.minted
    ensures begun == Apply(w, Begin(kind, identity, ch.host)) && Reaches(begun, w', |w.ops|) && |w.ops| < |w'.ops|
    ensures
      var credential := Answered(w', |w.ops|);
      && (kind == Admit ==>
            Admits(InMemory(w), InMemory(w'), identity, ch, if credential == "" then None else Some(credential)))
      && (kind == Reissue ==> Reissues(InMemory(w), InMemory(w'), identity, ch, credential))
  {
    begun, w' := LinesOfAVerb(w, kind, identity, ch);
  }
}
