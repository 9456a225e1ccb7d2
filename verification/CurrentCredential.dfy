/** Which credential an identity presents, and which one is on record: over every run,
    whatever operations interleave, each is one operation's, and a successful operation's is
    the current one exactly when nobody else's is recorded before it installs. */
module CurrentCredential {
  import opened Options
  import opened Tokens
  import opened ConsumerAdmission

  // ---------------------------------------------------------------------------
  // What a run says of one identity
  // ---------------------------------------------------------------------------

  /** The step is a line of some operation on this identity. */
  predicate LineOn(w: World, step: Step, id: string)
    requires Enabled(w, step)
  {
    step.Own? && w.ops[step.i].identity == id
  }

  /** capability_module takes an operation's credential into its record. */
  predicate Records(w: World, step: Step, id: string)
    requires Enabled(w, step)
  {
    && LineOn(w, step, id) && step.action.InformCap? && step.action.inform.Recorded?
    && IsAnchor(w, w.ops[step.i].hostToken)
  }

  predicate InstallsOn(w: World, step: Step, id: string)
    requires Enabled(w, step)
  {
    LineOn(w, step, id) && step.action.AdoptFor? && Apply(w, step).ops[step.i].pc.Done?
  }

  /** The operation recorded last. */
  ghost function LastRecorded(w: World, steps: seq<Step>, id: string, before: Option<nat>): Option<nat>
    requires IsRun(w, steps)
    decreases |steps|
  {
    if steps == [] then before
    else LastRecorded(Apply(w, steps[0]), steps[1..], id, if Records(w, steps[0], id) then Some(steps[0].i) else before)
  }

  /** installed: the operation that installed last since the store was last emptied; kept:
      the grants clients have kept in it since. */
  datatype Holding = Holding(installed: Option<nat>, kept: Store)

  const NOTHING := Holding(None, map[])

  function Next(w: World, step: Step, id: string, h: Holding): Holding
    requires Enabled(w, step)
  {
    if InstallsOn(w, step, id) then h.(installed := Some(step.i))
    else if LineOn(w, step, id) && step.action.Reset? then NOTHING
    else if step.CacheTarget? && step.identity == id then h.(kept := h.kept[step.target := step.token])
    else h
  }

  ghost function Held(w: World, steps: seq<Step>, id: string, h: Holding): Holding
    requires IsRun(w, steps)
    decreases |steps|
  {
    if steps == [] then h else Held(Apply(w, steps[0]), steps[1..], id, Next(w, steps[0], id, h))
  }

  // ---------------------------------------------------------------------------
  // Every operation has a credential of its own
  // ---------------------------------------------------------------------------

  ghost predicate Distinct(w: World) {
    && (forall i, j :: 0 <= i < j < |w.ops| && w.ops[i].credential != "" ==> w.ops[i].credential != w.ops[j].credential)
    && (forall i :: 0 <= i < |w.ops| ==> OpSound(w, w.ops[i]))
  }

  predicate OpSound(w: World, op: Op) {
    && (op.credential != "" ==> op.credential in w.minted)
    && (PastMint(op) ==> op.credential != "" && op.identity in w.stores)
    && (op.pc.Isolated? ==> op.identity in w.stores)
  }

  /** One line keeps it: the operation keeps its credential, or gets one never minted. */
  lemma LineDistinct(w: World, i: nat, action: Action)
    requires Distinct(w) && CanPerform(w, i, action)
    ensures Distinct(Perform(w, i, action))
  {
    var w' := Perform(w, i, action);
    assert OpSound(w, w.ops[i]);
    assert w'.ops[i].credential == (if action.Mint? then action.secret else w.ops[i].credential);
    forall j | 0 <= j < |w'.ops| ensures OpSound(w', w'.ops[j]) {
      if j != i {
        assert w'.ops[j] == w.ops[j] && OpSound(w, w.ops[j]);
      }
    }
    forall j | 0 <= j < |w.ops| && j != i && w.ops[j].credential != ""
      ensures w'.ops[i].credential != w.ops[j].credential
    {
      assert OpSound(w, w.ops[j]);
    }
  }

  lemma StepDistinct(w: World, step: Step)
    requires Distinct(w) && Enabled(w, step)
    ensures Distinct(Apply(w, step))
  {
    if step.Own? {
      LineDistinct(w, step.i, step.action);
    } else {
      var w' := Apply(w, step);
      forall j | 0 <= j < |w.ops| ensures OpSound(w', w'.ops[j]) {
        assert OpSound(w, w.ops[j]);
      }
    }
  }

  lemma {:induction false} RunDistinct(w: World, steps: seq<Step>)
    requires Distinct(w) && IsRun(w, steps)
    ensures Distinct(After(w, steps))
    decreases |steps|
  {
    if steps != [] {
      StepDistinct(w, steps[0]);
      RunDistinct(Apply(w, steps[0]), steps[1..]);
    }
  }

  // ---------------------------------------------------------------------------
  // The record and the store follow the run
  // ---------------------------------------------------------------------------

  /** The line on which an operation could still be recorded is behind it. */
  predicate Answered(op: Op) {
    op.credential != "" && (op.pc.Registered? || op.pc.Cleared? || op.pc.Done? || op.pc.Failed?)
  }

  predicate RecordIs(w: World, id: string, last: Option<nat>) {
    if last.None? then id !in w.record
    else
      && last.value < |w.ops| && w.ops[last.value].identity == id && Answered(w.ops[last.value])
      && id in w.record && w.record[id] == w.ops[last.value].credential
  }

  /** No credential: what a store that has only kept grants holds. */
  predicate OnlyGrants(store: Store) { forall k :: k in store ==> k.Target? }

  predicate InstalledIs(w: World, id: string, i: nat) {
    i < |w.ops| && w.ops[i].identity == id && w.ops[i].pc.Done? && (id, w.ops[i].credential) in w.adopted
  }

  predicate StoreIs(w: World, id: string, h: Holding) {
    && OnlyGrants(h.kept)
    && (id !in w.stores ==> h == NOTHING)
    && (h.installed.Some? ==> InstalledIs(w, id, h.installed.value))
    && (id in w.stores ==>
          w.stores[id] == if h.installed.None? then h.kept else Adopted(h.kept, w.ops[h.installed.value].credential))
  }

  lemma RecordElsewhere(w: World, i: nat, action: Action, id: string)
    requires CanPerform(w, i, action) && w.ops[i].identity != id
    ensures
      var w' := Perform(w, i, action);
      (id in w'.record <==> id in w.record) && (id in w.record ==> w'.record[id] == w.record[id])
  {
  }

  /** An answered operation stays so, with its credential. */
  lemma StaysAnswered(w: World, step: Step, i: nat)
    requires Enabled(w, step) && i < |w.ops| && Answered(w.ops[i])
    ensures
      var op, op' := w.ops[i], Apply(w, step).ops[i];
      Answered(op') && op'.identity == op.identity && op'.credential == op.credential && (op.pc.Done? ==> op' == op)
  {
  }

  lemma StepRecord(w: World, step: Step, id: string, last: Option<nat>)
    requires Distinct(w) && Enabled(w, step) && RecordIs(w, id, last)
    ensures RecordIs(Apply(w, step), id, if Records(w, step, id) then Some(step.i) else last)
  {
    if last.Some? {
      StaysAnswered(w, step, last.value);
    }
    if step.Own? {
      assert OpSound(w, w.ops[step.i]);
      if w.ops[step.i].identity != id {
        RecordElsewhere(w, step.i, step.action, id);
      }
    }
  }

  lemma InstalledStays(w: World, step: Step, id: string, i: nat)
    requires Distinct(w) && Enabled(w, step) && InstalledIs(w, id, i)
    ensures InstalledIs(Apply(w, step), id, i) && Apply(w, step).ops[i].credential == w.ops[i].credential
  {
    assert OpSound(w, w.ops[i]);
    StaysAnswered(w, step, i);
  }

  lemma AdoptStore(w: World, i: nat, h: Holding)
    requires Distinct(w) && CanPerform(w, i, AdoptFor) && StoreIs(w, w.ops[i].identity, h)
    ensures StoreIs(AdoptedFor(w, i), w.ops[i].identity, Next(w, Own(i, AdoptFor), w.ops[i].identity, h))
  {
    if h.installed.Some? {
      InstalledStays(w, Own(i, AdoptFor), w.ops[i].identity, h.installed.value);
    }
  }

  /** The store a line other than an adoption leaves. */
  lemma LineKeepsStore(w: World, i: nat, action: Action)
    requires Distinct(w) && CanPerform(w, i, action) && !action.AdoptFor?
    ensures
      var w', id := Perform(w, i, action), w.ops[i].identity;
      && w'.adopted == w.adopted
      && (id in w.stores ==> id in w'.stores && w'.stores[id] == if action.Reset? then map[] else w.stores[id])
      && (id !in w.stores && id in w'.stores ==> w'.stores[id] == map[])
      && (action.Reset? ==> id in w.stores)
  {
    assert OpSound(w, w.ops[i]);
  }

  lemma LineStore(w: World, i: nat, action: Action, h: Holding)
    requires Distinct(w) && CanPerform(w, i, action) && StoreIs(w, w.ops[i].identity, h)
    ensures StoreIs(Perform(w, i, action), w.ops[i].identity, Next(w, Own(i, action), w.ops[i].identity, h))
  {
    var id := w.ops[i].identity;
    if action.AdoptFor? {
      AdoptStore(w, i, h);
    } else {
      LineKeepsStore(w, i, action);
      if h.installed.Some? {
        assert InstalledIs(w, id, h.installed.value);
        InstalledStays(w, Own(i, action), id, h.installed.value);
      }
    }
  }

  lemma OutsideStore(w: World, step: Step, id: string, h: Holding)
    requires Distinct(w) && Enabled(w, step) && StoreIs(w, id, h) && !step.Own?
    ensures StoreIs(Apply(w, step), id, Next(w, step, id, h))
  {
    if h.installed.Some? {
      InstalledStays(w, step, id, h.installed.value);
    }
  }

  lemma StepStore(w: World, step: Step, id: string, h: Holding)
    requires Distinct(w) && Enabled(w, step) && StoreIs(w, id, h)
    ensures StoreIs(Apply(w, step), id, Next(w, step, id, h))
  {
    if LineOn(w, step, id) {
      LineStore(w, step.i, step.action, h);
    } else if !step.Own? {
      OutsideStore(w, step, id, h);
    } else if h.installed.Some? {
      InstalledStays(w, step, id, h.installed.value);
    }
  }

  lemma {:induction false} RecordFollows(w: World, steps: seq<Step>, id: string, last: Option<nat>)
    requires Distinct(w) && IsRun(w, steps) && RecordIs(w, id, last)
    ensures RecordIs(After(w, steps), id, LastRecorded(w, steps, id, last))
    decreases |steps|
  {
    if steps != [] {
      StepDistinct(w, steps[0]);
      StepRecord(w, steps[0], id, last);
      RecordFollows(Apply(w, steps[0]), steps[1..], id, if Records(w, steps[0], id) then Some(steps[0].i) else last);
    }
  }

  lemma {:induction false} StoreFollows(w: World, steps: seq<Step>, id: string, h: Holding)
    requires Distinct(w) && IsRun(w, steps) && StoreIs(w, id, h)
    ensures StoreIs(After(w, steps), id, Held(w, steps, id, h))
    decreases |steps|
  {
    if steps != [] {
      StepDistinct(w, steps[0]);
      StepStore(w, steps[0], id, h);
      StoreFollows(Apply(w, steps[0]), steps[1..], id, Next(w, steps[0], id, h));
    }
  }

  /** Over every run an identity's record is the credential of the operation recorded last,
      and its store is the credential of the operation that installed last since it was
      emptied, under both role labels, and the grants kept since, and nothing else. */
  lemma IdentityFollowsTheRun(ring: Store, vended: set<string>, steps: seq<Step>, id: string)
    requires IsRun(Initial(ring, vended), steps)
    ensures
      var w0 := Initial(ring, vended);
      && Distinct(After(w0, steps))
      && RecordIs(After(w0, steps), id, LastRecorded(w0, steps, id, None))
      && StoreIs(After(w0, steps), id, Held(w0, steps, id, NOTHING))
  {
    RunDistinct(Initial(ring, vended), steps);
    RecordFollows(Initial(ring, vended), steps, id, None);
    StoreFollows(Initial(ring, vended), steps, id, NOTHING);
  }

  /** Some step has capability_module record operation i's credential, asked by the trusted
      channel, and its answer arrives. */
  ghost predicate RecordedIn(w: World, steps: seq<Step>, i: nat)
    requires IsRun(w, steps)
    decreases |steps|
  {
    steps != [] && (RecordsNow(w, steps[0], i) || RecordedIn(Apply(w, steps[0]), steps[1..], i))
  }

  predicate RecordsNow(w: World, step: Step, i: nat) {
    step == Own(i, InformCap(Recorded(true))) && i < |w.ops| && IsAnchor(w, w.ops[i].hostToken)
  }

  predicate Accepted(w: World, i: nat) {
    i < |w.ops| && (w.ops[i].pc.Registered? || w.ops[i].pc.Cleared? || w.ops[i].pc.Done?)
  }

  lemma AcceptedNow(w: World, step: Step, i: nat)
    requires Enabled(w, step) && !Accepted(w, i) && Accepted(Apply(w, step), i)
    ensures RecordsNow(w, step, i)
  {
  }

  lemma {:induction false} AcceptedWasRecorded(w: World, steps: seq<Step>, i: nat)
    requires IsRun(w, steps) && !Accepted(w, i) && Accepted(After(w, steps), i)
    ensures RecordedIn(w, steps, i)
    decreases |steps|
  {
    if steps != [] {
      if Accepted(Apply(w, steps[0]), i) {
        AcceptedNow(w, steps[0], i);
      } else {
        AcceptedWasRecorded(Apply(w, steps[0]), steps[1..], i);
      }
    }
  }

  /** In no run does an isolated store hold a credential that no earlier step recorded, for
      that very operation and identity: register, and only then adopt. */
  lemma InstalledWasRecorded(ring: Store, vended: set<string>, steps: seq<Step>, id: string, key: Key)
    requires IsRun(Initial(ring, vended), steps)
    ensures
      var w0 := Initial(ring, vended);
      var w := After(w0, steps);
      id in w.stores && Bootstrap(key) && key in w.stores[id] ==>
        exists i: nat :: i < |w.ops| && RecordedIn(w0, steps, i)
                         && w.ops[i].identity == id && w.ops[i].credential == w.stores[id][key]
  {
    var w0 := Initial(ring, vended);
    var h := Held(w0, steps, id, NOTHING);
    IdentityFollowsTheRun(ring, vended, steps, id);
    if h.installed.Some? {
      AcceptedWasRecorded(w0, steps, h.installed.value);
    }
  }

  // ---------------------------------------------------------------------------
  // When the two agree
  // ---------------------------------------------------------------------------

  /** What an identity's own API object presents. */
  function Presented(w: World, id: string): string { PresentedBy(w.ring, w.stores, Private(id)) }

  predicate SpeaksForItself(w: World, id: string) { Consumer(id) in SpeaksAs(w, Presented(w, id)) }

  /** The operation recorded last is the one that installed last, and its credential is
      still there. */
  predicate Agree(last: Option<nat>, h: Holding) { last.Some? && last == h.installed }

  lemma AgreeIff(w: World, id: string, last: Option<nat>, h: Holding)
    requires Distinct(w) && RecordIs(w, id, last) && StoreIs(w, id, h)
    ensures SpeaksForItself(w, id) <==> Agree(last, h)
    ensures h.installed.Some? ==> (id, Presented(w, id)) in w.adopted
    ensures h.installed.None? ==> Presented(w, id) == ""
  {
    if last.Some? && h.installed.Some? && last != h.installed {
      var i, j := last.value, h.installed.value;
      assert OpSound(w, w.ops[j]);
      assert if i < j then w.ops[i].credential != w.ops[j].credential else w.ops[j].credential != w.ops[i].credential;
    }
    if h.installed.Some? {
      assert OpSound(w, w.ops[h.installed.value]);
    }
  }

  /** Over every run, whatever it interleaves: what an identity presents speaks as that
      identity exactly when the operation recorded last for it is the one that installed last
      since its store was emptied. */
  lemma PresentsTheRecordIff(ring: Store, vended: set<string>, steps: seq<Step>, id: string)
    requires IsRun(Initial(ring, vended), steps)
    ensures
      var w0 := Initial(ring, vended);
      SpeaksForItself(After(w0, steps), id) <==> Agree(LastRecorded(w0, steps, id, None), Held(w0, steps, id, NOTHING))
  {
    var w0 := Initial(ring, vended);
    IdentityFollowsTheRun(ring, vended, steps, id);
    AgreeIff(After(w0, steps), id, LastRecorded(w0, steps, id, None), Held(w0, steps, id, NOTHING));
  }

  lemma {:induction false} ForeignRunKeepsApart(w: World, steps: seq<Step>)
    requires IsRun(w, steps) && AlwaysForeign(w, steps) && Apart(w)
    ensures Apart(After(w, steps))
    decreases |steps|
  {
    if steps != [] {
      StepKeepsApartIff(w, steps[0]);
      ForeignRunKeepsApart(Apply(w, steps[0]), steps[1..]);
    }
  }

  /** With identity separation kept (IdentitySeparationIff says when), it then speaks as that
      identity alone; and a credential ever installed for it speaks as nobody while another
      is on record. */
  lemma AdmittedIdentities(ring: Store, vended: set<string>, steps: seq<Step>, id: string, c: string)
    requires IsRun(Initial(ring, vended), steps) && AlwaysForeign(Initial(ring, vended), steps)
    ensures
      var w0 := Initial(ring, vended);
      var w := After(w0, steps);
      && Separated(w)
      && (SpeaksAs(w, Presented(w, id)) == {Consumer(id)}
          <==> Agree(LastRecorded(w0, steps, id, None), Held(w0, steps, id, NOTHING)))
      && ((id, c) in w.adopted && !(id in w.record && w.record[id] == c) ==> SpeaksAs(w, c) == {})
  {
    var w0 := Initial(ring, vended);
    var w, h := After(w0, steps), Held(w0, steps, id, NOTHING);
    RunIsSafe(w0, steps);
    ForeignRunKeepsApart(w0, steps);
    IdentityFollowsTheRun(ring, vended, steps, id);
    AgreeIff(w, id, LastRecorded(w0, steps, id, None), h);
    if h.installed.Some? {
      CredentialSpeaksAsItsIdentity(w, id, Presented(w, id));
      assert !IsAnchor(w, (id, Presented(w, id)).1);
    }
    if (id, c) in w.adopted {
      CredentialSpeaksAsItsIdentity(w, id, c);
      assert !IsAnchor(w, (id, c).1);
    }
  }

  // ---------------------------------------------------------------------------
  // What one operation achieves
  // ---------------------------------------------------------------------------

  /** No operation on the identity is recorded in the run. */
  ghost predicate Unrecorded(w: World, steps: seq<Step>, id: string)
    requires IsRun(w, steps)
    decreases |steps|
  {
    steps == [] || (!Records(w, steps[0], id) && Unrecorded(Apply(w, steps[0]), steps[1..], id))
  }

  /** After any run, an operation that had its answer is on record if and only if it was, and
      no other operation on its identity has been recorded since. */
  lemma {:induction false} StaysOnRecordIff(w: World, steps: seq<Step>, i: nat)
    requires Distinct(w) && IsRun(w, steps) && i < |w.ops| && Answered(w.ops[i]) && w.ops[i].identity in w.record
    ensures
      var w', id, c := After(w, steps), w.ops[i].identity, w.ops[i].credential;
      && i < |w'.ops| && w'.ops[i].identity == id && w'.ops[i].credential == c && Answered(w'.ops[i])
      && id in w'.record
      && (w'.record[id] == c <==> w.record[id] == c && Unrecorded(w, steps, id))
    decreases |steps|
  {
    if steps != [] {
      StepDistinct(w, steps[0]);
      StaysAnswered(w, steps[0], i);
      OthersDiffer(w, steps[0], i);
      StaysOnRecordIff(Apply(w, steps[0]), steps[1..], i);
    }
  }

  lemma OthersDiffer(w: World, step: Step, i: nat)
    requires Distinct(w) && Enabled(w, step) && i < |w.ops| && Answered(w.ops[i]) && w.ops[i].identity in w.record
    ensures
      var w', id, c := Apply(w, step), w.ops[i].identity, w.ops[i].credential;
      && id in w'.record
      && (if Records(w, step, id) then w'.record[id] != c else w'.record[id] == w.record[id])
  {
    if step.Own? {
      var j := step.i;
      assert OpSound(w, w.ops[j]);
      assert i < j ==> w.ops[i].credential != w.ops[j].credential;
      if w.ops[j].identity != w.ops[i].identity {
        RecordElsewhere(w, j, step.action, w.ops[i].identity);
      }
    }
  }

  /** An operation that was registered at w, and after some run installs. */
  ghost predicate Succeeds(w: World, steps: seq<Step>, i: nat) {
    && IsRun(w, steps) && CanPerform(After(w, steps), i, AdoptFor)
    && AdoptedFor(After(w, steps), i).ops[i].pc.Done?
  }

  /** A successful operation, of either kind: the identity then presents its credential, and
      that is the current one if and only if no other operation on the identity was recorded
      between the registration and the last line. */
  lemma SuccessIsCurrentIff(w: World, steps: seq<Step>, i: nat, inform: Inform)
    requires Distinct(w) && CanPerform(w, i, InformCap(inform)) && Informed(w, i, inform).ops[i].pc.Registered?
    requires Succeeds(Informed(w, i, inform), steps, i)
    ensures
      var begun, id := Informed(w, i, inform), w.ops[i].identity;
      var w' := AdoptedFor(After(begun, steps), i);
      && Presented(w', id) == w.ops[i].credential
      && (SpeaksForItself(w', id) <==> Unrecorded(begun, steps, id))
  {
    assert OpSound(w, w.ops[i]);
    LineDistinct(w, i, InformCap(inform));
    StaysOnRecordIff(Informed(w, i, inform), steps, i);
  }

  /** No other operation on i's identity takes a line in the run. */
  ghost predicate Undisturbed(w: World, steps: seq<Step>, i: nat)
    requires IsRun(w, steps) && i < |w.ops|
    decreases |steps|
  {
    steps == [] || ((LineOn(w, steps[0], w.ops[i].identity) ==> steps[0].i == i)
                    && Undisturbed(Apply(w, steps[0]), steps[1..], i))
  }

  /** So in particular when operations on one identity do not overlap from there on. */
  lemma {:induction false} UndisturbedIsUnrecorded(w: World, steps: seq<Step>, i: nat)
    requires IsRun(w, steps) && i < |w.ops| && Answered(w.ops[i]) && Undisturbed(w, steps, i)
    ensures Unrecorded(w, steps, w.ops[i].identity)
    decreases |steps|
  {
    if steps != [] {
      StaysAnswered(w, steps[0], i);
      UndisturbedIsUnrecorded(Apply(w, steps[0]), steps[1..], i);
    }
  }

  /** A reissue leaves nothing older: its store is its credential and the grants kept since
      its own reset, whatever was there and whoever installed meanwhile. */
  lemma OutcomeOfAReissue(w: World, steps: seq<Step>, i: nat)
    requires Distinct(w) && CanPerform(w, i, Reset) && Succeeds(Clearing(w, i), steps, i)
    ensures
      var id, w' := w.ops[i].identity, AdoptedFor(After(Clearing(w, i), steps), i);
      && id in w'.stores
      && w'.stores[id] == Adopted(Held(Clearing(w, i), steps, id, NOTHING).kept, w.ops[i].credential)
  {
    var cleared, id := Clearing(w, i), w.ops[i].identity;
    assert OpSound(w, w.ops[i]);
    LineDistinct(w, i, Reset);
    StoreFollows(cleared, steps, id, NOTHING);
    KeepsItsCredential(cleared, steps, i);
    assert id in cleared.stores;
    StoresStay(cleared, steps, id);
  }

  lemma {:induction false} KeepsItsCredential(w: World, steps: seq<Step>, i: nat)
    requires IsRun(w, steps) && i < |w.ops| && Answered(w.ops[i])
    ensures
      var w' := After(w, steps);
      i < |w'.ops| && w'.ops[i].credential == w.ops[i].credential && w'.ops[i].identity == w.ops[i].identity
    decreases |steps|
  {
    if steps != [] {
      StaysAnswered(w, steps[0], i);
      KeepsItsCredential(Apply(w, steps[0]), steps[1..], i);
    }
  }

  lemma {:induction false} StoresStay(w: World, steps: seq<Step>, id: string)
    requires IsRun(w, steps) && id in w.stores
    ensures id in After(w, steps).stores
    decreases |steps|
  {
    if steps != [] {
      StoresStay(Apply(w, steps[0]), steps[1..], id);
    }
  }

  /** The store a first admission creates holds, at any later time, no credential if and only
      if no operation on the name has installed one since, or a reissue has emptied it again;
      it is then the grants kept and nothing else. */
  lemma OutcomeOfAFirstAdmission(w: World, steps: seq<Step>, i: nat)
    requires Distinct(w) && CanPerform(w, i, Isolate) && w.ops[i].identity !in w.stores
    requires CheckedIsolation(w, i).ops[i].pc.Isolated? && IsRun(CheckedIsolation(w, i), steps)
    ensures
      var begun, id := CheckedIsolation(w, i), w.ops[i].identity;
      var w', h := After(begun, steps), Held(begun, steps, id, NOTHING);
      && begun.ops[i].first && id in w'.stores
      && (OnlyGrants(w'.stores[id]) <==> h.installed.None?)
      && (h.installed.None? ==> w'.stores[id] == h.kept)
  {
    var begun, id := CheckedIsolation(w, i), w.ops[i].identity;
    LineDistinct(w, i, Isolate);
    StoreFollows(begun, steps, id, NOTHING);
    StoresStay(begun, steps, id);
    assert Held(begun, steps, id, NOTHING).installed.Some? ==> Core in After(begun, steps).stores[id];
  }

  // ---------------------------------------------------------------------------
  // Two operations on one identity that do interleave
  // ---------------------------------------------------------------------------

  /** Two operations on one identity, of any kinds, whose registrations both landed, i's first. */
  ghost predicate BothRegistered(w: World, i: nat, j: nat) {
    && i != j && At(w, i, Registered) && At(w, j, Registered)
    && w.ops[i].identity == w.ops[j].identity && w.ops[i].identity in w.stores && w.ops[i].identity in w.record
    && w.record[w.ops[i].identity] == w.ops[j].credential != w.ops[i].credential
    && w.ops[i].credential != "" && !IsAnchor(w, w.ops[i].credential)
    && w.ops[j].credential != "" && !IsAnchor(w, w.ops[j].credential)
  }

  /** Whenever that happens, j may install first and i last: both answer success, and the
      identity presents the older credential while the newer one is on record. */
  lemma OlderCredentialLeftInstalled(w: World, i: nat, j: nat) returns (steps: seq<Step>)
    requires BothRegistered(w, i, j)
    ensures IsRun(w, steps)
    ensures
      var w', id := After(w, steps), w.ops[i].identity;
      && w'.ops == w.ops[j := w.ops[j].(pc := Done)][i := w.ops[i].(pc := Done)]
      && w'.ring == w.ring && w'.record == w.record && w'.record[id] == w.ops[j].credential
      && id in w'.stores && GetToken(w'.stores[id], CapabilityModule) == w.ops[i].credential
  {
    steps := Installs(w, j);
    var last := Installs(After(w, steps), i);
    RunsJoin(w, steps, last);
    steps := steps + last;
  }

  function Beginning(kind: Kind, id: string): Op { Op(kind, id, Some(Ambient), Start, "", "", false) }

  /** An admission makes the store itself; a reissue finds it made. */
  lemma TwoBegun(id: string, anchor: string, older: Kind, newer: Kind) returns (steps: seq<Step>)
    requires id != ""
    ensures
      var w0 := Initial(map[CapabilityModule := anchor], {});
      && IsRun(w0, steps)
      && After(w0, steps) == w0.(stores := map[id := map[]],
                                 ops := [Beginning(older, id).(pc := Isolated, first := older == Admit),
                                         Beginning(newer, id)])
  {
    var w0 := Initial(map[CapabilityModule := anchor], {});
    steps := [];
    if older == Reissue {
      steps := OneMore(w0, steps, ForIdentity(id));
    }
    steps := OneMore(w0, steps, Begin(older, id, Some(Ambient)));
    steps := OneMore(w0, steps, Own(0, Isolate));
    steps := OneMore(w0, steps, Begin(newer, id, Some(Ambient)));
  }

  lemma TwoRegistered(id: string, older: string, newer: string, anchor: string, kinds: (Kind, Kind))
    returns (steps: seq<Step>)
    requires id != "" && older != "" && newer != "" && anchor != "" && older != newer && anchor !in {older, newer}
    ensures
      var w0 := Initial(map[CapabilityModule := anchor], {});
      && IsRun(w0, steps) && BothRegistered(After(w0, steps), 0, 1) && |After(w0, steps).ops| == 2
      && After(w0, steps).ops[0].kind == kinds.0 && After(w0, steps).ops[1].kind == kinds.1
      && After(w0, steps).ops[0].identity == id && After(w0, steps).ring == w0.ring
      && After(w0, steps).ops[0].credential == older && After(w0, steps).ops[1].credential == newer
      && After(w0, steps).record == map[id := newer]
  {
    var w0 := Initial(map[CapabilityModule := anchor], {});
    steps := TwoBegun(id, anchor, kinds.0, kinds.1);
    var more := ReachesRegistered(After(w0, steps), 0, older);
    RunsJoin(w0, steps, more);
    steps := steps + more;
    more := ReachesRegistered(After(w0, steps), 1, newer);
    RunsJoin(w0, steps, more);
    steps := steps + more;
  }

  /** And it can happen to any identity, with any two fresh credentials, two admissions of one
      name included: every operation has answered success, yet what the identity presents
      speaks as nobody. */
  lemma InterleavedOperationsDiverge(id: string, older: string, newer: string, anchor: string, kinds: (Kind, Kind))
    returns (steps: seq<Step>)
    requires id != "" && older != "" && newer != "" && anchor != "" && older != newer && anchor !in {older, newer}
    ensures IsRun(Initial(map[CapabilityModule := anchor], {}), steps)
    ensures
      var w := After(Initial(map[CapabilityModule := anchor], {}), steps);
      && |w.ops| == 2 && w.ops[0].kind == kinds.0 && w.ops[1].kind == kinds.1
      && w.ops[0].pc == w.ops[1].pc == Done
      && id in w.stores && GetToken(w.stores[id], CapabilityModule) == older
      && SpeaksAs(w, older) == {}
  {
    var w0 := Initial(map[CapabilityModule := anchor], {});
    steps := TwoRegistered(id, older, newer, anchor, kinds);
    var more := OlderCredentialLeftInstalled(After(w0, steps), 0, 1);
    RunsJoin(w0, steps, more);
    steps := steps + more;
  }
}
