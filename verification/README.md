# Verified models of the Qt host runtime and its glue generator

This project models the protocols at the centre of the Logos Qt host runtime and of the
generator that emits a plugin's Qt glue, and proves what they promise. `dafny verify dfyconfig.toml`
checks all of it.

| file | component |
|---|---|
| `StringLiteral.dfy`, `CallIds.dfy` | the string literals and call ids in emitted glue |
| `GlueLanguage.dfy`, `GlueEmitter.dfy` | a small language for the statements the generator emits, with an interpreter in which an unbound name is stuck, and the emitter from a module's method list into it |
| `GlueMeaning.dfy`, `GlueScope.dfy` | both emitted forms of `callMethod` mean one reference function; no name is unbound or uncaptured |
| `DeferredDispatch.dfy`, `PoolStartup.dfy` | the running multi provider and its start-up barrier as transition systems |
| `CallHistory.dfy` | what the steps of a run say of its completions: whose call, which listener, in which order |
| `EmittedSteps.dfy` | the steps of that provider are the emitted statements, in their order and with their effect |
| `ConsumerAdmission.dfy`, `ConsumerHost.dfy` | admitting and reissuing consumer credentials: every line a step, any interleaving; and the verbs themselves |
| `CurrentCredential.dfy` | which credential an identity presents and which one is on record, over every interleaving |
| `Tokens.dfy` | token rings and the seeding of the two trust anchors |
| `TokenStores.dfy`, `ClientCache.dfy` | store selection of API objects, and the client cache |
| `ProviderLifecycle.dfy` | registration with a re-entrant initializer, validators, partial failure, destruction |
| `TokenDirection.dfy` | inbound and outbound tokens in the two images of a module |
| `UnloadWait.dfy` | the teardown wait and the emitted hook |
| `LegacyDispatch.dfy`, `ArgOwnership.dfy` | by-name dispatch on a wrapped QObject, and the heap values it marshals |

## What was found

- A result method's reply whose `success` is present but not a boolean makes the emitted code throw.
  The blocking form throws out of `callMethod`; in the deferred form nothing catches it in the
  worker and the process dies. `ThrowsExactlyWhen` states the exact condition on the reply; wherever a run
  can go no further, every deferred call has completed exactly once if and only if no reply threw
  (`ExactlyOnceIff`, with a run in which one does: `AThrowingReplyLosesItsCall`).
- `adoptConsumerCredential` refuses an isolated store but not a value. Pointed at the host's own ring it
  breaks identity separation in two ways: with a value that an isolated store holds, that identity speaks
  as the host (`CoAdoptingAHeldCredential`); with a superseded credential, which no store holds, whoever
  kept it does (`CoAdoptingASupersededCredential`). A run keeps the separation at every point exactly when
  each value was held nowhere, and had never been installed, when it was adopted (`IdentitySeparationIff`).
- A module's unload request that runs its thread's event loop may handle the module's own completion before
  the host has connected to it. The signal is then lost, and the host waits out the whole grace period,
  exactly when every signal of the request was followed by such a loop and no later one is handled before
  the timer can fire (`PumpingLosesIff`, `InlineCompletionLost`).
- Two operations on one identity may interleave so that both answer success and the identity is left
  presenting the older credential, which speaks as nobody: two reissues, but also two admissions of one
  name, or one of each (`InterleavedOperationsDiverge`). Operations need not be serial to avoid that. A successful
  operation's credential is the current one exactly when no other operation on the identity is recorded
  between its registration and its last line (`SuccessIsCurrentIff`); and at any point of any run what an
  identity presents is on record exactly when the operation recorded last is the one that installed last
  (`PresentsTheRecordIff`). An operation whose answer is lost after it was recorded counts as recorded.
- `registerObject` does not look again at whether something is registered after
  `createProviderObject` answers null. A plugin that registers inside it and then answers null is
  registered twice (`AtMostOneIff`). Its second name is then served by the provider of the first, whose proxy
  is reused, though its own initializer ran (`SecondIsServedByTheFirst`). Destruction withdraws only the last name taken, so something is left
  exactly when two names were taken (`OutlivesNoneIff`, `SecondRegistrationLeaks`).
- What keeps a grant from authorizing its callee to call back is the reserved prefix of inbound keys and
  nothing else (`GrantAuthorizesBackIff`).
- Of the parameter types the argument codec decodes, seven are then marshalled as a `QString`
  (`TypeTablesAgreeIff`).
- The embedded `lidl()` document is cut at its first NUL (`EmbeddedDocument`).

## What is assumed of code that is not modelled

- `TokenManager` and `ModuleProxy`: a name's store is the process's ring until the name is isolated;
  isolating is idempotent and refused once the ring was handed out under the name; a bootstrap
  credential sits under `core` and `capability_module`; `adoptCredentialFor` refuses a store that is
  not isolated and the host's token; `informModuleToken` is refused unless the presented token is the
  ring's anchor, and may record and still answer false; inbound tokens live under a reserved prefix.
- capability_module's ring holds the same two anchors as the host's: one store stands for both. After a
  value was adopted into the host's ring, "speaks as the host" is meant towards proxies in the host's process.
- A token granted for a target is not the host's own token.
- A minted credential is non-empty and was never minted before.
- nlohmann's `dump` of an array is its items' texts between brackets, joined by commas, and no
  item's text is empty; parsing, and the conversions between JSON and QVariant, are arbitrary functions.
- The backend obeys its C ABI: a dispatch returns a text or NULL, and does not unwind.
- A semaphore operation, an atomic increment and a queue operation are single steps. The pool takes
  jobs in order, and never runs more at once than `setMaxThreadCount` was given.
- The name of a handshake object determines its module's and never equals a module's.
- Whether a transport takes a surface is fixed for that surface. A transport that declines one has published nothing; unpublishing removes exactly the name.
- The event loop drains posted events before it waits, activates timers after, and returns as soon
  as both are done; timers are exact. The plugin lives on the thread that runs the wait.
- A QHash compares only keys whose hashes are equal; the hash functions themselves are arbitrary.
- `LogosTransportConfig` equality goes over the eight fields its hash goes over.

## Model

| member | source | states |
|---|---|---|
| StringLiteral.CppStringLiteral | qt-host-generator/lidl_gen_cdylib_glue.cpp:9-24 | the escaping loop builds the literal the round trip below is about |
| StringLiteral.LiteralRoundTrip | qt-host-generator/lidl_gen_cdylib_glue.cpp:9-24 | for every string, lexing the emitted token as an ordinary C++17 string literal (ISO/IEC 14882:2017, 5.13.3 and 5.13.5) ends exactly at its end and yields the string |
| StringLiteral.EmbeddedDocument | qt-host-generator/lidl_gen_cdylib_glue.cpp:224-233 | the document `lidl()` answers is the serialized one exactly when it contains no NUL, and else what comes before the first |
| CallIds.CallIdsCollideOnlyOnWrap | qt-host-generator/lidl_gen_cdylib_glue.cpp:378-379 | two calls share an id exactly when one instance made both a multiple of 2^64 calls apart |
| CallIds.CallIdsNeverCollide | qt-host-generator/lidl_gen_cdylib_glue.cpp:105-109 | no two deferred calls of any instances share an id while each makes at most 2^64 |
| GlueLanguage.DumpIsBracketsIffEmpty | qt-host-generator/lidl_gen_cdylib_glue.cpp:499-501 | the dumped argument array is `[]` exactly when there are no arguments, so the worker's test and the blocking form's agree |
| GlueLanguage.PushedInOrder | qt-host-generator/lidl_gen_cdylib_glue.cpp:239-240 | the emitted loop pushes the converted arguments back in the order of the call, each in its place |
| GlueLanguage.DumpSnoc | qt-host-generator/lidl_gen_cdylib_glue.cpp:241-242 | one more item at the end of the array is one more text at the end of its dump |
| GlueEmitter.NameLists | qt-host-generator/lidl_gen_cdylib_glue.cpp:153-166 | a name is in the emitted list of result (void) methods exactly when some such method has it |
| GlueEmitter.MakeCallMethod | qt-host-generator/lidl_gen_cdylib_glue.cpp:144-509 | the generator's loops and appends produce the two programs whose meaning is proved below, for every module, mode and protocol version |
| GlueScope.WorkerNames | qt-host-generator/lidl_gen_cdylib_glue.cpp:428-432 | the worker's lambda uses from outside exactly the names its generated capture list holds, in all four combinations of void and result methods |
| GlueScope.EmittedNamesAreInScope | qt-host-generator/lidl_gen_cdylib_glue.cpp:235-508 | for every module and protocol, neither program uses a name it has not bound, but for the two parameters |
| GlueMeaning.SingleMeansReference | qt-host-generator/lidl_gen_cdylib_glue.cpp:235-317 | the blocking `callMethod`, run by the interpreter, computes the reference answer for every module, name, arguments and backend reply, dispatches once with the arguments in the order of the call, on behalf of the pulled caller, and leaves the callers' stack as it was |
| GlueMeaning.WorkerMeansReference | qt-host-generator/lidl_gen_cdylib_glue.cpp:432-504 | the worker's lambda reports the reference answer under its captured id to its captured listener, whatever thread runs it |
| GlueMeaning.MultiDefersOneJob | qt-host-generator/lidl_gen_cdylib_glue.cpp:353-508 | the deferred `callMethod` answers a sentinel with a new id and queues exactly one job |
| GlueMeaning.QueuedJobCaptures | qt-host-generator/lidl_gen_cdylib_glue.cpp:378-432 | that job holds its own call's name, arguments in the order of the call, id, listener and the caller pulled on the calling thread |
| GlueMeaning.SingleAndMultiAgree | qt-host-generator/lidl_gen_cdylib_glue.cpp:235-508 | the completion a deferred call sends carries the value the blocking form returns, after the same dispatch, for the same caller wherever callers are pushed, for every protocol version; and one throws exactly when the other does |
| GlueMeaning.NullReplyRefuses | qt-host-generator/lidl_gen_cdylib_glue.cpp:204-219 | a NULL dispatch is refused as an unknown method, with that code, message and origin, exactly when methods are listed, none has the name, and it is not a bare name or version |
| GlueMeaning.LidlAnswers | qt-host-generator/lidl_gen_cdylib_glue.cpp:218-233 | `lidl` answers the document, or with arguments a refusal that counts them |
| GlueMeaning.CallersFromProtocolSix | qt-host-generator/lidl_gen_cdylib_glue.cpp:244-256 | callers are pushed exactly from protocol 0.6 on |
| GlueMeaning.ThrowsExactlyWhen | qt-host-generator/lidl_gen_cdylib_glue.cpp:306-313 | the one reply that makes either form throw: an object from a result method whose `success` is present and not a boolean |
| DeferredDispatch.RunKeepsInv | qt-host-generator/lidl_gen_cdylib_glue.cpp:353-508 | over every run and interleaving each call id is in exactly one place: with its caller, queued, with a worker, or completed |
| DeferredDispatch.AtMostOneCompletion | qt-host-generator/lidl_gen_cdylib_glue.cpp:428-508 | every completion has an id no other has, goes to the listener copied for that call, and carries the reference answer to that call's own reply |
| CallHistory.HistoryOfARun | qt-host-generator/lidl_gen_cdylib_glue.cpp:575-576 | over every run the listener in force is the argument of the last setEventListener, and everything copied, answered or seen belongs to a call that a step delivered |
| CallHistory.CompletionsFollowTheSteps | qt-host-generator/lidl_gen_cdylib_glue.cpp:378-504 | every completion is for a call that a step delivered, goes to the listener set last before that call's second statement, and carries the reference answer to a reply that a step returned |
| CallHistory.PoolServesInOrder | qt-host-generator/lidl_gen_cdylib_glue.cpp:432 | the pool begins jobs in the order in which they were queued, none twice and none skipped |
| DeferredDispatch.ExactlyOneCompletion | qt-host-generator/lidl_gen_cdylib_glue.cpp:428-508 | once nothing is in flight every deferred call has completed exactly once |
| DeferredDispatch.ExactlyOnceIff | qt-host-generator/lidl_gen_cdylib_glue.cpp:428-508 | in every reachable state where no working step is left, each deferred call has completed exactly once if and only if no handler's reply throws, and the process has died if and only if one does |
| DeferredDispatch.AThrowingReplyLosesItsCall | qt-host-generator/lidl_gen_cdylib_glue.cpp:483-504 | for any deferred call and any reply that throws there is a run that numbers the call, dies, and completes nothing |
| DeferredDispatch.WorkingRunsAreBounded | qt-host-generator/lidl_gen_cdylib_glue.cpp:432-504 | under every schedule accepted work runs out after boundedly many steps |
| DeferredDispatch.WorkNeverStalls | qt-host-generator/lidl_gen_cdylib_glue.cpp:432-504 | until all is quiet or a worker has thrown some working step is enabled |
| DeferredDispatch.StuckIff | qt-host-generator/lidl_gen_cdylib_glue.cpp:432-504 | a reachable state has no working step exactly when all is quiet or a worker has thrown |
| DeferredDispatch.HandlersReadTheirOwnCaller | cpp/logos_provider_object.cpp:90-115 | across threads and under re-entrancy a handler reads the document pulled on the thread its own call was delivered on, never an empty one |
| DeferredDispatch.LooksOne | cpp/logos_provider_object.cpp:90-115 | a whole blocking call in which the handler reads its caller once adds that one look and leaves the rest as it was, also inside another handler on the same thread |
| DeferredDispatch.NestedCallsReadTheirOwnCallers | cpp/logos_provider_object.cpp:90-115 | for any two calls there is a run in which a handler called back into its own thread reads its own caller before and after, and the inner one its own |
| DeferredDispatch.CallerStacksAreRestored | qt-host-generator/lidl_gen_cdylib_glue.cpp:252-269 | a thread's pushed callers are those of the activations between push and pop, so every return restores the stack it found, and no empty document was pushed |
| DeferredDispatch.WorkersAreBounded | qt-host-generator/lidl_gen_cdylib_glue.cpp:329-331 | whatever calls nest on pool threads, at most the configured number of deferred handlers run at once, each at the bottom of its thread |
| EmittedSteps.EmittedAtStations | qt-host-generator/lidl_gen_cdylib_glue.cpp:235-508 | for every module the noticeable statements of each emitted program (the deferred body, the blocking body, the worker's lambda) are, in order, the statements the transition system executes |
| EmittedSteps.StepsFollowTheEmittedPath | qt-host-generator/lidl_gen_cdylib_glue.cpp:235-508 | the system takes every activation from each of those statements to the next, through the handler at the dispatch, and after the last to its return |
| EmittedSteps.OpeningStatement | qt-host-generator/lidl_gen_cdylib_glue.cpp:378-402 | taking the id, copying the listener and pulling the caller, in either form: interpreting the statement on what the thread finds gives what it finds after the system's step, with locals with which the next statement can run |
| EmittedSteps.StartingStatement | qt-host-generator/lidl_gen_cdylib_glue.cpp:428-504 | starting the worker queues one job, with the worker's body, the captured locals of that very call, and all it needs to run |
| EmittedSteps.BracketStatement | qt-host-generator/lidl_gen_cdylib_glue.cpp:436-444 | push and pop change the thread's callers as the interpreter says, in either form |
| EmittedSteps.DispatchStatement | qt-host-generator/lidl_gen_cdylib_glue.cpp:436-444 | the handler that runs is the one dispatched to, the caller it can read is the one pushed, and its reply is the activation's, in either form |
| EmittedSteps.ReportStatement | qt-host-generator/lidl_gen_cdylib_glue.cpp:502-504 | a worker's report is one completion, to the captured listener under the captured id |
| PoolStartup.Workers | qt-host-generator/lidl_gen_cdylib_glue.cpp:329-331 | the worker count is the configured one if positive, and positive in any case |
| PoolStartup.StartupPostcondition | qt-host-generator/lidl_gen_cdylib_glue.cpp:335-351 | when the constructor returns exactly that many threads exist and no task will touch a semaphore again |
| PoolStartup.NeverDeadlocked | qt-host-generator/lidl_gen_cdylib_glue.cpp:335-351 | until it returns, under every schedule, some thread can move |
| PoolStartup.StartupTerminates | qt-host-generator/lidl_gen_cdylib_glue.cpp:335-351 | no schedule is longer than 5n + 4 steps |
| ConsumerAdmission.RunIsSafe | cpp/logos_consumer.cpp:59-129 | every step of every interleaving keeps the safety invariant, failed operations included |
| ConsumerAdmission.RegisterBeforeAdopt | cpp/logos_consumer.h:160-165 | in every reachable state a bootstrap credential in an isolated store was minted for, and accepted by capability_module for, that very identity |
| ConsumerAdmission.FirstUseDecides | cpp/logos_consumer.cpp:69-78 | over every run a name is isolated exactly when its first use asks for a store of its own |
| ConsumerAdmission.AnchorIff | cpp/logos_consumer.cpp:26-55 | the values the trusted channel presents are those under the two role labels |
| ConsumerAdmission.AdoptedEverywhere | cpp/logos_consumer.cpp:85-95 | an adopted credential is presented under both role labels, and no grant is lost |
| ConsumerAdmission.CoAdoptSeparatesIff | cpp/logos_consumer.cpp:131-156 | one co-adoption keeps the host's token out of isolated stores exactly when none of them already holds the value |
| ConsumerAdmission.CoAdoptKeepsApartIff | cpp/logos_consumer.cpp:131-156 | it also keeps every credential ever installed apart from the host's token exactly when, besides, the value was never one of them |
| ConsumerAdmission.IdentitySeparationIff | cpp/logos_consumer.cpp:59-156 | over every run, whatever interleaves: no isolated store ever holds the host's token exactly when no co-adopted value was held at that time; and besides every identity's credential speaks as that identity alone while on record and as nobody afterwards, exactly when no co-adopted value was held or had ever been installed |
| ConsumerAdmission.CoAdoptingAHeldCredential | cpp/logos_consumer.cpp:131-156 | a run from the start, for any identity, in which it comes to speak as the host |
| ConsumerAdmission.CoAdoptingASupersededCredential | cpp/logos_consumer.cpp:131-156 | a run from the start in which a superseded credential, held by no store, comes to speak as the host |
| CurrentCredential.IdentityFollowsTheRun | cpp/logos_consumer.cpp:59-129 | over every run an identity's record is the credential of the operation recorded last, and its store is exactly the credential of the operation that installed last since it was emptied, under both role labels, and the grants clients kept since |
| CurrentCredential.InstalledWasRecorded | cpp/logos_consumer.h:160-165 | in no run does an isolated store hold a credential unless an earlier step recorded it, asked by the trusted channel, for that operation and identity |
| CurrentCredential.PresentsTheRecordIff | cpp/logos_consumer.cpp:80-129 | over every run, whatever it interleaves, what an identity presents speaks as that identity if and only if the operation recorded last is the one that installed last since the store was emptied |
| CurrentCredential.AdmittedIdentities | cpp/logos_consumer.cpp:80-129 | where identity separation is kept, no isolated store holds the host's token, that identity is then the only one it speaks as (and conversely), and a credential not on record speaks as nobody |
| CurrentCredential.StaysOnRecordIff | cpp/logos_consumer.cpp:85-129 | after any run an operation of either kind that had its answer is on record if and only if it was and no other operation on its identity has been recorded since |
| CurrentCredential.SuccessIsCurrentIff | cpp/logos_consumer.cpp:85-129 | a successful operation of either kind leaves the identity presenting its credential, which speaks as the identity if and only if no other operation on it was recorded between the registration and the last line |
| CurrentCredential.UndisturbedIsUnrecorded | cpp/logos_consumer.cpp:85-129 | in particular when no other operation on the identity takes a line meanwhile |
| CurrentCredential.OutcomeOfAReissue | cpp/logos_consumer.cpp:115-128 | a successful reissue leaves its credential and the grants kept since its own reset, and nothing older, whoever else installed meanwhile |
| CurrentCredential.OutcomeOfAFirstAdmission | cpp/logos_consumer.cpp:69-101 | the store an admission creates holds a credential, at any later time, if and only if an operation on the name has installed one since it was last emptied; so a failed admission leaves nothing but grants |
| CurrentCredential.OlderCredentialLeftInstalled | cpp/logos_consumer.cpp:85-128 | whenever two operations on one identity, of any kinds, are both registered, an order of their last lines leaves the older credential installed |
| CurrentCredential.InterleavedOperationsDiverge | cpp/logos_consumer.cpp:59-129 | that happens, from the start, to any identity and any two kinds: both operations succeed and the identity presents a credential that speaks as nobody |
| ConsumerHost.Process.RegisterAtCapability | cpp/logos_consumer.cpp:26-55 | answers true exactly when the host is the trusted channel and the answer arrives, and changes the record exactly when the request was accepted |
| ConsumerHost.Process.ForIdentity | cpp/logos_api.cpp:57-73 | succeeds exactly when the name is non-empty and isolated or never vended; a new store is empty |
| ConsumerHost.Process.AdmitConsumer | cpp/logos_consumer.cpp:59-101 | the exact condition for success, what is then on record and presented, and what each failure leaves |
| ConsumerHost.Process.ReissueConsumerCredential | cpp/logos_consumer.cpp:103-129 | the exact condition for success, the whole new store, and what each failure leaves, the lock-out included |
| ConsumerHost.Process.AdoptConsumerCredential | cpp/logos_consumer.cpp:131-156 | writes the process's own ring under both roles, and nothing for an isolated store or an empty value |
| ConsumerHost.VerbIsARun | cpp/logos_consumer.cpp:59-129 | a verb that is not interrupted is a run of the step machine with exactly the effect the verbs are specified by |
| TokenStores.Process.Construct | cpp/logos_api.cpp:37-55 | an API object without an explicit store presents from the one store its name has |
| TokenStores.Process.ForIdentity | cpp/logos_api.cpp:57-73 | refused exactly for the empty name and when an API object under the name already presents from the ring |
| TokenStores.Process.GetClient | cpp/logos_api.cpp:168-172 | a client has its API object's name and store |
| TokenStores.Process.Run | cpp/logos_api.cpp:37-73 | over any sequence of these, all API objects and clients under one name hold one store, and a private store serves one name |
| ClientCache.SameIffCanonical | cpp/logos_api.h:66-72 | key equality is equality of canonical keys, the transport erased outside Remote mode |
| ClientCache.SameIsAnEquivalence | cpp/logos_api.h:66-72 | key equality is reflexive, symmetric and transitive |
| ClientCache.SameKeysHashEqually | cpp/logos_api.h:32-82 | equal keys hash equally, whatever the field hashes, the mixing step and the seed |
| ClientCache.LogosApi.Find | cpp/logos_api.cpp:158-161 | the table finds exactly what the plain map over canonical keys holds |
| ClientCache.LogosApi.GetClient | cpp/logos_api.cpp:131-175 | answers the map's client, constructing one on a key's first lookup only, with the capability transport then in force |
| ClientCache.SettingsFollowTheCalls | cpp/logos_api.cpp:182-185 | the settings before a call are those of the last setting calls before it |
| ClientCache.SameClientIffSameKey | cpp/logos_api.h:45-59 | over any run, two lookups answer one client exactly when they ask for the same target in the same mode and, in Remote mode, over the same transport; all said of the calls alone |
| ClientCache.CapabilityIsFrozen | cpp/logos_api.cpp:158-172 | a client was made by its connection's first lookup: for the object's own name, over the transport given or the default then set, with the capability transport last set before it, else that default |
| ClientCache.Run | cpp/logos_api.cpp:117-185 | over any run the hash table answers what the plain map does and constructs one client per canonical key |
| ProviderLifecycle.Provider.constructor | cpp/logos_api_provider.cpp:14-47 | one transport per host that could be created, nothing published |
| ProviderLifecycle.Provider.SetTokenValidator | cpp/logos_api_provider.cpp:153-161 | the proxy's validator is the last one set, before, during or after registration |
| ProviderLifecycle.Provider.SeedHandshakeTrustAnchor | cpp/logos_api_provider.cpp:163-191 | with a host token both anchors end up non-empty, and no existing entry is overwritten |
| ProviderLifecycle.Provider.Offer | cpp/logos_api_provider.cpp:226-230 | every transport is offered the surface, under the guard, and success is that one took it |
| ProviderLifecycle.Provider.PublishHandshake | cpp/logos_api_provider.cpp:193-243 | the proxy exists and is guarded, the anchors are seeded, and every transport was offered the handshake |
| ProviderLifecycle.Provider.PublishProvider | cpp/logos_api_provider.cpp:245-274 | every transport is offered the business object under the validator in force |
| ProviderLifecycle.Provider.RegisterProvider | cpp/logos_api_provider.cpp:115-151 | registers once, whatever the initializer calls, runs it between the two surfaces, and succeeds exactly when some transport takes the business object; the validator, ring and saved tokens are what the executed operations leave |
| ProviderLifecycle.InitTakesEffect | cpp/logos_api_provider.cpp:146-150 | the effects of registering are the seeded anchors and then the initializer's own lines, one by one |
| ProviderLifecycle.ObjectTakesEffect | cpp/logos_api_provider.cpp:80-107 | registering a QObject leaves what registering its wrapping provider does; a provider plugin's, what its createProviderObject and then registering what that made does; and after a null answer, both |
| ProviderLifecycle.LastOnesWin | cpp/logos_api_provider.cpp:153-161 | of a script's effects the last validator set is the one in force, and under each key but the anchors the ring holds the last write |
| ProviderLifecycle.Provider.RegisterObject | cpp/logos_api_provider.cpp:67-108 | what a QObject registers and when it answers true, the provider plugin path and its fall-through included; what its scripts leave; whatever is published is served by the provider of the first registration |
| ProviderLifecycle.Provider.Run | cpp/logos_api_provider.cpp:67-290 | any public operations, in any order and nesting, keep the invariant; the names published, and the validator, ring and saved tokens left, are those the script's structure says |
| ProviderLifecycle.Provider.Destroy | cpp/logos_api_provider.cpp:49-65 | withdraws both recorded names everywhere; what is left on a transport is exactly what it took under another name, so nothing is left exactly when no two names were taken |
| ProviderLifecycle.LiveIsGuarded | cpp/logos_api_provider.cpp:153-202 | whenever either surface is live on any transport, an initializer's own steps included, the shared proxy's validator is the last one set |
| ProviderLifecycle.AtMostOneIff | cpp/logos_api_provider.cpp:80-107 | at most one business object is published exactly when no createProviderObject registers twice over, or registers and answers null |
| ProviderLifecycle.QuietCreateRegistersOnce | cpp/logos_api_provider.cpp:85-107 | so at most one when no createProviderObject registers anything |
| ProviderLifecycle.BusinessFollowsInit | cpp/logos_api_provider.cpp:135-150 | wherever a business object was offered, its initializer had run to its end and every transport had been offered the handshake before it began |
| ProviderLifecycle.OutlivesNoneIff | cpp/logos_api_provider.cpp:49-65 | for any registrations and any transports, nothing taken is under an unrecorded name exactly when no two different names of one kind were taken |
| ProviderLifecycle.Live | cpp/logos_api_provider.cpp:49-274 | over a whole life the log is complete registrations in order, at most one unless something doubles; what outlives the provider is exactly what was taken under a name taken over later, and nothing does exactly when no two names were taken |
| ProviderLifecycle.DoublingNames | cpp/logos_api_provider.cpp:85-107 | for any two names, a plugin whose createProviderObject registers the first and answers null is published under both |
| ProviderLifecycle.SecondIsServedByTheFirst | cpp/logos_api_provider.cpp:193-274 | a second registration runs its own initializer and then publishes, under its own name, the provider of the first |
| ProviderLifecycle.SecondRegistrationLeaks | cpp/logos_api_provider.cpp:93-107 | after two registrations a transport keeps the first name past destruction exactly when it took it and some transport took the second |
| TokenDirection.InboundReachesOutboundIff | cpp/logos_provider_object.cpp:52-63 | an inbound grant changes an outbound lookup exactly when the name looked up spells the reserved key |
| TokenDirection.DirectionsDoNotInterfere | cpp/logos_provider_object.cpp:52-63 | over any run of writes, a lookup in one direction answers what that direction's own writes alone make it |
| TokenDirection.Module.InformHost | cpp/qt_provider_object.cpp:494-519 | an inbound write to the host image, or nothing without an API object |
| TokenDirection.Module.InformModuleToken | qt-host-generator/lidl_gen_cdylib_glue.cpp:536-573 | writes both images, inbound where the protocol has that door, and answers true exactly when both were taken |
| TokenDirection.Module.OnInit | qt-host-generator/lidl_gen_cdylib_glue.cpp:591-617 | seeds the module's own outbound anchors, and only with a non-empty token |
| TokenDirection.Module.SeedAnchor | cpp/logos_api_provider.cpp:163-191 | the loop over the two keys is two outbound writes that keep what is there |
| Tokens.SeedAnchors | cpp/logos_api_provider.cpp:163-191 | with a host token both anchors end up non-empty, and nothing already there under any key is overwritten |
| TokenDirection.Module.Run | cpp/logos_provider_object.cpp:39-64 | over any life of a module both images hold exactly those writes |
| TokenDirection.LooksUpTheLatest | cpp/logos_provider_object.cpp:39-64 | after any run of grants and starts, callers keeping their tokens in either image or both, callees told through either provider kind, every lookup of a peer in either image and direction answers the last event that concerns it |
| TokenDirection.StartSeedsBothImages | cpp/logos_api_provider.cpp:163-191 | a start leaves the host's token under both anchors of the module's own image, and under each of the host image's that was empty |
| TokenDirection.AcceptsWhatWasGranted | cpp/logos_provider_object.cpp:52-63 | so a module accepts from a caller exactly the last token granted to that caller for it and told to it; a grant the other way gives nothing, also when it was kept in the image that authorization scans |
| TokenDirection.GrantAuthorizesBackIff | cpp/logos_provider_object.cpp:52-63 | a grant kept in the caller's host image lets the callee call back with it exactly when the two directions share their keys |
| TokenDirection.PresentsWhatWasGranted | qt-host-generator/lidl_gen_cdylib_glue.cpp:548-561 | and it presents to a peer, from either image, exactly what was last granted to it and kept there, anchor keys aside |
| TokenDirection.OneGrantPointsBackIff | qt-host-generator/lidl_gen_cdylib_glue.cpp:562-570 | one grant makes the callee present the caller's token back to it exactly when the protocol has no inbound door |
| UnloadWait.SendPosted | cpp/logos_plugin_unload.cpp:32-36 | one drain handles everything that has arrived, also what arrives while it runs |
| UnloadWait.ReachCovers | cpp/logos_plugin_unload.cpp:32-69 | whatever arrives before the deadline is handled before the timer can fire |
| UnloadWait.HandledIff | cpp/logos_plugin_unload.cpp:53-60 | an event is handled before the timer can fire if and only if the thread was never idle at or after the deadline before it: the drains of the loop against a server that handles one event after another |
| UnloadWait.Exec | cpp/logos_plugin_unload.cpp:53-60 | the nested loop returns with its timer still active exactly when a completion was handled before the timer could fire; it then returns as soon as the thread first pauses after the first completion, and else at the deadline or when the handler then running is done |
| UnloadWait.RunPluginAboutToUnload | cpp/logos_plugin_unload.cpp:21-69 | when it does not wait; otherwise it finishes exactly when a completion is handled before the timer can fire, as every one that arrives before the deadline is, posted before the loop began included; and when exactly it returns, either way |
| UnloadWait.PostedIff | qt-host-generator/lidl_gen_cdylib_glue.cpp:666-694 | what the hook's two lines leave for the wait, its steps run one by one: what came after the request last ran the loop; with the question asked first, no signal of the request |
| UnloadWait.AboutToUnload | qt-host-generator/lidl_gen_cdylib_glue.cpp:666-694 | the hook answers the module's flag and leaves exactly that; nothing without a teardown surface |
| UnloadWait.SeenIff | cpp/logos_plugin_unload.cpp:37-57 | for any request and any later arrivals, late ones included: the host sees a completion if and only if the callback was there and the request signalled after it last ran the loop, or a later signal is handled before the timer can fire, behind what the request left to do |
| UnloadWait.Teardown | cpp/logos_plugin_unload.cpp:21-69 | the hook and the wait together: the exact outcome and the exact end, and success for every later signal before the deadline |
| UnloadWait.OrderMattersIff | qt-host-generator/lidl_gen_cdylib_glue.cpp:677-691 | the emitted order sees a completion and asking first does not, exactly when the request signalled after it last ran the loop and no later signal is seen |
| UnloadWait.PumpingLosesIff | cpp/logos_plugin_unload.cpp:25-46 | a request that signals goes unseen exactly when it ran the loop after every signal and no later one is seen |
| UnloadWait.InlineCompletionLost | cpp/logos_plugin_unload.cpp:37-57 | for instance one signal and one such loop: the wait gives up after the whole grace period |
| UnloadWait.InlineCompletionSeen | qt-host-generator/lidl_gen_cdylib_glue.cpp:677-691 | the same signal without that loop is seen |
| LegacyDispatch.Resolve | cpp/qt_provider_object.cpp:347-356 | the lowest index with the name and arity, or none exists |
| LegacyDispatch.ListArities | cpp/qt_provider_object.cpp:366-371 | exactly the distinct arities of the name, each once |
| LegacyDispatch.RefuseUnresolved | cpp/qt_provider_object.cpp:358-380 | unknown_method exactly when no entry has the name, invalid_args otherwise, naming an arity exactly when there is one, and an empty answer exactly for a bare name or version |
| LegacyDispatch.DecodeArgs | cpp/qt_provider_object.cpp:400-430 | the first rejected argument's reason, or every argument in the form the method declares |
| LegacyDispatch.Decide | cpp/logos_qt_arg_decode.cpp:25-56 | unchecked exactly for types the codec has no rule for; an accepted value is the decoded one, of the declared type, and a rejection gives the codec's reason |
| LegacyDispatch.CallMethod | cpp/qt_provider_object.cpp:302-492 | every answer of the dispatch, and that no body is tried unless every argument got past the codec, the return type is supported and there are at most five arguments |
| LegacyDispatch.DeclaredTypesTravelIff | cpp/qt_provider_object.cpp:84-193 | a decoded argument reaches the by-name call in its declared type exactly for the eleven types both tables know, and as a QString otherwise |
| ArgOwnership.TypeTablesAgreeIff | cpp/qt_provider_object.cpp:84-193 | which types the codec decodes, and on which of them the two tables agree |
| ArgOwnership.LimitsOfACall | cpp/qt_provider_object.cpp:195-240 | how many arguments a call by name takes, and which types it can return |
| ArgOwnership.Reallocate | cpp/qt_provider_object.cpp:41-64 | growth moves every element and deletes nothing |
| ArgOwnership.ToScopedQArgs | cpp/qt_provider_object.cpp:84-193 | under any growth pattern each argument's copy is alive and owned once, by its own type's deleter |
| ArgOwnership.InvokeMethodByArgCount | cpp/qt_provider_object.cpp:195-240 | the call sees every value alive, and afterwards each was deleted exactly once, by its own type's deleter, whichever way the call ended |

## Left out

- Transports, the argument codec's rules, `TokenManager`'s storage and `ModuleProxy` itself are in logos-protocol and not part of this model beyond the assumptions above; so are the LIDL parser and serializer.
- Qt's meta-object system, moc, logging, image binding and object layout: a call by name is one that may find nothing.
- Message texts of warnings, comments and includes in emitted glue; module names and versions spliced raw into literals.
- File output and flags of the generator, the Nix and CMake logic, getters, string overloads and the vanilla plugin: they would add only easy members.
- The emitted `getMethods`, host services and context forwarding: straight-line forwarding.
- Order between a deferred call's sentinel and its completion: a worker may be faster, so none is claimed.
- The list a wrapped QObject's `getPluginMethods` answers: reading it off the meta-object.
- WorkersAreBounded: the pool's own limit is assumed, not proved; QThreadPool is not part of this model.
- CallerStacksAreRestored: a blocking call whose answer throws leaves after its pop; the exception's further way through an outer handler is not modelled.
- PublishProvider: does not claim non-empty trust anchors for the business object, since an initializer may have emptied them.
- AtMostOneIff: createProviderObject and init are scripts of public operations; an initializer that destroys its own provider is not modelled.
- ToScopedQArgs: allocation failure in the middle of the loop is not modelled.
- An explicit token store handed to a LogosAPI constructor: no claim about names is made for such objects.
- Coarse timers: Qt may fire a one-shot timer a few percent early or late.
