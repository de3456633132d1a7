# Live-submission authority and its arithmetic, verified

This project models the part of a prediction-market client that decides whether an order may
be sent, and the arithmetic and text code around it, and proves what that code promises.

An order is POSTed with live credentials only while a chain of authorities agrees: a
*controller* mints a capability for one revocation epoch and one protocol authority, a *gate*
hands out a permit for one protocol generation, and the client holds an *installed* pair of SDK
client and authority. Revocation, refresh, activation and submission run concurrently and take
different locks. The first half of the project is about every interleaving of them; the second
half is about the functions that surround a submission: retries, rate-limit hints, fees, the
position inventory, settlement hashes, and the two path languages used in diagnostics.

## How it is laid out

| files | content |
|---|---|
| `Authority` | 64-bit bound, `Option`, `Result`, protocol authorities |
| `SubmissionProtocol` | the controller as a transition system, one step per lock, atomic load, atomic store or guarded write |
| `SubmissionProofs`, `SubmissionSafety` | the invariant and what each step guarantees other threads; safety over whole runs |
| `ControllerIdentity` | the process-wide identity counter; two reservations never agree |
| `SubmissionController` | the controller as a class, one critical section per method, each tied to what an uninterrupted thread of the transition system does |
| `SubmissionCalls` | what each call of the controller comes to from its start to its return, whatever other threads do meanwhile |
| `ProtocolGate` | the gate as a class, and laws of sequences of its operations |
| `ClientProtocol` | the client composed with the controller: gate latch, installed pair, refresh mutex, serial mutex |
| `ClientProofs`, `ClientLink`, `ClientOwnership` | invariants of the client, of its calls into the controller, and of who owns which attempt |
| `ClientSafety`, `ClientProjection` | safety of the composed system; the controller inside it as a run of its own |
| `ClientChecks` | what a submission checks, and what becomes of the gate when a check fails, when the POST is settled, and when the submission is dropped |
| `ClientEvidence` | what stands behind every POST, opening and installed pair: the checks passed, in their order, and where permits and guards come from |
| `ClientProgress` | what a client thread can wait for, and that nothing else ever stops one |
| `ClientWitness`, `ClientReopening` | concrete composed runs: a prepared order whose first POST is overtaken, and an order built on the spot that posts; when a generation can be opened twice, and one run that does it |
| `Text`, `RetryHint` | byte-string scanning; the rate-limit hint printed by one crate and parsed by another |
| `OperationErrors`, `RetryEnvelope` | classification of errors and answers; the retry loop |
| `Fees`, `Positions`, `TradeResolution` | the fee formula, the paged inventory, settlement hashes of a batch |
| `JsonPath`, `ResponsePath`, `TradeDiagnostics` | the path parser, the path recognizer, and what the trade decoder reports |

A run is a sequence of states joined by enabled actions from an initial state, with any fixed
number of threads. All run theorems quantify over every run. A future dropped at an await and a
panic of a lock holder are actions like any other.

Where the code and the shape its own documentation suggests differ, the model follows the code:

* The poison flag is stored before the mutex is taken when an authorization predicate unwinds, so
  a first poll can happen while the flag is already set, though the flag was tested clear in the
  same hold of the mutex. `FirstPollPoisonedIffUnwoundSince` says exactly when.
* The gate is not locked across the first poll. It can be closed after the permit matched and
  before the POST begins. `GateOpenAtFirstPostIffNotClosedSince` says exactly when;
  `FirstPostMayBeOvertaken` exhibits one run with both of these.
* A revoking answer does not always close the gate: a submission that is dropped while it reads the
  version after its answer leaves the gate open for the revoked permit. `FailedCheckRetires` says that every
  other one retires it, `AbandonedSubmissionLeavesGate` that a dropped one never does, and
  `RevokedGateMayStayOpen` exhibits a run.
* A generation can be activated twice: a submission still holding a permit of an older generation
  quarantines it, which closes the newer gate without raising the watermark to it.
  `ProtocolGate.ReopenableIff` and `ClientReopening.ReopenableIff` say exactly when an authority can be
  activated again after any stretch of operations or steps, `OpenedTwiceByStalePermit` that nothing else
  causes it, and `MayOpenTwice` exhibits a run.
* The general error classifier looks for a 429 in an error's source before it looks at the error's
  kind. Because the SDK pairs sources with kinds, an ambiguous error is still never called rate
  limited; `AmbiguousIsNeverRateLimited` is about exactly the errors the SDK builds.
* A maker or trade whose `fee_usdc` is invalid is reported without a path, because that field is not
  in the trade endpoint's list; nor are an order's `owner`, `maker_address`, `associate_trades`, `outcome`
  and `order_type` in the order endpoint's. `OwnedIffOnWire` says that nothing else is missing.
* The key `?` and keys with path punctuation cannot be found by path. `KeyIsFoundIff` says which can.

## Model

| member | source | states |
|---|---|---|
| SubmissionProofs.StepKeeps | crates/rspm/src/clob/submission.rs:52-340 | Every step of every thread keeps the invariant (fence, capabilities, epochs, what each program point knows), moves the history only forward, and stays within what other threads rely on. |
| SubmissionSafety.RunKeeps | crates/rspm/src/clob/submission.rs:52-378 | The invariant holds in every state of every run. |
| SubmissionSafety.RunIsLater | crates/rspm/src/clob/submission.rs:150-171 | Along a run the epoch, the poison flag and the history of activated epochs only ever grow, capability numbers are never reused, and a live capability never changes. |
| SubmissionSafety.FirstPollHoldsExactAuthority | crates/rspm/src/clob/submission.rs:293-337 | A transport's first poll happens under the mutex, with exactly the attempt's grant active, its epoch current, its read fence held and no lease out. |
| SubmissionSafety.PoisonTestedUnderTheMutex | crates/rspm/src/clob/submission.rs:311-326 | Every first poll follows a poison test that passed in the same uninterrupted hold of the mutex. |
| SubmissionSafety.FirstPollPoisonedIffUnwoundSince | crates/rspm/src/clob/submission.rs:70-78 | The flag is set at a first poll if and only if an unwinding authorization stored it between that test and the poll. |
| SubmissionSafety.RevocationIsFinal | crates/rspm/src/clob/submission.rs:150-171 | After a revocation publishes, any first poll in the rest of the run is of an attempt minted later under an epoch at least as new; with the flag set there is none. |
| SubmissionSafety.PoisonIsFinal | crates/rspm/src/clob/submission.rs:304-326 | Once the flag is set and nobody is past its test, no transport is begun for the rest of the run. |
| SubmissionSafety.UnwindingIsFinal | crates/rspm/src/clob/submission.rs:70-77 | From the moment an unwound authorization has the mutex, or a holder has stored the flag under it, there is no first poll for the rest of the run. |
| SubmissionSafety.RevokedAttemptGetsZeroPolls | crates/rspm/src/clob/submission.rs:350-378 | An attempt minted before a published revocation whose transport had not begun gets no poll, first or later, ever again. |
| SubmissionSafety.LeaseExcludesAttempts | crates/rspm/src/clob/submission.rs:183-190 | While an exclusive lease is held no capability is live, no transport is unfinished, no authorization is in progress. |
| SubmissionSafety.RevokeThenLeaseDrains | crates/rspm/src/clob/submission.rs:183-190 | Revoking and then acquiring the lease leaves no POST of an earlier attempt in flight, from that moment to the end of the run. |
| SubmissionSafety.ActivationFindsNoCapability | crates/rspm/src/clob/submission.rs:238-262 | Whenever a grant is activated no capability is live and none was active. |
| SubmissionSafety.ActiveGrantIsCurrent | crates/rspm/src/clob/submission.rs:238-262 | In every state of every run an active grant was activated for its epoch, and is of the current epoch whenever the mutex is free and not poisoned; the only exceptions are inside a revocation and after a holder's panic. |
| SubmissionSafety.EachEpochActivatedOnce | crates/rspm/src/clob/submission.rs:238-262 | Two activations in one run are of strictly increasing epochs, also when the counter is exhausted. |
| SubmissionSafety.OneAuthorityPerEpoch | crates/rspm/src/clob/submission.rs:194-232 | Capabilities of one epoch carry one authority, however far apart in the run they were live. |
| SubmissionSafety.ActivationSawNoRevocation | crates/rspm/src/clob/submission.rs:238-262 | An activation for an epoch observed earlier succeeds only if nothing was revoked since that observation. |
| SubmissionSafety.RefusalLeavesNothingActive | crates/rspm/src/clob/submission.rs:194-232 | When an authorization is about to return nothing, or to resume unwinding, no grant is active and no lease is out. |
| SubmissionSafety.SelfRevocationCancelsNoLaterActivation | crates/rspm/src/clob/submission.rs:194-232 | While an authorization holds the read fence nobody activates, so the revocation it issues can only clear the grant it checked against. |
| SubmissionController.ControllerState.LockActive | crates/rspm/src/clob/submission.rs:54-68 | Grants access exactly when neither poison mark is set; otherwise clears the grant and leaves the flag set. |
| SubmissionController.ControllerState.PoisonAndClearActive | crates/rspm/src/clob/submission.rs:70-77 | Leaves the flag set and nothing active. |
| SubmissionController.ControllerState.RequestRevocation | crates/rspm/src/clob/submission.rs:152-171 | Moves the epoch on or, when it is exhausted or the mutex was poisoned, sets the flag; always clears the grant. |
| SubmissionController.ControllerState.Activate | crates/rspm/src/clob/submission.rs:238-262 | Activates exactly when unpoisoned, empty and at the expected epoch, and then validates for that grant. |
| SubmissionController.ControllerState.AuthorizeIf | crates/rspm/src/clob/submission.rs:194-232 | Mints exactly the active grant for an approving predicate; otherwise, refused, unwound or mismatched, nothing is minted, nothing stays active, and the epoch has moved on or the flag is set. |
| SubmissionController.ControllerState.Revalidate | crates/rspm/src/clob/submission.rs:266-289 | Confirms an attempt exactly when binding, authority, epoch and active grant all agree; a foreign attempt does not touch the state. |
| SubmissionController.ControllerState.PollFirstTransport | crates/rspm/src/clob/submission.rs:293-337 | Polls exactly when the attempt validates; a panicking poll leaves the controller poisoned and empty. |
| ControllerIdentity.IdentityCounter.ReserveIdentity | crates/rspm/src/clob/submission.rs:116-122 | Returns the counter and moves it on, or refuses for ever once exhausted. |
| ControllerIdentity.IdentitiesNeverRepeat | crates/rspm/src/clob/submission.rs:116-122 | In any series of reservations the identities are strictly increasing, never zero, and never wrap. |
| ControllerIdentity.IdentitiesDiffer | crates/rspm/src/clob/submission.rs:116-138 | Any two successful reservations of one process give different identities. |
| ControllerIdentity.IdentityIs | crates/rspm/src/clob/submission.rs:116-122 | The k-th reservation of a process answers k + 1, up to the largest 64-bit number but one, and then refuses. |
| SubmissionController.RevocationAlone | crates/rspm/src/clob/submission.rs:152-171 | An uninterrupted revocation of the transition system does what the method's specification says. |
| SubmissionController.ActivationAlone | crates/rspm/src/clob/submission.rs:238-262 | The same for an activation, in all its refusing branches. |
| SubmissionController.AuthorizationAlone | crates/rspm/src/clob/submission.rs:211-231 | The same for an authorization, including the capability minted and the self-revocation. |
| SubmissionController.ValidationAlone | crates/rspm/src/clob/submission.rs:304-326 | The same for validating an attempt, up to its first poll or its confirmation. |
| SubmissionCalls.MintFollowsApproval | crates/rspm/src/clob/submission.rs:194-232 | Over any run, a thread on its way to mint for an authority had its own predicate approve exactly that authority, with nothing but that way in between. |
| SubmissionCalls.MintFollowsDecision | crates/rspm/src/clob/submission.rs:214-223 | Over any run, every mint follows a decision of its own call that found, under the mutex, the flag clear and exactly that grant active and current, with nothing in between. |
| SubmissionCalls.MintIsOfItsGrant | crates/rspm/src/clob/submission.rs:224-231 | The capability a mint adds carries the grant of the approved authority and the controller's binding. |
| SubmissionCalls.DeniedCallMintsNothing | crates/rspm/src/clob/submission.rs:203-223 | After a predicate has refused or unwound, its call mints nothing for as long as it lasts; about to return, nothing is active and the epoch has moved on since the verdict or the flag is set. |
| SubmissionCalls.RevocationReturnsOnlyByPublishing | crates/rspm/src/clob/submission.rs:152-171 | A revocation that was called leaves its section only by publishing or by its thread's panic; when it publishes, the epoch has moved on since the call or the flag is set. |
| SubmissionCalls.ConfirmationFollowsChecks | crates/rspm/src/clob/submission.rs:266-289 | Over any run, a revalidation is confirmed only after its own call found the flag clear and then, in the same hold of the mutex, exactly the attempt's grant active and current. |
| SubmissionCalls.ActivationFindsControllerClear | crates/rspm/src/clob/submission.rs:238-262 | Over any run, a grant is only ever activated with neither poison mark set, nothing active and the expected epoch, by a thread holding mutex and lease: nobody can set the flag after the retest. |
| SubmissionCalls.TransportGoesOnIff | crates/rspm/src/clob/submission.rs:326-378 | A begun transport goes on with its own attempt until a poll is ready or panics, it is dropped, or its thread panics; a first poll that comes back gives the mutex up. |
| SubmissionCalls.PanickedPollIsFinal | crates/rspm/src/clob/submission.rs:326-337 | After a first poll has panicked no other transport is begun in the rest of the run, even if its thread panics again before storing the flag. |
| SubmissionCalls.RevokeCallAlone | crates/rspm/src/clob/submission.rs:152-171 | From its call on, an uninterrupted revocation does what the method's specification says. |
| SubmissionCalls.ActivateCallAlone | crates/rspm/src/clob/submission.rs:238-262 | From its call on, an uninterrupted activation does what the method's specification says. |
| SubmissionCalls.AttemptCallAlone | crates/rspm/src/clob/submission.rs:266-324 | From its call on, an uninterrupted revalidation or POST of an attempt stops at a foreign binding or authority, and otherwise is confirmed or polled exactly when its grant validates. |
| SubmissionCalls.AuthorizeCallAlone | crates/rspm/src/clob/submission.rs:194-232 | A whole uninterrupted authorization for each verdict: approved it mints the active grant, refused it revokes, unwound it poisons and clears; without a mint the epoch has moved on or the flag is set. |
| SubmissionCalls.PollReturnsAlone | crates/rspm/src/clob/submission.rs:326-337 | A first poll that is ready or pending leaves the controller as it is and gives the mutex up; one that panics leaves it poisoned and empty. |
| SubmissionCalls.LeaseIsGivenBack | crates/rspm/src/clob/submission.rs:183-190 | A lease that is dropped, or whose holder panics, frees the fence. |
| SubmissionCalls.EndedCallHoldsNothing | crates/rspm/src/clob/submission.rs:266-378 | A call that ends, by a refused upgrade, a ready or cancelled transport, a return, a dropped lease or a panic, leaves its thread idle with no mutex, guard or lease, and epoch, grant, flag and capabilities as they were. |
| SubmissionCalls.NoCallIsStuck | crates/rspm/src/clob/submission.rs:150-378 | In every state of every run a thread that has not returned can go on, or it waits for the mutex and the thread that holds it can. |
| SubmissionCalls.NothingForeclosesAnOutcome | crates/rspm/src/clob/submission.rs:150-378 | A free thread can always call a revocation, whatever lease or guard is out; a predicate may answer, a poll return and an upgrade fail in any way, and a holder may panic anywhere. |
| ProtocolGate.ProtocolSubmissionGate.CloseActive | crates/rspm/src/clob/client.rs:85-98 | Closes an active gate and retires its generation; leaves an indeterminate one alone. |
| ProtocolGate.ProtocolSubmissionGate.QuarantineAuthority | crates/rspm/src/clob/client.rs:100-107 | Raises the watermark and closes, unless indeterminate. |
| ProtocolGate.ProtocolSubmissionGate.MarkPostSendIndeterminate | crates/rspm/src/clob/client.rs:109-114 | Raises the watermark and becomes indeterminate for the authority. |
| ProtocolGate.ProtocolSubmissionGate.ActivateIf | crates/rspm/src/clob/client.rs:1065-1076 | Opens exactly when the generation may be activated and the caller's closure agrees; the permit then matches. |
| ProtocolGate.RunKeepsSound | crates/rspm/src/clob/client.rs:84-137 | Over any operations the watermark never falls, an open generation is above it and an indeterminate one at or below it. |
| ProtocolGate.RetiredNeverMatches | crates/rspm/src/clob/client.rs:84-137 | After closing from active, quarantining or marking an authority, no permit of its generation or an older one matches or can be activated again. |
| ProtocolGate.MatchesIffPermitted | crates/rspm/src/clob/client.rs:125-137 | In every reachable gate a permit matches exactly when it is the one the gate would hand out. |
| ProtocolGate.IndeterminateUntilNewer | crates/rspm/src/clob/client.rs:84-123 | An indeterminate gate leaves that state only through an activation of a strictly newer generation. |
| ProtocolGate.ReactivationIffOlderRetired | crates/rspm/src/clob/client.rs:100-119 | Right after an activation, one operation makes the same authority activatable again if and only if it retires an older generation. |
| ProtocolGate.ReopenableIff | crates/rspm/src/clob/client.rs:84-123 | After any stretch of operations an authority above the watermark can be activated if and only if the gate does not end open and nothing at or above its generation was retired; if the gate was open for it before, something older was retired meanwhile. |
| ClientProofs.ClientStepKeeps | crates/rspm/src/clob/client.rs:606-799 | Every client step keeps what the other client threads rely on about gate, installed pair and the two mutexes. |
| ClientLink.SystemStepKeeps | crates/rspm/src/clob/client.rs:651-680 | Every composed step keeps the link between a submission and its call into the controller. |
| ClientOwnership.StepKeepsOwners | crates/rspm/src/clob/client.rs:1310-1411 | Every composed step keeps attempts owned by at most one submission, owned attempts live, and foreign attempts tied to another controller's reservation. |
| ClientOwnership.ForeignNeverPasses | crates/rspm/src/clob/submission.rs:266-275 | An attempt of another controller never gets through the comparison of bindings, because its binding is the answer of another reservation. |
| ClientSafety.RunKeeps | crates/rspm/src/clob/client.rs:606-1100 | The composed invariant holds in every state of every run. |
| ClientSafety.FirstPostAllAgree | crates/rspm/src/clob/client.rs:651-763 | At every first poll of a POST, of any attempt, the installed authority, the permit, the attempt's authority, the controller's active grant and the order's version agree; the attempt is of this client's controller, by its binding; the submission owns the serial section, the read guard and the controller mutex; the gate is open for the permit, or closed with its generation retired. |
| ClientSafety.OneTransportAtATime | crates/rspm/src/clob/client.rs:1388-1411 | In every state of every run at most one thread's transport is begun and unfinished. |
| ClientSafety.OpenGateMatchesInstalled | crates/rspm/src/clob/client.rs:1038-1077 | A gate open for an authority means exactly that authority is installed, above the watermark. |
| ClientSafety.InstalledGenerationsIncrease | crates/rspm/src/clob/client.rs:961-1030 | Installed generations strictly increase with every change of the pair, whatever fails in between; the watermark never falls. |
| ClientSafety.AfterMarkOnlyNewerPosts | crates/rspm/src/clob/client.rs:109-114 | After a generation is marked indeterminate every later POST is of a strictly newer one, which a refresh installed after the mark and an activation opened after that. |
| ClientSafety.AfterUnknownAnswerOnlyNewerPosts | crates/rspm/src/clob/client.rs:764-780 | The same from the very step at which a POST comes back with an answer that leaves acceptance unknowable: no queued submission posts before the mark. |
| ClientSafety.UnknownAnswersAre | crates/rspm/src/clob/client.rs:685-698 | Those answers are exactly lost requests, server errors, and responses that contradict themselves. |
| ClientSafety.OneAttemptPostsOnce | crates/rspm/src/clob/submission.rs:100-114 | No two first polls of a run are of the same attempt: one capability pays for one POST. |
| ClientSafety.GateOpenAtFirstPostIffNotClosedSince | crates/rspm/src/clob/client.rs:715-763 | At a first POST the gate is open for the permit if and only if no outside revocation and no refresh closed it since the permit matched. |
| ClientSafety.StepMovesGate | crates/rspm/src/clob/client.rs:84-137 | Every composed step leaves the gate alone or performs exactly one of its operations. |
| ClientChecks.FailedCheckRetires | crates/rspm/src/clob/client.rs:636-796 | A submission that learns from a match, a revalidation, the first poll, the venue's answer or the version read after it that its authority is gone, and is not dropped while it reads the version after its answer, retires its permit's generation before it gives up the serial section. |
| ClientChecks.AfterFailedCheckOnlyNewerPosts | crates/rspm/src/clob/client.rs:764-796 | After such a check every later POST is of a strictly newer generation, opened by an activation since; if the permit had matched before, also installed by a refresh since. |
| ClientChecks.QuarantineFollowsFailedCheck | crates/rspm/src/clob/client.rs:636-796 | Conversely a submission quarantines its permit only after one of its own checks has failed in the same hold of the serial section. |
| ClientChecks.SettledPostLeavesGate | crates/rspm/src/clob/client.rs:780-798 | A settled answer that does not revoke, with the version read after it equal and the permit still matching, leaves the gate alone: none of the submission's steps touches it from that answer until it is out. |
| ClientChecks.AbandonedSubmissionLeavesGate | crates/rspm/src/clob/client.rs:764-798 | A submission that is dropped at any await leaves the gate as it is, then and in all its own steps after it. |
| ClientChecks.RevokedGateMayStayOpen | crates/rspm/src/clob/client.rs:780-798 | There is a run in which the venue's answer revokes the authority, the submission is dropped while it reads the version, and the gate stays open for the revoked permit. |
| ClientChecks.RevokingAnswersAre | crates/rspm/src/clob/client.rs:282-343 | The revoking answers are exactly three local reasons and, under any status that is not read first, bodies that report a stale order version or an empty balance with its allowance; no response the venue accepts or refuses revokes. |
| ClientEvidence.EveryPostPassedItsChecks | crates/rspm/src/clob/client.rs:614-763 | Everything a submission found out before its first poll, in order: version, match, revalidation, and all three again; an order built on the spot is built in between under the same version, and after them signed and matched once more. |
| ClientEvidence.PreparationPassedItsChecks | crates/rspm/src/clob/client.rs:1206-1234 | A prepared order was built and signed after the version and the match of its own permit. |
| ClientEvidence.PermitWasHandedOut | crates/rspm/src/clob/client.rs:614-626 | Whatever permit a submission holds was handed to it by the gate, open for exactly that authority, in the same hold of the serial section. |
| ClientEvidence.OpeningWasObserved | crates/rspm/src/clob/client.rs:1047-1077 | The gate is opened for an authority only after the same activation has read that authority's version from the installed client, with refresh mutex, guard and installed pair held from there on. |
| ClientEvidence.InstalledPairWasObserved | crates/rspm/src/clob/client.rs:961-1030 | An installed pair is the version and identity its refresh observed under the generation after the one installed then, with the gate not open in between. |
| ClientEvidence.InstalledGenerationFits | crates/rspm/src/clob/client.rs:966-977 | No generation in use ever passes 64 bits, in any run. |
| ClientEvidence.OneSubmissionHoldsGuard | crates/rspm/src/clob/client.rs:1388-1411 | In every state of every run at most one submission holds the read guard of the installed pair, and it holds the serial section: the guard is dropped before the section is. |
| ClientProgress.GoesOnIffNotWaiting | crates/rspm/src/clob/client.rs:606-1100 | In every state of every run a client thread can go on, whatever it is then answered, if and only if it does not wait for a mutex or lock somebody holds or for its own call into the controller. |
| ClientReopening.ReopenableIff | crates/rspm/src/clob/client.rs:1038-1077 | Once opened in a run, an authority can be opened again at a later point if and only if the gate is not open there and no step since retired its generation or a newer one. |
| ClientReopening.OpenedTwiceByStalePermit | crates/rspm/src/clob/client.rs:623-640 | Between two openings of one authority some submission quarantined a permit of a strictly older generation while the gate was open for the newer one. |
| ClientReopening.MayOpenTwice | crates/rspm/src/clob/client.rs:614-649 | There is a run in which one authority is opened twice. |
| ClientProjection.ProjectionIsRun | crates/rspm/src/clob/client.rs:651-680 | The controller's part of every composed run is a run of the controller alone. |
| ClientProjection.StandsInProjection | crates/rspm/src/clob/client.rs:651-680 | Every state and every controller step of the composed run stands in that run, in order. |
| ClientProjection.RevokedAttemptIsNeverPosted | crates/rspm/src/clob/client.rs:1310-1411 | After a controller revocation publishes, no order already holding an attempt is POSTed. |
| ClientProjection.RevokedAttemptGetsZeroPolls | crates/rspm/src/clob/submission.rs:350-378 | Inside a client too, an earlier attempt whose transport had not begun gets no poll, first or later. |
| ClientProjection.RevokeThenLeaseDrains | crates/rspm/src/clob/submission.rs:183-190 | Inside a client too, revoking and then acquiring the lease leaves no transport of an earlier attempt in flight. |
| ClientProjection.EachEpochActivatedOnce | crates/rspm/src/clob/submission.rs:238-262 | Inside a client too, later activations are of strictly later epochs. |
| ClientProjection.OneAuthorityPerEpoch | crates/rspm/src/clob/submission.rs:194-232 | Inside a client too, capabilities of one epoch carry one authority. |
| ClientProjection.ActivationSawNoRevocation | crates/rspm/src/clob/submission.rs:238-262 | Inside a client too, an activation succeeds only if nothing was revoked since its epoch was observed. |
| ClientProjection.SelfRevocationCancelsNoLaterActivation | crates/rspm/src/clob/submission.rs:194-232 | Inside a client too, nobody activates while an authorization holds the fence, so its own revocation clears at most the grant it checked against. |
| ClientProjection.UnwindingIsFinal | crates/rspm/src/clob/submission.rs:194-210 | Inside a client too, no POST begins once an unwound authorization has the mutex. |
| ClientWitness.FirstPostMayBeOvertaken | crates/rspm/src/clob/client.rs:738-763 | There is a run in which a POST gets its first poll with the gate closed and the poison flag set. |
| ClientWitness.BuiltOrderMayPost | crates/rspm/src/clob/client.rs:715-763 | There is a run in which an order built on the spot gets its first poll with the gate open for its permit. |
| RetryHint.ComputeBoundedRetryAfter | patches/polymarket_client_sdk_v2/src/error.rs:224-243 | The SDK's scan: the first digit run after the marker, saturated at 64 bits and clamped to a day. |
| RetryHint.ComputeRetryAfterFromBody | crates/rspm/src/retry.rs:176-196 | The retry layer's scan: the first digit run after the marker found without case, saturated at 64 bits. |
| Text.ScanHint | crates/rspm/src/retry.rs:180-195 | The byte loop computes the saturated value of the first digit run, or nothing without a digit. |
| Text.FindCiIsFindLower | crates/rspm/src/retry.rs:199-207 | Searching without case finds what searching the lower-cased text finds. |
| Text.ScanFindsFirstRun | crates/rspm/src/retry.rs:180-195 | Whatever stands around it, the first run of digits is what a scan finds, as a number that sticks at the largest 64-bit one. |
| Text.IdentifierIsValidIff | crates/rspm/src/auth/utils/schema.rs:13-19 | An identifier is valid exactly when it has 1 to 512 characters, each an ASCII letter, digit, hyphen or underscore, by code. |
| Text.LowerIdentifiesIff | crates/rspm/src/retry.rs:199-207 | Lowering identifies exactly the two cases of each ASCII letter, in favour of the small one, and changes nothing else. |
| RetryHint.BothScannersAgree | patches/polymarket_client_sdk_v2/src/error.rs:224-243 | Both crates read the same number out of the same body, up to the clamp. |
| RetryHint.PrintedHintParses | crates/rspm/src/retry.rs:176-196 | A printed hint parses back to its number. |
| RetryHint.HintSurvivesRedaction | patches/polymarket_client_sdk_v2/src/error.rs:203-243 | For every 429 body: parsing the redacted message gives the clamped hint of the raw body, or nothing for the three earlier classes. |
| RetryHint.RedactionIsClosed | patches/polymarket_client_sdk_v2/src/error.rs:203-222 | Whatever the body, the message is one of five fixed words or, for a 429, a hint of at most a day. |
| RetryHint.HintIsAfterItsMarker | crates/rspm/src/retry.rs:176-196 | The hint of a body is scanned from its first `retry_after` in any case, or only without one from its first `retry-after`; without either there is none. |
| RetryHint.EarlierClassIs | patches/polymarket_client_sdk_v2/src/error.rs:203-222 | The three classes recognised before a rate limit, by what the body says and in their order. |
| RetryHint.MessageIs | patches/polymarket_client_sdk_v2/src/error.rs:203-222 | The redacted message by what the raw body says: the three classes first, then for a 429 only its hint or that it was rate limited, and otherwise nothing. |
| RetryHint.HintIsAtMostADay | patches/polymarket_client_sdk_v2/src/error.rs:203-243 | A redacted hint is the raw one, cut at 86400 seconds. |
| OperationErrors.RateLimitedIffDefinite429 | crates/rspm/src/clob/client.rs:351-362 | A POST is reported rate limited exactly for an unambiguous error with a 429 source. |
| OperationErrors.AmbiguousIsNeverRateLimited | crates/rspm/src/clob/client.rs:282-362 | Of the errors the SDK builds, which pair sources with kinds, none is both ambiguous and classified as rate limited; the ambiguous ones are lost requests and server errors. |
| OperationErrors.EveryPostIsSettledOrIndeterminate | crates/rspm/src/clob/client.rs:685-698 | A POST is accepted exactly under a valid identifier, not accepted exactly on an empty refusal, indeterminate for every other answer and for exactly the ambiguous errors, and never a plain transport failure. |
| OperationErrors.FailureIsReportedFromItsBody | crates/rspm/src/clob/client.rs:282-362 | From a raw failure through the SDK's redaction, the ambiguity test and the classifier: the reported class is the one the raw body and status call for, hint included. |
| OperationErrors.RedactedBodyRevokesIff | crates/rspm/src/clob/client.rs:338-343 | A redacted body revokes protocol authority exactly for the two revoking classes of the redaction. |
| OperationErrors.BodyRevokesIff | crates/rspm/src/clob/client.rs:282-343 | A failure revokes protocol authority exactly for the SDK's three reasons, or when the raw body of an answer reports a stale order version or an empty balance with its allowance, under any status that is not read first. |
| OperationErrors.OtherFailuresAreReportedToo | crates/rspm/src/clob/client.rs:282-343 | The same for every other operation: what a POST leaves in doubt is a transport failure there, and a body that says more is heard under a server error too. |
| RetryEnvelope.RetryPostOrder | crates/rspm/src/clob/client.rs:216-280 | The loop returns the verdict and the whole trace of authorizations, POSTs, releases and sleeps that the next rows describe. |
| RetryEnvelope.BackoffDoublesUpToCeiling | crates/rspm/src/retry.rs:71-80 | Without a hint the delay is the base doubled per attempt, factor capped at 32 bits, cut at the ceiling; saturation never shows and delays never shrink. |
| RetryEnvelope.EnvelopeIsBounded | crates/rspm/src/clob/client.rs:234-278 | At most max(1, attempts) POSTs and at most one ceiling of sleep between each two. |
| RetryEnvelope.OnePermitPerPost | crates/rspm/src/clob/client.rs:234-278 | Each POST follows its own authorization, each permit is released before any sleep, and every POST but the last was rate limited. |
| RetryEnvelope.PermitsPostOnce | crates/rspm/src/clob/client.rs:234-240 | When authorizations hand out fresh permits, no permit is used for two POSTs of an envelope. |
| RetryEnvelope.VerdictIsLastAnswer | crates/rspm/src/clob/client.rs:238-278 | The verdict, read off the trace: the outcome of the last POST, except that a trace ending in a refusal, or in a rate limit with authority inactive, is reported as revoked; a rate-limited verdict means attempts are exhausted with authority still active. |
| RetryEnvelope.TraceIsExact | crates/rspm/src/clob/client.rs:234-278 | The trace event by event: each attempt authorizes, posts and releases, and sleeps exactly what its own answer calls for; another follows exactly when this one was authorized and rate limited, authority is active and attempts remain. |
| RetryEnvelope.DelayIsCalledFor | crates/rspm/src/retry.rs:71-80 | The delay is the venue's hint in seconds if there is one, otherwise the base doubled for each earlier attempt with its factor capped at 32 bits; either is cut at the ceiling. |
| RetryEnvelope.EarlierAttemptsWereDefinitelyRefused | crates/rspm/src/clob/client.rs:282-362 | Every attempt before the last was refused by an unambiguous 429, so at most one attempt can have been accepted or left in doubt. |
| Fees.CheckedPow | crates/rspm/src/fees.rs:156-168 | Repeated squaring with every product checked returns the power if and only if the power itself fits the bound. |
| Fees.ComputeTakerFee | crates/rspm/src/fees.rs:108-138 | The chain of checked operations returns the rounded formula or the first failing check. |
| Fees.ScheduleAcceptedIffNeverNegative | crates/rspm/src/fees.rs:77-85 | A schedule is accepted if and only if its formula charges no order, at any price, a negative amount. |
| Fees.EarlyZeroIsExact | crates/rspm/src/fees.rs:115-119 | The early zero return never changes the formula's answer, and at exponent zero the curve factor is one. |
| Fees.FeeIsSymmetric | crates/rspm/src/fees.rs:108-138 | Price and its complement cost the same, errors included. |
| Fees.FeeGrowsWithShares | crates/rspm/src/fees.rs:108-138 | More shares never cost less, and if the larger order can be priced so can the smaller. |
| Fees.FeeGrowsTowardsHalf | crates/rspm/src/fees.rs:108-138 | The fee never falls as the price moves towards one half, and is defined wherever the nearer one is. |
| Fees.FeeIsRoundedAndCapped | crates/rspm/src/fees.rs:108-138 | The fee is within half of 0.00001 of the formula and at most the rounded fee at price one half. |
| Fees.FeeIsWholeTicks | crates/rspm/src/fees.rs:134-138 | A fee is a whole number of 0.00001. |
| Fees.RefusedIff | crates/rspm/src/fees.rs:108-133 | Exactly which orders are refused and why: shares that are not positive, a price outside the unit interval, and an amount beyond the largest decimal unless the order is free. |
| Fees.FreeCostsNothing | crates/rspm/src/fees.rs:115-119 | A free order costs exactly nothing. |
| Fees.FormulaIs | crates/rspm/src/fees.rs:121-133 | In ordinary arithmetic the formula at exponents zero, one and two is shares times rate times that power of price times its complement. |
| Positions.Fetch | crates/rspm/src/clob/positions.rs:255-321 | The paging loop returns the inventory its pages define, or nothing, in at most 21 requests. |
| Positions.FetchedInventoryIsSorted | crates/rspm/src/clob/positions.rs:255-321 | Whatever pages come back, a returned inventory is strictly increasing by condition and then asset, all of the wallet, and a permutation of a complete run of pages. |
| Positions.FetchReturnsWholeInventory | crates/rspm/src/clob/positions.rs:175-321 | Against a fixed inventory served in slices, the whole of it is returned sorted if and only if it has at most 10499 entries, all of the wallet, with distinct identities. |
| Positions.ReturnedIffComplete | crates/rspm/src/clob/positions.rs:255-321 | Against any venue an inventory is returned if and only if at most 21 pages were all answered, all but the last full, the last short, and together all of the wallet with distinct identities; it is those pages sorted, never a part of them. |
| Positions.SortSorts | crates/rspm/src/clob/positions.rs:319-320 | Sorting distinct entries gives a strictly increasing permutation. |
| TradeResolution.WaitForResolvedTrades | patches/polymarket_client_sdk_v2/src/clob/client.rs:1991-2029 | The nested polling loops return, for each distinct nonempty identifier in order, the first outcome seen within the window. |
| TradeResolution.PollRound | patches/polymarket_client_sdk_v2/src/clob/client.rs:2009-2021 | One round asks, in order, for exactly the identifiers earlier rounds have not resolved, and records what it learns. |
| TradeResolution.ResolveTransactionHashes | patches/polymarket_client_sdk_v2/src/clob/client.rs:2036-2050 | One response is enriched from its own polling window. |
| TradeResolution.EnrichBatch | patches/polymarket_client_sdk_v2/src/clob/client.rs:1955-1985 | The batch is rewritten in place from one shared window. |
| TradeResolution.BatchAgreesWithAlone | patches/polymarket_client_sdk_v2/src/clob/client.rs:1955-2050 | Each response that is not deferred gets the hashes, in the order, that resolving it alone gives, for equal windows or for steady answers in windows of any length; deferred ones are unchanged. |
| TradeResolution.HashesComeFromItsOwnSettledTrades | patches/polymarket_client_sdk_v2/src/clob/client.rs:92-106 | A changed response differs in its hashes only, and each hash was answered for one of its own trades, which had not failed and was not zero. |
| TradeResolution.LearntOnce | patches/polymarket_client_sdk_v2/src/clob/client.rs:2009-2013 | An outcome once learnt is never replaced by a later round. |
| TradeResolution.SettledHashArrives | patches/polymarket_client_sdk_v2/src/clob/client.rs:1991-2050 | When the first answer in the window that ends the waiting for a trade shows it settled, its hash reaches every response without hashes that names the trade and is not deferred, in a batch and alone. |
| TradeResolution.AskedIffStillWaiting | patches/polymarket_client_sdk_v2/src/clob/client.rs:2009-2021 | A round asks for a trade if and only if no earlier answer showed it failed or with a hash. |
| TradeResolution.HashesComeInOrder | patches/polymarket_client_sdk_v2/src/clob/client.rs:2036-2050 | The hashes come in the order of the identifiers. |
| TradeResolution.OthersAreLeftAlone | patches/polymarket_client_sdk_v2/src/clob/client.rs:1955-1985 | A response that is deferred or already has hashes is left as it is. |
| JsonPath.ParsePathSegments | patches/polymarket_client_sdk_v2/src/serde_helpers.rs:229-276 | The two nested loops over one character stream compute the segments of the path. |
| JsonPath.SegmentShape | patches/polymarket_client_sdk_v2/src/serde_helpers.rs:235-270 | No segment is empty, none holds a closing bracket, and all are shorter than a path with punctuation. |
| JsonPath.ParsingUndoesPrinting | patches/polymarket_client_sdk_v2/src/serde_helpers.rs:222-276 | Any rendering in dotted and bracketed style parses back to its segments. |
| JsonPath.ParsedIffPrintable | patches/polymarket_client_sdk_v2/src/serde_helpers.rs:229-276 | The segment lists some path parses to are exactly those of nonempty segments without closing brackets. |
| JsonPath.SegmentSurvivesIff | patches/polymarket_client_sdk_v2/src/serde_helpers.rs:229-276 | One segment survives printing and parsing if and only if it is printable in its style. |
| JsonPath.DotSeparates | patches/polymarket_client_sdk_v2/src/serde_helpers.rs:242-246 | On any path at all, a dot outside brackets separates what stands on its two sides. |
| JsonPath.BracketSeparates | patches/polymarket_client_sdk_v2/src/serde_helpers.rs:247-261 | On any path at all, a bracket separates and what it holds is one segment unless it is empty; one that is never closed holds all that follows. |
| JsonPath.StrayBracketIsIgnored | patches/polymarket_client_sdk_v2/src/serde_helpers.rs:262-264 | A closing bracket that closes nothing is ignored and separates nothing. |
| JsonPath.PlainPathIsOneSegment | patches/polymarket_client_sdk_v2/src/serde_helpers.rs:229-276 | A path without punctuation is one segment unless it is empty. |
| JsonPath.LookupValue | patches/polymarket_client_sdk_v2/src/serde_helpers.rs:188-220 | Looking a path up is following its segments one at a time, skipping the optional marker. |
| JsonPath.PrintedPathFindsItsValue | patches/polymarket_client_sdk_v2/src/serde_helpers.rs:180-220 | The path a deserializer prints for a value leads back to that value, through objects, arrays and optionals, in either style. |
| JsonPath.KeyIsFoundIff | patches/polymarket_client_sdk_v2/src/serde_helpers.rs:180-220 | A key is found in every object that has it if and only if it is printable in its style and is not the optional marker. |
| JsonPath.IndexTextIs | patches/polymarket_client_sdk_v2/src/serde_helpers.rs:188-220 | Digits, with or without one plus sign, are an array index exactly up to 64 bits. |
| JsonPath.OtherTextIsNoIndex | patches/polymarket_client_sdk_v2/src/serde_helpers.rs:188-220 | No other text is an array index. |
| JsonPath.LookupStops | patches/polymarket_client_sdk_v2/src/serde_helpers.rs:188-220 | A lookup finds nothing below a scalar, at a missing key, at an index out of range or at a text that is no index. |
| ResponsePath.ComputePathIsSafe | crates/rspm/src/auth/error.rs:107-198 | The recognizer accepts a path exactly when every dot segment is an owned field with bracketed digit runs, or it is `?`. |
| ResponsePath.ComputeIndexRun | crates/rspm/src/auth/error.rs:184-196 | The index loop accepts exactly sequences of bracketed nonempty digit strings. |
| ResponsePath.SafeIffGenerated | crates/rspm/src/auth/error.rs:107-198 | Acceptance is membership in the generated language: `?`, or owned fields followed by bracketed digit strings, joined by dots. |
| ResponsePath.GeneratedInOneWay | crates/rspm/src/auth/error.rs:178-198 | An accepted path decomposes in one way only. |
| ResponsePath.OneIndexRuns | crates/rspm/src/auth/error.rs:184-196 | One bracketed digit string in front of an index run is an index run, and parses to its digits first. |
| ResponsePath.OwnedIffOnWire | crates/rspm/src/auth/error.rs:107-177 | The owned fields of an endpoint are exactly the fields its decoder reads from the wire, but for the withheld ones. |
| TradeDiagnostics.PathSurvivesIffOwned | crates/rspm/src/auth/trades.rs:380-399 | At every trade and maker index, the formatted path survives if and only if its field is in the endpoint's list. |
| TradeDiagnostics.DecodeReportsFirstInvalid | crates/rspm/src/auth/trades.rs:287-358 | A page decodes exactly when every trade and maker order is valid, and unchanged; otherwise the first invalid field is reported, with its path unless it is `fee_usdc`. |
| TradeDiagnostics.ReportedPathNamesOnePlace | crates/rspm/src/auth/trades.rs:380-399 | Different places are reported under different paths. |
| TradeDiagnostics.InvalidTradeFieldIs | crates/rspm/src/auth/trades.rs:287-324 | A trade is valid exactly when all six checked fields are within their bounds, and otherwise the field named is the first that is not. |
| TradeDiagnostics.InvalidMakerFieldIs | crates/rspm/src/auth/trades.rs:325-358 | The same for the five checked fields of a maker order. |

## Left out

- HTTP, WebSocket, TLS, request signing, order hashing and credential digests: identities and orders are opaque values with equality, and network answers are inputs.
- Scheduling and fairness: awaits are interleaving points; that some step is always possible is proved, that it is taken is not claimed. Atomic operations are sequentially consistent.
- The host's mutex poisoning is one flag, set whenever a lock holder panics; a lock holder may panic at any point of its section, which is more than the code allows.
- The state of other clients' controllers: what an attempt of theirs would be told by its own controller is an input, reached only after its binding and authority have been compared.
- A capability whose controller has been dropped is an attempt refused nondeterministically, since controller lifetimes are not modelled.
- Code the caller passes in (the authorization predicate, the activation closure) answers with an input; controller calls it makes itself appear as another thread's steps.
- The second version request of a refresh, its balance update and its authentication are one awaited answer; tracing and configuration checks are dropped.
- The check that a prepared order comes back under its expected identifier, and the reduction of a no-match to an empty result, are outside the retry envelope's model.
- Order preparation and conversion of prices and sizes from floating point: building an order answers a protocol version or fails.
- Fees.CheckedPow: decimals are exact reals with a bound on magnitude; the 96-bit mantissa, its scale and its rounding are not modelled.
- Fees.ComputeTakerFee: as above, so underflow of long fractions to the host's precision is not modelled.
- Positions.Fetch: response size limits, status codes and row decoding are one failing page; the library sort is a function on values, and object identity in the list is not captured.
- TradeResolution.WaitForResolvedTrades: the clock is the number of the round after which the deadline has passed.
- JsonPath.LookupValue: characters are opaque code units, so text encoding and key normalisation are not modelled; indexes are parsed as on a 64-bit target.
- TradeDiagnostics.DecodeReportsFirstInvalid: structural decoding of the page and its count, limit and cursor checks happen before the model begins, and the digest attached to an error is dropped.
- Header parsing of retry delays (section 10.2.3 of RFC 9110), book snapshots, tick rounding, return-on-investment helpers, streaming, bridge and token-framework code: only easy members.
