# pivb verification

A Dafny model of the two state machines that carry pivb's guarantees, with proofs about
every run of them:

- **The mint path and the assertion reuse cache.** One touch of a YubiKey produces one signed
  assertion, which may answer byte-identical requests for a bounded time. `Mint.dfy` is a step
  system: a local request runs under the outer lock through look-up, reader probe, serve or
  drop, PIN, signature, insert and release, and each critical section of the inner lock is one
  step, so workspace invalidation, the notifier's sweep, the reader poll and clock ticks fall
  between any two of them. `MintBase`, `MintServing`, `MintHolding`, `MintWindow`, `MintPurges`,
  `MintNotices`, `MintFences`, `MintPin` and `MintProgress` prove what every run keeps; `MintWitness` builds runs in which a
  promise fails where its hypothesis does. `ReuseCache.dfy` is the cache as it is written,
  mutable entries over mutable token buffers, each method proved against the specification
  (`ReuseSpec.dfy`) that the step system uses; `ReuseLaws.dfy` says what that specification means
  in entry fields and plain numbers, exactly, in both directions.
- **Card ownership and contention recovery.** `CardProbe.dfy` performs the sections of the
  shared probe in place and `ProbeRuns.dfy` runs any number of callers and workers over the same
  section functions, with each opened card as a linear resource that has one owner.
  `Recovery.dfy` is the polling loop with its one hand-off and its budget, `RecoveryLaws.dfy` what its
  contract amounts to and `RecoverySchedule.dfy` when it sleeps, polls and asks, in milliseconds, `Limiter.dfy` the
  sliding window over hand-offs, `Selection.dfy` the reader loop, `Signing.dfy` the two-attempt
  signature and the digest callback it may call again.

The two meet in one place: the step system lets a signature return only for the digest the
callback builds for the card that signs (`Genuine` in `Mint.dfy`), which is what
`Signing.SignAndAssemble` proves of the two-attempt operation.

Around them stand `Config` and `Window` (bounds and grants), `Base64` and `Jws` (tokens), `Route`
(what an origin checks), `Notifier` and `Sweeping` (the notifier's schedule) and `MintRing` (the
rolling record of mints).

Time is unbounded integer nanoseconds. JSON, RSA and X.509 are parameters; a theorem that needs
a fact about them states it as a hypothesis (`Codec.Faithful`, a signature that verifies, a key
ID that is a function of the public key).

`dafny verify dfyconfig.toml` checks the project.

## Hypotheses the code needs

- An invalidation is final if every record made while the one mint it races is on its way, its
  own included, is sure to leave its watermark in the 256-entry map: the record changes nothing,
  or there is room, or some other watermark stands strictly lower. Records made at any other time
  do not matter (`MintFences.InvalidationIsFinal`). For each record that guard is exact
  (`MintFences.OwnRecordFencesIff`, `FenceSurvivesIff`, `WatermarkStaysIff`), and past it the
  promise does fail: `MintWitness.PushedOutWatermarkServes` is a run in which an invalidated
  assertion is kept and served.
- Releasing every generation refuses the mint inside the card if and only if the watermark it
  leaves is nonzero and sure to stay, or is zero and the workspace already has one
  (`MintFences.ReleaseRefusesInFlightIff`). Below the cap that means a nonzero generation in
  flight, a watermark, or a held entry of a nonzero generation (`ReleaseBelowCapIff`); the
  adapters reject generation zero.
- How much clock lead and signing latency an alias bears is `Route.Bearable`, and
  `Route.FreshnessBoundIsExact` proves it is exactly what keeps every timely answer of an honest
  provider fresh at the origin. Lead plus latency within the one 30-second allowance is always
  enough (`Route.OneAllowanceIsBearable`); it is not always necessary, because the 60-second
  validity floor also refuses answers that would be too old.
- A sweep can take an entry from a request that arrived before its touch completed and is still
  queued (`Notifier.RetirementVisibleIff`); later arrivals never notice.
- If readings of the clock may be up to d older than ones already used, the hand-off limit holds
  for windows shorter by d than ten seconds, and no longer ones (`Limiter.AtMostTwoPerWindow`,
  `Limiter.StaleReadExceedsLimit`).
- Two warnings for one session are five minutes apart unless a mint that names a session, any
  session, and is dated a whole hour after the first is recorded between them
  (`MintRing.WarningsAreSpaced`). Within five minutes of a session's latest warning that is exact:
  a mint over the threshold warns again if and only if such a mint came between
  (`MintRing.WarnedAgainIff`). Order within the session does not help: `MintRing.WarningsCanCrowd`
  is a history that warns twice.
- The mint path reads wall time (`c.now().UTC()` drops the monotonic reading), so a clock that is
  set back keeps windows open for longer. `Mint.Tick` never steps back: the theorems
  about runs assume that the wall clock does not either.

## Where the repository's documentation differs from the code

- README.md:287-290 says a signature drops assertions of any other serial whenever a card
  authenticates. With `pin_cache = "never"` the cached PIN is already gone when the signature
  returns and nothing is dropped (`MintPin.SwapPurgeDependsOnMode`), and a run reaches a state
  that holds assertions of two cards (`MintWitness.NeverModeHoldsTwoSerials`). The model follows
  the code.
- README.md:294-297 says a mint inside the card when an invalidation arrives cannot insert its
  result afterwards. The code keeps that promise while the watermark stands, as above.

`MintProgress.HolderFinishes` is a sanity check of the step system (thirteen is the length of its
longest path), not a result about the program, and has no row below.

## Model

| member | source | states |
|---|---|---|
| MintServing.EveryCredentialIsOneTouchForTheSameTuple | internal/core/reuse.go:68-117 | in every run, each credential handed out, fresh, coalesced or reused, is byte for byte the token of one signature for a request that agrees with the recipient's in every field of the tuple (alias, target, audience, whole source, attachment, card and claim); the digest callback asked about the recipient's own request builds exactly the signed digest; and the window reported is the recipient's own grant |
| MintServing.ReusedCredentialWasAdmitted | internal/core/reuse.go:68-83 | a reused credential shares a queue with its touch, or lies inside the alias window and before both the deadline its claim sent and the claim's start plus this provider's maximum; 60 s of validity are left; at reuse 0 it never answers an arrival after completion |
| MintServing.WindowEndsBeforeExpiry | internal/config/config.go:148-154 | under accepted bounds a touch-free window ends more than 59 s minus sign latency before the token expires |
| MintServing.EveryForwardedCredentialPassesTheOrigin | internal/core/core.go:625-715 | every credential any run hands a forwarded request passes every check of an origin with the same configuration, for every clock lead and latency the alias bears and every timely transport |
| MintHolding.ServedEntryWasHeldThroughout | internal/core/reuse.go:85-103 | an entry served after the reader probe was in the cache, same key and bytes, at every state since the look-up, although the inner lock was released |
| MintHolding.ServedSinceLookUp | internal/core/reuse.go:68-103 | every serve that answers goes back to one look-up that admitted the entry and one reader probe that found its card still there, and the entry was held from first to last |
| MintHolding.GoneStaysGone | internal/core/reuse.go:99-103 | a finished touch that is not held now can never be held again, whatever step runs |
| MintHolding.QueueOnlyServed | internal/core/core.go:455-461 | while an entry stays servable, requests of its tuple that arrived before it completed take the lock one after another without one new signature |
| MintHolding.IdenticalQueueCostsOneTouch | internal/core/core.go:438-461 | any number of identical requests arriving before the first completes cost exactly one signature, and every one that is answered gets the bytes of that very signature |
| MintWindow.OpenWindowCostsNoTouch | internal/core/reuse.go:68-117 | the opt-in works: from any moment the lock is free, while an entry stays held, fresh, with its card present and its alias window open, no request of its tuple begins a signature, whenever it arrived, and every one answered gets its bytes |
| MintWindow.MadeWindowIff | internal/core/reuse.go:119-174 | the window an entry is made with is open exactly until the alias window or the grant it was signed under ends, whichever is first |
| MintWindow.KeptIff | internal/core/reuse.go:126-151 | a completed touch leaves an entry unless neither coalescing nor a window is configured or the readers cannot be listed, and the next poll keeps it exactly if it lists the same readers |
| MintWindow.StampsAreNow | internal/core/core.go:437-519 | arrival is dated before the queue, the claims before the touch, completion after it, a hit at its look-up and the reader snapshot of a poll when it looks |
| MintPurges.WorldKeepsExactly | README.md:280-303 | which entries a lock, an unlock, a sweep, a reader poll and an invalidation keep, entry by entry, and that no other step around a request drops or changes one |
| MintPurges.RequestKeepsExactly | README.md:280-303 | which entries a reader change, a rejected PIN and another card's signature drop, and that no other step of a request drops one |
| MintPurges.InsertKeepsExactly | internal/core/reuse.go:178-211 | what an insert keeps: everything up to 64, and past that all but one of those completed longest ago |
| MintPurges.AtMostSixtyFour | internal/core/reuse.go:199-211 | no reachable state holds more than 64 assertions |
| ReuseLaws.HitIff | internal/core/reuse.go:68-83 | a key is answered exactly by the entry under it, with 60 s of validity left, to whoever arrived before its completion if requests coalesce and to everyone inside an open window |
| ReuseLaws.OpenWindowAnswers | internal/core/reuse.go:73-77 | inside an open window a held entry answers whenever the request arrived |
| ReuseLaws.OtherSerialsIff | internal/core/reuse.go:260-274 | another card's verification drops exactly the other cards' entries |
| ReuseLaws.WorkspaceIff | internal/core/reuse.go:286-310 | an invalidation drops exactly that workspace's entries, of all generations or up to the one named |
| ReuseLaws.ReadersIff | internal/core/reuse.go:517-536 | a poll keeps exactly the entries made with the same reader names, one by one |
| ReuseLaws.InsertedIff | internal/core/reuse.go:178-211 | an insert is refused exactly under a watermark not below its generation, and costs an entry only at 64 |
| ReuseLaws.RecordingPin | internal/core/core.go:946-963 | each outcome of a signing attempt, field by field: a PIN rejected for good takes everything, any other failure nothing, and a verified card keeps its own entries |
| ReuseLaws.UnlockingKeepsItsCard | internal/core/core.go:348-357 | unlocking caches the PIN for its card and keeps all of that card's entries |
| ReuseLaws.TakingPin | internal/core/core.go:924-935 | taking the PIN spends it in never mode only and touches no assertion |
| ReuseLaws.LockingForgets | internal/core/core.go:361-369 | locking forgets the PIN and every assertion, and no watermark |
| ReuseLaws.SweepIff | internal/core/reuse.go:459-512 | a sweep drops exactly the entries whose window is over or that have expired, and marks exactly those it announces |
| ReuseLaws.DueNoticesAreGiven | internal/core/reuse.go:471-500 | no due notice stays unsaid, in these words |
| MintNotices.EachWindowAnnouncedOnce | internal/core/reuse.go:459-512 | over any run, whatever is served, purged, evicted or replaced between the sweeps, one signature's window is announced at most once ahead of its close and once at its close, in that order |
| MintNotices.SweepSaysWhatIsDue | internal/core/reuse.go:471-500 | and a sweep that meets the entry when its window is over or in its last minute says so |
| MintFences.InvalidateFences | internal/core/reuse.go:286-331 | right after an invalidation whose watermark stands nothing it speaks for is held and the mint inside the card will be refused |
| MintFences.FencedFrom | internal/core/reuse.go:286-331 | and it stays so in every later state of the run, as long as the watermark is in the map after each record made while the racing mint is on its way |
| MintFences.InvalidationIsFinal | internal/core/reuse.go:68-117 | if every record made while the racing mint is on its way is safe when it is made, no assertion whose signing had begun when its workspace was invalidated is ever served afterwards, including one already admitted and awaiting its reader probe |
| MintFences.WatermarkStaysIff | internal/core/reuse.go:336-355 | for the workspace recorded and for every other in the map: its watermark survives the record in every order of map iteration if and only if the record changes nothing, there is room, or some watermark stands strictly lower |
| MintFences.OwnRecordFencesIff | internal/core/reuse.go:286-355 | an invalidation, however its own record is trimmed, puts what it speaks for out of reach if and only if that record is safe when it is made |
| MintFences.FenceSurvivesIff | internal/core/reuse.go:286-355 | a standing fence survives any other invalidation, bounded or not and however trimmed, if and only if that record is safe when it is made |
| MintFences.WatermarksAreEarned | internal/core/reuse.go:286-355 | nothing is refused without cause: each watermark in a reachable state was recorded by an invalidation of its workspace up to exactly that generation, or of all while that one was held or in the card |
| MintWitness.PushedOutWatermarkServes | internal/core/reuse.go:336-355 | past that condition the promise fails: any daemon that can sign has a run in which a claim is invalidated while its mint is in the card, 256 others after it, and the assertion is then kept and served |
| MintFences.ReleaseRefusesInFlightIff | internal/core/reuse.go:311-355 | with the map at the cap or below it, a release-everything invalidation refuses the mint inside the card however it is trimmed if and only if the watermark it leaves is nonzero and sure to stay, or is zero and the workspace has one |
| MintFences.ReleaseBelowCapIff | internal/core/reuse.go:311-325 | with room in the map: if and only if the generation in flight is nonzero, the workspace has a watermark, or a held entry of the workspace has a nonzero generation |
| MintPin.LockIsAFence | internal/core/core.go:361-369 | between a lock and the next successful unlock no local credential, fresh or reused, is handed out in any interleaving |
| MintPin.NeverModeOneSignaturePerUnlock | internal/core/core.go:924-935 | with pin_cache = "never" the signatures begun never exceed the successful unlocks |
| MintPin.SessionModeOneSerial | internal/core/core.go:946-963 | in session mode every held assertion carries the serial the PIN was last verified against, in every state of every run |
| MintPin.NeverModePinSpent | internal/core/core.go:924-935 | with pin_cache = "never" no PIN is cached from the moment a request takes it until its signature has been recorded |
| MintPin.SessionPinLasts | internal/core/core.go:924-963 | in session mode only a lock, an unlock or a PIN the card rejects for good takes the PIN away |
| MintPin.SwapPurgeDependsOnMode | internal/core/core.go:946-963 | a successful signature drops exactly the other serials' assertions in session mode and nothing at all in never mode |
| MintWitness.NeverModeHoldsTwoSerials | internal/core/core.go:946-963 | any never-mode daemon with two cards that can sign reaches a state that holds an assertion of each |
| MintProgress.HolderNeverStuck | internal/core/core.go:455-549 | no reachable state leaves the holder without a step of its own, eviction and refusal included |
| MintBase.RunKeepsBase | internal/core/core.go:376-549 | every reachable state: each held entry, entry about to be kept and answer about to be given is the work of one finished signature for its tuple, and the pending claim names the mint inside the card |
| Requests.EqualKeysEqualDigests | internal/core/reuse.go:29-60 | requests with equal reuse keys get the same decision and digest from the callback on any card at any instant |
| Requests.KeysAgreeIff | internal/core/reuse.go:29-51 | two accepted requests share a key if and only if alias, target, audience, source kind, name and session, the attachment, the claimed card, and origin, workspace, bundle and generation all agree |
| Requests.AcceptIff | internal/core/core.go:410-461 | a request reaches the card or the cache exactly with a configured alias, the configured audience and target, and no window where none is allowed |
| Requests.DigestForIff | internal/core/core.go:473-507 | the callback agrees exactly for an enrolled, unreplaced key on the claimed card, and to the claims made for that card |
| Requests.AdaptersNeverSendGenerationZero | cmd/pivb/forward_id.go:5-12 | an accepted forward context names a workspace exactly when it carries a nonzero generation |
| ReuseCache.CacheEntry.constructor | internal/core/reuse.go:141-151 | an entry starts with a buffer of its own holding the token's bytes and nothing announced |
| ReuseCache.Core.InsertLocked | internal/core/reuse.go:178-195 | inserts, replaces or refuses exactly as specified, at most 64 entries held after, a refused buffer wiped, and every buffer ever handed over still held with its bytes or all zeros |
| ReuseCache.Core.EvictLocked | internal/core/reuse.go:199-211 | past the cap exactly the entries completed longest ago go, wiped |
| ReuseCache.Core.BeginPendingMint | internal/core/reuse.go:216-220 | names the mint inside the card and changes nothing else |
| ReuseCache.Core.EndPendingMint | internal/core/reuse.go:222-226 | forgets it and changes nothing else |
| ReuseCache.Core.DropEntry | internal/core/reuse.go:229-239 | removes exactly that key, wiping its buffer |
| ReuseCache.Core.PurgeAllLocked | internal/core/reuse.go:242-253 | every buffer ever handed to the cache is zero afterwards |
| ReuseCache.Core.PurgeOtherSerialsLocked | internal/core/reuse.go:260-274 | keeps exactly the entries of one serial, wipes all others and counts them |
| ReuseCache.Core.InvalidateWorkspace | internal/core/reuse.go:286-331 | drops exactly what the invalidation speaks for and records the watermark as specified; the count is the number dropped |
| ReuseCache.Core.RecordWatermarkLocked | internal/core/reuse.go:336-355 | raises one watermark; past 256 the lowest generations are forgotten |
| ReuseCache.Core.PollReaders | internal/core/reuse.go:517-536 | keeps exactly the entries whose reader snapshot equals what is seen; a failed enumeration keeps none |
| ReuseCache.Core.Find | internal/core/reuse.go:68-83 | finds the entry under the key exactly when 60 s of validity are left and the request was queued behind its touch or the window is open |
| ReuseCache.Core.Redeem | internal/core/reuse.go:94-109 | gives the token out if and only if the very entry found is still held, and then its original bytes |
| ReuseCache.Core.FetchPin | internal/core/core.go:924-935 | hands out the cached PIN, spending it in never mode; locked when there is none |
| ReuseCache.Core.UnlockWith | internal/core/core.go:348-357 | caches the verified PIN and keeps only that card's assertions |
| ReuseCache.Core.LockDaemon | internal/core/core.go:361-369 | no PIN, no entry, every buffer zero |
| ReuseCache.Core.RecordPinVerification | internal/core/core.go:946-963 | what each outcome of a signing attempt does to the PIN and the cache |
| ReuseCache.Core.NotifierSweep | internal/core/reuse.go:459-512 | retires, marks, announces and schedules exactly as specified, each due notice once |
| Notifier.NextSweepIsTight | internal/core/reuse.go:459-512 | the next sweep is unset exactly when nothing is held; otherwise it is later than now, 2 s away or when something is due for a held entry, and no later than either |
| Notifier.QuietUntilNext | internal/core/reuse.go:459-512 | a sweep strictly between two scheduled ones changes nothing and says nothing |
| Notifier.EachNoticeAtMostOnce | internal/core/reuse.go:471-500 | over any series of sweeps an entry announces pre-close and close at most once, close last, and no pre-close for a window within the lead |
| Notifier.RetirementVisibleIff | internal/core/reuse.go:471-489 | retiring changes a later look-up exactly for a still-queued coalescing request, never otherwise |
| Notifier.RetirementInvisibleToLaterArrivals | internal/core/reuse.go:471-489 | a request arriving at or after the sweep finds the same entry with or without it, up to the notice mark, or none both times |
| Window.GrantIsExact | internal/core/window.go:36-59 | a window is refused exactly where the provider allows none, and granted exactly while claim start plus the shorter of the two lengths is ahead, with that end as its deadline |
| Window.ReaskingNeverLengthens | internal/core/window.go:36-59 | re-asking for one claim yields the same deadline or none, never a later one and never one regained |
| Window.GrantOnlyShortens | internal/core/reuse.go:154-174 | a signature answers touch-free for the whole alias window, and under a grant exactly until the earlier end; a grant never opens a window |
| Config.AcceptedAliasBounds | internal/config/config.go:329-340 | the three checks accept an alias if and only if it meets the documented bounds |
| Config.FaultsAre | internal/config/config.go:329-340 | and report exactly the faults it has, each with its limit |
| Base64.RoundTrip | internal/wif/jwt.go:165-200 | base64url decoding inverts encoding and an encoding has no dot (section 5 of RFC 4648) |
| Base64.AlphabetIsUrlSafe | internal/wif/jwt.go:165-200 | the alphabet is the URL-safe one, in order, in both directions |
| Base64.GroupSpellsItsBits | internal/wif/jwt.go:165-200 | each three octets are spelled by four letters, most significant bits first |
| Jws.VerifyOfAssemble | internal/wif/jwt.go:165-257 | verifying an assembled token returns exactly the claims and key ID signed (section 7.1 of RFC 7515) |
| Jws.WireInjective | internal/wif/jwt.go:165-200 | equal wire forms carry equal claims and signatures |
| Jws.AcceptedMeansSigned | internal/wif/jwt.go:202-257 | whatever is accepted is three parts whose signature over the first two verifies under the given key; the claims returned are decoded from the second part and the key ID from the first, and both name that key |
| Jws.AcceptedIff | internal/wif/jwt.go:202-257 | a token is accepted with a verdict if and only if it consists of signed parts that say exactly that |
| Jws.NewClaimsIff | internal/wif/jwt.go:129-163 | claims are made exactly for a complete configuration, a nonzero serial and a lifetime of 300 s to 3600 s, and every claim is what was asked for, iat backdated by 30 s |
| Jws.DecimalDenotes | internal/wif/jwt.go:129-163 | a serial is rendered by digits that denote it, without a leading zero |
| Jws.DecimalInjective | internal/wif/jwt.go:129-163 | two serials never read the same |
| Route.HonestProviderAccepted | internal/core/core.go:665-709 | every timely answer an honest provider gives, fresh, coalesced or reused, is accepted with its claims under every lead and latency the alias bears, second truncation included |
| Route.CheckResponseIff | internal/core/core.go:665-709 | an origin accepts a response, at any readings of its clock, if and only if it comes from the claimed and enrolled card, carries signed claims that match this configuration in every field and lifetime, agrees on the expiry, is unexpired and neither too old nor from the future; and then for exactly those claims |
| Route.FreshnessBoundIsExact | internal/core/core.go:693-707 | for each alias, clock lead and signing latency: every timely honest answer is fresh at the origin if and only if they are bearable, validity floor, reuse window and second truncation included |
| Route.OneAllowanceIsBearable | internal/core/core.go:693-707 | the rule operators go by: lead and latency that together fit one 30 s allowance are always bearable |
| CardProbe.Hardware.Enter | internal/pivsigner/card.go:203-216 | joins the call in flight or starts exactly one |
| CardProbe.Hardware.Complete | internal/pivsigner/card.go:253-268 | publishes the result, frees its own slot only, and keeps for closing a card nobody waits for |
| CardProbe.Hardware.Collect | internal/pivsigner/card.go:224-242 | the first waiter of an opened card gets it, later ones learn it is taken, all of them get a failure |
| CardProbe.CollectDelivers | internal/pivsigner/card.go:224-268 | what the worker found, serial or failure text included, reaches the callers unchanged |
| CardProbe.Hardware.ReleaseWaiter | internal/pivsigner/card.go:277-294 | a waiter giving up must close the card exactly when it is the last and nobody claimed |
| CardProbe.Hardware.Track | internal/pivsigner/card.go:151-154 | a delivered session is counted once |
| CardProbe.TrackedCard.Close | internal/pivsigner/card.go:66-73 | closing reaches the card and uncounts the session once, however often it is called |
| ProbeRuns.CardsAreConserved | internal/pivsigner/card.go:203-294 | in every run each opened card is still undecided, or delivered to exactly one caller, or closed once undelivered, never two of these, and held by at most one caller |
| ProbeRuns.NoCardLeaks | internal/pivsigner/card.go:203-294 | when everyone is done each opened card has been closed exactly once and no session is counted |
| ProbeRuns.ProbesAreSingleFlight | internal/pivsigner/card.go:203-271 | at most one worker is in flight, exactly while the slot names its call, and no caller joins a call whose result is out |
| ProbeRuns.LaunchesAndSessionsAddUp | internal/pivsigner/card.go:203-243 | the callers' started counts sum to the workers launched and openSessions counts delivered sessions not yet given back |
| ProbeRuns.OnlyTheWorkerFreesTheSlot | internal/pivsigner/card.go:224-286 | the guards that would clear the slot from a waiter never fire |
| ProbeRuns.RunKeeps | internal/pivsigner/card.go:203-294 | slot, waiter counts, session count and card owners agree in every reachable state |
| Recovery.RecoverSharing | internal/pivsigner/recovery.go:202-337 | each poll is made exactly one ladder delay after the last round and shows the next round of the world, the first card is returned and none passed over; after each poll exactly the inspection and hand-off that are due follow, the hand-off once at most, past grace, never after a self-holder was seen; without a card it stops exactly where the budget is spent, the caller was cancelled or the next sleep is interrupted or uses it up; at most 8 polls at the defaults; it ends within the budget plus the overruns of the rounds consumed; the report, scdaemon state and cooldown included, is what the log and those rounds say |
| RecoveryLaws.EpisodeIsDetermined | internal/pivsigner/recovery.go:202-337 | that contract leaves nothing open: the world and the budget determine every event and its instant, the outcome, the report and the end |
| RecoveryLaws.AtLeastThreePolls | internal/pivsigner/recovery.go:202-337 | an undisturbed episode with the default budget to itself never reports contention before its third poll, however slow each call is within its limit |
| RecoverySchedule.SleepLength | internal/pivsigner/recovery.go:231-248 | a punctual sleep lasts exactly one step of 50, 100, 200, 400 or 800 ms unless the end of grace or of the budget comes first |
| RecoverySchedule.RungIs | internal/pivsigner/recovery.go:231-239 | the step taken is the number of polls since the start or the hand-off, up to the last |
| RecoverySchedule.GraceIsMet | internal/pivsigner/recovery.go:240-248 | when nothing overruns no sleep begun inside grace ends past it, the first poll past grace begins exactly at its end if a step spans it, and its inspection is over at most 750 ms later |
| RecoverySchedule.HandOffIff | internal/pivsigner/recovery.go:270-321 | what follows the first poll past grace: the inspection, and at its end the hand-off exactly when no self-holder was ever seen, scdaemon was not found stopped, budget is left and the reservation is granted |
| RecoverySchedule.HandOffLaw | internal/pivsigner/recovery.go:270-321 | and there is no other hand-off |
| RecoverySchedule.ReinspectedIff | internal/pivsigner/recovery.go:262-277 | later polls are followed by an inspection exactly when this process's own session has just gone |
| RecoverySchedule.CallsTake | internal/pivsigner/recovery.go:215-321 | a probe takes up to 250 ms, a hand-off up to 500 ms, or the rest of the budget |
| RecoverySchedule.DefaultSchedule | internal/pivsigner/recovery.go:202-337 | for calls that return at once: polls at 50, 150, 350 and 500 ms, inspection and hand-off at 500 ms, polls at 550, 650, 850 and 1250 ms, and the report at 2 s |
| RecoverySchedule.RefusedSchedule | internal/pivsigner/recovery.go:202-337 | and with the hand-off refused: one more poll at 1300 ms, and the rest of the cooldown in the report |
| Recovery.Intervene | internal/pivsigner/recovery.go:270-321 | scdaemon is asked to let go exactly when grace is over, the one inspection is made now and does not find it stopped, no self-holder was ever seen, budget is left and the reservation is granted; a refused reservation sets the cooldown |
| Recovery.PollKeepsPace | internal/pivsigner/recovery.go:202-248 | the ladder arithmetic: at the defaults a poll inside the budget is at most the 4th before the inspection and the 8th in all |
| Recovery.RecoveryBudget.RemainingAt | internal/pivsigner/recovery.go:128-137 | the budget starts once and never restarts |
| Recovery.RecoveryBudget.AcquireCard | internal/pivsigner/recovery.go:139-157 | only a sharing violation starts recovery; the one diagnostic rescan is spent from the same budget; recovery then runs as specified inside what is left of it; an exhausted recovery comes back handled |
| Limiter.Hardware.ReserveHandoff | internal/pivsigner/recovery.go:349-368 | the pruning loop and the decision compute the specified reservation |
| Limiter.AtMostTwoPerWindow | internal/pivsigner/recovery.go:349-368 | over the whole run, if no clock reading is more than d behind an earlier one, every half-open window of 10 s less d holds at most two throttled hand-offs; 10 s for a clock that never steps back |
| Limiter.RetryAfterIsExact | internal/pivsigner/recovery.go:349-368 | after a denial everything throttled before the named instant is denied and the first attempt at it is granted |
| Limiter.AllowedIff | internal/pivsigner/recovery.go:349-368 | local and unlock operations are never throttled; any other is let through exactly unless two were granted in the last 10 s |
| Limiter.StaleReadExceedsLimit | internal/pivsigner/recovery.go:349-368 | that bound is exact: for every d up to 10 s a run with readings at most d stale has three hand-offs in a window one nanosecond longer |
| Selection.OpenSelected | internal/pivsigner/card.go:110-149 | the one configured card if there is exactly one, the failures in order if there is none, the first two if there are more; on every exit each opened session but the returned one is closed exactly once |
| Selection.FailuresElsewhereDoNotDecide | internal/pivsigner/card.go:106-136 | exchanging a reader without a configured card for any other such reader, failing or not, leaves the right outcome the same; with none usable only the failures listed may differ |
| Selection.RightIsUnique | internal/pivsigner/card.go:110-149 | the readers leave one right outcome |
| Selection.SelectedIff | internal/pivsigner/card.go:110-149 | a card is selected exactly when it is configured and no other readable card is |
| Selection.FailuresAreListed | internal/pivsigner/card.go:110-136 | exactly the readers that could not be opened or read are listed, with stage and error, in order |
| Signing.DigestCell.Build | internal/core/core.go:473-507 | on success all four captured variables hold the digest for this card; a refusal leaves input, key ID and key as they were |
| Signing.Hardware.VerifyCachedPin | internal/pivsigner/signer.go:339-368 | the PIN is presented exactly to a card it was not last verified on with more than one try left; a rejection forgets the verification |
| Signing.Hardware.WithCard | internal/pivsigner/signer.go:266-322 | a signature is over the digest built for this very card and key; a nonzero serial means the cached PIN stands verified for it |
| Signing.Hardware.SignAttempt | internal/pivsigner/signer.go:251-337 | the session is given back before the answer, and a passed deadline yields no signature and no serial |
| Signing.Hardware.Sign | internal/pivsigner/signer.go:190-226 | a second attempt exactly when what the first attempt comes to, as a function of the attempt, the verified serial and the digest, is a sharing violation not already handled by recovery; the answer is what the last attempt made comes to, and the digest held is for the card that signed |
| Signing.SignsIff | internal/pivsigner/signer.go:251-337 | exactly when an attempt signs, and that it signs the digest built for that card |
| Signing.RetriedIff | internal/pivsigner/signer.go:190-226 | a second attempt is made exactly when a call to the card in hand reported it shared, within the deadline |
| Signing.SignAndAssemble | internal/core/core.go:473-549 | serial, kid and sub of the token are those of the signing card, with the one jti and iat drawn before the first attempt, and the token verifies under that card's key |
| MintRing.MintLog.RecordMint | internal/core/core.go:789-829 | appending prunes, caps, warns and forgets as specified |
| MintRing.MintLog.MintCounters | internal/core/core.go:835-873 | the loop reports exactly the mints in the window by total, signature, age, alias and session, and nothing when there are none |
| MintRing.TotalsAre | internal/core/core.go:835-873 | the totals are the numbers of mints under an hour, five minutes and one minute old, and of signatures among them |
| MintRing.ListsAre | internal/core/core.go:835-873 | exactly the aliases and sessions with mints in the hour are listed, each with its number |
| MintRing.RingAfterIs | internal/core/core.go:789-803 | after a mint the ring is what is younger than an hour before it, itself last, and of more than 4096 the latest |
| MintRing.RingReportsTheHistory | internal/core/core.go:789-873 | below the cap and with no mint dated ahead of the clock a report is right for the ring if and only if it is right for the whole history, in any order |
| MintRing.WarningsAreExact | internal/core/core.go:789-829 | below the cap and with no earlier mint dated over 55 minutes ahead of it, a mint warns if and only if its session has 30 mints in the five minutes before it and none of them warned, judged on the whole history |
| MintRing.WarningsAreSpaced | internal/core/core.go:807-829 | two warnings for one session are at least five minutes apart unless a mint that names a session and is dated a whole hour after the first was recorded between them |
| MintRing.RememberedIff | internal/core/core.go:815-829 | a session's latest warning is remembered, with its instant, if and only if no such mint has been recorded since |
| MintRing.WarnedAgainIff | internal/core/core.go:807-829 | within five minutes of its session's latest warning a mint raises another if and only if the session is over the threshold and such a mint was recorded between them |
| MintRing.WarningsAreSpacedInOrder | internal/core/core.go:807-829 | in particular when no mint before the second warning is dated more than 55 minutes after it |
| MintRing.WarningsCanCrowd | internal/core/core.go:824-828 | and the exception happens: a history, in order for each session, in which one session is warned about twice within five minutes |

## Left out

- HTTP handlers, clients, JSON envelopes and error-to-status mapping: requests enter validated; the card-free and route-required refusals are decided before the modelled branch.
- Routed mints inside the daemon: they touch only the last-signature record and the mint record, so the step system has no step for them; `Route` models their checks.
- The last-signature record, the status report and the mint record are not part of the step system; the mint record is modelled on its own in `MintRing`.
- Unix sockets and peer credentials, the lease exchange, pinentry, Waybar, the agent-session supervisor, GnuPG commands, diagnostics and logging.
- The source-label grammar and provider description: validated inputs.
- Jws.NewClaimsIff: the zero signing time, which the program also refuses, is no instant of the model.
- A clock reading just before a critical section is taken as part of that section.
- The notifier's messages are a multiset, so their final sorting is not modelled; waking the notifier is not modelled.
- The cached PIN is a string, so wiping its bytes is not modelled; token buffers are arrays and their wiping is.
- Overflow of 64-bit window deadlines and generation numbers.
- ReuseCache.CacheEntry.constructor: the reader snapshot is a parameter; enumerating readers is a value the world provides.
- Recovery.RecoverSharing: reservations are answers of the world, so other operations may compete in any way; two clock readings with nothing timed between them are one.
- Recovery.RecoveryBudget.AcquireCard: the text the diagnostic rescan adds to an error is not modelled, only the time it takes.
- Signing.Hardware.SignAttempt: a worker that outlives both the deadline and the two-second drain is not modelled; one that outlives only the deadline is.
- ProbeRuns.LaunchesAndSessionsAddUp: openWorkers counts probe workers only; the synchronous open and the diagnostic rescan add their own.
