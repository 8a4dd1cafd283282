# A verified model of the relay

The relay stands between a billing backend, Redis, MikroTik routers and a
WireGuard interface. This project models its algorithms in Dafny and proves what
they keep. Code that interleaves is a state machine: an `Action` datatype for the
steps between two awaits, `Enabled`, `Next`, `Run`, an invariant, and theorems
about every run. Code that works by changing things step by step is a method or a
class, proved against a specification function.

| file | part of the relay |
|---|---|
| `TokenLock.dfy` | token locks of sessions and jobs, Redis and in-process |
| `Hotspot.dfy`, `AuthorizeProtocol.dfy` | the bindings of a router; concurrent authorizations |
| `SessionData.dfy`, `SessionStore.dfy`, `CreateProtocol.dfy` | sessions, their indices and expiry; concurrent creation |
| `Bits.dfy`, `WireFormat.dfy`, `MikrotikApi.dfy` | the RouterOS codec, in masks and shifts and in plain arithmetic ("API words" in MikroTik's RouterOS API manual) |
| `ReplyDriver.dfy`, `Sentences.dfy` | replies paired with commands; parameters over the wire |
| `RouterHealth.dfy`, `RetryChain.dfy`, `IdentityService.dfy` | circuit breaker and retry chains |
| `AuthorizeOverlap.dfy` | visits and retry runs overlapping at every await |
| `IdentityStore.dfy` | pending payments and the bounded applied list |
| `JobStore.dfy`, `TrialJobs.dfy` | the job file, trials and the job runner |
| `TenantScopes.dfy`, `AllowedIps.dfy`, `Convergence.dfy`, `Aggregation.dfy`, `Concurrency.dfy` | the WireGuard reconciler |
| `NonceGuard.dfy`, `RowExtractor.dfy` | the nonce cache; the row extractor |
| `Basics.dfy`, `Text.dfy` | shared helpers |

## Where code and documentation differ

The model follows the code.

- Authorizing and revoking take different locks, and updating a session takes
  none (src/services/sessionStore.js:593, 706, 257). The theorems about
  authorization say that nobody revokes or updates the session meanwhile.
- Creation drops the order number (src/services/sessionStore.js:549-556): its
  index is never written by a creation, which `CreateProtocol.OneSessionForAll`
  states.
- The second round of lookups skips the IP (src/services/sessionStore.js:532-546).
- The receive buffer is dropped after every chunk
  (src/services/mikrotikApi.js:131): of what an encoder wrote, everything arrives
  exactly when every chunk ends with a sentence (`ReplyDriver.AllArriveIff`).
- A reply's row is a plain object (src/services/mikrotikApi.js:91), in which
  `__proto__` cannot be set; a parameter of that name is sent and not read back.
- A `!trap` ends its command like a `!done` (src/services/mikrotikApi.js:106-117).
- A job whose handler throws is released a second time, without its token
  (src/services/jobRunner.js:130), whoever holds the lock by then;
  `TokenLock.CarelessRunsBreak`.
- A call gives an add up after eight seconds (src/services/mikrotik.js:7) and
  unlocks; should the router carry it out after that, the next call may bind the
  IP a second time (`AuthorizeProtocol.OneBindingIff`).
- Calls with different orders create a session each for the same MAC
  (src/services/sessionStore.js:499); `CreateProtocol.OneCreatedIff`.
- A router's failure reaches identityService.js as a refusal
  (src/services/mikrotik.js:57-71, src/services/authorize.js:83-87), so that its
  branch for transient errors is not taken as the program is wired. The theorems
  about retries hold of identityService.js for any outcome of the call.
- No outcome of a call brings a router's failure count down
  (src/services/routerHealth.js:111-163). `RetryChain.NeverPostponedIff` shows
  what follows for retries, and `IdentityService.ChainsBeginAfterAFailure` that
  every chain a visit begins is of the kind that can be put off.
- A granted trial can outlive its revoke exactly when the grant may take as long
  as the trial (`TrialJobs.RevokeFollowsGrantIff`).
- A desired peer scoped to another tenant is never seen in step, and set anew in
  every pass (`Convergence.TenantConverges`).
- addPeer takes a peer filed under the device for the one it is to add
  (src/services/wireguardManager.js:167); `Convergence.LonePassAgreesIff`.
- Removal of an extra peer goes by the device it is shown with, which may come
  from a binding (src/services/reconciler.js:115, 715).
  `Convergence.OnePassConverges` lets only devices that are not desired be
  removed; `Convergence.RemovalsSpareIff` says what happens otherwise.
- A payment can be marked as failed after it was granted, by an attempt that
  overlapped (src/services/identityStore.js:200-202);
  `AuthorizeOverlap.GrantedStaysClosedIff`.

## What comes from outside

Clocks, random tokens, ids and jitter, the outcome of every command to a router
(also lost replies), of `wg`, of Redis and of the file system are parameters or
free choices of the environment. A signature check is a boolean. Text and bytes
are the same on the wire (UTF-8 as identity); bytes past the end of a buffer read
as 0. Words are below 2^28 bytes, as the encoder supports no more.

## Model

| member | source | states |
|---|---|---|
| `TokenLock.AtMostOneLiveHolder` | src/services/sessionStore.js:67-116 | No timing assumption: over every interleaving of acquire, heartbeat, release, crash and clock, and of releases without a token that meet no live lease, two processes never both hold a lease that has not run out |
| `TokenLock.MutualExclusion` | src/services/jobRunner.js:29-131 | If every holder leaves or renews before expiry, at most one process is in the section, however long the run, in runs in which no handler throws while somebody else's lease is alive; for the Redis and the in-process lock alike |
| `TokenLock.OnlyTheTokenMovesTheLock` | src/services/jobStore.js:70-121 | A held lock moves or disappears only for a release or a heartbeat carrying its own token, or for a release without a token |
| `TokenLock.OverstayBreaksExclusion` | src/services/sessionStore.js:67-98 | The timing condition is needed: a run in which a holder outlives its lease ends with two processes inside |
| `TokenLock.CarelessRunsBreak` | src/services/jobRunner.js:124-131 | The condition on throws is exact: in every run in which a handler throws while a lease is alive, the release without a token lets the next process in beside the holder |
| `TokenLock.NoThrowIsCareful` | src/services/jobRunner.js:124-131 | It holds of every run in which no handler throws |
| `TokenLock.HeartbeatsKeepLeases` | src/services/jobRunner.js:29-131 | Heartbeats sent every so often and late by at most so much keep every lease alive, in runs in which no handler throws while somebody else's lease is alive, if and only if the two together stay within the TTL; and keep the section exclusive in every run if and only if, besides, no handler throws so; for either backend |
| `TokenLock.DefaultHeartbeats` | src/services/jobRunner.js:11-15 | With the default TTL and interval, leases stay alive, in runs in which no handler throws while somebody else's lease is alive, exactly if heartbeats are late by less than 15 s |
| `TokenLock.ShortTtlLapses` | src/services/jobRunner.js:12-15 | A TTL of a second or less runs out before the first heartbeat, the interval having a floor of a second |
| `TokenLock.LeaseExclusive` | src/services/sessionStore.js:67-116 | In any state the protocol keeps, live leases belong to one process |
| `TokenLock.AcquireKeepsLeases` | src/services/sessionStore.js:67-98 | Winning SET NX PX on a free key keeps live leases exclusive |
| `TokenLock.ReleaseKeepsLeases` | src/services/sessionStore.js:100-116 | Releasing, or dying without releasing, keeps live leases exclusive |
| `TokenLock.ClearKeepsLeasesIff` | src/services/jobStore.js:95-121 | A release without a token keeps leases exclusive if and only if none is alive |
| `TokenLock.ExtendKeepsLeases` | src/services/jobStore.js:70-93 | A heartbeat, in time or late, keeps live leases exclusive |
| `TokenLock.LateHeartbeat` | src/services/jobStore.js:70-93 | A heartbeat after the expiry: Redis has forgotten the lock, the in-process map revives it |
| `TokenLock.NextKeepsInv` | src/services/jobRunner.js:29-47 | Every step of the lock protocol keeps the invariant that a live lease is the lock itself, a release without a token meeting no live lease |
| `TokenLock.AcquireLock` | src/services/sessionStore.js:67-98 | Up to 60 tries, each 100 ms or more after the last: the lock is won at the first try that meets a free key, with an expiry 120 s on; an error from Redis is thrown out of the loop; the wait ends after 60 taken tries and six seconds or more |
| `JobLocks.InMemoryLocks.AcquireLock` | src/services/jobStore.js:43-68 | The in-process map does what the abstract lock does, on its own key only; an expired lock counts as held in the millisecond of its expiry |
| `JobLocks.InMemoryLocks.ExtendLock` | src/services/jobStore.js:70-93 | Extends exactly a lock of the same token, expired or not |
| `JobLocks.InMemoryLocks.ReleaseLock` | src/services/jobStore.js:95-121 | Removes the lock for its token, or for no token at all |
| `Hotspot.CountZero` | src/services/hotspotManager.js:157-161 | The print finds no row exactly when the IP has no bypassed binding |
| `Hotspot.CountIs` | src/services/hotspotManager.js:157-161 | The count is the number of rows with this address and type bypassed |
| `Hotspot.HotspotRouter.FindBypassed` | src/services/hotspotManager.js:157-161 | Returns a bypassed row of the IP if and only if there is one |
| `Hotspot.HotspotRouter.AuthorizeSessionOnRouter` | src/services/hotspotManager.js:132-191 | Print then add, with either command lost: success leaves the IP bound, no call ever makes a second binding, and failure says what was lost |
| `AuthorizeProtocol.NeverTwoBindings` | src/services/sessionStore.js:581-695 | Over every interleaving of calls, with failures and crashes between any two awaits and adds carried out at any moment their call's lease is alive, or never: never two bypassed bindings for the IP; a session stored as authorized has its binding; and a call that reported success has the binding and the session stored as authorized, unless the session's key has expired since |
| `AuthorizeProtocol.CallSucceeds` | src/services/sessionStore.js:593-694 | From any state other calls have left, a call that gets the free lock of a session that may be authorized, with router and Redis there, ends in success: session authorized, one binding |
| `AuthorizeProtocol.FailureIsReported` | src/services/sessionStore.js:604-694 | A call for which anything fails, or whose command is not acknowledged, never reports success, whatever happens later |
| `AuthorizeProtocol.RevokedStaysOut` | src/services/sessionStore.js:24-29 | A revoked session is never bound or authorized again, over every interleaving |
| `AuthorizeProtocol.NextKeepsInv` | src/services/sessionStore.js:593-694 | Every step keeps it that a call whose add may still be carried out under its lease has seen no binding, and one past the add has seen one |
| `AuthorizeProtocol.LandKeepsInv` | src/services/hotspotManager.js:174-180 | An add carried out under its call's lease makes the first binding, whether or not the reply arrives or the call still waits |
| `AuthorizeProtocol.OneBindingIff` | src/services/sessionStore.js:593-694 | No run binds the IP twice if and only if every add is carried out less than 120 s after its call took the lock, and never after the call has left |
| `CreateProtocol.OneSessionForAll` | src/services/sessionStore.js:427-579 | Over every interleaving of calls for one MAC and fingerprint: one session at most is created, every call that returns gives its id and leaves it pending and found by its id, the MAC and the IP the call came with, no call fails but by waiting too long, and no order index is ever written |
| `CreateProtocol.CallReturns` | src/services/sessionStore.js:427-579 | A call left to itself, from whatever place others have left it in, ends by returning the session |
| `CreateProtocol.LooksInOrder` | src/services/sessionStore.js:437-559 | Order, MAC and IP are looked up in turn before the lock, order and MAC again inside it; the lock goes by the first of the three there |
| `CreateProtocol.Merge` | src/services/sessionStore.js:437-546 | A reused session keeps id, status, order and expiry; the request gives its IP unless found by it, and its MAC unless found by that |
| `CreateProtocol.OneCreatedIff` | src/services/sessionStore.js:498-559 | Calls for one MAC never create two sessions if and only if their fingerprints are all the same: with different orders they take different locks, both miss and both create |
| `CreateProtocol.MissProvesNone` | src/services/sessionStore.js:532-546 | Inside the lock, a missing MAC index proves that nothing has been created |
| `CreateProtocol.NextKeepsInv` | src/services/sessionStore.js:427-579 | Every Redis command of every call keeps the protocol invariant |
| `CreateProtocol.Onward` | src/services/sessionStore.js:445-546 | The lookups come in order; only indices the request can name are asked; the session is created only when none is left to ask |
| `SessionData.ComputeTtl` | src/services/sessionStore.js:54-65 | A session still to expire is stored until six hours after its expiry, to the millisecond; any other for one minute |
| `SessionStore.WithIndices` | src/services/sessionStore.js:176-213 | Exactly the session's own index keys are set, all with the same expiry, and no other key moves |
| `SessionStore.PersistKeepsInv` | src/services/sessionStore.js:147-213 | Writing a session and, later, its indices keeps every live session covered by an index that outlives it |
| `SessionStore.PersistedIsFound` | src/services/sessionStore.js:147-213 | A session written is found by its id, its IP, its MAC and its order for as long as it is kept |
| `SessionStore.LookupIsScan` | src/services/sessionStore.js:313-341 | Following the MAC index finds exactly the live session a scan of the whole store would |
| `SessionStore.SessionStore.PersistIndices` | src/services/sessionStore.js:176-213 | The three SETs amount to WithIndices |
| `SessionStore.SessionStore.CreateSession` | src/services/sessionStore.js:219-241 | A pending session, with the order and expiry it is given, is stored for two minutes; the index invariant stays |
| `SessionStore.SessionStore.UpdateSession` | src/services/sessionStore.js:257-281 | Only a live session is updated: every field is what the data give, cleared where they give undefined, and as it was where they give none; the index invariant stays |
| `SessionStore.SessionStore.AuthorizeSession` | src/services/sessionStore.js:581-695 | Every outcome with its exact condition, a lock not won among them; the record read before the router call is written back after it, with a TTL computed then, even if it expired meanwhile, and the index invariant stays; otherwise nothing is written |
| `SessionStore.SessionStore.RevokeSession` | src/services/sessionStore.js:697-801 | The same for revoking: an allowed transition always, the cleanup window as TTL, and nothing written unless the lock was won and the router willing |
| `SessionStore.SessionStore.DeleteSession` | src/services/sessionStore.js:373-389 | The session key alone goes; the index invariant stays |
| `SessionStore.SessionStore.FindByMac` | src/services/sessionStore.js:313-341 | After any operations and lapse of time, answers with the scan's result, and deletes an index that names no live session |
| `WireFormat.LengthRoundTrip` | src/services/mikrotikApi.js:5-29 | Every length below 2^28 is read back from its 1 to 4 bytes, whatever follows |
| `WireFormat.RoundTrip` | src/services/mikrotikApi.js:12-49 | Parsing framed sentences gives each one cut at its empty words, empty pieces dropped |
| `WireFormat.ExactRoundTrip` | src/services/mikrotikApi.js:12-49 | The round trip is the identity exactly on non-empty sentences of non-empty words |
| `WireFormat.ParsedIsSolid` | src/services/mikrotikApi.js:31-49 | On any bytes the parser returns only non-empty sentences of non-empty words |
| `WireFormat.ParsedIsWhole` | src/services/mikrotikApi.js:31-49 | Every word returned stands complete in the bytes, behind its own length |
| `WireFormat.NormalForm` | src/services/mikrotikApi.js:12-49 | On any bytes, framing what was parsed and parsing it again changes nothing |
| `WireFormat.ParseConcat` | src/services/mikrotikApi.js:128-133 | Bytes that end with a sentence and what follows them parse independently |
| `WireFormat.EncodedIsAligned` | src/services/mikrotikApi.js:17-21 | Encoded sentences end where sentences end |
| `MikrotikApi.DecodeLength` | src/services/mikrotikApi.js:23-29 | A prefix takes one to four bytes |
| `MikrotikApi.DecodeIsHeader` | src/services/mikrotikApi.js:23-29 | The masks and shifts read the plain arithmetic length, on any bytes, reads past the end counting as 0 |
| `MikrotikApi.EncodeIsLengthBytes` | src/services/mikrotikApi.js:5-10 | The masks and shifts write the plain arithmetic length bytes |
| `MikrotikApi.ParseReply` | src/services/mikrotikApi.js:31-49 | The loop over offset, current and sentences computes the parse of the whole buffer, on any bytes |
| `MikrotikApi.EncodeAllIsFrame` | src/services/mikrotikApi.js:12-21 | What is written to the socket is the framed sentences |
| `MikrotikApi.WireRoundTrip` | src/services/mikrotikApi.js:5-49 | parseReply after encodeSentence, for every list of sentences with words below 2^28 bytes, and exactly when it is the identity |
| `MikrotikApi.ReencodingIsStable` | src/services/mikrotikApi.js:5-49 | On any bytes, encoding what was parsed and parsing it again changes nothing |
| `Text.IndexFrom` | src/services/mikrotikApi.js:93 | The first occurrence at or after a place, or none |
| `Text.PaddingIsTrimmed` | src/services/reconciler.js:58 | Trimming takes the white space around a text and nothing else |
| `Rows.ReadRow` | src/services/mikrotikApi.js:90-96 | The loop over a reply's words builds the row, later fields over earlier ones; a field named __proto__ sets nothing, the row being a plain object |
| `Rows.RowIs` | src/services/mikrotikApi.js:90-96 | A row has a field with a value exactly when the last word naming the field gives that value, __proto__ aside |
| `Replies.CutIsFaithful` | src/services/mikrotikApi.js:97-118 | Cutting the reply stream at its terminators loses nothing |
| `Replies.CutIsUnique` | src/services/mikrotikApi.js:97-118 | and is the only cutting that does |
| `Replies.Results` | src/services/mikrotikApi.js:122-126 | One result per answered command, and one begun while a command is left |
| `Replies.PhaseIsAfterFirstDone` | src/services/mikrotikApi.js:79-88 | What counts as replies to commands is exactly what follows the first !done |
| `Replies.NoDoneIsLogin` | src/services/mikrotikApi.js:79-88 | Without a !done the session is still logging in |
| `Replies.VerdictIsFinal` | src/services/mikrotikApi.js:60-66 | Once the promise is settled, nothing received later changes it |
| `Replies.VerdictIs` | src/services/mikrotikApi.js:74-118 | A login decided by a !trap or !fatal fails the run; one decided by a !done resolves it with as many terminators as commands |
| `Replies.ResolvedMeans` | src/services/mikrotikApi.js:90-118 | When a run resolves there is one result per command: result i has the rows of exactly the !re sentences between terminators i-1 and i, is ok exactly when terminator i is !done, and otherwise has its words as error |
| `Replies.JoinKeepsWords` | src/services/mikrotikApi.js:108 | The text of a command or an error gives its words back, unless they hold spaces |
| `ReplyDriver.ChunkingDoesNotMatter` | src/services/mikrotikApi.js:128-133 | Chunks that end with sentences parse to what the whole stream parses to |
| `ReplyDriver.AllArriveIff` | src/services/mikrotikApi.js:128-133 | However the bytes an encoder wrote are cut into chunks, every sentence arrives if and only if each chunk ends with a sentence |
| `ReplyDriver.CutChunkLosesReply` | src/services/mikrotikApi.js:128-133 | The buffer dropped after every chunk matters: of two pieces of what an encoder wrote, parsed apart, all sentences come back if and only if the cut falls between sentences |
| `ReplyDriver.AdvanceAllIsView` | src/services/mikrotikApi.js:74-126 | Handling sentences one by one leaves the variables where the stream as a whole says they are |
| `ReplyDriver.Session.SendNextCommand` | src/services/mikrotikApi.js:122-126 | Begins the next result and writes the command, unless the socket is gone |
| `ReplyDriver.Session.ProcessSentence` | src/services/mikrotikApi.js:75-119 | One turn of the loop is one step of the abstract session |
| `ReplyDriver.Session.ProcessLine` | src/services/mikrotikApi.js:74-120 | The loop is the abstract session's run over the sentences |
| `ReplyDriver.Session.Run` | src/services/mikrotikApi.js:51-133 | For every stream, command list and sentence-aligned chunking, the verdict is that of the byte stream; if it resolves, the login and each command have been written in order, once |
| `Sentences.BuildSentence` | src/lib/buildSentence.js:1-10 | The pushes and the filter give the trimmed command, if any, and a word for each parameter with a key and a value |
| `Sentences.WhiteIsSpace` | src/lib/buildSentence.js:2 | The bytes taken for white space are the UTF-8 of exactly the characters trim() takes away |
| `Sentences.CommandIsTrimmed` | src/lib/buildSentence.js:2 | Any white space around a command, in UTF-8, is trimmed, and nothing else |
| `Sentences.SentenceSurvives` | src/lib/buildSentence.js:9 | A built sentence arrives as it was, an empty one as nothing |
| `Sentences.ParamReadBack` | src/services/mikrotikApi.js:92-95 | A key without an equals sign, other than __proto__, comes back with its value, whatever the value holds |
| `Sentences.KeysAreReadable` | src/services/mikrotikApi.js:92-95 | No reader ever sees a key with an equals sign, or the key __proto__ |
| `Sentences.ParametersSurvive` | src/lib/buildSentence.js:1-10 | buildSentence, encodeSentence, parseReply and the row reader give the parameters back if and only if no key sent holds an equals sign or is __proto__, and the command is not blank (or nothing is sent) |
| `RouterHealth.CircuitOpensFor` | src/services/routerHealth.js:105-134 | How long each class of error keeps the router from being tried, and what it adds to the failure count |
| `RouterHealth.EntryIs` | src/services/routerHealth.js:111-136 | The state tells the error's class, the code is kept, and a class with a time of its own opens the circuit for it |
| `RouterHealth.ClassIs` | src/services/errors/classifyError.js:33-53 | The class of an error goes by its code alone |
| `RouterHealth.RouterHealth.UpdateRouterHealth` | src/services/routerHealth.js:111-163 | Moves this router's entry as its class of error says, no other; no outcome of a call brings a failure count down |
| `RetryChain.TurnShrinks` | src/services/identityService.js:197-242 | Every run of a retry job takes the chain to a later attempt or, the circuit being open, nearer its closing |
| `RetryChain.ChainsEnd` | src/services/identityService.js:146-242 | Every chain ends if nobody else moves the router's health: whatever stores and router answer, it has no more runs than a bound computed from its start |
| `RetryChain.DefaultChainLength` | src/services/identityService.js:146-242 | With the default breaker, a chain begun on a closed circuit has at most 225 runs |
| `RetryChain.EightRunsAmongOthers` | src/services/identityService.js:162-242 | Whatever others do to the router's health between the runs, no more than eight runs of a chain find the circuit closed |
| `RetryChain.OthersKeepItWaiting` | src/services/identityService.js:196-202 | and any number can find it open, if others keep it so |
| `RetryChain.TransientRuns` | src/services/identityService.js:222-238 | From attempt k there are exactly 8 - k transient runs to FAILED |
| `RetryChain.EightRunsThenFailed` | src/services/identityService.js:18-242 | With the circuit closed throughout, FAILED comes exactly at the eighth transient run, the scheduled delays totalling at least 497000 and less than 596400 ms |
| `RetryChain.NeverPostponedIff` | src/services/routerHealth.js:105-136 | By default, no pace of runs ever meets an open circuit if and only if the router had no failures when the chain began |
| `IdentityService.ChainsBeginAfterAFailure` | src/services/identityService.js:72-138 | A chain begun by a visit never starts from a clean failure count |
| `IdentityService.GrantedIsNotRepeated` | src/services/identityService.js:192-218 | Once a run was granted, the payment is neither pending nor missing from the applied list, and a run begun later ends before the router |
| `IdentityService.ExhaustedCoolsDown` | src/services/identityService.js:168-175 | After the last transient failure runs end early for exactly ten minutes |
| `IdentityService.RunEnds` | src/services/identityService.js:162-242 | What a run comes to, told from the record it finds, the circuit and the reply: each verdict exactly under its condition, and the next job's attempt and time |
| `IdentityService.RouterIs` | src/services/identityService.js:12-14 | The router taken is the first given of hint, identity, payment, job and last sighting |
| `IdentityService.JobContinues` | src/services/identityService.js:74-129 | The job a visit leaves goes on with the visit's payment |
| `IdentityService.ResetIs` | src/services/identityService.js:38-46 | A failed payment past its cool-down is due again, as if it had just come in |
| `IdentityService.ActionKeyNames` | src/services/identityService.js:66 | Different routers or orders have different action keys |
| `AuthorizeOverlap.GrantedStaysClosedIff` | src/services/identityService.js:27-242 | Over every interleaving of visits, retry runs, payments and prunes: a granted payment is never open again, and never asked for anew, if and only if no attempt under way when it was closed is about to reset it or gives it up after its last try |
| `AuthorizeOverlap.StoreStep` | src/services/identityStore.js:153-234 | An order becomes an open payment only by coming in, or by an overlapping attempt that resets it or gives it up |
| `AuthorizeOverlap.AttemptStep` | src/services/identityService.js:36-81 | Only an attempt that finds the order open asks for it, or may reopen it later |
| `AuthorizeOverlap.AttemptAlone` | src/services/identityService.js:27-242 | An attempt that nobody overlaps leaves the store as the retry chain says, for every reply |
| `AuthorizeOverlap.TwoAsk` | src/services/identityService.js:66-112 | Until its grant is recorded, two overlapping attempts ask the router for the same payment |
| `IdentityService.IdentityService.RetryAuthorizePending` | src/services/identityService.js:162-242 | One run moves the chain, the router's health, the store and the job list as the chain model says, at most one job taking the place of the one run |
| `IdentityService.IdentityService.Try` | src/services/identityService.js:207-226 | A granted call is recorded and its payment closed; only a thrown error touches the router's health |
| `IdentityService.IdentityService.RefreshAndAuthorize` | src/services/identityService.js:27-144 | A visit begins a chain, at attempt 0, exactly after a transient failure or on an open circuit; the job it leaves is the same client's, with the visit's router, address and MAC, and its run finds the same order ready on the same router; an unknown router or a missing sid throws |
| `IdentityService.IdentityService.NoteVisit` | src/services/identityService.js:20-33 | The visit is noted, and the store pruned at most once a minute |
| `AppliedWindow.WindowStep` | src/services/identityStore.js:253-255 | Trimming the applied list at every operation loses nothing that one trim at the end would keep |
| `AppliedWindow.WindowRemembers` | src/services/identityStore.js:236-241 | The trimmed list has an action exactly when the complete history has it among the last 50 and at most 14 days old |
| `IdentityStore.FindAfterPut` | src/services/identityStore.js:113-122 | Writing a record back changes what is found for its sid only, and keeps sids distinct |
| `IdentityStore.SeenIs` | src/services/identityStore.js:131-151 | A visit: what it knows replaces what was known, the rest stays |
| `IdentityStore.PrunedIs` | src/services/identityStore.js:264-289 | A sighting is dropped after a day, a payment once it has expired, and nothing else |
| `IdentityStore.MarkedIs` | src/services/identityStore.js:193-234 | Failing and applying change the payment of that order only, and keep its router, order and expiry |
| `IdentityStore.IdentityStore.UpsertLastSeen` | src/services/identityStore.js:131-151 | A visit overwrites what it knows and keeps the rest; the applied lists stay what the history says |
| `IdentityStore.IdentityStore.MarkPending` | src/services/identityStore.js:153-178 | The payment replaces the record's pending one; without an order it throws and writes nothing |
| `IdentityStore.IdentityStore.MarkPendingFailed` | src/services/identityStore.js:193-212 | Only the pending payment of that order fails |
| `IdentityStore.IdentityStore.MarkPendingApplied` | src/services/identityStore.js:214-234 | Only the pending payment of that order is closed |
| `IdentityStore.IdentityStore.MarkApplied` | src/services/identityStore.js:243-261 | The stored list is the window of the complete history with the new action at its end; an unknown sid throws |
| `IdentityStore.IdentityStore.Prune` | src/services/identityStore.js:264-289 | Every list becomes the window of its complete history now; stale sightings and expired payments go |
| `IdentityStore.IdentityStore.IsActionApplied` | src/services/identityStore.js:236-241 | Answers membership in the window of the complete history at the latest trim |
| `JobStore.WithoutKeeps` | src/services/jobStore.js:364-368 | Removal takes every job with the id and no other |
| `JobStore.DueIs` | src/services/jobStore.js:396-399 | The due jobs are those whose time has come |
| `JobStore.ChangedAt` | src/services/jobStore.js:150-200 | Counting and putting off change one job, the first with the id, and of it the attempts or the time only |
| `JobStore.JobStore.RemoveJobById` | src/services/jobStore.js:357-376 | The filter loop, written back |
| `JobStore.JobStore.GetDueJobs` | src/services/jobStore.js:378-408 | The filter loop, changing nothing |
| `JobStore.JobStore.IncrementJobAttempts` | src/services/jobStore.js:150-169 | One more attempt on the first job with the id, 0 if there is none |
| `JobStore.JobStore.RescheduleJob` | src/services/jobStore.js:181-200 | Only the run time of the first job with the id moves |
| `TrialJobs.NoTrialWithoutRevoke` | src/services/jobRunner.js:54-81 | At every point of every run, ticks overlapping from stale snapshots, locks granted to anyone, exceptions and restarts anywhere: each granted trial has a live revoke job, or was revoked, or its counted failures reached the maximum |
| `TrialJobs.RevokeComesAfter` | src/services/stateMachine.js:110-126 | No revoke succeeds before it is due, so it follows a grant made before then |
| `TrialJobs.LateGrantIsNeverRevoked` | src/services/stateMachine.js:110-137 | For every grant that takes as long as the trial or longer there is a run in which the revoke comes no later than the grant and no job is left to end it |
| `TrialJobs.RevokeFollowsGrantIff` | src/services/stateMachine.js:110-151 | In every run a revoke that succeeds comes after the grant, if and only if the grant takes less time than the trial |
| `TrialJobs.NextKeepsInv` | src/services/jobRunner.js:19-133 | Every step of every tick keeps all trials covered |
| `TrialJobs.RemovalKeepsCover` | src/services/jobStore.js:357-368 | Removing an id uncovers no trial that was revoked, given up or has a job retried more often |
| `TrialJobs.AddRetryKeepsInv` | src/services/jobRunner.js:124-131 | The -retry job is in the file before the job it replaces is removed, even when its copy of the attempts is stale |
| `TrialJobs.CountKeepsInv` | src/services/jobRunner.js:66-68 | Attempts on any copy of a job never exceed the failures counted for its trial |
| `TrialJobs.CountedTogether` | src/services/jobStore.js:150-169 | A failure counts for the trial exactly when it is counted on a job of the file |
| `TrialJobs.JobEngine.ProcessTrialRequested` | src/services/stateMachine.js:110-151 | The revoke job is in the file before access is asked for, whatever comes of the request; rejected events leave no job |
| `TrialJobs.JobEngine.RunDueJobs` | src/services/jobRunner.js:19-133 | The job file after a tick is what its due jobs leave of it one after another, each by its outcome, and getting there is a run of the state machine |
| `TrialJobs.OtherJobsStay` | src/services/jobRunner.js:54-131 | A job that has been through leaves all others in the file and adds none but its own retry; it stays itself only if it was locked, or a failed revoke below the maximum |
| `TrialJobs.FailureIs` | src/services/jobRunner.js:63-81 | A failed revoke is dropped at the maximum of attempts, and below it put off by thirty seconds doubled for each attempt before, and the jitter; nothing else of the file moves |
| `TrialJobs.RetryIs` | src/services/jobRunner.js:124-129 | A job that threw comes back half a minute later under its -retry id, with its kind and attempts |
| `TrialJobs.BackoffDoubles` | src/services/jobRunner.js:72-73 | The backoff is thirty seconds, doubled for every attempt but the first |
| `TrialJobs.JobEngine.RunFailed` | src/services/jobRunner.js:63-81 | A failed revoke is counted, then dropped at the maximum or put off by the backoff, doubled with each attempt, and a jitter below five seconds; the job file says so exactly |
| `TenantScopes.HostOfEndpoint` | src/services/reconciler.js:145-156 | The host of host:port, whatever colons it holds itself |
| `TenantScopes.HostOfBracketed` | src/services/reconciler.js:145-156 | The host of [host]:port |
| `TenantScopes.HostOfBare` | src/services/reconciler.js:145-156 | No endpoint, or (none), names no host; a bare host is one, white space aside |
| `TenantScopes.MappedHostResolves` | src/services/reconciler.js:158-182 | A mapped host sends its peers to the tenant of its slug, any other host to the default tenant |
| `TenantScopes.OthersResolve` | src/services/reconciler.js:164-169 | Without a default tenant nobody is resolved; without a host, or in another mode, the default tenant is |
| `TenantScopes.ScopedIs` | src/services/reconciler.js:526-544 | A tenant's scope has exactly the peers it owns or that resolve to it |
| `TenantScopes.ScopeActual` | src/services/reconciler.js:526-544 | The loop computes that scope, in the order of the peers |
| `TenantScopes.ScopesPartition` | src/services/reconciler.js:288-291 | Over every interleaving of cycles and discoveries: no peer in two scopes; a peer somebody owned at the start is in that tenant's scope and no other, whatever its endpoint; any other in the scope of the tenant its endpoint resolves to |
| `TenantScopes.NextKeepsInv` | src/services/reconciler.js:184-293 | A discovery's write to the shared map moves no peer's owner |
| `TenantScopes.DiscoveredBelongs` | src/services/reconciler.js:288-291 | A discovered peer belongs to its tenant from then on, wherever it connects from |
| `AllowedIps.SortedUnique` | src/services/reconciler.js:53-62 | A list has one sorted arrangement |
| `AllowedIps.NormalizeIsCanonical` | src/services/reconciler.js:53-62 | Two texts have the same normal form exactly when they list the same addresses, each as often, in whatever order and spacing |
| `AllowedIps.NormalFormLists` | src/services/reconciler.js:53-62 | The normal form lists every entry as often as the text does, but for white space around it, and nothing else |
| `AllowedIps.PaddedListIsTheSame` | src/services/reconciler.js:57-61 | White space around the entries, however much, changes nothing |
| `AllowedIps.CleanCounts` | src/services/reconciler.js:58-59 | Trimming and dropping blanks keeps every entry as often as it is there |
| `AllowedIps.LeMeans` | src/services/reconciler.js:60 | The order of sort(): a prefix first, else the smaller character where two entries first differ |
| `AllowedIps.NormalizeIdempotent` | src/services/reconciler.js:53-62 | Normalising twice is normalising once |
| `AllowedIps.ListIsText` | src/services/reconciler.js:55 | An array of comma-free entries normalises like the text that lists them |
| `AllowedIps.EntryWithCommas` | src/services/reconciler.js:55 | An array entry with commas inside is kept whole, and is in normal form exactly when its addresses are sorted already |
| `WireguardManager.FindRow` | src/services/wireguardManager.js:166-167 | The first peer with the key or filed under the device, none being earlier, if any |
| `WireguardManager.WireguardManager.AddPeer` | src/services/wireguardManager.js:151-196 | A command is issued exactly when no such peer is shown or its list reads differently; the key is filed under the device; created and updated say which |
| `WireguardManager.WireguardManager.RemovePeer` | src/services/wireguardManager.js:198-219 | Some key filed under the device goes from the table and the meta file, or nothing changes |
| `Convergence.ToAddOrUpdate` | src/services/reconciler.js:570-576 | The loop collects exactly the items out of step, in order |
| `Convergence.OnePassConverges` | src/services/reconciler.js:673-741 | After one pass over the lists of all tenants, its calls interleaved and racing on the meta file, and only peers of devices not desired removed, the table agrees with every list; a second pass finds out of step exactly the items its tenant sees no row for, or whose lists repeat an address or spell one unlike the kernel |
| `Convergence.EveryLaterPass` | src/services/reconciler.js:886-908 | So does every later pass, each starting from where the last one left table and meta file |
| `Convergence.TenantConverges` | src/services/reconciler.js:515-576 | From the second pass on, all tenants' commands interleaved, an item is out of step in every pass unless its list is exact and its peer scoped to the tenant that desires it: one scoped to another tenant is set anew for ever |
| `Convergence.InStepIff` | src/services/reconciler.js:567-576 | An item the table agrees with is in step if and only if the rows looked at list it and its list is exact |
| `Convergence.CidrsAreTheList` | src/services/wireguardManager.js:156-160 | A list comes back from the kernel unchanged exactly when it repeats nothing and is spelled the kernel's way |
| `Convergence.NextKeepsInv` | src/services/wireguardManager.js:151-219 | Every step of every call keeps finished items in agreement |
| `Convergence.AddCompletes` | src/services/wireguardManager.js:151-196 | A call can always be carried through, and then leaves table and meta file as a call alone would |
| `Convergence.LonePassAgreesIff` | src/services/wireguardManager.js:151-196 | One key per device is needed, exactly so far: after every pass in which an item is alone it agrees if and only if addPeer finds no peer for it, or its own, or one that reads differently; otherwise the next pass finds it again |
| `Convergence.RemovalsSpareIff` | src/services/wireguardManager.js:198-219 | Removal goes by device: over every interleaving of removals after the adds, an item still agrees if and only if none of them finds a key filed under its device |
| `Convergence.SharedAddressNeverAgrees` | src/services/wireguardManager.js:160 | Disjoint lists are needed: a command for one of two sharing peers puts the other out of step |
| `Aggregation.StatusOfSet` | src/services/reconciler.js:131-138 | A router's status depends on which statuses its peers have, not on their order or number |
| `Aggregation.StatusWins` | src/services/reconciler.js:131-138 | The status is the first of ONLINE, OFFLINE, NEVER_CONNECTED and MISSING that any peer has |
| `Aggregation.OnePeerMore` | src/services/reconciler.js:124-376 | What one peer more adds to a router's aggregate, case by case |
| `Aggregation.Conservation` | src/services/reconciler.js:303-376 | The routers' byte totals are the totals over all in-tenant peers with a router, none lost or counted twice |
| `Aggregation.AddBytes` | src/services/reconciler.js:366-371 | A malformed receive counter loses both counters, a malformed send counter only itself |
| `Aggregation.AggregatePeers` | src/services/reconciler.js:303-376 | The peer loop conserves bytes and skips exactly the keyed peers of other tenants |
| `Aggregation.RouterUpdates` | src/services/reconciler.js:380-418 | Each known router of the tenant with peers is written once, with its aggregate |
| `Aggregation.OrderDoesNotMatter` | src/services/reconciler.js:131-376 | Any order of the peers gives the same totals, latest handshake and status |
| `Aggregation.LatestIsMaximum` | src/services/reconciler.js:372-374 | The latest handshake is the maximum over the router's peers |
| `NonceGuard.AtMostOnce` | src/security/hmacVerify.js:35-62 | A timestamp and nonce are accepted at most once in every run if and only if the nonce TTL exceeds twice the skew, or the skew is negative |
| `NonceGuard.AtMostOnceByDefault` | src/security/hmacVerify.js:4-5 | So they are with 120 s and 300 s |
| `NonceGuard.ReplayWorks` | src/security/hmacVerify.js:44-48 | Otherwise a request a skew early and again a skew late is accepted twice |
| `NonceGuard.VerdictIs` | src/security/hmacVerify.js:35-62 | Every request has exactly the answer its checks ask for, in their order: accepted if timely, with a nonce not used within the TTL, and genuine |
| `NonceGuard.NonceGuard.Cleanup` | src/security/hmacVerify.js:9-13 | The loop drops exactly the expired nonces |
| `NonceGuard.NonceGuard.VerifyRelaySignature` | src/security/hmacVerify.js:35-62 | The answer from the cache is the one the complete history of calls asks for, and each answer is given exactly under its conditions; a wrong signature uses its nonce up too |
| `RowExtractor.OutcomeIsLevelOrder` | src/lib/hotspotParsers.js:17-40 | The queue yields the rows level by level |
| `RowExtractor.OutcomeIsFlattened` | src/lib/hotspotParsers.js:17-40 | and every row a depth-first walk does, as often |
| `RowExtractor.LevelOrderIsFlattened` | src/lib/hotspotParsers.js:17-40 | Level by level or depth first, the same rows, each as often |
| `RowExtractor.Drain` | src/lib/hotspotParsers.js:17-40 | The loop terminates and yields what the queue's items come to |
| `RowExtractor.ExtractRows` | src/lib/hotspotParsers.js:5-42 | Terminates on every nested value; its rows are the level order and a permutation of the depth-first walk |
| `RowExtractor.ReplyRows` | src/lib/hotspotParsers.js:5-42 | A router's reply yields every row of every command, in order, behind the reply itself |
| `Concurrency.MapWithConcurrency` | src/lib/concurrency.js:1-12 | Every item is handled once, with its index, in batches of the limit in order |

## Left out

- The writes of each peer's own status and counters in persistActualStateToDb: one independent write per peer.
- Express routes, rate limits, boot, logging, metrics, audit records, alerts: no algorithm.
- Sockets, timers, child processes, Prisma and Postgres: abstract tables and arbitrary outcomes stand for them.
- Cryptography, and the nonce check in src/index.js, whose TTL is one skew only.
- The Redis and SQLite job queues; of Redis only the locks are modelled.
- findByIp, findByPedidoId and the cursor loop of listSessions: the same shape as findByMac, with no claim beyond it.
- Overlapping authorize, revoke and update of one session, roaming and shared IPs.
- The comment of a binding in the authorize protocol, and the spelling of a row's type and address on the router, taken as equal or not.
- `lastSeen.identity`, `planId`, creation times and other fields no branch depends on.
- withLock of the identity store: its operations are single reads and writes of the file, so it is taken as atomic.
- RELEASE_REQUESTED, REVOKE_REQUESTED and PAYMENT_CONFIRMED events: single actions without a persisted counterpart.
- The files' own failures: writes of the job and identity files succeed.
- Dry runs, endpoints, keepalive and preshared keys of WireGuard peers.
- WireguardManager.WireguardManager.AddPeer: the class takes one call at a time; the races on the meta file are in Convergence, on values.
- Hotspot.HotspotRouter.AuthorizeSessionOnRouter: the class takes one call at a time, a lost add taking effect within the call or never; interleavings and late adds are in AuthorizeProtocol, on values.
- SessionStore.SessionStore.AuthorizeSession: the class takes one call at a time, what came of its lock being given, and reaches Redis; lock, interleavings, lost replies and a failing Redis are in AuthorizeProtocol, on values.
- SessionStore.SessionStore.RevokeSession: the class takes one call at a time, what came of its lock being given, and reaches Redis; two revokes of one session at once are not modelled.
- IdentityService.IdentityService.RetryAuthorizePending: the class takes one run at a time; runs that overlap are in AuthorizeOverlap, on values, without the circuit breaker's own state.
- IdentityService.IdentityService.RefreshAndAuthorize: the class takes one visit at a time; the same.
- RouterHealth.RouterHealth.UpdateRouterHealth: the copy in Redis, by which another instance's last write replaces the entry, and a restart, which begins at zero, are not modelled; chains among others are in RetryChain, with any health found.
- SessionStore.SessionStore.FindByMac: the class takes one call at a time, a write and its indices being `lag` milliseconds apart.
- NonceGuard.AtMostOnce: speaks of one process between two restarts, which empty the cache; assumes a clock that does not go back; with one that does, an expired nonce could come back in range.
- AllowedIps.NormalizeIsCanonical: sort() compares UTF-16 code units; characters are compared here, the same for addresses.
