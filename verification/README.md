# Verified model of the MCP kit's OAuth core

The kit is a set of Go packages for MCP servers with an OAuth 2.1 authorization server. Most of it is
HTTP glue; its difficult part is a handful of small state machines. This project models those and
proves what they are for, over every run, every interleaving and every input.

| file | what it models |
|---|---|
| `ReplayCache.dfy` | the timed cache of refresh responses, with its aliasing, and the response recorder |
| `ReplayProtocol.dfy` | `handleReplayableRefresh` as interleaved atomic steps of any number of requests |
| `ReplaySafety.dfy` | one execution per window, and what lookups return meanwhile |
| `ReplayAudit.dfy` | conservation of the "replayed" audit events and their counts |
| `ReplayIntegrity.dfy` | every written response was executed; no request is stuck |
| `ReplayFreshness.dfy` | what a request that reports no replay may have been served |
| `ReplayPaths.dfy` | each way a request takes through the handler, with pauses at every clock sample |
| `SigningKeys.dfy`, `KeyRuns.dfy`, `Rotator.dfy` | the key store, runs of its manager, the rotation loop |
| `ConsentForm.dfy`, `ApprovalStore.dfy`, `ConsentRuns.dfy` | the authorize form, approval tokens, runs of the consent handler |
| `Envelope.dfy` | the buffering response writer |
| `Scopes.dfy`, `ClientMetadata.dfy` | scope requests, client metadata documents and their bounded cache |
| `CredStore.dfy` | the credentials file of the command-line client |
| `AuthChallenge.dfy` | the `WWW-Authenticate` header |
| `Text.dfy`, `Wrappers.dfy` | Go's string functions and the option type that the others need |

## How the model is built

- Code that changes state is a class or a method with loops, proved against a specification function;
  the results are then proved about those functions over whole runs.
- A run is a list of actions. An action that is not enabled leaves the state alone, so every list is a
  run and every interleaving is a list. Each critical section under a mutex is one action; each clock
  sample that the code takes outside a critical section is an action of its own. The clock never goes
  back, and time 0 is Go's zero time, before any clock sample.
- Singleflight enters only through its contract: one running closure per key, whose result all of its
  callers share. Executing the token request is an arbitrary status, header and body. The audit event of
  a request and the write to its own connection are one step, because nothing else reads either.
- A POST to the consent handler touches the approval store at most once, in one critical section, and
  stands in the list where it does; its clock samples before that section, such as the one that dates a
  new token, may be older by any pause. So a list of POSTs covers concurrent ones. The authenticator,
  the policy, the challenge, the authorize request check and the token issuer are given with each POST.
- SHA-256 is an injective function, base64 decoding undoes encoding but not the other way round, query
  escaping is injective and yields neither `&` nor `=`, and a nonce is never repeated.
  `ApprovalStore.SoundIsPossible` shows that these assumptions can hold together.
- In runs, a rotation takes its creation time and its retirement time from one clock sample, and the
  rotation timer runs on the same clock.
- `Config.recheck` (ReplayProtocol) and `Config.deletes` (KeyRuns) are always true in the program; false
  gives the variants that the program is compared with.

## What turned out not to hold

- A NUL in a client ID or a refresh token lets two pairs share a replay key; `KeyIsSharedIff` says that
  nothing else does.
- A waiter can be served a cached response whose window is over, without a report: the flight it joins
  may have found the response while it was fresh (`ExpiredReplayInSilence`). `SilentMeansOwnOrLate` says
  what else a silent request can have written.
- A rotation that samples the clock and swaps the key later shortens the grace by that lag:
  `LagShortensGrace` gives the runs, `GraceIsExactly` the exact span that remains, and `FullGraceIff`
  says that only rotations without lag leave all of it.
- A subject ID with `|` gets a token that is always rejected and stays stored (`BarInIdIsRejected`).
- A `Flush` before the first status is swallowed by the buffering writer, where net/http alone would
  send status 200; `StatusLineIsTransparent` gives the exact condition.
- Storing a client at capacity, even one that is already cached, can cost another live client its
  place (`StoreAtCapacityEvictsAnother`); `StoreLosesNothingIff` and `ExactStoreIff` say exactly when.
- Default scopes with a blank inside do not read back from the printed scope string
  (`BlankInsideDoesNotReadBack`); `DefaultsReadBack` is the exact condition.
- The comment at oauth/cimd.go:258 says that scopes are intersected with the allowed ones; the code
  rejects the whole document (oauth/register.go:280-284), and so does the model.

## Model

| member | source | states |
|---|---|---|
| `ReplayCache.Clone` | oauth/provider.go:194-198 | the copy has the same contents and shares no array and no header map with the original |
| `ReplayCache.RefreshReplayCache.Replay` | oauth/provider.go:167-185 | on shared arrays, exactly the pure `Lookup`: a live entry is counted, stamped once and handed out as a fresh copy; an expired one is dropped |
| `ReplayCache.RefreshReplayCache.Set` | oauth/provider.go:187-192 | the key maps to a copy of the entry; what the caller keeps stays apart from the cache |
| `ReplayCache.StoreRefreshReplay` | oauth/handlers.go:203-214 | exactly the pure `Put`: only 2xx enters, expiring one window after the rotation |
| `ReplayCache.LookupMeans` | oauth/provider.go:167-185 | a lookup hits exactly while the entry is live, adds one to the count, stamps the time only the first time, drops an expired entry and touches no other key |
| `ReplayCache.PutThenLookup` | oauth/handlers.go:203-214 | what is put is found with count 1 until its window ends and not after; a failure changes nothing |
| `ReplayCache.OverwriteHanded` | oauth/provider.go:194-198 | overwriting a body handed out or passed in changes nothing that any later lookup sees |
| `ReplayCache.EditHanded` | oauth/provider.go:194-198 | the same for header maps |
| `ReplayCache.TokenResponseRecorder.WriteHeader` | oauth/handlers.go:313-315 | the last status wins; body and header stay |
| `ReplayCache.TokenResponseRecorder.Write` | oauth/handlers.go:317-322 | the body grows by the data and an unset status becomes 200 |
| `ReplayCache.TokenResponseRecorder.Replay` | oauth/handlers.go:324-334 | the recorded status, or 200 if none was set, with the recorded header and body |
| `ReplayCache.KeyIdentifiesClientAndToken` | oauth/provider.go:162-165 | without NUL in the client IDs, keys are equal exactly for the same client and token |
| `ReplayCache.KeyIsSharedIff` | oauth/provider.go:162-165 | another client and token share a key exactly when there is a NUL in the ID or the token |
| `ReplayCache.KeyCollidesOnNul` | oauth/provider.go:162-165 | two concrete pairs that share a key |
| `ReplaySafety.StepKeepsInv` | oauth/handlers.go:132-152 | every atomic step of every request keeps the safety invariant |
| `ReplaySafety.OneExecutionPerWindow` | oauth/handlers.go:132-152 | in every interleaving, after a success at r no execution for that key has a rotation time before r + window |
| `ReplaySafety.LookupsHitWithinWindow` | oauth/provider.go:167-192 | once a success is stored, every lookup hits and returns its status, header, body and rotation time until the clock reaches r + window |
| `ReplaySafety.CachedEntriesAreSuccesses` | oauth/handlers.go:203-214 | whatever is cached in any reachable state is a 2xx response of some execution for that key, expiring exactly one window after it |
| `ReplaySafety.WithoutRecheckTwoExecutions` | oauth/handlers.go:140-144 | without the lookup inside the flight there is, for every window, a run with two successes at the same time |
| `ReplayAudit.StepKeepsInv` | oauth/handlers.go:134-166 | every step keeps the bookkeeping of lookups and reports |
| `ReplayAudit.AtMostOneReportPerRequest` | oauth/handlers.go:134-166 | in every interleaving no request hits twice and none reports twice |
| `ReplayAudit.ReportedIffFinished` | oauth/handlers.go:134-166 | in every reachable state a successful lookup was made by a request for that key and has been reported if and only if that request is done |
| `ReplayAudit.ReportsIffHit` | oauth/handlers.go:134-166 | a finished request reported a replay if and only if one of its lookups hit |
| `ReplayAudit.ReportsAreTheLookups` | oauth/handlers.go:134-166 | when all requests for a key are done, whatever others do, the events reported for it are its successful lookups, as multisets |
| `ReplayAudit.ReportsOfOneRotation` | oauth/provider.go:175-184 | when all requests for a key are done, the counts reported for each of its rotations are 1..n, each once; at all times the reports of a rotation have one common first replay time |
| `ReplayAudit.FirstReplayIsTheFirstLookup` | oauth/provider.go:179-184 | in every interleaving the first replay time that a lookup or a report carries is the clock sample of the lookup with count 1 of that rotation |
| `ReplayAudit.NextLookupCounts` | oauth/provider.go:179-184 | in every reachable state the next lookup of a live entry gets the next count, and the first one its own time |
| `ReplayIntegrity.FallbackIsNeverTaken` | oauth/handlers.go:153-157 | in every interleaving no flight publishes the zero status, so the fallback is unreachable |
| `ReplayIntegrity.WrittenResponsesWereExecuted` | oauth/handlers.go:153-167 | every finished request wrote a response that some execution for its own key produced |
| `ReplayIntegrity.ReportedIsWritten` | oauth/handlers.go:134-167 | in every interleaving, a request that reports a replay has written exactly the response it reports |
| `ReplayIntegrity.NoRequestIsStuck` | oauth/handlers.go:125-168 | from every reachable state every request can be brought to its end |
| `ReplayFreshness.SilentMeansOwnOrLate` | oauth/handlers.go:140-167 | in every interleaving, a finished request that reported nothing wrote its own execution's response, or a failure, or a success for its key whose window is over |
| `ReplayFreshness.LateWaiterIsSilent` | oauth/handlers.go:140-167 | from any state in which a key's entry has expired and its flight is about to return, a new request can join and write that flight's response without a report |
| `ReplayFreshness.ExpiredReplayInSilence` | oauth/handlers.go:140-167 | for every window, a run from the start in which a request that arrives after the window of the only execution writes its response and nothing is reported |
| `ReplayPaths.HitIsServed` | oauth/handlers.go:132-138 | a request that samples the clock while its entry is live writes and reports it, however late it looks |
| `ReplayPaths.MissExecutes` | oauth/handlers.go:140-167 | a request that finds nothing executes once; the rotation time is the clock just before, and what is logged, written and stored for the window is what the recorder reports |
| `ReplayPaths.RecheckServes` | oauth/handlers.go:141-159 | a leader whose fresh sample finds a live entry executes nothing, writes it and reports it |
| `ReplayPaths.JoinsAndWaits` | oauth/handlers.go:132-153 | a request that arrives during a flight gets the outcome of that flight |
| `ReplayPaths.WaiterIsServed` | oauth/handlers.go:160-167 | a waiter looks by its own old sample: a hit is written and reported, else the flight's response is written in silence |
| `SigningKeys.MemoryStore.FindActiveSigningKey` | oauth/keys/memory.go:20-29 | the first active key, or none |
| `SigningKeys.MemoryStore.EnsureSigningKey` | oauth/keys/memory.go:31-41 | an existing active key wins; only without one is the new key added |
| `SigningKeys.MemoryStore.RotateSigningKey` | oauth/keys/memory.go:43-54 | in place, every active key is retired at the given time and the replacement is added |
| `SigningKeys.MemoryStore.ListVerifyingSigningKeys` | oauth/keys/memory.go:56-66 | active and not yet retired keys, in order |
| `SigningKeys.MemoryStore.DeleteExpiredSigningKeys` | oauth/keys/memory.go:68-82 | only keys retired before now go, in order, and deleted plus kept is the size before |
| `SigningKeys.VerifyingMembers` | oauth/keys/memory.go:56-66 | a key is listed if and only if it is stored and active or retired later than now |
| `SigningKeys.KeptMembers` | oauth/keys/memory.go:68-82 | a key survives if and only if it was stored and has not expired |
| `SigningKeys.CleanupInvisible` | oauth/keys/memory.go:56-82 | deleting at d leaves the list at every u >= d the same sequence |
| `SigningKeys.KeptTwice` | oauth/keys/memory.go:68-82 | an earlier clean-up makes no difference to a later one |
| `KeyRuns.Manager.EnsureSigningKey` | oauth/keys/manager.go:80-99 | an existing active key is returned and nothing changes; else the store gains a key with the given ID and PEM, created now |
| `KeyRuns.Manager.RotateSigningKey` | oauth/keys/manager.go:145-156 | the returned key has the given ID, PEM and creation time and is the only active one; the others retire one grace after now |
| `KeyRuns.Manager.RetireExpiredKeys` | oauth/keys/manager.go:163-169 | only expired keys go, and the number deleted is exact |
| `KeyRuns.EnsureFindsExisting` | oauth/keys/manager.go:80-84 | in a run, a caller that finds an active key returns it and adds nothing |
| `KeyRuns.EnsureAddsItsKey` | oauth/keys/manager.go:89-98 | in a run, a caller that finds none adds the key it generated, dated when it did |
| `KeyRuns.RotateAddsItsKey` | oauth/keys/manager.go:145-156 | in a run, a rotation adds its key and retires exactly the active ones, one grace after its sample |
| `KeyRuns.CleanDeletesExpired` | oauth/keys/manager.go:163-169 | in a run, a clean-up deletes exactly the keys that had retired before its sample |
| `KeyRuns.GraceIsHonoured` | oauth/keys/manager.go:145-169 | a key active at s is listed at every u < s + grace, less the lag between sample and swap, in every run of rotations and clean-ups |
| `KeyRuns.LagShortensGrace` | oauth/keys/manager.go:145-156 | for every configuration and every possible lag, a run from an empty store in which the key is no longer listed once lag and wait add up to the grace |
| `KeyRuns.GraceIsExactly` | oauth/keys/manager.go:145-169 | every active key stays listed for a span in every run if and only if the span is at most the grace less the greatest lag (or not positive) |
| `KeyRuns.FullGraceIff` | oauth/keys/manager.go:145-156 | the full grace is honoured in every run if and only if rotations swap at the instant they sample |
| `KeyRuns.OneActiveKey` | oauth/keys/manager.go:80-99 | every interleaving keeps at most one active key, and one exists once any caller has succeeded |
| `KeyRuns.EnsureCallersAgree` | oauth/keys/manager.go:80-99 | without rotations all callers get the same key, however many were generated |
| `KeyRuns.CleanupsAreInvisible` | oauth/keys/manager.go:159-169 | a store cleaned at any times answers every caller and lists keys as one that never deletes |
| `Rotator.RotationConfig.ApplyDefaults` | oauth/keys/rotator.go:12-47 | both durations end at an hour or more; longer ones are kept, and 0 means 90 days and 48 hours, in nanoseconds |
| `Rotator.DelayUntilFirstRotation` | oauth/keys/rotator.go:110-124 | the first rotation is due when the active key is one interval old, or at once if it is older |
| `Rotator.NewKeyLastsAnInterval` | oauth/keys/rotator.go:110-124 | a key that has just been ensured or rotated in is due exactly one interval after it was generated |
| `Rotator.FirstRotationIsDue` | oauth/keys/rotator.go:90-124 | a loop that starts with an active key leaves it active until it is one interval old, in every run |
| `Rotator.VerifyingIsBounded` | oauth/keys/rotator.go:86-150 | over every run of the loop at most 1 + ceil(grace / interval) keys verify at any time from now on |
| `Rotator.VerifyingBoundIsReached` | oauth/keys/rotator.go:86-150 | from every start and for every interval and grace, a run reaches exactly that many |
| `Rotator.StoreIsBoundedAfterCleanup` | oauth/keys/rotator.go:126-150 | after every clean-up that succeeds the store holds at most floor(grace / interval) + 2 keys |
| `Rotator.StoreBoundIsReached` | oauth/keys/rotator.go:126-150 | and a run reaches exactly that many |
| `ConsentForm.OAuthAuthorizeValues` | oauth/consent/params.go:10-22 | exactly the names that are not stripped and have a value, with all their values in order |
| `ConsentForm.CleanIsStable` | oauth/consent/params.go:10-22 | cleaning is idempotent and leaves neither empty value lists nor stripped names |
| `ConsentForm.CleanKeepsTheRest` | oauth/consent/params.go:10-22 | every name but six, given literally, keeps all its values |
| `ConsentForm.CredentialsGoRequestStays` | oauth/consent/params.go:10-22 | "password" goes; "scope" and "redirect_uri" stay as they were |
| `ConsentForm.HiddenInputs` | oauth/consent/redirect.go:46-54 | one field per value, names in some order that visits each once, and parsing the fields gives the same cleaned parameters |
| `ConsentForm.FormRoundTrip` | oauth/consent/redirect.go:46-54 | in every order, and with any stripped fields added, posting the inputs back gives the same cleaned parameters |
| `ConsentForm.FieldsRoundTrip` | oauth/consent/redirect.go:46-54 | without added fields it gives back the very map |
| `ConsentForm.CloneAndSet` | oauth/consent/handler.go:216-223 | replaces one name; a stripped name does not show after cleaning |
| `ConsentForm.DigestIdentifiesCleaned` | oauth/consent/params.go:25-29 | digests are equal if and only if the cleaned parameters are |
| `ConsentForm.DigestRoundTrip` | oauth/consent/params.go:25-29 | the digest survives the trip through the form |
| `ConsentForm.NormalizeOAuthStringSlice` | oauth/consent/params.go:31-46 | the distinct non-blank trimmed values, in order of first appearance |
| `ApprovalStore.DefaultApprovalStore.Issue` | oauth/consent/default_store.go:31-45 | prints the token for the parameters and records its whole-second expiry |
| `ApprovalStore.DefaultApprovalStore.ConsumeToken` | oauth/consent/default_store.go:47-79 | exactly the pure `Consume`, with both clock samples and every rejection |
| `ApprovalStore.DefaultApprovalStore.ConsumeStored` | oauth/consent/default_store.go:81-90 | the token is gone in any case; success if and only if it was there and has not expired |
| `ApprovalStore.DefaultApprovalStore.DeleteStored` | oauth/consent/default_store.go:92-96 | only that token goes |
| `ApprovalStore.TokenParts` | oauth/consent/default_store.go:37-39 | the decoded text splits into the parts of the ID and then exactly expiry, digest, nonce and signature |
| `ApprovalStore.TokenRoundTrip` | oauth/consent/default_store.go:47-67 | a token reads back as its claims if its ID has no `\|`, and as nothing otherwise |
| `ApprovalStore.UnderstoodIffSigned` | oauth/consent/default_store.go:48-67 | a text is understood if and only if it decodes to a payload followed by that payload's signature, and as what the payload says |
| `ApprovalStore.TokensDiffer` | oauth/consent/default_store.go:33-39 | different nonces give different texts, whatever else they carry |
| `ApprovalStore.OnlyIssuedSucceeds` | oauth/consent/default_store.go:75-90 | only a text in `issued` can succeed, and it is gone then |
| `ApprovalStore.UnissuedTextFails` | oauth/consent/default_store.go:47-96 | a text that is not in `issued` fails and leaves the store as it was, whatever it decodes to |
| `ApprovalStore.EquivalentTextsExist` | oauth/consent/default_store.go:51-90 | a sound codec under which every usable token has another text with the same claims, and the token succeeds while that text fails |
| `ApprovalStore.AcceptedUntilExpiry` | oauth/consent/default_store.go:64-90 | with one clock sample, an unused token with equal cleaned parameters is accepted if and only if now is before the whole second of issue time + 300 s |
| `ApprovalStore.LifetimeBounds` | oauth/consent/default_store.go:32-42 | so its lifetime is in (299 s, 300 s] |
| `ApprovalStore.LaterSampleDecides` | oauth/consent/default_store.go:68-89 | with two samples the later one decides |
| `ApprovalStore.MismatchLeavesStore` | oauth/consent/default_store.go:72-74 | before expiry, other parameters are rejected and the store is unchanged |
| `ApprovalStore.ExpiredIsRemoved` | oauth/consent/default_store.go:68-71 | an expired token is removed, whatever parameters come with it |
| `ApprovalStore.BarInIdIsRejected` | oauth/consent/default_store.go:55-58 | a token for an ID with `\|` is rejected at all times |
| `ConsentRuns.Handler.Post` | oauth/consent/handler.go:51-80 | the page and the store are those of the pure handler, for every action and error |
| `ConsentRuns.Handler.Login` | oauth/consent/handler.go:82-129 | a token is issued exactly when all checks pass and consent cannot be skipped |
| `ConsentRuns.Handler.Approve` | oauth/consent/handler.go:131-138 | the token is consumed before anything is granted |
| `ConsentRuns.AuthorizedIff` | oauth/consent/handler.go:51-195 | a POST is authorized if and only if its checks pass and it is an approve with a good token or an admitted login that may skip consent; and for whom |
| `ConsentRuns.ConsentPageIff` | oauth/consent/handler.go:82-129 | consent is asked for, and a token issued, if and only if an admitted login may not skip it and has no challenge open |
| `ConsentRuns.OtherPages` | oauth/consent/handler.go:51-129 | who is turned away and how: a deny is always denied, a challenge shown, an unknown action sent to the login |
| `ConsentRuns.ApprovalPages` | oauth/consent/handler.go:131-195 | an approve without a good token goes back to the login; one that cannot be granted is denied |
| `ConsentRuns.StoreAfterPost` | oauth/consent/handler.go:68-79 | only a presented or an issued token changes the store |
| `ConsentRuns.OnlyTheseAuthorize` | oauth/consent/handler.go:51-195 | over every run, each authorization was a login that may skip consent or an approve that answers a login with its token, subject and parameters |
| `ConsentRuns.OnlyTheseAreAsked` | oauth/consent/handler.go:82-129 | over every run, each consent page came from such a login, for its subject |
| `ConsentRuns.ApprovalsAnswerDistinctLogins` | oauth/consent/handler.go:51-195 | over every run of POSTs each approved response answers its own earlier login, with the same subject and cleaned parameters and within 300 s |
| `ConsentRuns.DenyIsFinal` | oauth/consent/handler.go:73-76 | after a deny that passes the request checks, with an issued token and its parameters, no approve with that token ever succeeds |
| `ConsentRuns.LoginThenApprove` | oauth/consent/handler.go:114-138 | the rendered consent page, posted back in time in any order and with any stripped fields, completes for the subject that logged in |
| `Envelope.BufferedResponseWriter.DoWriteHeader` | mcpmw/envelope.go:164-178 | the first status counts; below 400 or an event stream goes through at once |
| `Envelope.BufferedResponseWriter.DoWrite` | mcpmw/envelope.go:180-191 | an unset status becomes 200 first; then through or into the buffer |
| `Envelope.BufferedResponseWriter.DoFlush` | mcpmw/envelope.go:193-199 | flushes only in passthrough |
| `Envelope.BufferedResponseWriter.FlushBuffer` | mcpmw/envelope.go:201-214 | sends status and buffer once and goes to passthrough |
| `Envelope.BufferedResponseWriter.Finish` | mcpmw/envelope.go:72-105 | replaces the response or lets it through, never both |
| `Envelope.ServePost` | mcpmw/envelope.go:56-105 | around a handler making any calls, the underlying writer receives what the pure machine says |
| `Envelope.WholeResponseOrReplacement` | mcpmw/envelope.go:56-119 | for every sequence of calls: exactly status 200 and the payload, if and only if the calls are a plain-text 400 with a known message; else the first final status and exactly all written bytes |
| `Envelope.PassthroughIsForever` | mcpmw/envelope.go:201-214 | passthrough is monotone and implies an empty buffer |
| `Envelope.SDKErrorMeans` | mcpmw/envelope.go:121-134 | which message gets which JSON-RPC code and text, and which gets none, for every text |
| `Envelope.ReplacementCodes` | mcpmw/envelope.go:107-134 | for every sequence of calls, only a plain-text 400 is replaced, and its trimmed text decides the code |
| `Envelope.HeldBackIff` | mcpmw/envelope.go:164-178 | a response below 400 or an event stream is never held back; any other is, whole |
| `Envelope.StatusLineIsTransparent` | mcpmw/envelope.go:193-199 | exactly when the status line is the one the client would get without the middleware |
| `Envelope.EarlyFlushIsSwallowed` | mcpmw/envelope.go:193-199 | a flush before a 404 turns the client's 200 into a 404 |
| `Scopes.NormalizeScopes` | oauth/register.go:278-286 | all words, or the first one that is not allowed |
| `Scopes.NormalizeScopesWithDefault` | oauth/register.go:288-294 | an explicit request, or the defaults, or all allowed scopes |
| `Scopes.NormalizeDefaults` | oauth/register.go:296-313 | the distinct non-blank trimmed defaults, or the first one that is not allowed |
| `Scopes.AcceptedIsAllowed` | oauth/register.go:278-313 | every accepted scope is allowed, and a rejection names one that is not |
| `Scopes.ExplicitRoundTrip` | oauth/register.go:278-286 | accepted if and only if every word is allowed, and the printed string splits back into the list |
| `Scopes.DefaultsInOrder` | oauth/register.go:296-313 | no repeats, and the order of first appearance |
| `Scopes.DefaultsAreComplete` | oauth/register.go:293-313 | the default path is accepted if and only if all non-blank defaults (or allowed scopes, if there are none) are allowed, and gives exactly those |
| `Scopes.DefaultsReadBack` | oauth/register.go:312-312 | the printed defaults split back if and only if none has a blank inside |
| `Scopes.BlankInsideDoesNotReadBack` | oauth/register.go:298-312 | a concrete default that is accepted and does not read back |
| `ClientMetadata.ClientFromDocument` | oauth/cimd.go:228-294 | the described client, or none if any check fails |
| `ClientMetadata.DescribedIsAcceptable` | oauth/cimd.go:228-294 | it has the requested ID, is public, and its redirect URIs, grant and response types, scopes, audience and name satisfy the policy |
| `ClientMetadata.DescribedIff` | oauth/cimd.go:228-263 | exactly which documents are accepted, check by check |
| `ClientMetadata.DescribedSays` | oauth/cimd.go:260-294 | the client carries the document's redirect URIs, logo, name, types and scopes, and the stated defaults where it has none |
| `ClientMetadata.RedirectURIMeans` | oauth/register.go:315-339 | absolute, no fragment, https or http to the local host |
| `ClientMetadata.LogoURIMeans` | oauth/register.go:341-360 | absent, or a short https URL with a host and without user and fragment |
| `ClientMetadata.MetadataURLMeans` | oauth/cimd.go:162-198 | a document over https, or over local http where that is allowed |
| `ClientMetadata.ClientNameMeans` | oauth/cimd.go:265-271 | the trimmed name cut at 200, or the default name |
| `ClientMetadata.Fetcher.Cached` | oauth/cimd.go:375-391 | only a live item is returned; an expired one is dropped |
| `ClientMetadata.Fetcher.EvictExpired` | oauth/cimd.go:412-419 | exactly the live items stay |
| `ClientMetadata.Fetcher.Store` | oauth/cimd.go:393-410 | room is made among the expired first, then by any one item, and the new item expires after its lifetime |
| `ClientMetadata.AnswerMeans` | oauth/cimd.go:375-391 | an answer comes exactly from a live item and a server that caches; an expired item goes and no other is touched |
| `ClientMetadata.StoreThenAnswer` | oauth/cimd.go:393-410 | what is stored is found until its lifetime has passed, and nothing is stored for none |
| `ClientMetadata.StoreKeepsOthers` | oauth/cimd.go:400-410 | exactly which other items survive a store |
| `ClientMetadata.Fetcher.ResolveClient` | oauth/cimd.go:139-158 | a cached or described client that satisfies the policy, or the right failure, and the cache keeps its bound and its policy |
| `ClientMetadata.CacheRefinesTimedMap` | oauth/cimd.go:375-419 | over every run at most 256 items, and every hit is unexpired, acceptable and the answer of an unbounded timed map |
| `ClientMetadata.CacheIsExactBelowCapacity` | oauth/cimd.go:375-419 | in every run whose stores each find fewer than 256 unexpired clients, the cache and the unbounded map answer alike |
| `ClientMetadata.StoreLosesNothingIff` | oauth/cimd.go:393-410 | a store keeps every other live item, whichever item the map iteration picks, if and only if fewer than 256 are live |
| `ClientMetadata.ExactStoreIff` | oauth/cimd.go:393-410 | from an exact cache of any run, a store leaves it exact for every pick if and only if fewer than 256 clients are unexpired |
| `ClientMetadata.StoreAtCapacityEvictsAnother` | oauth/cimd.go:400-409 | with 256 live items, storing any ID, even a cached one, evicts the other item picked |
| `CredStore.Store.WriteFile` | cliauth/credstore.go:227-260 | the new contents, or on a failure at any step the old ones; a temporary file stays exactly when it was made, the write failed and removing it failed too |
| `CredStore.Store.RemoveFile` | cliauth/credstore.go:262-267 | the file is gone, or unchanged with an error |
| `CredStore.Store.Save` | cliauth/credstore.go:134-150 | the host is added or replaced and becomes current only if none was |
| `CredStore.Store.Use` | cliauth/credstore.go:153-163 | the current host changes only to a known one |
| `CredStore.Store.Delete` | cliauth/credstore.go:166-185 | the host goes, and the file with the last one |
| `CredStore.FirstHost` | cliauth/credstore.go:269-279 | the least host |
| `CredStore.CurrentIsAlwaysLoadable` | cliauth/credstore.go:118-190 | from no file, after any operations with any failures, there is no file or the current host loads |
| `CredStore.FailureChangesNothing` | cliauth/credstore.go:227-267 | an operation that reports an error leaves the file as it was |
| `CredStore.SaveThenLoad` | cliauth/credstore.go:134-150 | what was saved loads, and every other host is unchanged |
| `CredStore.UseThenLoad` | cliauth/credstore.go:153-163 | a successful Use makes that host the one that loads and changes no credentials |
| `CredStore.SucceedsIff` | cliauth/credstore.go:134-190 | exactly when each operation succeeds |
| `CredStore.DeleteMovesCurrent` | cliauth/credstore.go:166-185 | deleting the current host moves on to the least one left; deleting another leaves it alone |
| `AuthChallenge.QuotedScansBack` | oauth/middleware.go:287-290 | whatever the value and the suffix, scanning the quoted string stops at its closing quote and yields the value |
| `AuthChallenge.ParamsParseBack` | oauth/middleware.go:252-275 | a printed list of parameters reads back as that list |
| `AuthChallenge.BearerChallenge` | oauth/middleware.go:252-275 | the header is the printed parameters of the case at hand and reads back as exactly them |
| `AuthChallenge.ChallengeReadsBack` | oauth/middleware.go:252-290 | whatever the URL and the scope contain, the parameters read back |
| `AuthChallenge.ChallengeSays` | oauth/middleware.go:252-275 | what a reader finds for each parameter, for 401 and for 403 with and without a scope |
| `Text.FieldsAtBlank` | oauth/register.go:279-279 | any blank separates; leading, trailing and repeated ones leave nothing |
| `Text.TrimSpaceTakesBlanks` | oauth/register.go:299-299 | blanks on both sides go and nothing else |

## Left out

- The token request itself (fosite, session storage), the authorize request check, the authenticator and the policy: given as arbitrary outcomes.
- Singleflight's own code, and what it does when a closure panics.
- The refresh request without a token and the replay window of 0 or less, which go straight to execution without touching the cache.
- SHA-256, HMAC, base64, RSA, PEM, bcrypt and random generation: functions with the assumptions stated above.
- The list of public keys that `JWKS` parses out of PEM, beyond which keys are listed.
- `url.Parse`, HTTP, JSON and DNS: given as functions, or as the decoded value.
- Response headers in the envelope apart from the content type: buffered headers overwrite the underlying ones.
- HTTP statuses below 100, which net/http refuses by a panic.
- `cacheLifetime`: the lifetime of a document is any integer.
- The contents of audit events other than rotation time, first replay time and replay count, and audit events other than "replayed".
- The 64-bit wrap-around of the replay count.
- Client registration apart from its scope handling, whose rules are those of the metadata documents or simpler.
- Lengths in characters rather than bytes for the 200-byte client name and the 2048-byte logo URI.
- Redirect pages, renderers, challenges, `GET` requests and consent audit events of the consent handler.
- Host listing, login, browser and terminal flow of the command-line client.
- The in-memory storage, the ent schema, OIDC and server metadata documents, origin checks and test helpers: they hold plain map operations, declarations, constant documents and single checks.
