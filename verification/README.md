# praetor-server: protocols and codecs, modelled and proved in Dafny

praetor-server is the control plane of a fleet of agents. Its hard part is a handful of small concurrent
protocols over shared tables and maps, and an encoder. This project models six of them and proves what
they guarantee over every run.

| part | files | what is modelled |
|---|---|---|
| enrollment | `Enrollment`, `EnrollmentSafety`, `EnrollmentTheorems`, `EnrollmentEffects`, `EnrollmentOutcomes`, `EnrollmentFaults`, `EnrollmentService` | `Enroll` as separate statements on the token, host and identity tables, any number of calls interleaving and failing anywhere |
| rate limiter | `RateLimiter`, `RateLimitExtremes`, `RateLimiterService` | the per-host windows over any trace of requests |
| connections | `Streams`, `Registry`, `ConnectService` | the reader goroutine, its 16-slot channel, the select loop, and the map shared by overlapping Connects |
| commands | `Broker`, `BrokerSafety`, `BrokerTheorems`, `BrokerService` | `Issue` and `HandleResult` over the limiter, the command table and the registry |
| configuration | `ConfigPush`, `ConfigPushTheorems`, `ConfigPushService` | the config table, `Push` and `SyncOnConnect` |
| staleness | `Staleness`, `StalenessService` | the 30 s sweep against heartbeats and webhook calls |
| tokens | `TokenCodec` | `base32Encode`, `Generate`, `ParseAndValidate` |
| logs | `LokiWriter` | the grouping loops of `Write` |

Each protocol appears in two forms. A state machine (`State`, `Event`, `Step`, `Run`) takes one statement,
lookup, send or clock reading per step; a step that is not enabled changes nothing, so every sequence of
events is a run and a theorem about `Run(Init(..), events)` for all `events` is about every interleaving.
A class then has the server's own shape: one method per statement and one per operation, the operation
performing its statements in order while arbitrary other events happen in front of each. Its contract says
that the object's state is the run of a prefix of a fixed schedule, so that the theorems about runs are
about the operation.

A statement ends in one of three ways: it succeeds, it fails without effect, or it takes effect although
its caller sees an error.

## Assumptions

- Each SQL statement is atomic; there is one clock, it never goes back, and the database and the server share it.
- Generated ids (ULIDs) are non-empty and fresh. SHA-256 is an injective constructor; two certificates have one fingerprint only if they are equal.
- A verified client certificate was issued by this server's CA in the same run. Tables start empty and nothing deletes host rows.
- Go strings are sequences of byte-sized characters; shifts and ors of disjoint bits are written as sums and powers of two.
- The agent is arbitrary: it may send anything at any time.

## Where the code differs from what one might expect

- The rate limiter's windows allow 60n + 59 grants in a closed interval of n times five minutes (`SlidingBound`), and that is attained (`SlidingBoundAttained`). A refused host can be refused again more than five minutes later (`RefusedAgainAfterFiveMinutes`), but only if a full quota was granted meanwhile (`LateRefusalMeansFreshQuotaSpent`); `RefusedIffWindowFull` is the exact condition.
- The comment of `resolveHostID` promises one id per machine id and org. A renewal may change the row's machine id, after which the next first enrollment gets another id (`MachineIdReassigned`). An error of the lookup statement has the same effect although the row still matches (`LookupErrorGivesFreshId`). `NextEnrollmentReturns` is the exact condition over runs: the lookup succeeds and the row has that machine id and org at that moment. `SameMachineSameAgent` holds if renewals keep their machine id.
- A live Connect need not be registered: an older Connect's deferred Remove deletes the newer entry (`OlderRemoveDropsNewer`). `RegisteredIffLatest` is the exact condition.
- Two deliveries to one host can overtake each other (`OlderVersionCanArriveLast`). `OutOfOrderIff` is the exact condition: a successful set of the host lies between the later sender's read and the earlier sender's read.
- The agent supplies heartbeat timestamps. One from the future keeps a silent host online (`FutureStampOutlivesTheBound`); without such stamps the bound is 120 s, attained. `SilentHostIsOnlineIff` says exactly when a silent host is online, and `StampOutlivesTheBoundIff` which stamps outlive 120 s.
- The store's comments list the host status values pending, online, offline and disabled; enrollment writes "enrolled", and so does the model.

## Model

| member | source | states |
|---|---|---|
| EnrollmentTheorems.HostsInjectIntoUsedTokens | internal/enrollment/service.go:86-119 | In every run there is an injection from host rows to used tokens of the same org, so hosts never outnumber used tokens. |
| EnrollmentTheorems.CreatorHoldsToken | internal/enrollment/service.go:103-119 | Every host row was created by a first enrollment that claimed a token for itself and still holds both. |
| EnrollmentTheorems.HeldIdAgreesWithRow | internal/enrollment/service.go:118-175 | Every call past resolve holds a host id and org that agree with the row if it exists; otherwise that call generated the id and has not written the row yet. |
| EnrollmentTheorems.OrgNeverChanges | internal/db/store/hosts.go:50-64 | A host row is never lost and its org never changes between any two moments of a run, although the upsert writes org_id. |
| EnrollmentTheorems.RenewalConsumesNothing | internal/enrollment/service.go:86-95 | No step of a re-enrollment changes the token table, generates an id or inserts a host. |
| EnrollmentTheorems.RenewalChainKeepsIdentity | internal/enrollment/service.go:86-95 | A chain of re-enrollments of any length, each presenting the certificate of the one before, keeps one host id and one org, those of an existing row. |
| EnrollmentTheorems.ReturnedCertificateIsBacked | internal/enrollment/service.go:126-214 | Every returned certificate has the agent id as CN and the requested CSR, an existing host row in the authenticated org, and an identity row that does not expire before it. |
| EnrollmentTheorems.TokenLifecycle | internal/enrollment/service.go:102-116 | Between any two moments: a use is set once and before expiry, a revoked token is never used afterwards, and used_by_host_id names an existing host of the token's org, the one its claimant resolved. |
| EnrollmentTheorems.TokensAreNotShared | internal/enrollment/service.go:103-115 | Two calls never hold the same token. |
| EnrollmentTheorems.OneHostPerMachine | internal/db/migrations/00001_create_hosts.sql:24-26 | At most one host row exists per machine id and org, in every interleaving. |
| EnrollmentTheorems.SameMachineSameAgent | internal/enrollment/service.go:221-238 | If renewals keep their machine id, all responses for one machine id and org carry one agent id, even when several calls made up a fresh id for it. |
| EnrollmentOutcomes.FirstEnrollmentSucceeds | internal/enrollment/service.go:54-214 | A first enrollment with a usable token, also over a connection with an expired certificate, that nothing interrupts or faults returns a recorded certificate for the resolved host that lives 24 hours, writes exactly the requested host row, marks that token used for that host, and leaves every row without its hash, and every row already used, revoked or expired, as it was. |
| EnrollmentOutcomes.RenewalSucceeds | internal/enrollment/service.go:55-95 | A renewal that nothing interrupts or faults keeps the certificate's host id and org, writes the requested row, returns a recorded certificate that lives 24 hours, and touches no token. |
| EnrollmentOutcomes.NextEnrollmentReturns | internal/enrollment/service.go:217-238 | In every run, a first enrollment that resolves its id for a machine gets host g's id, then and ever after, if and only if its lookup succeeds and g's row has that machine id and org at that moment. |
| EnrollmentOutcomes.LookupErrorGivesFreshId | internal/enrollment/service.go:229-237 | After an error of the lookup the call gets a fresh id although a row matches, and its upsert conflicts with that row. |
| EnrollmentOutcomes.MachineIdReassigned | internal/enrollment/service.go:217-238 | A run in which one machine enrolls twice in one org and gets two agent ids: the promise of a stable id fails after a renewal under another machine id. |
| EnrollmentFaults.FirstEnrollmentUnderFaults | internal/enrollment/service.go:54-215 | A first enrollment with a usable token under every combination of faults of its statements and of the CA: the claim uses the token up whatever fails later, the host row, used_by_host_id and the identity are written exactly as far as the call comes, and the answer names the first failing statement, of which marking the token is never one. |
| EnrollmentEffects.ClaimMarksExactly | internal/enrollment/service.go:96-116 | Exactly the rows with the token's hash that are unused, unrevoked and unexpired get used_at, and nothing else in any table changes; a malformed token is InvalidArgument, no such row or an error is Unauthenticated. |
| EnrollmentEffects.OtherTokensUntouched | internal/enrollment/service.go:102-116 | In every run, no step of a call changes a token whose hash is not that of the text which the call presented. |
| EnrollmentEffects.RevokedForGood | internal/db/store/tokens.go:87-98 | A revocation stays recorded over every continuation of the run, and a token unused at that moment is never used and never held by any call. |
| EnrollmentEffects.BeginDecides | internal/enrollment/service.go:55-81 | A call is a renewal if and only if its certificate has not expired, and is rejected as InvalidArgument if and only if the CSR or the hostname is empty or a non-renewal has no token. |
| EnrollmentEffects.BadRequestChangesNothing | internal/enrollment/service.go:72-81 | Such a rejected call changes no table, whatever steps it tries afterwards. |
| EnrollmentEffects.InsertStores | internal/db/store/tokens.go:38-49 | A stored token is unused and unrevoked, with the given org and expiry and the hash of its text. |
| EnrollmentEffects.RenewalAuthenticates | internal/enrollment/service.go:86-95 | A renewal goes on, with the org of its host row, if and only if that row can be read. |
| EnrollmentEffects.CertificateLivesADay | internal/ca/ca.go:262-272 | A certificate carries the host id and the CSR of its call and expires 24 hours after issue; a refused CSR ends the call with InvalidArgument and nothing written. |
| EnrollmentEffects.CertificateRenewsForADay | internal/enrollment/service.go:55-69 | In every run, a certificate lets its holder renew, under the id it was issued for, if and only if less than 24 hours have passed since it was issued. |
| EnrollmentEffects.UpsertDecides | internal/enrollment/service.go:153-175 | The requested row is written under the held id unless another row has that machine id and org or the statement fails; any error ends the call. |
| EnrollmentEffects.MarkSetsHost | internal/enrollment/service.go:177-186 | Marking sets used_by_host_id of the held token and nothing else, and never ends the call. |
| EnrollmentEffects.RecordAddsIdentity | internal/enrollment/service.go:188-200 | The identity names the host and its certificate; it is refused for an unknown host and for a certificate recorded before. |
| EnrollmentSafety.StepKeeps | internal/enrollment/service.go:54-215 | Every step of every call, revocation and insert keeps the protocol's invariant: what each in-flight call holds agrees with the tables, and rows only evolve in the allowed ways. |
| EnrollmentService.Service.InsertToken | internal/db/store/tokens.go:38-49 | The table gains exactly the row of the new token, unused and unrevoked with its org and expiry; an id in use is refused without effect. |
| EnrollmentService.Service.RevokeToken | internal/db/store/tokens.go:87-98 | Sets revoked_at of that row to the present and changes no other; fails, without effect, exactly for unknown and already revoked tokens. |
| EnrollmentService.Service.Begin | internal/enrollment/service.go:55-81 | Admits exactly the requests with CSR and hostname that have a token or an unexpired verified certificate; the others are InvalidArgument. |
| EnrollmentService.Service.SelectOrg | internal/enrollment/service.go:86-95 | A renewal takes the org of its host row and is rejected if there is none. |
| EnrollmentService.Service.ClaimToken | internal/enrollment/service.go:96-116 | Marks used exactly the rows with the token's hash that are unused, unrevoked and unexpired; succeeds if and only if the token is well formed, such a row exists and the statement is acknowledged. |
| EnrollmentService.Service.ResolveHostID | internal/enrollment/service.go:221-238 | The certificate's id, the id of a row with the machine id and org, or a fresh one, also after any lookup error. |
| EnrollmentService.Service.IssueClient | internal/ca/ca.go:262-272 | The certificate carries the host id as CN whatever the CSR says and expires one TTL after issue. |
| EnrollmentService.Service.StampNow | internal/enrollment/service.go:153-153 | The time of the identity is read after the certificate is issued and before the row is written. |
| EnrollmentService.Service.UpsertHost | internal/enrollment/service.go:153-175 | Writes the row under the resolved id, or fails on the unique machine index. |
| EnrollmentService.Service.SetUsedBy | internal/enrollment/service.go:177-186 | Sets used_by_host_id; a failure does not stop the call. |
| EnrollmentService.Service.InsertIdentity | internal/enrollment/service.go:188-200 | Records the certificate for an existing host, once. |
| EnrollmentService.Service.Respond | internal/enrollment/service.go:209-214 | A call past its last statement replies with its host id and certificate, which are backed. |
| EnrollmentService.Service.Admit | internal/enrollment/service.go:83-130 | Authentication, resolution and certification in this order, with any other steps in between; stops at the first failure. |
| EnrollmentService.Service.Register | internal/enrollment/service.go:132-200 | Stamp, host row, token mark of a first enrollment, and identity in this order, with any other steps in between; stops at the first failure that the source reports. |
| EnrollmentService.Service.Enroll | internal/enrollment/service.go:54-215 | Enroll performs its statements in order with any other steps in between, up to the point at which it ends, and a reply with a certificate is backed by a host row of its org and a recorded identity. |
| RateLimiting.BucketCountsItsWindow | internal/command/ratelimit.go:31-45 | A bucket counts exactly the grants of its own window and never more than 60. |
| RateLimiting.RefusedIffWindowFull | internal/command/ratelimit.go:34-44 | A request is refused if and only if 60 grants to its host lie in the window the limiter opened and has not closed. |
| RateLimiting.QuietHostIsGranted | internal/command/ratelimit.go:34-44 | A host with fewer than 60 grants in the last 300 s is never refused. |
| RateLimiting.LateRefusalMeansFreshQuotaSpent | internal/command/ratelimit.go:36-42 | A refusal more than five minutes after an instant means 60 grants strictly after it. |
| RateLimitExtremes.RefusedAgainAfterFiveMinutes | internal/command/ratelimit.go:36-42 | A trace in which a refused host is refused again more than five minutes later. |
| RateLimiting.GrantsByOpenings | internal/command/ratelimit.go:31-45 | Grants since an instant are bounded through the windows opened since, which open more than five minutes apart. |
| RateLimiting.SlidingBound | internal/command/ratelimit.go:31-45 | Any closed interval of n times 300 s holds at most 60n + 59 grants to one host. |
| RateLimitExtremes.SlidingBoundAttained | internal/command/ratelimit.go:31-45 | The bound is attained for every n up to the window length in nanoseconds. |
| RateLimiting.HostIsolation | internal/command/ratelimit.go:31-45 | The answers to a host in any interleaving equal those of a fresh limiter that sees only that host's requests. |
| RateLimiterService.RateLimiter.Allow | internal/command/ratelimit.go:31-45 | The map after the call is that of the whole request history, and the answer is the specified one. |
| Streams.FifoAndLossBound | internal/stream/handler.go:85-129 | In every state the received messages are those handled, in handling, queued (at most 16) and in the reader's hand, in order; on return at most 17 are lost, at most 16 if the stream ended. |
| Streams.SeventeenCanBeLost | internal/stream/handler.go:85-104 | A run that loses 17 messages. |
| Streams.ReaderLeaksIffSeventeenLost | internal/stream/handler.go:89-98 | After the loop returned, a reader that did not stop by itself is blocked for good if and only if 17 messages were lost. |
| Streams.NothingHandledAfterReturn | internal/stream/handler.go:100-129 | Once the loop returned nothing more is handled, written or spawned. |
| Streams.HeartbeatsInReceiveOrder | internal/stream/handler.go:188-196 | Heartbeat updates follow the order in which heartbeats were received, one each, with the agent's timestamp where it sent one. |
| Streams.TakingHandlesTheOldest | internal/stream/handler.go:113-196 | With a waiting loop and a queued message, taking and handling extends the handled messages by exactly the oldest one; a heartbeat is written with its own time or else the server's, batches, results and security events start a goroutine, the other kinds do nothing. |
| Streams.EveryMessageCanBeHandled | internal/stream/handler.go:89-129 | Any list of messages has a schedule under which all are received and handled in order and the connection is ready for more. |
| Streams.ReceivingQueues | internal/stream/handler.go:89-98 | A message received with room in the channel is queued behind the others. |
| Streams.LoopCases | internal/stream/handler.go:100-127 | A finished context, a failed ping and a receive error each end the loop with their own reason; a ping that is sent changes nothing. |
| Streams.ErrorEndsTheLoop | internal/stream/handler.go:89-111 | A receive error stops the reader and reaches the loop, which returns as for the end of the stream or for a broken one. |
| Streams.ReturnsForACause | internal/stream/handler.go:100-127 | In every run, the loop returned only if an event of the kind that its reason names took place. |
| Registry.OnlyLeavesConnect | internal/stream/handler.go:203-221 | A Connect whose peer has no verified leaf with a CN changes nothing; any other is registered under that CN. |
| Registry.ClosingRemoves | internal/stream/handler.go:63 | A returned Connect deletes its host's entry once, whichever stream it holds. |
| Registry.HostIsTheCertificatesCn | internal/stream/handler.go:57-62 | In every run, a connection's host is the non-empty CN of the verified leaf with which it was opened. |
| Registry.RegisteredStreamsAreLive | internal/stream/handler.go:57-63 | In every interleaving of Connects a registered stream belongs to a Connect of that host's certificate that has not removed itself. |
| Registry.RegisteredIffLatest | internal/stream/registry.go:29-40 | A Connect is registered if and only if its own Add is the latest operation on its host. |
| Registry.LatestIsLast | internal/stream/registry.go:29-40 | "Latest" means: some Add of that Connect after which the log names the host no more. |
| Registry.RegisteredWhileLive | internal/stream/handler.go:62-63 | If a host's Connects never overlap, each is registered exactly from its Add to its Remove. |
| Registry.OlderRemoveDropsNewer | internal/stream/handler.go:62-63 | A run in which an older Connect's Remove drops a live newer one. |
| ConnectService.MapHoldsLatest | internal/stream/registry.go:29-40 | The map after any history of Add and Remove holds for each host the latest entry of that history. |
| ConnectService.StreamRegistry.Add | internal/stream/registry.go:29-33 | Sets the host's entry. |
| ConnectService.StreamRegistry.Remove | internal/stream/registry.go:36-40 | Deletes the host's entry whichever stream it holds. |
| ConnectService.StreamRegistry.Get | internal/stream/registry.go:43-48 | Returns the host's stream if it has one; GetSender is the same. |
| Registry.CountAtMostLiveHosts | internal/stream/registry.go:51-55 | The number of entries, which Count reports, is at most the number of hosts with a live Connect, and equal to it if and only if each of them is registered. |
| ConnectService.Connection.Recv | internal/stream/handler.go:91-95 | A received message goes into the reader's hand. |
| ConnectService.Connection.RecvFails | internal/stream/handler.go:91-94 | A receive error goes into its channel and stops the reader. |
| ConnectService.Connection.Send | internal/stream/handler.go:95 | The reader hands its message over when fewer than 16 wait. |
| ConnectService.Connection.SelectMessage | internal/stream/handler.go:113-116 | The loop takes the oldest waiting message and leaves the others. |
| ConnectService.Connection.SelectDone | internal/stream/handler.go:102-104 | A finished context ends the loop. |
| ConnectService.Connection.SelectTick | internal/stream/handler.go:118-127 | A ping that cannot be sent ends the loop. |
| ConnectService.Connection.HandleMessage | internal/stream/handler.go:132-186 | Heartbeats are written at once; batches, results and events get a goroutine; the rest only logs. |
| ConnectService.Connection.SelectError | internal/stream/handler.go:106-111 | End of stream returns without an error, any other receive error with one. |
| ConnectService.Enter | internal/stream/handler.go:62-65 | Adds the stream and counts the agents, with other Connects' calls in between. |
| ConnectService.Serve | internal/stream/handler.go:85-129 | The reader and the select loop take their turns among other Connects' calls until the loop returns. |
| ConnectService.Connect | internal/stream/handler.go:55-129 | Under any schedule a Connect with a verified CN adds itself first, counts the agents, starts one configuration sync for its host with version 0, runs the pump, and removes its host last; one without touches nothing. |
| BrokerTheorems.SendsFollowTheirRow | internal/command/broker.go:57-116 | Each send carries the very tier, reason, issuer, timeout and command of its Issue, has an earlier stored row with that content under its id, is the only one for its id, and uses a stream whose peer CN is the row's host. |
| BrokerTheorems.Conservation | internal/command/broker.go:57-116 | Per host and in every interleaving: sends are at most stored rows, and those at most rate-limit grants. |
| BrokerTheorems.CommandRateBound | internal/command/broker.go:57-116 | A run in which at most n times 300 s pass stores, and so sends, at most 60n + 59 commands for one host. |
| BrokerTheorems.ReturnedIdIsStored | internal/command/broker.go:88-116 | An id that Issue returns, with or without an error, names a row of that request; success means it was sent on a stream of its host. |
| BrokerTheorems.LatestResultWins | internal/db/store/commands.go:50-65 | A row shows its latest result, failed if and only if that result carries an error, and never loses what Issue stored. |
| BrokerTheorems.UninterruptedIssue | internal/command/broker.go:57-116 | Every case of an undisturbed Issue, field by field: the row it stores, the message it sends and on which stream, whether it returns the id, and exactly when it succeeds. |
| BrokerSafety.StepKeeps | internal/command/broker.go:57-140 | Every step of Issues, results and Connects keeps the broker's invariant. |
| BrokerService.CommandBroker.Allow | internal/command/broker.go:58-61 | Asks the limiter object; a refusal ends the Issue without an id. |
| BrokerService.CommandBroker.BuildRequest | internal/command/broker.go:63-85 | Unknown command types and marshalling errors end the Issue without an id, after quota was taken. |
| BrokerService.CommandBroker.InsertCommand | internal/db/store/commands.go:38-47 | Stores the pending row; a failed insert returns no id. |
| BrokerService.CommandBroker.GetSender | internal/command/broker.go:99-103 | Takes the stream registered for the host at that moment; without one the Issue fails but keeps its id. |
| BrokerService.CommandBroker.SendCommand | internal/command/broker.go:105-116 | Sends the built request once on the stream found; the id is returned either way. What is built is the subject of SendsFollowTheirRow. |
| BrokerService.CommandBroker.Record | internal/command/broker.go:58-97 | Quota, request and insert in this order, with any other steps in between; a failure returns no id. |
| BrokerService.CommandBroker.Deliver | internal/command/broker.go:99-116 | Lookup and send in this order, with any other steps in between; the id is returned whatever happens. |
| BrokerService.CommandBroker.HandleResult | internal/command/broker.go:119-140 | Overwrites the outcome columns of its row; an unknown id changes nothing. |
| BrokerService.CommandBroker.Issue | internal/command/broker.go:57-116 | Issue performs its steps in order with any other steps in between, up to the point at which it ends; a returned id is stored and success means sent. |
| ConfigPush.Int32 | internal/configpush/service.go:69-81 | The conversion of the message fields, the identity on stored values. |
| ConfigPush.UpsertSeenByGet | internal/db/store/configs.go:34-80 | Seen through Get, the upsert raises the host's version by one and sets that one field, whether or not the host had a row; other fields and other hosts keep their answer. |
| ConfigPush.UpsertKeepsTable | internal/db/store/configs.go:74-80 | If Get answers with the fold of the sets so far, then after the upsert it answers with the fold of one more set. |
| ConfigPushTheorems.GetIsTheFold | internal/db/store/configs.go:34-85 | After any run, Get answers with the number of successful sets and each field's last value or default, whether or not a row exists; a row exists if and only if there was a success. |
| ConfigPushTheorems.LastValueIsLatest | internal/db/store/configs.go:64-85 | "Last value" is the value of the latest set of that field and host, or the default if there is none. |
| ConfigPushTheorems.SendsAreTheFoldRead | internal/configpush/service.go:37-91 | Each update sent is exactly the fold of the sets made before its read, once, on a stream of that host's CN; a sync sends only versions above the agent's. |
| ConfigPushTheorems.UninterruptedSync | internal/configpush/service.go:54-67 | An undisturbed sync sends if and only if the read works, the version exceeds the agent's and the host is registered; it fails if and only if the read or the send does. |
| ConfigPushTheorems.UninterruptedPush | internal/configpush/service.go:39-51 | An undisturbed push sends if and only if the host is registered and the read works; an unregistered host is no error. |
| ConfigPushTheorems.VersionsFollowReads | internal/configpush/service.go:37-91 | Versions sent to a host are ordered as their jobs' reads, and one is greater if and only if a set of the host took effect between the two reads. |
| ConfigPushTheorems.OutOfOrderIff | internal/configpush/service.go:37-91 | Of two updates to one host, the later sent carries the older version if and only if a successful set of the host lies between its read and the other's. |
| ConfigPushTheorems.UninterruptedFirstSync | internal/stream/handler.go:62-73 | The sync that a Connect starts, if nothing interrupts the two, sends the current fold on that Connect's own stream if and only if the host's configuration was ever set and the read works. |
| ConfigPushTheorems.OlderVersionCanArriveLast | internal/configpush/service.go:37-91 | A run that sends version 1 after version 2 on one stream. |
| ConfigPushService.ConfigService.SetField | internal/db/store/configs.go:64-85 | Succeeds if and only if the field is updatable, the value fits 32 bits, the host exists and the statement is acknowledged; success adds one set to the history, a refusal leaves the table alone. |
| ConfigPushService.ConfigService.GetConfig | internal/db/store/configs.go:34-60 | The fold of the host's sets, the defaults if it has no row. |
| ConfigPushService.ConfigService.FindAgent | internal/configpush/service.go:40-45 | Takes the stream registered at that moment; without one the job ends without an error. |
| ConfigPushService.ConfigService.ReadCurrent | internal/configpush/service.go:54-61 | Reads the fold of that moment; a sync ends without an error if it is not newer than the agent's version, and a failed read is an error. |
| ConfigPushService.ConfigService.Send | internal/configpush/service.go:69-91 | Sends what was read on the stream found; a failed send is an error. |
| ConfigPushService.ConfigService.Push | internal/configpush/service.go:39-51 | Push performs its steps in order with any other steps in between and returns an error if and only if its job failed. |
| ConfigPushService.ConfigService.SyncOnConnect | internal/configpush/service.go:54-67 | Likewise for SyncOnConnect, which reads before it looks for the stream. |
| Staleness.OnlineBound | internal/staleness/staleness.go:55-64 | When the last effective sweep is at most `gap` old, an online host was heard within `gap` or its stamp is at most 90 s + gap old. |
| Staleness.SilentHostGoesOffline | internal/staleness/staleness.go:20-64 | With sweeps at most 30 s apart and no stamps from the future, no host is online more than 120 s after its last heartbeat. |
| Staleness.OnlineAtTheBound | internal/staleness/staleness.go:55-64 | A run in which a silent host is still online at exactly 120 s. |
| Staleness.FutureStampOutlivesTheBound | internal/stream/handler.go:188-196 | A stamp from the future keeps a silent host online for any number of sweeps. |
| Staleness.ReportingHostIsNeverSwept | internal/staleness/staleness.go:55-64 | A host whose heartbeats are stamped at handling time and at most 90 s apart, up to the end of the run, is never marked offline, whenever the sweeps run. |
| Staleness.SilentHostIsOnlineIff | internal/staleness/staleness.go:55-64 | An online host without further heartbeats or enrollments is online after any events if and only if every effective sweep among them comes at most 90 s after its stamp. |
| Staleness.StampOutlivesTheBoundIff | internal/staleness/staleness.go:55-64 | More than 120 s after its last heartbeat, with the last effective sweep at most 30 s old, a host is online if and only if its stamp is at most 90 s older than that sweep. |
| Staleness.NotificationsAreTransitions | internal/staleness/staleness.go:66-98 | With a URL, webhook calls equal the online-to-offline transitions, in order, if and only if no effective sweep with transitions reported an error. |
| Staleness.NoUrlNoNotifications | internal/staleness/staleness.go:102-105 | Without a URL there are no webhook calls. |
| Staleness.SweepDecides | internal/staleness/staleness.go:55-98 | A sweep takes effect only with a list of exactly the online hosts stamped more than 90 s ago, each once under its row's hostname; it marks exactly those offline and calls the webhook for each of them if every row was read and a URL is configured. |
| Staleness.OnlySweepsTakeOffline | internal/staleness/staleness.go:56-62 | Only a sweep that finds a host stale takes it offline, and that is one transition. |
| StalenessService.StalenessJob.UpdateHeartbeat | internal/db/store/hosts.go:113-122 | Sets the stamp and the status online; an unknown host changes nothing. |
| StalenessService.StalenessJob.Upsert | internal/enrollment/service.go:153-175 | An enrollment sets the row's hostname, the status enrolled and the stamp to its own time. |
| StalenessService.StalenessJob.MarkOffline | internal/staleness/staleness.go:56-62 | Returns each stale host once, in any order, and marks exactly those. |
| StalenessService.StalenessJob.ReadRows | internal/staleness/staleness.go:69-79 | All rows, or an error at the first failing one or at the end. |
| StalenessService.StalenessJob.ListHosts | internal/staleness/staleness.go:82-87 | The ids and hostnames of the log line, position by position. |
| StalenessService.StalenessJob.NotifyWebhook | internal/staleness/staleness.go:102-105 | One webhook call if a URL is configured, none otherwise. |
| StalenessService.StalenessJob.RunOnce | internal/staleness/staleness.go:55-98 | Unless the statement fails without effect, exactly the online rows stamped more than 90 s ago go offline; it succeeds if and only if the statement and every row read do; the webhook calls are all transitions of a successful sweep with a URL. |
| StalenessService.StalenessJob.RunJob | internal/staleness/staleness.go:29-50 | One sweep per tick until cancelled, whatever the sweeps report. |
| TokenCodec.Base32Encode | internal/token/token.go:81-90 | The shift loop equals the group-wise encoding of the whole five-byte blocks. |
| TokenCodec.RoundTrip | internal/token/token.go:81-90 | Decoding the encoding gives back the whole blocks: eight alphabet characters per five bytes, none lost. |
| TokenCodec.EncodeInjective | internal/token/token.go:81-90 | Two inputs encode alike if and only if their whole blocks agree. |
| TokenCodec.SymbolsAre | internal/token/token.go:15 | The alphabet is the digits and the capital letters except I, L, O and U. |
| TokenCodec.EncodedSymbol | internal/token/token.go:81-90 | Symbol j of block i stands for bits 5j to 5j + 4 of the block read as one big-endian number, in that alphabet's order. |
| TokenCodec.PlainShows | internal/token/token.go:31-35 | The token is PRAETOR and the first 25 symbols in five groups, joined by dashes. |
| TokenCodec.Generate | internal/token/token.go:25-44 | The token text shows the first 25 characters in five dashed groups, with its SHA-256. |
| TokenCodec.SameTokenIff | internal/token/token.go:31-35 | Two 25-byte inputs give one token if and only if bytes 0 to 14 and the top five bits of byte 15 agree. |
| TokenCodec.SplitDecides | internal/token/token.go:59-77 | Prefix, six dash-separated parts and five alphabet characters per part decide well-formedness. |
| TokenCodec.ParseAndValidate | internal/token/token.go:58-78 | Accepts exactly the well-formed strings. |
| TokenCodec.AcceptedIffTokenText | internal/token/token.go:31-35 | The well-formed strings are exactly PRAETOR- and five dashed groups of 25 alphabet characters. |
| TokenCodec.AcceptedIffLayout | internal/token/token.go:58-78 | Accepted are exactly the strings of PRAETOR- and 29 characters of which every sixth is a dash and the others are Crockford symbols. |
| TokenCodec.GeneratedTokensAreValid | internal/token/token.go:25-44 | Every token that any 25 random bytes give is accepted. |
| LokiWriter.LabelsTellSeveritiesApart | internal/storage/loki/writer.go:122-139 | Labels coincide only for equal severities or for two that have no name. |
| LokiWriter.Int64 | internal/storage/loki/writer.go:66-71 | The nanoseconds of a timestamp, wrapped to 64 bits. |
| LokiWriter.FormatRoundTrip | internal/storage/loki/writer.go:72-75 | The decimal timestamp determines the nanoseconds. |
| LokiWriter.SourceOf | internal/storage/loki/writer.go:55-58 | A non-empty source is its own label and an empty one is "unknown". |
| LokiWriter.SelectIsSubsequence | internal/storage/loki/writer.go:52-60 | The entries of one source are exactly the batch positions with that source, in increasing order. |
| LokiWriter.GroupBySource | internal/storage/loki/writer.go:52-60 | The map's keys are the non-empty sources of the batch, and "unknown" if one is empty; each holds its entries in batch order. |
| LokiWriter.BuildValues | internal/storage/loki/writer.go:64-76 | One value per entry in order, with its message and its time or a reading of the clock. |
| LokiWriter.Write | internal/storage/loki/writer.go:47-85 | An empty batch posts nothing; any other posts, for every traversal of the map, one stream per label in use, with the lines and times of exactly its entries in order, the agent's host and the name of the first entry's severity. |
| LokiWriter.GroupedIsPosted | internal/storage/loki/writer.go:52-85 | Any grouping that meets the specification carries exactly those labels, lines, times and severity names, spelled out without it. |
| LokiWriter.EveryEntryOnce | internal/storage/loki/writer.go:52-85 | Such streams hold every entry exactly once, and none is empty. |

## Left out

- REST handlers, JSON conversion, bearer authentication, logging, CLI subcommands and migrations: wrappers without invariants.
- Cryptography, PEM and X.509 parsing, TLS setup and CA files: only the CN and NotAfter of a client certificate are modelled. Certificates store whole seconds and the database microseconds; the model keeps nanoseconds.
- HTTP posting to Loki, VictoriaMetrics and the webhook, metric-name sanitizing and label quoting. A webhook call is counted when it is attempted.
- Security-event storage, `HandleAck`, and the store methods without a production caller (`MarkUsed`, `GetByMachineID`, identity `Revoke`).
- List and lookup queries that only read (`List`, `ListActive`, `GetByID`, `ListByHost`).
- Isolation levels of the database: each statement is atomic on one clock.
- Host columns that are only copied from the request are one field `details`; heartbeat columns appear in `Staleness` and not in the enrollment tables; result columns of a command other than exit code and error are one field `output`.
- The 64-bit overflow of config versions, and the updated_at, issued_at and completed_at columns.
- The five-second timeouts of goroutines that handlers start: each is a failing statement of the model.
- Webhook calls of one sweep are made within the sweep's step; heartbeats that arrive between two calls are ordered before or after it.
- SlidingBoundAttained: stated for n up to the window length in nanoseconds, because each further window starts one nanosecond later than the last possible grant.
