# Dafny models of cyber-code's stateful core

Dafny models of seven components of cyber-code, each of which keeps state, with proofs of what holds
over whole runs, under every interleaving, or for every input. Pure rules are functions; the code that
changes things step by step is a class or a loop proved against those functions, and the properties
below are proved of the functions and carried to the methods by their contracts. The modules
named after results (`...Laws`, `...Runs`, `...Outcomes`, `...Results`, `...Counts`) say what each operation
gives without naming the function that computes it.

| files | component |
|---|---|
| `Replication`, `ReplicationRuns` | copying a remote event stream into a local log with a separate cursor file, crashes included |
| `CallTable`, `Correlation`, `CallOutcomes`, `Framing` | JSON-RPC request correlation of the LSP and MCP clients, and Content-Length framing |
| `Dependencies`, `Installation` | plugin marketplace: dependency graphs, install and uninstall transactions |
| `AuditLog`, `Authorization`, `AuthorizationLaws`, `PolicySnapshot`, `Policy` | hash-chained decision log, the organisation policy that writes it, and its snapshot |
| `ContextBudget`, `ContextBuilder`, `ContextLaws` | spending a token budget on context sources |
| `Glob`, `RuleManager`, `RuleLaws`, `Permissions`, `PermissionLaws`, `PermissionBroker`, `ConcurrentBrokers` | wildcard rules, the rule manager, broker chains, managed tool bounds, and requests under way at the same time |
| `ToolBatches`, `ToolResults`, `ProviderRound`, `RoundLaws`, `Engine` | one agent turn: stream accumulation, tool batches, history |
| `Telemetry`, `TelemetryCounts`, `TelemetryObserver` | the bounded export queue with flush barriers and shutdown |
| `Mailbox`, `MailboxLaws` | durable numbered messages with acknowledgement watermarks |
| `Prelude`, `TextLaws`, `Ordering` | options and results, trimming and byte length, sorting |

Conventions. A write to disk is one step that may fail; where it matters whether a failed or interrupted
write took effect, both are modelled (`Fault`). A lock is mutual exclusion: one critical section is one
step. Where Go ranges over a map, the model picks any remaining key. Hashing, JSON encoding, quoting,
token estimation, tools, providers, users and clocks are parameters, so each result holds for all of them
unless it says otherwise.

Some of what the code might be expected to do is false of it; the exact condition is proved in each case:

- A failed upgrade does not always restore the file tree. Failures while backing up all restore it exactly
  when nothing stands at the new version's paths but the plugin directory (`BackupFailureRestoresIff`);
  in `UpgradeLosesThePointer` only the look at the active-version pointer fails, and the pointer is gone.
  From activation on the condition is that no new skill path was occupied by something the old version
  does not own (`ActivationRestoresIff`).
- The MCP reader takes every message for a response, the server's own included. A notification ends the
  client; a request of the server's own ends it with "response ID is not pending" exactly when no call of
  that id is pending or abandoned (`ServerMessageOutcome`), so one request to an idle client is enough
  (`ServerRequestEndsMcp`). The LSP reader tells them apart.
- A decision's hash covers its fields joined by NUL characters, unescaped. Even for an ideal digest the
  final hash leaves another log possible exactly when some tenant, principal or capability in the log
  holds a NUL, or some reason has "true" or "false" between NULs, before its last piece (`ForgeableIff`);
  of the logs a policy writes only the first applies (`ReachableLogForgeableIff`), and one authorized
  request is enough (`NulRequestIsForgeable`).
- Members are found under tenant and principal joined by a NUL. A request can pass on the record of
  another tenant, in some policy that reloads, exactly when its key can be cut at another NUL
  (`IsolatedIff`).
- `RegisterSession` stores emergency fields unchecked; the policy stays reloadable exactly when they fit
  (`RegisterReloadsIff`, `RegisterCanBreakReload`).
- An acknowledgement that took effect without being told is not undone by a crash: the page polled before
  is never polled again. A crash redelivers its page exactly when it is not so in doubt
  (`CrashRedeliversIff`, `UntoldAckLoses`).
- A compiled wildcard does not match across a newline; it agrees with the plain glob on every subject
  exactly when it has no wildcard (`AgreesEverywhereIff`).
- Rules of a project are meant only to take permissions away. They do exactly when they leave plan mode
  alone: a project rule that asks lets the user allow what plan mode refuses (`ProjectRulesOnlyReduceIff`,
  `ProjectRuleExpands`).
- A rule value survives printing and parsing exactly when its tool name has no `(` (`FormatThenParse`),
  and a rule text survives parsing and printing under the condition of `ParseThenFormat`.

## Model

| member | source | states |
|---|---|---|
| `Replication.ReplayIsIdempotent` | internal/cyberagent/source.go:245-274 | an event at or below the cursor changes neither store: it succeeds when its id is the authoritative one and conflicts otherwise |
| `Replication.ApplyNext` | internal/cyberagent/source.go:274-289 | the event after an exact cursor is committed and then recorded, each unless its write is lost; success means both happened |
| `Replication.ApplyLagging` | internal/cyberagent/source.go:274-289 | after a crash between commit and cursor save the same event is recognised by the store and only the cursor moves |
| `Replication.ApplyRefuses` | internal/cyberagent/source.go:245-273 | without a binding, or past the next sequence, a delivery is refused and changes nothing |
| `Replication.ApplyKeeps` | internal/cyberagent/source.go:245-289 | for every pair of faults a delivery keeps the log a projected gap-free prefix and the cursor at its end or one before |
| `Replication.AttachRepairs` | internal/cyberagent/source.go:185-228 | attaching never touches the log; it succeeds exactly when the remote snapshot is of this session, not behind the log and agrees at its end, and then the cursor is exact |
| `Replication.RunReplicates` | internal/cyberagent/source.go:185-289 | in every run of deliveries, attaches, crashes and lost writes the log stays the projection of a prefix 1..n, only grows, and the cursor is n or n-1 |
| `Replication.DeliverRefines` | internal/cyberagent/source.go:245-363 | replaying a stream from any point the cursor has reached appends exactly the events that are new |
| `Replication.RestartRefinesStraightLine` | internal/cyberagent/source.go:245-363 | a stream restarted from zero that delivers 1..k leaves the log as applying 1..max(n,k) once each would |
| `Replication.AppendAllProjects` | internal/cyberagent/project.go:17-50 | straight-line application of authoritative events gives a projected prefix |
| `ReplicationRuns.DeliveriesAreSteps` | internal/cyberagent/source.go:326-346 | a stream is its deliveries one after the other: those before the n-th were all applied, and the n-th is applied to what they left, unless there was an error before |
| `ReplicationRuns.PassGoesOnIff` | internal/cyberagent/source.go:301-363 | a pass over an open stream goes on exactly when it met a gap or a conflict, or everything was applied and the stream ended by itself; a refused replay position goes on exactly when attaching succeeds; any other refusal ends the run, each with its own result |
| `ReplicationRuns.PassFollows` | internal/cyberagent/source.go:301-363 | a stream without faults that starts where the source asked, or before, is applied in full and the log is straight-line application of all events so far |
| `ReplicationRuns.GapIsRepaired` | internal/cyberagent/source.go:294-363 | a run whose first stream meets a gap or a conflict asks for its second from zero, and when that delivers events 1..k it still follows and its log is straight-line application of them, each exactly once |
| `Replication.RemoteSource.Save` | internal/cyberagent/source.go:90-166 | an invalid binding is refused; a valid one is written unless the write is lost |
| `Replication.RemoteSource.Commit` | internal/runtimeapi/store.go:166-241 | an external event is appended at committed+1, recognised as a replay when identical, and refused otherwise |
| `Replication.RemoteSource.Attach` | internal/cyberagent/source.go:185-228 | the method computes the attach specification |
| `Replication.RemoteSource.Apply` | internal/cyberagent/source.go:245-289 | the method computes the apply specification, faults included |
| `Replication.RemoteSource.FollowStream` | internal/cyberagent/source.go:326-352 | the inner loop applies the deliveries one after the other up to the first error, and says whether the pass goes on and whether from zero; it keeps the replication invariant |
| `Replication.RemoteSource.RunPass` | internal/cyberagent/source.go:301-352 | one pass is the pass specified: its result, the stores it leaves, and what the next pass asks for; it keeps the invariant |
| `Replication.RemoteSource.FollowScript` | internal/cyberagent/source.go:301-363 | the outer loop plays the passes in order and stops at the first that ends the run |
| `Replication.RemoteSource.Run` | internal/cyberagent/source.go:294-363 | a run is the run specified: attach, then pass after pass until one stops; every pass keeps the invariant, and gaps and conflicts never escape |
| `CallTable.Calls.RegisterCall` | internal/lsp/client.go:79-98 | registering adds the id or reports the recorded failure |
| `CallTable.Calls.RemovePending` | internal/lsp/client.go:360-369 | a cancelled call leaves the pending ids and, if its request may be answered, joins the abandoned ones |
| `CallTable.Calls.ResolveResponse` | internal/lsp/client.go:261-280 | a response is dropped for an abandoned id, handed over for a pending one, unexpected otherwise, and the id is forgotten |
| `CallTable.Calls.FailCalls` | internal/mcp/stdio.go:244-259 | only the first failure is recorded; it empties both sets and returns who was waiting |
| `Correlation.NextKeepsInv` | internal/lsp/client.go:79-280 | every atomic step of callers, writer, reader, failure path and peer keeps the protocol invariant; the bytes reach the peer in one step and the write returns in a later one |
| `Correlation.ExecuteKeepsInv` | internal/mcp/stdio.go:108-259 | so does every sequence of steps, for both clients, the server's own messages looked up like responses by the MCP client |
| `Correlation.EveryInterleavingIsSafe` | internal/lsp/client.go:79-132 | after every interleaving pending and abandoned are disjoint issued ids, a channel about to be sent to was never sent to, no open call is forgotten, a call that got a response got its own, and a failed client's sets are empty |
| `Correlation.NextKeepsHonestInbox` | internal/lsp/client.go:228-280 | with a peer that sends only ids of requests it has received, everything unread goes back to a written request |
| `Correlation.NextKeepsPoliteInbox` | internal/lsp/client.go:228-280 | when it also sends each at most once, what is unread goes back to distinct written requests not yet looked up |
| `Correlation.NextKeepsTableKnows` | internal/mcp/stdio.go:187-242 | while the client has not failed every request on the wire keeps its place in the table until its id is looked up, by a response or, in the MCP client, by a request of the server; and what was looked up never comes back into it |
| `Correlation.HonestPeerFailsOnlyByRepeating` | internal/mcp/stdio.go:187-231 | for both clients, in every run with an honest peer: reading a message ends the client with "response ID is not pending" exactly when a message with its id was read before, whatever calls are cancelled |
| `Correlation.PolitePeerNeverBreaksTheClient` | internal/lsp/client.go:99-106 | a peer that answers only written requests, each once, never triggers "response ID is not pending", whatever calls are cancelled before, during or after the write, even when its answer is read before the write has returned; for the MCP client this asks the same of the ids of the peer's own requests |
| `Correlation.ServerMessageOutcome` | internal/mcp/stdio.go:203-230 | in every reachable state, what reading a message of the server's own does: nothing to the LSP client; the MCP client fails for want of a positive id, or with "response ID is not pending" exactly when the id is neither pending nor abandoned, and a pending call of that id gets it for its response |
| `Correlation.ServerRequestEndsMcp` | internal/mcp/stdio.go:203-228 | a run in which one request of the server, no call being open, ends the MCP client with "response ID is not pending" |
| `CallOutcomes.OutcomesComeFromTheRun` | internal/lsp/client.go:99-132 | after every interleaving, from the start, a call that ended with a response ended with one the peer sent to that very call, body and all (for the MCP client perhaps with a request of the server's own, which has no result); one that ended with a failure ended with the recorded one; a recorded failure has its event in the run |
| `CallOutcomes.AnsweredCallFinishes` | internal/mcp/stdio.go:143-231 | a response at the head of the stream to a call that waits ends that call with that very response, and no other call is touched |
| `CallOutcomes.AbandonedResponseIsDropped` | internal/lsp/client.go:116-130 | a call that gives up while it waits leaves its id abandoned, and the response that comes later is dropped without touching anything else |
| `CallOutcomes.FailureReleasesCalls` | internal/mcp/stdio.go:244-259 | once the client has failed a call that waits ends in one step, with the reply that has arrived or else with the recorded failure |
| `CallOutcomes.CallSucceeds` | internal/mcp/stdio.go:108-166 | for both clients and every body a call can succeed: a run of one call that ends with the peer's response |
| `Framing.FrameRoundTrip` | internal/lsp/client.go:205-226 | reading a printed frame gives the payload and exactly the bytes behind it, or refuses it for its size |
| `Framing.StreamRoundTrip` | internal/lsp/client.go:205-342 | any sequence of payloads within the limit, printed one after the other, is read back as that sequence with nothing left over |
| `Framing.CutFrameIsDetected` | internal/lsp/client.go:301-342 | a connection cut inside a frame is never taken for a shorter frame |
| `Framing.ParseConsumes` | internal/lsp/client.go:301-342 | a frame that was read took at least one byte, so the read loop ends |
| `Framing.FrameReader.ReadHeaders` | internal/lsp/client.go:301-332 | the header loop computes the header specification and leaves exactly what follows the blank line |
| `Framing.FrameReader.ReadFrame` | internal/lsp/client.go:301-342 | the method computes the frame specification |
| `Framing.FrameReader.ReadAll` | internal/lsp/client.go:228-240 | the read loop returns the frames up to the first error and that error |
| `Framing.WriteAll` | internal/lsp/client.go:205-226 | the write loop sends the printed frames in order |
| `Dependencies.OrderedIsAcyclic` | internal/marketplace/manager.go:451-478 | a finishing order in which every plugin stands after its dependencies rules out every cycle |
| `Dependencies.DependencyWalk.Visit` | internal/marketplace/manager.go:453-471 | the recursive visit ends for every catalogue, reports only real cycles, and otherwise leaves the plugin finished after its dependencies |
| `Dependencies.FirstBadPin` | internal/marketplace/manager.go:444-450 | a plugin is accepted exactly when all its pins are non-blank and name a listed plugin at that version |
| `Dependencies.ValidateDependencies` | internal/marketplace/manager.go:439-478 | a catalogue is accepted exactly when every pin holds and the dependency graph is acyclic, in whatever order the maps are iterated |
| `Installation.OwnershipIsDisjoint` | internal/marketplace/manager.go:616-626 | valid installations of different plugins never share a path |
| `Installation.ActivationRestoresIff` | internal/marketplace/manager.go:538-567 | with the old version set aside, a rollback restores the tree exactly when no new skill path was occupied by something the old version does not own |
| `Installation.StopsWhereDue` | internal/marketplace/manager.go:521-536 | for every path of the old version there is an operation whose failure alone stops the backup at that path |
| `Installation.BackupFailureRestoresIff` | internal/marketplace/manager.go:510-536 | every failing backup restores the tree, whichever operations fail, exactly when nothing stands at the new version's paths but the plugin directory |
| `Installation.UpgradeLosesThePointer` | internal/marketplace/manager.go:485-536 | an upgrade in which only the look at the pointer fails stops while backing up, with one path set aside, and leaves the plugin without its pointer |
| `Installation.InstalledHolds` | internal/marketplace/manager.go:538-567 | what an installation leaves: the staged directories at their places, a pointer that names digest and version, nothing of the old version besides, and every other path as it was |
| `Installation.Manager.MoveAside` | internal/marketplace/manager.go:495-509 | a path is moved to the backup or, when an operation fails or nothing stands there, left alone; which operations it takes and which failure stops it is stated |
| `Installation.Manager.BackUpAll` | internal/marketplace/manager.go:590-607 | the loop stops at the first path that cannot be set aside, as the failing operations decide; what has been moved is exactly what stood at the paths before it and is missing from the tree |
| `Installation.Manager.DeactivateInstall` | internal/marketplace/manager.go:569-614 | a failure at any step restores the exact tree and index; success removes exactly the plugin's own paths; when no operation fails it succeeds |
| `Installation.Manager.Remove` | internal/marketplace/manager.go:299-316 | removing a plugin leaves every path of the other plugins alone, and succeeds for an installed plugin when no operation fails |
| `Installation.Manager.RollBack` | internal/marketplace/manager.go:510-520 | a rollback deletes the new version's paths and brings the backup back |
| `Installation.Manager.Activate` | internal/marketplace/manager.go:538-566 | success puts exactly the new version in place on free paths; failure has touched only its own paths; with everything staged, free places and no failing operation it succeeds |
| `Installation.Manager.SetAside` | internal/marketplace/manager.go:485-536 | the backup phase ends where the failing operations say, with the occupied ones of the paths before that point set aside, and without a rollback as long as the plugin directory has not been dealt with; when none fails everything is set aside |
| `Installation.Manager.ActivateInstall` | internal/marketplace/manager.go:485-567 | success replaces the old version by the new one; the failing operations decide, before the call, whether it ends unstarted with the tree as it was, while backing up, or later, and each end leaves exactly the stated tree and the old index; when none fails, the staging is complete and its places are free, it succeeds |
| `AuditLog.MaterialDetermines` | internal/authorization/policy.go:446-450 | a record behind a plain hash is the only record with its joined text exactly when its fields hold no NUL |
| `AuditLog.TwinIff` | internal/authorization/policy.go:435-450 | another record with the same text can stand in a chain exactly when an identifier holds a NUL, or a piece of the reason between NULs, not its last, reads "true" or "false" |
| `AuditLog.FinalHashFixesTheLog` | internal/authorization/policy.go:427-450 | with an ideal digest, a log without such records equals every verifying log with the same final hash: no record can be edited, reordered, removed or added |
| `AuditLog.ForgeableIff` | internal/authorization/policy.go:435-450 | with an ideal digest, any verifying log, loaded ones included, shares its final hash with another verifying log exactly when it has such a record |
| `Authorization.ReachableLogForgeableIff` | internal/authorization/policy.go:389-450 | for every log a policy reaches from an empty one, whose reasons never hold a NUL, exactly when some tenant, principal or capability in it holds one |
| `Authorization.AuthorizeOpensIff` | internal/authorization/policy.go:389-425 | after a request is authorized any verifying log is forgeable exactly when it was before or the request's tenant, principal or capability holds a NUL |
| `Authorization.NulRequestIsForgeable` | internal/authorization/policy.go:446-450 | for every digest, one such request leaves a log that shares its final hash with a verifying log of another tenant and principal |
| `Authorization.PlainRunIsFixed` | internal/authorization/policy.go:124-450 | when no request and no registered session of a run holds a NUL, the final hash fixes the whole log of the run |
| `Authorization.IsolatedIff` | internal/authorization/policy.go:389-417 | in every reloadable policy a passing request has a member record of that very tenant and principal, exactly when its key cannot be cut at another NUL; without NULs it cannot |
| `Authorization.AuthorizedIff` | internal/authorization/policy.go:389-425 | when the key cannot be cut differently, a request passes exactly for an active member record of that very tenant and principal, wherever it is listed, whose role allows the capability, with a live session of its own if one is named and a stepped-up one for a high risk |
| `Authorization.PerformKeeps` | internal/authorization/policy.go:124-349 | every operation keeps keys matching records, roles valid, emergency windows inside session expiry, and the chain verifying and growing, given fitting emergency fields at registration |
| `Authorization.RegisterReloadsIff` | internal/authorization/policy.go:178-190 | after a registration the policy is reloadable exactly when the supplied emergency fields fit |
| `Authorization.RegisterCanBreakReload` | internal/authorization/policy.go:178-190 | a session that is accepted and cannot be reloaded |
| `Authorization.PerformKeepsChain` | internal/authorization/policy.go:124-433 | every operation, whatever session it registers, keeps the audit chain verifying and only extends it |
| `Authorization.EveryRunKeepsChain` | internal/authorization/policy.go:427-450 | the audit chain verifies in every reachable state and only grows |
| `Authorization.EveryRunKeeps` | internal/authorization/policy.go:124-433 | in every run in which sessions are registered with fitting emergency fields the policy stays reloadable |
| `Authorization.InitialIsReloadable` | internal/authorization/policy.go:107-113 | a policy made of well-formed members is reloadable |
| `AuthorizationLaws.AnswerIff` | internal/authorization/policy.go:389-425 | each answer, and exactly when it is given: a named session that is unknown, revoked, expired or another's; then an unknown or inactive member; then a role that may not; then a high risk in a session not stepped up; then yes |
| `AuthorizationLaws.AnswerIsLogged` | internal/authorization/policy.go:389-433 | the answer is logged as given, with what the request asked, behind everything logged before, and a request changes nothing else |
| `AuthorizationLaws.FailureChangesNothing` | internal/authorization/policy.go:124-349 | an operation that fails changes nothing, but that a refused request is logged |
| `AuthorizationLaws.OtherMembersAnswered` | internal/authorization/policy.go:389-425 | after an operation on one member a request of another is answered as before |
| `AuthorizationLaws.OtherSessionsAnswered` | internal/authorization/policy.go:389-425 | after an operation on one session a request that does not name it is answered as before |
| `AuthorizationLaws.RevokeMemberMeans` | internal/authorization/policy.go:283-297 | revoking succeeds exactly for a known member, none of whose requests then passes; everything else is as it was |
| `AuthorizationLaws.RevokedMemberStaysOut` | internal/authorization/policy.go:124-425 | a revoked member's every request is refused after any run of operations that neither accepts an invitation for it nor provisions it |
| `AuthorizationLaws.UpdateMemberRoleMeans` | internal/authorization/policy.go:335-349 | changing a role succeeds exactly for a known member and role; the member's requests are then answered by the new role, its activity being what it was |
| `AuthorizationLaws.InviteMeans` | internal/authorization/policy.go:124-138 | inviting succeeds exactly for a complete, unexpired invitation of a known role under a new id, and keeps it as it is |
| `AuthorizationLaws.AcceptInvitationMeans` | internal/authorization/policy.go:140-176 | accepting succeeds exactly for an invitation that is known, unused and not expired; it is then used, its member in place with its role and answered by it, and all else as it was |
| `AuthorizationLaws.AcceptInvitationForMeans` | internal/authorization/policy.go:146-176 | an acceptance bound to an actor succeeds exactly for the invited tenant and principal, when the plain one would |
| `AuthorizationLaws.RegisterSessionMeans` | internal/authorization/policy.go:178-190 | registering succeeds exactly for a complete session that has not expired; it is then live for its owner, raised as it says itself, even where a session of that id was revoked |
| `AuthorizationLaws.RevokeSessionMeans` | internal/authorization/policy.go:192-202 | revoking succeeds exactly for a known session, no request under which then passes; everything else is as it was |
| `AuthorizationLaws.RevokedSessionStaysOut` | internal/authorization/policy.go:178-275 | a revoked session stays refused after any run that does not register its id anew: neither stepping up nor emergency access brings it back |
| `AuthorizationLaws.ElevateSessionMeans` | internal/authorization/policy.go:204-220 | stepping up succeeds exactly for a live session and an instant ahead of now and before its end; risky requests then pass up to that instant, or while emergency access lasts |
| `AuthorizationLaws.GrantMeans` | internal/authorization/policy.go:222-253 | granting, once authorized, succeeds exactly for a reason of 8 to 256 bytes on one line once redacted, at most half an hour, and a live session of the actor's tenant that outlasts it; risky requests in it then pass up to the instant granted, and the grant is logged for the session's owner |
| `AuthorizationLaws.WithdrawMeans` | internal/authorization/policy.go:255-275 | revoking, once authorized, succeeds exactly for a session of the actor's tenant; its risky requests then pass only as far as it was stepped up, and the revocation is logged |
| `AuthorizationLaws.ProvisionMemberMeans` | internal/authorization/policy.go:307-328 | provisioning succeeds exactly for acceptable data and the revision that was expected; the member's requests are then answered by the new activity and role, and the change is logged for who made it |
| `AuthorizationLaws.SecondProvisionConflicts` | internal/authorization/policy.go:303-328 | of two changes made against the same revision only the first succeeds |
| `AuthorizationLaws.ProvisionableIff` | internal/authorization/policy.go:307-333 | what may be provisioned: tenant, actor and principal not blank, at most 256 bytes once trimmed and on one line; a known role; and data on one line of at most 256 bytes each |
| `PolicySnapshot.LoadReturnsIff` | internal/authorization/snapshot.go:38-70 | loading a listing of a map gives the map back exactly when every key matches its record and every record is well formed |
| `PolicySnapshot.ReloadReturnsIff` | internal/authorization/snapshot.go:33-72 | a saved policy reloads as the same policy exactly when it is reloadable |
| `PolicySnapshot.EveryRunReloads` | internal/authorization/snapshot.go:12-72 | a policy reached from well-formed members by any operations, sessions registered with fitting emergency fields, reloads from its snapshot as itself |
| `PolicySnapshot.SnapshotIsCanonical` | internal/authorization/snapshot.go:12-31 | the snapshot does not depend on the order maps are iterated in |
| `PolicyObject.Policy.Invite` | internal/authorization/policy.go:124-138 | the method performs the operation; it keeps the policy reloadable and only extends a verifying log |
| `PolicyObject.Policy.AcceptLocked` | internal/authorization/policy.go:155-176 | the method performs the operation |
| `PolicyObject.Policy.AcceptInvitation` | internal/authorization/policy.go:140-144 | the method performs the operation; it keeps the policy reloadable and only extends a verifying log |
| `PolicyObject.Policy.AcceptInvitationFor` | internal/authorization/policy.go:146-153 | the method performs the operation; it keeps the policy reloadable and only extends a verifying log |
| `PolicyObject.Policy.RegisterSession` | internal/authorization/policy.go:178-190 | the method performs the operation; it keeps the policy reloadable when the emergency fields fit, and the log as it was |
| `PolicyObject.Policy.RevokeSession` | internal/authorization/policy.go:192-202 | the method performs the operation; it keeps the policy reloadable and only extends a verifying log |
| `PolicyObject.Policy.ElevateSession` | internal/authorization/policy.go:204-220 | the method performs the operation; it keeps the policy reloadable and only extends a verifying log |
| `PolicyObject.Policy.CheckSession` | internal/authorization/policy.go:394-406 | the verdict on a named session, in the order of its cases |
| `PolicyObject.Policy.GrantAuthorized` | internal/authorization/policy.go:227-252 | the critical section after the authorization, with the time it read and whatever happened in between: checks in order, window and reason stored, decision logged; it keeps the policy reloadable and only extends a verifying log |
| `PolicyObject.Policy.RevokeAuthorized` | internal/authorization/policy.go:260-274 | the critical section after the authorization: window and reason cleared, decision logged; it keeps the policy reloadable and only extends a verifying log |
| `PolicyObject.Policy.GrantEmergencyAccess` | internal/authorization/policy.go:222-253 | the call with nothing between its critical sections: refused by the authorization, which is logged, or granted at the later time; it keeps the policy reloadable and only extends a verifying log |
| `PolicyObject.Policy.RevokeEmergencyAccess` | internal/authorization/policy.go:255-275 | the call with nothing between its critical sections: refused by the authorization, which is logged, or revoked at the later time; it keeps the policy reloadable and only extends a verifying log |
| `PolicyObject.Policy.RevokeMember` | internal/authorization/policy.go:283-297 | the method performs the operation; it keeps the policy reloadable and only extends a verifying log |
| `PolicyObject.Policy.ProvisionMember` | internal/authorization/policy.go:307-328 | revision check, wrap-around of the revision and audit record as the operation says; it keeps the policy reloadable and only extends a verifying log |
| `PolicyObject.Policy.UpdateMemberRole` | internal/authorization/policy.go:335-349 | the method performs the operation; it keeps the policy reloadable and only extends a verifying log |
| `PolicyObject.Policy.Authorize` | internal/authorization/policy.go:389-425 | the method decides as specified and appends the decision; it keeps the policy reloadable and only extends a verifying log |
| `PolicyObject.Policy.Snapshot` | internal/authorization/snapshot.go:12-31 | the collected and sorted lists are a snapshot of the state |
| `PolicyObject.VerifyDecisions` | internal/authorization/policy.go:435-444 | the loop accepts exactly the logs whose chain verifies |
| `PolicyObject.NewPolicyFromSnapshot` | internal/authorization/snapshot.go:33-72 | the method computes the reload specification |
| `ContextBudget.SearchFindsBoundary` | internal/contextbuilder/builder.go:237-246 | the binary search stops at a length that fits while the next does not, for any test |
| `ContextBudget.TruncateFits` | internal/contextbuilder/builder.go:232-251 | for any estimator what truncation returns fits, one character more does not, and it refuses a positive budget only when not even one character fits |
| `ContextBudget.TruncateIsLongest` | internal/contextbuilder/builder.go:232-251 | for a monotone estimator it returns the longest fitting prefix and refuses exactly when no non-empty prefix fits |
| `ContextBudget.AllocateStaysWithin` | internal/contextbuilder/builder.go:143-199 | what is left is the budget less the cost and never negative, so a limited budget never becomes the unlimited sentinel; an unlimited one stays unlimited |
| `ContextBudget.AllocateIsHonest` | internal/contextbuilder/builder.go:143-199 | required sources, and without a limit all sources, are allocated in full; others in full, as a non-empty prefix, or not at all |
| `ContextBuilder.BuildFitsTheWindow` | internal/contextbuilder/builder.go:55-117 | on success with a positive window and over-budget not allowed, estimated tokens plus reserved output fit the window |
| `ContextBuilder.BuildReportsEachSourceOnce` | internal/contextbuilder/builder.go:98-114 | every source, the identity included, appears exactly once as included or excluded; exactly the truncated are noted; included ones are in (priority, id) order |
| `ContextBuilder.BuildKeepsRequired` | internal/contextbuilder/builder.go:55-117 | required sources are present untruncated; every included one is whole or a non-empty prefix marked as truncated |
| `ContextBuilder.BuildSucceedsIff` | internal/contextbuilder/builder.go:55-97 | with an estimator that never goes negative a build succeeds exactly when the sources are acceptable and, if limited, fixed part, reserve and required sources fit |
| `ContextBuilder.PresentedIsOrdered` | internal/contextbuilder/builder.go:62-76 | the accepted sources and the identity, sorted, have distinct ids and strictly increase |
| `ContextLaws.RenderedReads` | internal/contextbuilder/builder.go:221-230 | a source other than the identity is shown under a heading with its id, its kind and whether it is trusted, the identity bare |
| `ContextLaws.PlanReads` | internal/contextbuilder/builder.go:55-117 | every entry is whole or a marked part; the required sources and the prompt are whole; the estimate is that of the fixed part and of what is shown, nothing else |
| `ContextLaws.TrimmedSources` | internal/contextbuilder/builder.go:201-219 | trimming touches id and content alone |
| `ContextLaws.BuildFailures` | internal/contextbuilder/builder.go:55-97 | a build is refused for its sources exactly when one is incomplete or takes a reserved id, or two share an id once trimmed |
| `ContextLaws.OptionalOrder` | internal/contextbuilder/builder.go:164-176 | optional sources are served in falling priority, and by their ids where that is the same |
| `ContextLaws.EarlierDecide` | internal/contextbuilder/builder.go:164-199 | what comes later never changes what was given before, and the budget for the next is what those before left |
| `ContextLaws.OneIsServed` | internal/contextbuilder/builder.go:176-197 | one optional source gets all if it fits or nothing is limited, else the longest part the search finds, else nothing |
| `Ordering.LessIff` | internal/contextbuilder/builder.go:62-76 | the order of texts is that of their first difference, a text coming before those it begins |
| `ContextBuilder.TruncateToBudget` | internal/contextbuilder/builder.go:232-251 | the loop computes the truncation specification |
| `ContextBuilder.ValidateSources` | internal/contextbuilder/builder.go:201-219 | the sources are trimmed in place and accepted exactly when ids, kinds and contents are present, no id is reserved and none repeats |
| `ContextBuilder.AllocateFull` | internal/contextbuilder/builder.go:145-163 | the loop computes the allocation of required sources, or its failure |
| `ContextBuilder.AllocateRest` | internal/contextbuilder/builder.go:176-197 | the loop computes the allocation of optional sources |
| `ContextBuilder.AllocateSources` | internal/contextbuilder/builder.go:143-199 | the method computes the allocation specification |
| `ContextBuilder.Report` | internal/contextbuilder/builder.go:98-114 | the loop reports every source and adds up the tokens |
| `ContextBuilder.Builder.Assemble` | internal/contextbuilder/builder.go:55-117 | the method computes the build specification |
| `Glob.ToRegexParses` | internal/permissions/manager.go:272-292 | the regular expression text parses into one node per pattern character: every metacharacter is escaped |
| `Glob.CompilationPreservesMeaning` | internal/permissions/manager.go:252-292 | the anchored text compiles for every pattern and matches exactly when the glob does, its wildcards staying on one line |
| `Glob.CompilationIsGlobOnOneLine` | internal/permissions/manager.go:252-292 | on a subject without newlines the compiled pattern is the glob |
| `Glob.AgreesEverywhereIff` | internal/permissions/manager.go:272-292 | it agrees with the glob on every subject exactly when the pattern has no wildcard |
| `RuleLaws.JoinedPatternIff` | internal/permissions/manager.go:252-292 | a pattern put together of two matches exactly the subjects put together of what the two match |
| `RuleLaws.OneCharacterPattern` | internal/permissions/manager.go:272-292 | the pattern of one character: `*` any text, `?` any character, anything else itself, on one line |
| `Glob.WildcardToRegex` | internal/permissions/manager.go:272-292 | the loop builds the translated text |
| `RuleManager.FormatThenParse` | internal/permissions/manager.go:299-325 | a rule value survives printing and parsing exactly when its tool name has no "(" |
| `RuleManager.ParseThenFormat` | internal/permissions/manager.go:299-325 | a rule text survives parsing and printing exactly when it has no "(" or closes a non-empty content with a final ")" |
| `RuleManager.ParseIsStable` | internal/permissions/manager.go:299-325 | what was parsed is parsed again from its own text |
| `RuleLaws.TextIsRead` | internal/permissions/manager.go:299-317 | what is read from every text: the part before the first "(" and the part behind it, less one closing parenthesis at the end |
| `RuleManager.DenyComesFirst` | internal/permissions/manager.go:159-192 | denied exactly when some deny rule applies; allowed exactly when none does and some allow rule does |
| `RuleManager.ReportedRuleIsFirst` | internal/permissions/manager.go:194-212 | the reported rule comes from the source of highest priority that has one |
| `RuleManager.AddingKeepsDenials` | internal/permissions/manager.go:374-395 | adding rules never lifts a denial |
| `RuleLaws.VerdictIsOfTheFirst` | internal/permissions/manager.go:159-233 | the verdict is that of the rule in force that goes before all others (denials, permissions, questions, passing on; then policy, flags, command line, project, local, user, command, session; then place), reported with it; with no rule in force the user is asked |
| `RuleLaws.DecidingRuleIsReported` | internal/permissions/manager.go:159-212 | whichever rule goes before all others in force gives the verdict |
| `RuleManager.UpdateEffect` | internal/permissions/manager.go:374-414 | what add, remove and replace leave at their destination, and that no other source changes |
| `RuleLaws.UpdateMeans` | internal/permissions/manager.go:374-414 | an update is taken exactly for three destinations and three operations; every other source keeps its rules in their order; its own gets the new ones at the end, loses exactly the named ones, or holds the new ones alone |
| `RuleLaws.NewDenialDenies` | internal/permissions/manager.go:159-414 | a denial put in place by an update denies from then on what it speaks of |
| `RuleManager.Manager.Apply` | internal/permissions/manager.go:374-414 | the method applies the update or refuses an unknown destination or operation and changes nothing |
| `RuleManager.Manager.MatchPattern` | internal/permissions/manager.go:252-269 | the answer is that of the glob whatever the cache holds, and the cache only gains what fresh compilation gives |
| `RuleManager.Manager.MatchesRule` | internal/permissions/manager.go:215-233 | tool and content match as specified |
| `RuleManager.Manager.FindMatchingRule` | internal/permissions/manager.go:194-212 | the loops find the first matching rule in source order |
| `RuleManager.Manager.CheckPermission` | internal/permissions/manager.go:159-192 | the method computes the check specification |
| `Permissions.AllowedIff` | internal/permissions/broker.go:102-129 | a request is allowed exactly when it is valid, inside its workspace, and every broker of the chain allows it on its own |
| `Permissions.DenyRuleWins` | internal/permissions/broker.go:149-154 | a matching deny rule anywhere in the chain rules out allow in every mode, whatever was remembered or answered |
| `Permissions.SessionsComeFromTheUser` | internal/permissions/broker.go:102-191 | a request changes only sessions, and those only by its own approval given with remember where the user was asked |
| `Permissions.AskGains` | internal/permissions/broker.go:102-191 | in a forest of brokers a request at one of them touches only the sessions of its lineage, and those only by its own approval where the user gave it |
| `Permissions.EveryApprovalWasGiven` | internal/permissions/broker.go:54-191 | after any history of requests to any brokers of a forest, siblings, parents and brokers made on the way included, no policy has changed and every remembered approval was there at the start or given by the user at that broker |
| `Permissions.AllowedAfterAnyHistory` | internal/permissions/broker.go:54-191 | after any such history a request is allowed only if every broker of its lineage has no matching deny rule and a rule, its mode, an approval it began with or was given in the history, or a confirmation now |
| `Permissions.TrustRulesDenyIff` | internal/permissions/trust.go:20-46 | the managed rules deny exactly the tools outside the managed bounds, and are all accepted deny rules |
| `Permissions.TrustRulesOnlyDeny` | internal/permissions/trust.go:17-46 | with the bounds a broker refuses what is out of bounds and otherwise decides as before |
| `Permissions.OutOfBoundsIsNeverAllowed` | internal/permissions/trust.go:42-44 | bounds on any broker of a chain hold for the whole chain |
| `PermissionLaws.RulesDecide` | internal/permissions/broker.go:149-172 | denials come first, then permissions, then what the user approved before, and only then a rule that asks; of one behaviour the first matching rule is reported |
| `PermissionLaws.ModesDecide` | internal/permissions/policy.go:65-85 | where no rule speaks and nothing was approved: plan allows reads and denies everything else unasked; accept-edits allows reads and writes and asks for everything else; bypass allows everything; every other mode allows reads and asks for everything else |
| `PermissionLaws.ImproperIsDenied` | internal/permissions/broker.go:102-147 | a malformed request, or one outside its workspace, is denied by every chain without asking anyone |
| `PermissionLaws.ChainEndsAtRefusal` | internal/permissions/broker.go:102-129 | a chain ends with its first broker that does not allow on its own: that decision is the chain's and no broker behind it is asked; when all allow the decision is the nearest one's |
| `PermissionLaws.AcceptedIff` | internal/permissions/policy.go:29-55 | which policies are accepted: the known modes, bypass only from the command line, rules with an id and a known behaviour of which a project's do not allow |
| `PermissionLaws.OnlyTheCommandLineBypasses` | internal/permissions/policy.go:29-85 | with a mode that does not come from the command line no command, deletion or connection is allowed unasked without a rule or an approval |
| `PermissionLaws.ProjectRulesOnlyReduceIff` | internal/permissions/policy.go:18-55 | a broker allows no more with the project's rules than without them, exactly unless plan mode refuses, only a project rule asks, and a user is there |
| `PermissionLaws.ProjectRuleExpands` | internal/permissions/policy.go:18-71 | an accepted project rule that asks lets a deletion through that plan mode refuses |
| `PermissionBroker.ContainsTool` | internal/permissions/trust.go:65-72 | the loop decides membership |
| `PermissionBroker.ValidatePolicy` | internal/permissions/policy.go:29-55 | the loop accepts exactly known modes, bypass only from the command line, and rules with an id, a known behaviour and no project allow |
| `PermissionBroker.NormalizeToolSet` | internal/permissions/trust.go:48-63 | succeeds exactly when all trimmed names are valid, 128 bytes of UTF-8 at most, and lists each once in increasing order |
| `PermissionBroker.TrustRules` | internal/permissions/trust.go:20-46 | succeeds exactly for known levels and valid names, and gives the rules of the bounds |
| `PermissionBroker.Broker.LocalDecision` | internal/permissions/broker.go:149-172 | the loops compute the broker's own decision |
| `PermissionBroker.Broker.AskUser` | internal/permissions/broker.go:174-191 | the method computes the confirmation, remembered approvals included |
| `PermissionBroker.Broker.DecideHere` | internal/permissions/broker.go:102-129 | the recursion over parents computes the chain decision and the new sessions of all brokers |
| `PermissionBroker.Broker.Decide` | internal/permissions/broker.go:85-100 | a decision stands only if it was recorded; sessions change either way |
| `PermissionBroker.Broker.Child` | internal/permissions/broker.go:72-83 | a child heads the parent's chain, and is refused exactly when its policy is |
| `PermissionBroker.NewBroker` | internal/permissions/broker.go:54-70 | a broker is made exactly for an accepted policy, the empty mode standing for the default one |
| `ConcurrentBrokers.NextKeepsInv` | internal/permissions/broker.go:102-191 | each step of any request, between which no lock is held, keeps what is known of sessions and of every request under way |
| `ConcurrentBrokers.AllowedUnderInterleaving` | internal/permissions/broker.go:54-191 | in every interleaving of requests to the brokers of a forest an allowed request is valid, and every broker of its lineage has no matching deny rule and a rule, its mode, an approval it began with or that a user gave there, or this request's own confirmation; every remembered approval was there at the start or given so |
| `ConcurrentBrokers.AloneIsDecide` | internal/permissions/broker.go:102-191 | the steps of a request that nothing interrupts give the decision of the whole chain and leave the sessions it leaves |
| `ToolBatches.ResultsMatchCalls` | internal/agent/engine.go:323-347 | under every schedule and whatever the tools do the i-th result carries the i-th call's id |
| `ToolBatches.BatchingIsInvisible` | internal/agent/engine.go:323-359 | when read-only tools leave the world alone, every schedule of the batches gives the results and the world of running the calls one after the other |
| `ToolResults.ResultsComeFromTools` | internal/agent/engine.go:323-376 | under every schedule, whatever the tools do to the world, each result holds what its own tool gave for the world its call saw: content and flag of an answer, the message of a failure with the flag set; that world is what the calls before it left |
| `ToolResults.SequentialRuns` | internal/agent/engine.go:323-376 | one after the other the k-th result is what the k-th tool gave for the world the first k calls had left; with read-only tools that is what every schedule gives |
| `ToolBatches.ExecuteToolCalls` | internal/agent/engine.go:323-347 | the loops run every call once, reordering only inside a stretch of concurrent calls, each result in its slot |
| `ProviderRound.MergingKeepsText` | internal/agent/engine.go:399-416 | merging runs loses and reorders no text or thinking |
| `ProviderRound.RunsAreMerged` | internal/agent/engine.go:399-416 | neighbouring runs are of different kinds |
| `ProviderRound.OwnFragmentsDecide` | internal/agent/engine.go:258-267 | a call's argument text is its own fragments joined in order, whatever lies between them |
| `ProviderRound.RoundCalls` | internal/agent/engine.go:290-304 | the calls in a round's content are its calls in order, with distinct non-empty ids and valid arguments of their own fragments |
| `ProviderRound.RoundOfIff` | internal/agent/engine.go:233-289 | a stream makes a round exactly when it flows acceptably up to a completion with valid arguments |
| `RoundLaws.ContentShows` | internal/agent/engine.go:399-416 | the finished content shows exactly what was said, in the order it was said |
| `RoundLaws.RoundIsTheStream` | internal/agent/engine.go:221-305 | a round's message shows exactly the text, thinking and calls of the stream in the order they came, with the reason of its completion, and each call has its own name and argument text, which is valid |
| `RoundLaws.RoundIff` | internal/agent/engine.go:233-303 | a stream makes a round exactly when it is good up to a completion and all its calls' arguments are valid |
| `Engine.TurnKeepsPairs` | internal/agent/engine.go:139-181 | whatever the provider streams, the tools return and the schedule is, a turn only adds to the history, and every assistant message with calls is followed by one tool message whose i-th result answers the i-th call |
| `Engine.TurnAnswersFromTools` | internal/agent/engine.go:139-181 | whatever the tools do, the tool message behind every assistant message with calls holds for each call what its own tool gave for the world that call saw |
| `Engine.RoundsAreRun` | internal/agent/engine.go:143-181 | the rounds of a turn are rounds played one after the other, each what the stream says and its tools give, going on exactly while calls remain and the limit is not reached |
| `Engine.TurnIsBounded` | internal/agent/engine.go:139-181 | at most max(1, MaxTurns) provider rounds run, and the turn ends as its ending says |
| `Engine.BeginCall` | internal/agent/engine.go:254-257 | a new call state is collected and marked in the content |
| `Engine.AddArguments` | internal/agent/engine.go:258-267 | a fragment reaches only the state of its own call |
| `Engine.DecideArguments` | internal/agent/engine.go:290-303 | the loop finishes every call's arguments and fails exactly when some are invalid |
| `Engine.FinishContent` | internal/agent/engine.go:257-304 | the content blocks show what their shared call objects hold in the end |
| `Engine.ReadRound` | internal/agent/engine.go:221-305 | reading the stream into shared call states computes the round specification |
| `Engine.Agent.PlayRound` | internal/agent/engine.go:156-175 | one round appends the message the stream makes and, behind it, the results of its calls under the schedule; it keeps the history well formed and, for honest read-only tools, is the round specified |
| `Engine.Agent.RunRounds` | internal/agent/engine.go:143-181 | the loop runs rounds one after the other until one ends the turn or the limit is reached, keeps the history well formed, and answers every call from its tool |
| `Engine.Agent.Run` | internal/agent/engine.go:61-181 | a turn appends the user's message and the rounds it runs, keeps a well-formed history well formed, answers every call from its tool, respects the limit and, for honest read-only tools, is the specified turn |
| `Telemetry.NextKeepsInv` | internal/observability/otel.go:166-354 | every atomic step of observers, flushers, shutdown and worker keeps conservation, quiet after close, settlement and the flush promises |
| `Telemetry.NothingIsLost` | internal/observability/otel.go:201-213 | after any interleaving accepted equals exported + failed + dropped + queued + in flight + mid-enqueue |
| `Telemetry.NoSendAfterClose` | internal/observability/otel.go:202-213 | whoever is about to send finds the queue open |
| `Telemetry.FlushWaitsForEarlierBatches` | internal/observability/otel.go:278-302 | when Flush has returned on its barrier, every batch enqueued before its call or its barrier was exported or failed |
| `Telemetry.ShutdownSettlesEverything` | internal/observability/otel.go:314-354 | after Shutdown and with no Observe under way accepted = exported + failed + dropped, and everything sent is settled |
| `TelemetryCounts.CountersCount` | internal/observability/otel.go:198-354 | in every run the counters are the numbers of batches accepted, of exports that succeeded, of exports that failed, and of batches that found the queue closed or full |
| `TelemetryCounts.ExportInOrder` | internal/observability/otel.go:338-354 | exports happen in the order the batches were queued, and the outcome kept for a batch is that of its own export |
| `TelemetryObserver.Observer.Count` | internal/observability/otel.go:201 | the batch is counted before the lock is taken |
| `TelemetryObserver.Observer.Enqueue` | internal/observability/otel.go:202-213 | under the read lock a batch is sent or dropped, as the steps say |
| `TelemetryObserver.Observer.SendBatch` | internal/observability/otel.go:208-212 | under the read lock a batch is queued while there is room and dropped otherwise |
| `TelemetryObserver.Observer.Observe` | internal/observability/otel.go:198-213 | an empty batch changes nothing; another is queued when there is room and the queue is open, and counted as dropped otherwise |
| `TelemetryObserver.Observer.ProcessNext` | internal/observability/otel.go:340-353 | one turn of the worker passes a barrier, or exports the first batch and raises exactly the counter of exported ones when that succeeds and of failed ones otherwise |
| `TelemetryObserver.Observer.Run` | internal/observability/otel.go:338-354 | after the queue is closed the worker empties it and stops |
| `TelemetryObserver.Observer.FlushBody` | internal/observability/otel.go:285-302 | an uncancelled flush returns on its barrier, or finds the queue closed |
| `TelemetryObserver.Observer.FlushLockedBody` | internal/observability/otel.go:291-302 | a flusher that holds the read lock sends its barrier and returns when the worker has reached it |
| `TelemetryObserver.Observer.Flush` | internal/observability/otel.go:278-302 | after an uncancelled flush everything sent before it is exported or failed |
| `TelemetryObserver.Observer.Close` | internal/observability/otel.go:322-328 | closing empties the queue, stops the worker and makes the counters add up |
| `TelemetryObserver.Observer.AwaitReaders` | internal/observability/otel.go:322 | taking the write lock lets every call that holds the read lock finish, and nothing else change |
| `TelemetryObserver.Observer.Shutdown` | internal/observability/otel.go:314-336 | the first shutdown, whoever holds the read lock when it is called, flushes, waits for the readers, closes the queue and settles the counters; later ones change nothing |
| `Mailbox.EveryRunKeepsNumbers` | internal/collaboration/mailbox.go:57-143 | in every run sequence numbers are 1..n in order, the limit holds, nothing sent changes and watermarks never decrease |
| `Mailbox.PolledRun` | internal/collaboration/mailbox.go:113-122 | a page polled from the watermark is exactly the run of the recipient's messages from there to its last |
| `Mailbox.EveryRunStaysInStep` | internal/collaboration/mailbox.go:57-143 | under interleaved sends, others' acknowledgements, failures, writes that took effect untold, and crashes, the recipient's pages and its watermark stay in step |
| `Mailbox.DeliveredOnceInOrder` | internal/collaboration/mailbox.go:57-143 | each message up to the watermark is, exactly once and in order, in a page the recipient finished with, in one a crash took, or in the one whose acknowledgement is in doubt |
| `Mailbox.ToldLosesNothing` | internal/collaboration/mailbox.go:57-143 | when every acknowledgement of its own is told how it ended, the recipient has finished with each message up to the watermark exactly once and in order, whatever crashes |
| `Mailbox.EmptyPollMeansDone` | internal/collaboration/mailbox.go:95-123 | a poll that finds nothing means every message sent to the recipient is in one of its past pages |
| `Mailbox.CrashRedeliversIff` | internal/collaboration/mailbox.go:113-143 | after a crash with a page, polling again with room for it starts with that page exactly when its acknowledgement was not in doubt, and otherwise finds none of it |
| `Mailbox.DoubtIsNotPolled` | internal/collaboration/mailbox.go:113-143 | no later poll, whatever happens meanwhile, returns a message of a page in doubt |
| `Mailbox.UntoldAckLoses` | internal/collaboration/mailbox.go:124-174 | a run in which an acknowledgement takes effect untold and a crash follows: the message is behind the watermark and was never finished with |
| `MailboxLaws.SendAnswers` | internal/collaboration/mailbox.go:57-94 | what a sender is told: incomplete for a blank text, too long, full, failed, or done, exactly when, the text being judged before the file and the room before the write |
| `MailboxLaws.SendStores` | internal/collaboration/mailbox.go:61-93 | a call stores nothing or the next number, with its own texts stripped of surrounding white space, under its id |
| `MailboxLaws.MessagesComeFromSends` | internal/collaboration/mailbox.go:57-94 | after any run each message was there before or was stored by a send of the run |
| `MailboxLaws.SendsArrive` | internal/collaboration/mailbox.go:57-94 | a complete send within the limit whose write takes effect has arrived after the run whenever the run leaves room |
| `MailboxLaws.WatermarkIsHighest` | internal/collaboration/mailbox.go:124-143 | after any run a watermark has reached n exactly when it had before or some acknowledgement of that recipient with n or more took effect |
| `MailboxLaws.PollReturns` | internal/collaboration/mailbox.go:95-123 | any poll: from the later of the requested number and the watermark, the run of the recipient's messages up to its last one, at most the limit (a hundred without one), and all of them when there are fewer |
| `TextLaws.TrimSpaceIff` | internal/collaboration/mailbox.go:61 | trimming gives the one text that stands between white space and neither begins nor ends with it |
| `TextLaws.ShortestEncoding` | internal/collaboration/mailbox.go:65 | a character takes the fewest bytes that can hold it in UTF-8 |
| `TextLaws.ByteLengthAdds` | internal/collaboration/mailbox.go:65 | the byte length adds up over the characters |
| `Mailbox.Box.SendMessage` | internal/collaboration/mailbox.go:57-94 | the method computes the send specification: refusals, numbering, writes that fail or take effect untold |
| `Mailbox.Box.PollMessages` | internal/collaboration/mailbox.go:95-123 | the loop computes the page specification |
| `Mailbox.Box.AckMessages` | internal/collaboration/mailbox.go:124-143 | the watermark becomes the larger of the two unless the write fails without effect |

## Left out

- Files, processes, HTTP, OAuth, sandboxing, voice and the command line: outside these models; they enter as parameters, faults or answers.
- Payload mapping in `internal/cyberagent/project.go` and state folding in the event store: parameters; what projection adds around the mapped payload (cursor, ids, origin) is modelled.
- Several processes sharing one store, and cancellation of a call in the middle of a store operation: not modelled beyond the faults of each write.
- `Run`'s back-off timers and the callback it reports states to: no effect on the replicated state.
- Correlation.EveryInterleavingIsSafe: header and payload of a message reach the peer in one step, a write that fails has not delivered the whole message, and of a message of the server's own only its id is modelled, the LSP client's reply to it being one more notice that may be queued.
- Framing.FrameRoundTrip: white space around headers is ASCII only, and each character stands for one byte.
- Installation.Manager.ActivateInstall: the renames of a rollback are taken to succeed, creating parent directories leaves no trace, and a rename onto an occupied path is refused even where an empty directory would be replaced.
- Downloading, verifying and staging a marketplace plugin, and the listing and searching of sources: separate, mostly file handling.
- Authorization.EveryRunKeeps: a critical section reads the clock once, and the clock never stands before the zero time; setting another clock and the read-only listings are not modelled.
- SHA-256 and time formatting: an ideal digest is collision-free, never empty and free of NULs, and instants have distinct texts free of NULs (`Ideal`), assumed only where a lemma requires it.
- Context budget ratios and their warning thresholds are floating-point reports that no decision here depends on; cancelling a build is not modelled; digests of rendered sources are left out.
- `os` path resolution and symbolic links in `internal/permissions/path.go`: whether a request's paths are inside its workspace is part of the request.
- Permissions.AllowedAfterAnyHistory: a request is one step there; `ConcurrentBrokers.AllowedUnderInterleaving` interleaves the requests.
- Engine.TurnKeepsPairs: no compactor and no cancelled turn (a cancelled turn may end before the tool message is appended); events sent to the caller are not modelled.
- ToolBatches.ExecuteToolCalls: the calls of a batch run in any order, each as one step; overlapping effects inside two running tools are not modelled.
- Telemetry.NothingIsLost: an exporter is set; the content, sampling and sanitising of spans and metrics is not modelled beyond whether a batch is empty.
- RuleManager.Manager.CheckPermission: a check under a cancelled context, which is denied at once, is not modelled.
- Regular expressions outside the fragment that wildcard compilation produces, and patterns that are not valid UTF-8.
