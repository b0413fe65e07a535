# MCPGate guard model

A Dafny 4.11 model of MCPGate's guarded-call system, with proofs about whole runs of it. MCPGate puts five
ticketing tools behind a guard pipeline: authenticate the bearer token, charge the caller's token bucket, check
the tool's scope, validate the arguments, dispatch with row filtering by team, and write one hash-chained audit
event. The model is one state machine over the ticket table, the OAuth artifact table, the audit log and the
token buckets; its steps are guarded calls, grant operations of the OAuth provider, and calls the transport refuses.

`dafny verify dfyconfig.toml` checks everything.

## How it is laid out

| file | part of the system |
|---|---|
| `RateLimit.dfy` | the token bucket, its window rule, greedy admission, `retry_after` |
| `Canonical.dfy` | the JSON text under an audit tag, and why it determines the twelve authenticated fields |
| `Store.dfy` | tickets, artifacts and events as mutable tables, and what the queries return |
| `Audit.dfy` | redaction, recording, the chain verifier, tamper evidence, session reconstruction |
| `Auth.dfy`, `Grants.dfy` | the grant operations; the invariant of every run of them, lineage, access tokens, dead artifacts |
| `Validation.dfy` | argument validation |
| `Gateway.dfy` | the guard pipeline and its dispatch |
| `Runs.dfy` | runs of the whole server: row invariants, the log, complete mediation |
| `Answers.dfy` | what each call answers, what it is refused for, what its event says and who may read it |
| `Replay.dfy` | the log alone rebuilds the ticket table |
| `NonInterference.dfy` | two runs that agree on a caller's rows look the same to it |
| `RateWitness.dfy` | the log witnesses the rate limit; one event per call |
| `Server.dfy` | the transport wrapper and its walk over exception chains |
| `Policy.dfy`, `Json.dfy`, `Sequences.dfy`, `Wrappers.dfy` | policy tables, argument values, list operations, option and result types |

Each object the source updates in place (the bucket, the limiter, the store, the provider, the audit log, the
gateway, the transport) is a class. Its methods are proved equal to functions on values (`Admit`, `Invoke`, `Step` and
so on), and the theorems are about those functions and runs of them, in terms of the inputs and the tables. `CreateRuntime`,
`CallTool` and `Perform` of `Server` close the loop: they start the objects in the seeded state, and take them through
exactly one step of the machine the run theorems speak about.

## What is idealised

- One run has one policy and one set of settings. The code reads both once, at start; a restart with another policy over
  the same database is a new run from a state the theorems do not start from.
- Time and tokens are reals. Every clock reading is an argument, in the order the code takes it. No claim needs the
  readings to be ordered unless its `requires` says so.
- SHA-256 of a token is injective. The MAC is any function; `Audit.IdealTags` asks only that it has no collision
  between the texts of the logs at hand and never gives 64 zeros.
- Random names (`jti`, codes, refresh tokens) come from a supply that never repeats one. A bearer string is a term: a JWT
  under some key, a random name, or anything else, so holding a signed string means somebody had the key.
- Arguments are JSON values of valid Unicode text. `Codec.RoundTrips`, where required, says parsing undoes printing. The
  text of a float is told from that of an integer, as Python prints it.
- A float in an audit row is the text printed for it; that text holds no quote, no comma, no brace and no letter n.
- Scope and team lists, which the source keeps sorted and without duplicates, are sets.
- The payload's shape stands for the `kind` column, since every writer stores the two together.
- `AuditLog.record` is one step: it reads the last hash and appends, and nothing awaits in between.
- JWT decoding checks key, audience, issuer, `exp` (section 4.1.4 of RFC 7519) and `iat` (section 4.1.6), the last
  because PyJWT refuses a token issued in the future.

## Findings

- The repository's README lists `unknown_tool` as the refusal of an unknown tool (`README.md:159`). The code refuses a tool
  the policy does not list as `forbidden`, since the scope check comes before validation. `Runs.UnknownToolCode` says
  exactly when each code appears.
- `verify_chain` reads only the newest 1,000,000 events. A genuine log is accepted exactly while it fits
  (`Audit.GenuineLogAcceptedWithinWindow`), and an accepted candidate is a prefix of the recorded log exactly while it
  fits (`Audit.AcceptedIsPrefixExactlyWithinWindow`). `Audit.OversizedCandidateEscapes` gives a longer candidate that is
  accepted, for every log of at least that size. `Audit.AcceptedExactlyAuthenticPrefixes` is therefore stated for the
  window, which is the whole candidate up to that size.
- An event's team tag is the team its ticket had when the call was made. A ticket asked for before it exists leaves an
  event without a team, which every auditor may read even after the ticket is created (`Answers.EarlyProbeIsUntagged`);
  events of calls that named a stored ticket stay hidden (`Answers.EventsOfOtherTeamsStayHidden`).
- Acceptance is by prefix: dropping events from the end of a log goes unseen, as the chain has no end marker.
- A ticket id that validates but does not fit 64 bits ends in `internal_error`; `Runs.DispatchIsTotalOnValidArguments`
  gives the exact condition and `Runs.HugeIdFaults` an id that meets it.
- In `exchange_refresh_token` the policy check after the subset check refuses nothing as long as the policy stays the one
  the token was issued under: `Grants.RefreshExchangeSucceedsExactly` holds without it in its condition. After a restart
  with a narrower policy over the same database it is the check that refuses; `Grants.RefreshUnderAnyPolicy` gives the
  condition for any policy.

## Model

| member | source | states |
|---|---|---|
| RateLimit.Bucket.Charge | src/mcpgate/rate_limit.py:36-43 | refilling and spending in place leaves the bucket, and answers the caller, as the value-level admission `Admit` does |
| RateLimit.TokenBucketLimiter.Create | src/mcpgate/rate_limit.py:18-30 | a limiter is made exactly for a positive capacity and a positive rate, and starts with no bucket |
| RateLimit.TokenBucketLimiter.BucketOf | src/mcpgate/rate_limit.py:35 | an unknown identity gets a full bucket stamped now; known identities keep theirs |
| RateLimit.TokenBucketLimiter.Allow | src/mcpgate/rate_limit.py:32-43 | the verdict is that of `Admit` on the caller's bucket, and every other identity's bucket is untouched |
| RateLimit.TokensBelowEverySlack | src/mcpgate/rate_limit.py:36-43 | from any starting bucket and any readings, the tokens never exceed the slack of any window |
| RateLimit.TokensMeetASlack | src/mcpgate/rate_limit.py:36-43 | from a fresh bucket some window's slack equals the tokens, so they are the minimum |
| RateLimit.BucketRefinesAllWindows | src/mcpgate/rate_limit.py:32-43 | call n is allowed if and only if every window ending at it stays under capacity plus rate times elapsed time, and the stored tokens are the minimum of the windows' slacks; any readings |
| RateLimit.BucketRefinesWindowRuleOnAClock | src/mcpgate/rate_limit.py:32-43 | the same equivalence with elapsed time as a difference of readings, on a nondecreasing clock |
| RateLimit.TokensStayInRange | src/mcpgate/rate_limit.py:36-43 | tokens stay within 0 and capacity over any run of non-negative costs |
| RateLimit.StretchBound | src/mcpgate/rate_limit.py:33-43 | without a monotone clock, the cost granted in any stretch is at most capacity plus rate times the positive increments of the readings |
| RateLimit.GreedyNeverBehind | src/mcpgate/rate_limit.py:35-43 | greedy admission never trails another choice, and granted plus held tokens are never fewer |
| RateLimit.GreedyIsOptimal | src/mcpgate/rate_limit.py:35-43 | after every prefix of unit-cost calls the limiter has granted at least as many as any admission choice its bucket could pay for |
| RateLimit.PollsCompose | src/mcpgate/rate_limit.py:36-41 | capped refill in steps over denied polls equals one capped refill |
| RateLimit.RetryAfterIsExact | src/mcpgate/rate_limit.py:36-43 | after a denial and any denied polls, the same cost is allowed if and only if it is at most capacity and `now + retry_after` has come |
| Canonical.EscapePrefixFree | src/mcpgate/audit.py:48-65 | no escaped character is the beginning of another: short escapes, one unit and surrogate pairs are told apart |
| Canonical.BodyPrefixFree | src/mcpgate/audit.py:48-65 | a quoted string can be read back from any text that begins with it |
| Canonical.RenderPrefixFree | src/mcpgate/audit.py:48-65 | a string, a number and null are told apart and read back, given the separator that follows |
| Canonical.MembersInjective | src/mcpgate/audit.py:48-65 | the text of an object with known keys determines every value |
| Canonical.CanonicalTextIsInjective | src/mcpgate/audit.py:48-65 | two events with the same canonical text agree on all twelve authenticated fields |
| Store.Store.Seed | src/mcpgate/store.py:69-103 | an empty table gets the three demonstration rows under the next three ids; any other table is left alone |
| Store.SeedRowsByTeam | src/mcpgate/store.py:75-97 | the seed rows, field by field |
| Store.Store.CreateTicket | src/mcpgate/store.py:125-134 | the new row is open, by the caller, under the next id, and no other row changes |
| Store.Store.UpdateStatus | src/mcpgate/store.py:136-143 | only the status and update time of that id change; an absent id changes nothing and returns nothing |
| Store.Store.Put | src/mcpgate/store.py:149-170 | the artifact replaces what its digest held, with both flags cleared |
| Store.Store.Get | src/mcpgate/store.py:172-195 | a row is returned only when live and of that kind; a consuming read marks the row it returns and no other |
| Store.Store.Revoke | src/mcpgate/store.py:197-203 | the row of that digest, of any kind, is marked revoked; an unknown token changes nothing |
| Store.Store.AppendAudit | src/mcpgate/store.py:205-217 | the row gets the next sequence number at the end of the log |
| Store.ListingIsTheSelection | src/mcpgate/store.py:105-116 | a listing holds exactly the rows of the caller's teams with the asked status, by strictly increasing id |
| Store.ListingDependsOnVisibleRows | src/mcpgate/store.py:105-116 | tables that agree on the visible rows give the same listing, whatever else they hold |
| Store.ScopedReadIsNewestInScope | src/mcpgate/store.py:226-260 | a team-scoped read returns the newest events with no team or a team in scope, newest first, up to the limit |
| Store.ScopedReadIgnoresOtherTeams | src/mcpgate/store.py:244-260 | an event about another team, anywhere in the log, changes nothing a scoped read returns |
| Audit.AuditLog.Record | src/mcpgate/audit.py:28-83 | one event is appended; every column is stated, the arguments redacted under the three sensitive keys in any spelling that lowers to them and digested in full |
| Audit.ReadsBackRedacted | src/mcpgate/audit.py:14-18 | the arguments read back from an event are the given ones, with "[REDACTED]" under exactly the keys that lower to token, client_secret or body |
| Audit.SensitiveValuesLeaveNoTrace | src/mcpgate/audit.py:14-18 | arguments that differ only in sensitive values leave the same text in the log |
| Audit.AuditLog.VerifyChain | src/mcpgate/audit.py:85-116 | the loop returns true if and only if the newest 1,000,000 events are well chained from the all-zero genesis |
| Audit.AuditLog.Reconstruct | src/mcpgate/audit.py:118-129 | one retelling for each event of the session read, in its order, column by column |
| Audit.RecordKeepsChain | src/mcpgate/audit.py:41-83 | recording extends a well-chained log to a well-chained log |
| Audit.RecordedLogIsWellChained | src/mcpgate/audit.py:28-83 | every sequence of records from an empty log gives a well-chained log |
| Audit.TagDeterminesFields | src/mcpgate/audit.py:48-66 | equal tags come from rows equal on every authenticated field |
| Audit.TagsAreDistinct | src/mcpgate/audit.py:46-66 | the chain is acyclic: no two events of a chained log share a tag |
| Audit.AcceptedEventIsInPlace | src/mcpgate/audit.py:85-116 | an accepted event with an issued tag is the recorded event at the same position |
| Audit.AcceptedExactlyAuthenticPrefixes | src/mcpgate/audit.py:85-116 | among candidates whose tags were all issued, those accepted are exactly those whose window is a prefix of the recorded log on all twelve fields |
| Audit.WindowIsTail | src/mcpgate/store.py:254-260 | what the verifier reads is the whole log up to 1,000,000 events and its newest 1,000,000 after that |
| Audit.GenuineLogAcceptedWithinWindow | src/mcpgate/audit.py:85-87 | a recorded log is accepted if and only if it has at most 1,000,000 events |
| Audit.AcceptedIsPrefixExactlyWithinWindow | src/mcpgate/audit.py:85-116 | an accepted candidate whose tags were all issued is a prefix of the recorded log if and only if it has at most 1,000,000 events |
| Audit.OversizedCandidateEscapes | src/mcpgate/audit.py:86 | every log of at least 1,000,000 events has an accepted candidate, in sequence order and with issued tags only, that is no prefix of it: its first million events behind a replay of the first |
| Audit.SessionReadIsWhole | src/mcpgate/store.py:241-260 | a session of at most 10,000 events is returned whole and in order |
| Audit.SessionsRemerge | src/mcpgate/audit.py:118-129 | sessions partition the log, and the only ordered list of all they return is the log |
| Policy.Policy.AuthorizeScopes | src/mcpgate/policy.py:47-54 | scopes are granted if and only if the client exists and may hold them all, and then exactly those asked for; otherwise the error says which of the two failed |
| Policy.Policy.RequireTool | src/mcpgate/policy.py:56-62 | a tool is permitted if and only if the policy lists it and its scope is held, and then by its listed rule; otherwise the error says which of the two failed |
| Auth.OAuthProvider.GetClient | src/mcpgate/auth.py:40-53 | a client is known if and only if the policy lists it, with its secret, callback, grant types and policy scopes |
| Auth.OAuthProvider.AuthorizeClient | src/mcpgate/auth.py:60-82 | the provider's objects move as the value-level `Authorize`; `Grants.CodeKeepsRequest` and `Grants.AuthorizedCodeRedeems` say what the code keeps and buys |
| Auth.OAuthProvider.LoadAuthorizationCode | src/mcpgate/auth.py:84-100 | a code loads only for the client it was issued to, and loading changes nothing |
| Auth.OAuthProvider.ExchangeAuthorizationCode | src/mcpgate/auth.py:102-110 | the provider's objects move as the value-level `ExchangeCode`: consumed first, checked after |
| Auth.OAuthProvider.LoadRefreshToken | src/mcpgate/auth.py:112-124 | a refresh token loads only for the client it was issued to, and loading changes nothing |
| Auth.OAuthProvider.ExchangeRefreshToken | src/mcpgate/auth.py:126-142 | the provider's objects move as the value-level `ExchangeRefresh`: consumed first, checked after |
| Auth.OAuthProvider.LoadAccessToken | src/mcpgate/auth.py:144-167 | an access token is accepted or refused as the value-level `LoadAccess` does, and nothing changes |
| Auth.OAuthProvider.RevokeToken | src/mcpgate/auth.py:169-170 | the named artifact is revoked and nothing else changes |
| Auth.OAuthProvider.IssueFor | src/mcpgate/auth.py:172-184 | the provider's objects move as the value-level `IssueForClient`; `Grants.IssueForClientSucceedsExactly` says when that grants |
| Auth.OAuthProvider.IssueTokens | src/mcpgate/auth.py:186-225 | both halves of the pair are stored under fresh names, and no other row changes |
| Grants.StepKeepsInv | src/mcpgate/auth.py:60-225 | every grant operation keeps the table and lineage invariant, whatever its outcome |
| Grants.RunKeepsInv | src/mcpgate/auth.py:60-225 | so does every run of grant operations |
| Grants.LiveCodeIsReady | src/mcpgate/auth.py:102-110 | a code that still loads has never produced a pair, and is within policy for this audience |
| Grants.LiveRefreshIsReady | src/mcpgate/auth.py:126-142 | a refresh token that still loads is the newest of its chain |
| Grants.LineageIsALinearChain | src/mcpgate/auth.py:102-142 | after every run the pairs of one root form one chain: each issued for its predecessor's refresh token, to the same client, with no wider scopes and within policy; all refresh tokens but the newest are dead, and a live code has no pairs |
| Grants.SourceYieldsOnePair | src/mcpgate/auth.py:102-142 | no code or refresh token ever produced two pairs |
| Grants.AccessTokenRefinesIssue | src/mcpgate/auth.py:144-167 | under the invariant every run keeps, a bearer string is accepted if and only if some issued pair has it, within its lifetime and unrevoked, and it means the client, scopes and teams fixed at issue |
| Grants.AcceptedTokenIsWithinPolicy | src/mcpgate/auth.py:186-210 | what an accepted token carries is within the policy of its client |
| Grants.IssuedPairIsUsable | src/mcpgate/auth.py:186-225 | the pair handed out works for exactly its lifetimes, for the granted client and scopes, with every claim stated |
| Grants.CodeExchangeSucceedsExactly | src/mcpgate/auth.py:102-110 | an exchange gives a pair if and only if the code loads for that client, and the pair is usable with the code's scopes; any other gets invalid_grant |
| Grants.RefreshExchangeSucceedsExactly | src/mcpgate/auth.py:126-142 | a refresh gives a pair if and only if the token loads for that client and no scope asked for is wider; the pair is usable for exactly the scopes asked for, or all when none are |
| Grants.RefreshUnderAnyPolicy | src/mcpgate/auth.py:126-142 | under any policy, also one that changed since, a refresh gives a pair if and only if the token loads for that client, no scope asked for is wider, and the policy now in force allows them; otherwise the error says which failed |
| Grants.AuthorizedCodeRedeems | src/mcpgate/auth.py:60-82 | a code is handed out if and only if policy allows the scopes asked for and the resource is this server, and for 120 seconds it buys a usable pair with exactly those scopes |
| Grants.CodeKeepsRequest | src/mcpgate/auth.py:60-100 | the code loads for the client that asked, for no other, until 120 seconds have passed, with the challenge, redirect URI, scopes and resource of the request; a refused request changes nothing and its error says which check failed |
| Grants.IssueForClientSucceedsExactly | src/mcpgate/auth.py:172-184 | a bootstrap pair is issued if and only if the client is listed, the secret is its own and it may hold every scope asked for; the pair is usable for exactly those; any other request changes nothing |
| Grants.StepTouchesOnlyNamed | src/mcpgate/store.py:149-203 | each operation touches only the artifact it names or freshly creates, and sets `revoked` only by revoking |
| Grants.RowsOnlyGainFlags | src/mcpgate/store.py:172-203 | over any run an artifact keeps its content and never loses a flag |
| Grants.DeadArtifactsStayDead | src/mcpgate/store.py:178-184 | once an artifact does not load, no later run makes it load again |
| Grants.ExchangeAttemptKills | src/mcpgate/auth.py:105-109 | any exchange attempt, a refused one included, leaves the presented code or refresh token dead |
| Grants.RevokedExactlyByRevoking | src/mcpgate/auth.py:169-170 | over any run an unrevoked artifact becomes revoked if and only if the run revokes it |
| Validation.ValidateInputs | src/mcpgate/gateway.py:176-211 | the loop over declared arguments computes `Validate`, stopping at the first refusal |
| Validation.CleanCopies | src/mcpgate/gateway.py:190-203 | the typed copy holds each declared argument unchanged and nothing else |
| Validation.ValidatesExactly | src/mcpgate/gateway.py:176-211 | accepted if and only if the tool is declared, no argument is unexpected, each is well typed, and the tool's own rule holds; the copy gives the same values |
| Validation.ValidationIsIdempotent | src/mcpgate/gateway.py:176-211 | validating the validated copy changes nothing |
| Validation.ValidatedArguments | src/mcpgate/gateway.py:149-211 | what the dispatcher may rely on, tool by tool: types, lengths, controls, non-blank texts, statuses, positive ids |
| Validation.RefusesExactly | src/mcpgate/gateway.py:149-211 | tool by tool, validation accepts exactly the proper arguments, and refuses each other call for exactly the first reason of the table: unexpected arguments, each declared argument in order, the tool's rule |
| Validation.BlankExactlyInAscii | src/mcpgate/gateway.py:205-206 | an ASCII text is blank if and only if it is made of spaces, tabs and line ends |
| Gateway.Gateway.FindSubjectTeam | src/mcpgate/gateway.py:119-139 | the method computes the team tag for any argument shape without changing anything; `Answers.SubjectTeamExactly` says what the tag is |
| Gateway.Gateway.FindVisibleTicket | src/mcpgate/gateway.py:237-244 | a hidden row and an absent row get the same refusal |
| Gateway.Gateway.RunTool | src/mcpgate/gateway.py:213-235 | the store moves and answers as the value-level `Dispatch`; `Answers.DispatchAnswers` says what that is, tool by tool |
| Gateway.Gateway.Guard | src/mcpgate/gateway.py:57-67 | the guards run in order, each refusing before the next: the objects move as `Decide` |
| Gateway.Gateway.Call | src/mcpgate/gateway.py:48-107 | the objects move as `Invoke`: the decision, then one event on every exit path |
| Runs.InvokeEffect | src/mcpgate/gateway.py:48-107 | one call writes one event and charges one bucket by one; it changes tickets only when permitted and successful, and a refused call leaves them alone |
| Runs.RunKeepsRows | src/mcpgate/store.py:69-143 | after every run every row has a valid status, and every created row non-blank texts of at most 4,000 characters without controls |
| Runs.RunKeepsGrants | src/mcpgate/auth.py:60-225 | the grant invariant holds after every run of the whole server |
| Runs.RunKeepsLog | src/mcpgate/audit.py:46-83 | after every run the log is well chained from genesis and numbered 1, 2, 3 and so on |
| Runs.CallHasSession | src/mcpgate/gateway.py:141-145 | a guarded call always has a non-empty session name |
| Runs.RunRemergesFromSessions | src/mcpgate/audit.py:118-129 | after every run, while no session exceeds 10,000 events, merging the sessions gives back the log |
| Runs.AcceptedTokenWasIssued | src/mcpgate/auth.py:144-210 | an accepted token was issued to a policy client, carries its policy teams and no more than its policy scopes |
| Runs.EveryRowChangeIsMediated | src/mcpgate/gateway.py:57-67 | after any run, whatever inserts or changes a row is an allowed call whose token was issued to a client whose policy teams hold the row's team and whose policy scopes hold the tool's scope; no row is deleted or changes team |
| Runs.UnknownToolCode | src/mcpgate/gateway.py:62-66 | a tool absent from the policy is refused as forbidden; `unknown_tool` is exactly for one the policy lists, the caller may use, and that declares no arguments |
| Runs.DispatchIsTotalOnValidArguments | src/mcpgate/gateway.py:213-244 | validated arguments end in a result, not_found, row_scope_violation, or internal_error exactly when the id exceeds 64 bits |
| Runs.HugeIdFaults | src/mcpgate/gateway.py:159-164 | the id 2 to the 63rd passes validation and ends in internal_error |
| Answers.GetTicketAnswers | src/mcpgate/gateway.py:218-219 | a get_ticket call past the guards succeeds if and only if its id is bindable and names a row of the caller's teams, and returns exactly the stored row; no ticket changes |
| Answers.UpdateTicketAnswers | src/mcpgate/gateway.py:226-229 | an update succeeds on exactly the rows get_ticket may show, changes status and update time alone, and returns the row it left |
| Answers.CreateTicketAnswers | src/mcpgate/gateway.py:220-225 | a creation succeeds exactly in one of the caller's teams, inserts the given texts as an open row of the caller, and returns that row |
| Answers.ListTicketsAnswers | src/mcpgate/gateway.py:216-217 | after every run, list_tickets returns exactly the rows of the caller's teams with the status asked for, by increasing id |
| Answers.AuditRecentAnswers | src/mcpgate/gateway.py:230-234 | after every run, audit_recent returns the newest events with no team or one of the caller's, newest first, up to a limit of twenty unless asked otherwise, between one and a hundred |
| Answers.DispatchAnswers | src/mcpgate/gateway.py:213-244 | the answer and effect of every tool on proper arguments, refusals included |
| Answers.RefusalTable | src/mcpgate/gateway.py:57-67 | each refusal, and exactly which calls get it, guard by guard and argument by argument |
| Answers.CodesTellRefusals | src/mcpgate/gateway.py:58-242 | every refusal has its own code |
| Answers.RetryAfterOfReplyIsExact | src/mcpgate/gateway.py:59-61 | the hint in a rate_limited reply is exact: that client's next call passes the limiter if and only if the hinted time has come |
| Answers.SubjectTeamExactly | src/mcpgate/gateway.py:119-139 | the team tag is x if and only if the call creates a ticket in x or names a stored ticket of x by a bindable integer |
| Answers.EventTells | src/mcpgate/gateway.py:68-106 | the one event of a call, column by column: session, client, tool, action, decision, reason, team, redacted arguments, digest and chain |
| Answers.RejectionTells | src/mcpgate/server.py:108-119 | the one event of a call the transport refused, column by column; nothing else changes |
| Answers.EventsOfOtherTeamsStayHidden | src/mcpgate/gateway.py:119-139 | over any run, audit_recent never shows a caller the event of a call that concerned a team it lacks, whatever that call's outcome |
| Answers.EarlyProbeIsUntagged | src/mcpgate/gateway.py:135-136 | the event of a call that names a ticket before it exists carries no team, also after the ticket is created in one |
| Replay.RedactionKeeps | src/mcpgate/audit.py:14-18 | redaction leaves every argument the rebuild reads |
| Replay.CallIsReplayed | src/mcpgate/gateway.py:96-107 | the event of a call tells a reader of the log exactly what the call did to the table |
| Replay.LogDeterminesTickets | src/mcpgate/gateway.py:96-107 | after every run, folding the log over the seed rows gives every ticket's id, team, title, status and author, and the next id |
| NonInterference.OutsideKeepsView | src/mcpgate/gateway.py:213-244 | steps of others leave the caller's rows, bucket and token as they were, attempts refused by any guard included |
| NonInterference.VisibleTicketDependsOnView | src/mcpgate/gateway.py:237-244 | looking up a ticket depends only on the visible rows |
| NonInterference.CallDependsOnView | src/mcpgate/gateway.py:48-107 | one call of the caller on two servers that agree on its view gets the same answer and leaves the views in agreement |
| NonInterference.RowNonInterference | src/mcpgate/gateway.py:213-244 | two runs that start in agreement on the caller's rows, bucket and token give it the same results and errors at every call and end in agreement, whatever others attempt in either run, short of a successful write inside its teams |
| NonInterference.DisjointTeamsAreOutside | src/mcpgate/gateway.py:213-244 | any call of a client with none of the caller's teams, whatever its arguments and outcome, is covered by non-interference |
| NonInterference.ClientsWithoutSharedTeamsAreIsolated | src/mcpgate/gateway.py:213-244 | when the policy gives no other client any of the caller's teams, two runs with any steps of others look the same to the caller; the hypotheses speak of the policy and the steps alone |
| RateWitness.RateLimitedExactlyByBucket | src/mcpgate/gateway.py:59-61 | a call is answered rate_limited if and only if its token was accepted and its bucket could not pay |
| RateWitness.EventMatchesCharge | src/mcpgate/gateway.py:68-107 | an event of a client has another reason if and only if the limiter granted that client's call |
| RateWitness.LogWitnessesRateLimit | src/mcpgate/gateway.py:56-107 | over any window of any run, the log holds at most capacity plus rate times elapsed time of the events a client got past the limiter |
| RateWitness.OneEventPerCall | src/mcpgate/gateway.py:68-107 | a run appends one event for every guarded call and every transport refusal, and none for a grant |
| Server.AlreadyAudited | src/mcpgate/server.py:129-137 | the walk ends on every finite chain, cyclic or not, and returns true if and only if an audited marker is reachable along cause-or-context links |
| Server.Transport.InvokeTool | src/mcpgate/server.py:50-65 | the tool body makes one gateway call, and a refusal leaves with the audited marker on its chain |
| Server.CreateRuntime | src/mcpgate/runtime.py:25-34 | a new server, seeded and put together, is in the state every run theorem starts from |
| Server.Transport.CallTool | src/mcpgate/server.py:98-120 | a transport call with a bearer takes the server through exactly one step, and so writes exactly one event, whether the SDK refuses it or wraps what the tool raised; the caller gets the gateway's own result, or the exception that was raised |
| Server.TransportEventTells | src/mcpgate/server.py:98-120 | the event of a transport call names its request, its tool and the arguments in force, and of a refusal its bearer |
| Server.Transport.Perform | src/mcpgate/auth.py:60-184 | a grant endpoint takes the server through exactly one grant step of the run theorems |

## Left out

- HTTP, FastMCP wiring, discovery endpoints, client authentication and PKCE verifier checking: done by the MCP SDK, whose code is not part of this model; "the client presented this code" is an input of the exchange.
- Writing the code and state into the redirect URI, which an SDK function does, the `retry_after` suffix of an error message, and splitting or joining scope strings: text formatting around the modelled decisions.
- JWT, SHA-256, HMAC and randomness internals: idealised as said above.
- SQL text, SQLite's engine and its limits on bound variables, disk faults: each table is a map or sequence with the filter, order and limit its query states. `Store.Store.ListTickets`, `Store.Store.GetTicket` and `Store.Store.ReadAudit` have no row above: they evaluate those queries, and the lemmas about listings and scoped reads say what comes back.
- Threads interleaving inside `AuditLog.record`, whose hash read and append are two lock acquisitions: the chain claims are for atomic records.
- Calls with no bearer context in the server wrapper: that path raises the already-audited marker without writing an event (`src/mcpgate/server.py:51-53`), so it is outside the exactly-once claim.
- Exceptions that define their own truth value: the walk takes a link exactly when it is not None.
- `hmac.compare_digest` raising on a stored tag with non-ASCII text: modelled as not accepted.
- NonInterference.RowNonInterference: does not cover callers that use create_ticket, whose result shows a row id that counts every team's rows, or audit_recent, whose event tag is null for an absent ticket and the owning team for a hidden one (`src/mcpgate/gateway.py:135-136`).
- Audit.SessionsRemerge: needs sessions of at most 10,000 events with a name, because the session read stops there and an empty name reads every session.
- Replay.LogDeterminesTickets: does not rebuild bodies, which the log redacts, nor timestamps, which it does not hold.
- Validation.ValidatedArguments: lengths count Unicode scalars, as Python does for text without lone surrogates; text with lone surrogates and arguments that are not JSON are not modelled.
- Floating-point rounding, the value of `latency_ms`, and the session name drawn for a call without one: parameters of the step.
- `Policy.__init__` and YAML loading, `config.py`, `cli.py`, `benchmark.py`, `Gateway.direct`, the demos and `register_client` (always refused): plumbing that would add only easy members.
