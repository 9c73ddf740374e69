# Verified models of the fleet-manager cores

A Dafny model of the parts of the ACS fleet manager that carry state, with proofs of what they promise over all
inputs and all runs. `dafny verify dfyconfig.toml` checks everything.

**The search filter** (`Scanner`, `StateMachine`, `Patterns`, `QueryParser`, `QueryLanguage`, `LetterCase`,
`ParseErrors`, `RoundTrip`, `Survival`). The scanner, the builder of the state machine and the parser are methods and
classes proved against functions on values. The language is defined on its own, by expression trees, and the accept
patterns are proved to be the regular expressions of the grammar. The main results: a fresh parser accepts a text if and
only if its tokens are those of a tree within the join limit, that tree is the only one, and the parser emits exactly
its rendering and values. Texts that differ in the case of letters only are both accepted or both rejected and compare
the same columns. A rejected text gets the position of the first token that cannot come next, with its cause. A tree
printed in any layout, with any values in quotes, parses back to its rendering and its values if and only if every value
survives: it has no brace or operator character, does not end in a backslash, and has no backslash after its last quote
unless nothing but closing braces follows it.

**Leader election** (`LeaderElection`, `Workers`, `Lifecycle`). One check of the lease is an atomic step, and the same
check split at the statements that reach the database is a second state machine. Every run of the split machine without
stale locks and lost commits is a run of the atomic one, so at most one reconcile loop runs at any time. The split
machine is safe if and only if four conditions hold, and each condition has a run that shows it is needed. Over every
run, however late, a worker goes on if and only if the last thing that happened to it was a check that left it the
leader. `Lifecycle` interleaves the manager's goroutine, a caller of its Stop and the loops of the workers statement by
statement: the wait group counts the running workers up to the one in flight, and the only panic is a Stop that resumes
from its wait when the group is in use again. Stop cannot panic, and nobody runs once it has returned, if and only if
the goroutine was waiting at its select when Stop was called.

**The Central reconciler** (`Cluster`, `Credentials`, `Deletion`, `Order`, `Revision`, `Reconciler`, `Interleaving`).
Every client call may fail before or after its effect. Over every history of failing attempts, restarts and cluster
moves the credentials of the managed database stay in order and the database is given up before its secret or namespace
goes, and one attempt without failures then makes the progress its state allows, with Ready exactly if deployment and
routes allow it. Ready means installed, Deleted means gone, repeated calls reach Deleted within as many rounds as there
are objects, and the early exit is taken exactly for what was Ready before and has not changed. `Interleaving` takes the
attempts apart at their client calls and lets the cluster move between any two of them: the credentials are in order at
every point, the hand-over of the credentials succeeds within nineteen calls, a deletion that reports success has left
nothing, and deletions still reach that report within as many rounds as there are objects.

**Versions, transactions, migrations** (`Versions`, `DeepSort`, `Transactions`, `Rollbacks`, `Migrations`). The
build-aware comparison is a total order, and it is the order of item 11 of Semantic Versioning 2.0.0 with the build
metadata last; the deep sort is a sorted permutation at both levels in new storage; no transaction is resolved twice,
one is rolled back if and only if it was marked since it began, and a post-commit action runs if and only if the next
transaction to be resolved is committed. Actions run in order and none twice, and they run only after a commit if and
only if no commit has a pending action, other than its last one, that begins a transaction itself; rolling back undoes
migrating.

## What the proofs show about the code

- A second `Parse` on one parser appends to the stored query of the first (`pkg/services/queryparser/query_parser.go:197-219`).
  `ParseFrom` takes the stored query as an argument for this reason.
- The comment above the grammar lets a bare value start with a quote but not with a brace. The pattern in the code
  has it the other way round (`pkg/services/queryparser/query_parser.go:63`, `:160`); the model follows the code.
- Inside quotes the scanner still splits at braces and operator characters, and a closing quote after a backslash does
  not close. `PrintThenParseIff` gives the exact condition, `QuotedValueSurvivesIff` for a single comparison.
- The result of the commit in `acquireLeaderLease` is ignored (`pkg/workers/leader_election_mgr.go:209`). A lost commit
  leaves two leaders: `LostCommitsBreakExclusion`.
- A leader with 30 seconds left on its lease does not renew it. Its reconcile loop must have been kept or have ended
  within 30 seconds of the last successful check, the wait for a job in flight included: `LateChecksBreakExclusion`.
- `Stop` of the leader election manager waits for the wait group only (`pkg/workers/leader_election_mgr.go:90-102`). A
  round in progress can start a worker after `Stop` has returned: `WorkerStartsAfterStop`, and `StopIsFinalIff` for the
  exact condition. A worker that is counted between the release of that wait and its return makes the wait group panic:
  `StopPanicsInOneRound`, and `StopIsSafeIff` for the exact condition.
- A Central whose resources cannot be converted is never deleted, because the conversion comes first
  (`fleetshard/pkg/central/reconciler/reconciler.go:128-140`): `DeleteForGood`.
- A deletion without failing calls can end in an error, when the cluster removes an object between its discovery and the
  request to delete it (`fleetshard/pkg/central/reconciler/reconciler.go:739-759`): `DeletionErrsOnItsOwn`, and
  `DeletionErrsIff` for the exact condition. The rounds converge nevertheless.
- `createNonPrivilegedUser` loses the error of its commit (`fleetshard/pkg/central/postgres/dbinit.go:81-91`).
  `InitializeDatabase` holds nevertheless, because the later GRANT fails without the role.
- `begin` keeps the pending post-commit actions (`pkg/db/connection.go:148-171`). An action can run with a later
  transaction than the one it was registered under: `RunsWithItsTransactionIff` says exactly when it does not.
- An action that begins a transaction makes the actions after it run while that transaction is open:
  `BeginningActionsBreakTheOrder`, and `ProperExactlyWhen` for the exact condition.
- `RollbackAll` ends without an error when its query fails (`pkg/db/migrations.go:76-79`), with migrations left:
  `RollbackAll` says exactly when, and `SilentlyIncomplete` is an example.
- A malformed version in a list of one is never compared, so it is not rejected: `Rejected` is the exact condition.

## Model

| member | source | states |
|---|---|---|
| `Scanning.Scanner.Init` | pkg/services/queryparser/scanner.go:41-161 | the tokens already there stay, and the tokens of the text are appended as the scan function gives them |
| `Scanning.Scanner.Next` | pkg/services/queryparser/scanner.go:164-170 | moves to the next token and says whether there is one |
| `Scanning.SendCurrentTokens` | pkg/services/queryparser/scanner.go:47-64 | pending characters become one token with their joined text and the position of the first, or none if there are none |
| `Scanning.Accept` | pkg/services/queryparser/scanner.go:67-158 | one turn of the character loop keeps pending tokens, kind and quote flags in step with the scan function |
| `Scanning.ScannerExactness` | pkg/services/queryparser/scanner.go:41-161 | every token is the non-empty slice of the text at its position, tokens are in order and disjoint, and exactly the spaces outside quotes lie between them |
| `Scanning.EscapedOnlyInsideQuotes` | pkg/services/queryparser/scanner.go:104-135 | at every prefix of every text, escaped implies quoted, and quoted follows an independent three-state reading of the text |
| `Scanning.UnquotedTokensAreMaximalRuns` | pkg/services/queryparser/scanner.go:67-161 | without quotes the tokens are maximal runs of one character class, braces alone |
| `StateMachine.Build` | pkg/services/queryparser/statemachine_builder.go:57-85 | every state keeps its definition and gets as successors the targets of all its table entries in order; an end target only allows the input to end there |
| `StateMachine.Accepting` | pkg/services/queryparser/statemachine.go:72-91 | the search finds the first successor that accepts the token |
| `StateMachine.BuildFilterMachine` | pkg/services/queryparser/query_parser.go:155-195 | the machine built from the grammar tables has exactly the states, patterns, successors and last states of the closed form |
| `StateMachine.NextStateIsFirstAccepting` | pkg/services/queryparser/query_parser.go:155-181 | searching the built machine agrees with the closed form of the grammar for every state and token |
| `StateMachine.TransitionsAreExclusive` | pkg/services/queryparser/statemachine.go:72-91 | at most one transition of a state accepts a token |
| `Patterns.PatternsAreTheirExpressions` | pkg/services/queryparser/query_parser.go:155-167 | every state accepts exactly the words of its regular expression, with the usual meaning of classes, sequence, choice and repetition |
| `Patterns.QuotedIs` | pkg/services/queryparser/query_parser.go:161 | the expression for quoted values means quotes at both ends and a backslash before every quote in between |
| `QueryParsing.QueryParser.constructor` | pkg/services/queryparser/query_parser.go:223-231 | a new parser has an empty query and the given columns, or the default ones if none are given |
| `QueryParsing.QueryParser.OnNewToken` | pkg/services/queryparser/query_parser.go:112-153 | the callback changes output and counters as the emit function says, and a rejected token leaves the output alone |
| `QueryParsing.QueryParser.Drive` | pkg/services/queryparser/query_parser.go:203-212 | the token loop ends where feeding all tokens to the machine ends, with the position of the first rejected token |
| `QueryParsing.QueryParser.Parse` | pkg/services/queryparser/query_parser.go:197-220 | stored query and result are those of the parse function, for every stored query and every text |
| `QueryParsing.FeedAppend` | pkg/services/queryparser/query_parser.go:203-212 | feeding a concatenation is feeding the parts one after the other, errors included |
| `QueryLanguage.AcceptedIsDerivable` | pkg/services/queryparser/query_parser.go:83-220 | an accepted text has the tokens of an expression tree, and the result is that tree's rendering and values |
| `QueryLanguage.DerivableIsAccepted` | pkg/services/queryparser/query_parser.go:83-220 | a text with the tokens of a tree within the join limit is accepted with the tree's rendering and values |
| `QueryLanguage.ParserAcceptsExactlyTheLanguage` | pkg/services/queryparser/query_parser.go:83-220 | machine, brace counter and join limit together accept exactly the expression language |
| `QueryLanguage.LanguageIsUnambiguous` | pkg/services/queryparser/query_parser.go:155-181 | a text stands for at most one expression, although a brace can also be a value |
| `QueryLanguage.AcceptedQueriesAreConsistent` | pkg/services/queryparser/query_parser.go:85-153 | on every accepted text the number of question marks, values and joins plus one agree and are at most eleven, braces balance, and the final trim changes nothing |
| `LetterCase.LoweredNames` | pkg/services/queryparser/query_parser.go:142-148 | the emitted name of a column is its word in small letters, letter by letter, and no other text is |
| `LetterCase.ComparisonsNameColumns` | pkg/services/queryparser/query_parser.go:142-148 | a comparison is well-formed exactly if the small letters of its column name a known one, and that name is what is emitted |
| `LetterCase.TokensAlike` | pkg/services/queryparser/scanner.go:41-161 | texts that differ in the case of letters have tokens of the same kinds in the same places that differ in the case of letters |
| `LetterCase.CaseDoesNotMatter` | pkg/services/queryparser/query_parser.go:142-167 | for every stored query, texts that differ in the case of letters only are both accepted or both rejected |
| `LetterCase.CaseChangesNoMeaning` | pkg/services/queryparser/query_parser.go:142-167 | they then have the same structure and the same columns, and the same values if they agree in the words of their values |
| `ParseErrors.ErrorsAreExact` | pkg/services/queryparser/query_parser.go:197-220 | a position and a cause are reported if and only if all tokens before were accepted and the one there is rejected for that cause; the other two errors mean a missing end or an open brace |
| `ParseErrors.TrimRemovesSpaces` | pkg/services/queryparser/query_parser.go:218 | the final trim removes spaces at both ends and nothing else |
| `RoundTrip.UnquoteQuote` | pkg/services/queryparser/query_parser.go:124-133 | unquoting a quoted value gives the value back if and only if the value does not end in a backslash |
| `RoundTrip.LayoutsScanToTheirWords` | pkg/services/queryparser/scanner.go:41-161 | words laid out with any spacing that keeps them apart scan to exactly those words |
| `RoundTrip.PrintThenParse` | pkg/services/queryparser/query_parser.go:112-220 | printing a tree in any layout and parsing it succeeds with the tree's rendering and its plain values from left to right |
| `Survival.PrintThenParseIff` | pkg/services/queryparser/query_parser.go:112-220 | for every tree with known columns and at most ten joins, any values and any layout, parsing the printed text gives the rendering and the values if and only if every value survives |
| `Survival.SpoiltParse` | pkg/services/queryparser/query_parser.go:112-153 | tokens that follow the printed words up to a wrong value or a misplaced token stop the parser or give other values |
| `Survival.BadValueSpoils` | pkg/services/queryparser/scanner.go:69-135 | the first value that does not survive leaves, at its place or later, a token that is a wrong value or that no filter has there |
| `Survival.QuotedValueSurvivesIff` | pkg/services/queryparser/scanner.go:79-135 | a comparison with a quoted value parses back to that value if and only if the value has no brace or operator character and does not end in a backslash |
| `LeaseProtocol.TimelyRunsAreExclusive` | pkg/workers/leader_election_mgr.go:104-224 | with atomic checks, and if no reconcile loop outlasts its last successful check by more than 30 seconds, at most one loop runs in every state of every run; a worker told to stop runs on until its job ends |
| `LeaseProtocol.LeaderKeepsItsLease` | pkg/workers/leader_election_mgr.go:142-220 | a leader whose checks do not fail keeps its lease and is not told to stop, whatever the other workers do |
| `LeaseProtocol.CheckedIffLeader` | pkg/workers/leader_election_mgr.go:104-220 | after a check in any state the worker goes on if and only if the row names it, and is told to stop otherwise; the row is taken exactly if it is free, expired or about to expire, for sixty seconds |
| `LeaseProtocol.FailedIsToldToStop` | pkg/workers/leader_election_mgr.go:111-135 | a running worker whose check fails is told to stop, in any state |
| `LeaseProtocol.GoesOnIff` | pkg/workers/leader_election_mgr.go:104-135 | over every run, however late its checks, a worker goes on if and only if the last step about it was a check that left it the leader |
| `LeaseProtocol.StoppedStaysStopped` | pkg/workers/reconciler.go:64-74 | a worker that was told to stop does not go on before its job has ended |
| `LeaseSteps.CheckActions` | pkg/workers/leader_election_mgr.go:142-220 | what each statement of a split check does to the worker, the row and the others, in any state |
| `LeaseSteps.LockIsOnlyTakenWhenExpired` | pkg/workers/leader_election_mgr.go:170-187 | without commits since the read, an empty lock result means that the lease had expired, so the re-check answers correctly |
| `LeaseSteps.ActRefinesApply` | pkg/workers/leader_election_mgr.go:147-214 | each split action is one atomic step, or none, seen at the row and the running workers |
| `LeaseSteps.SplitRunRefinesAtomicRun` | pkg/workers/leader_election_mgr.go:147-214 | every split run without stale locks and lost commits is a run of the atomic protocol |
| `LeaseSteps.StaleLocksBreakExclusion` | pkg/workers/leader_election_mgr.go:165-194 | a lock taken after another worker's commit leads to two leaders |
| `LeaseSteps.LostCommitsBreakExclusion` | pkg/workers/leader_election_mgr.go:196-209 | a commit whose failure goes unnoticed leads to two leaders |
| `LeaseSteps.RecheckIsNeeded` | pkg/workers/leader_election_mgr.go:180-187 | without the expiry check after an empty lock result there can be two leaders |
| `LeaseSteps.LateChecksBreakExclusion` | pkg/workers/leader_election_mgr.go:165 | for every bound above 30 seconds there is a run with two leaders |
| `LeaseSteps.SafeExactlyWhen` | pkg/workers/leader_election_mgr.go:142-224 | the split protocol is safe in every reachable state if and only if all four conditions hold |
| `Workers.LeaseTable.AcquireLeaderLease` | pkg/workers/leader_election_mgr.go:142-220 | an uninterrupted check is one step of the atomic protocol, with the answer for each failing statement; a failing commit still reports the lease as acquired |
| `Workers.Worker.Start` | pkg/workers/reconciler.go:24-46 | a new open stop channel, one more loop and one more in the group |
| `Workers.Worker.Stop` | pkg/workers/reconciler.go:64-74 | closes the channel at most once and waits until no loop is left |
| `Workers.LeaderElectionManager.StartWorkers` | pkg/workers/leader_election_mgr.go:104-117 | after a round exactly the leaders run, each with one loop, and the group counts the running workers |
| `Workers.LeaderElectionManager.TearDown` | pkg/workers/leader_election_mgr.go:70-79 | after the loop of the teardown no worker runs and the group is empty |
| `Lifecycle.OnlyAReusedGroupPanics` | pkg/workers/leader_election_mgr.go:56-117 | over every interleaving of goroutine, caller and reconcile loops, no wait group goes below zero and no channel is closed before it is made; the only panic is a Stop that resumes when the group is in use again |
| `Lifecycle.GroupCountsTheRunning` | pkg/workers/leader_election_mgr.go:104-117 | over every interleaving the group is never negative and equals the running workers up to the one between its start or stop and its count, and no worker has two loops |
| `Lifecycle.TeardownLeavesNothing` | pkg/workers/leader_election_mgr.go:70-81 | when the goroutine has ended, no worker, loop or count is left, and Stop no longer waits |
| `Lifecycle.WorkerStartsAfterStop` | pkg/workers/leader_election_mgr.go:90-117 | a run in which Stop returns during the first round and the round then starts a worker |
| `Lifecycle.StopReturnsTooEarly` | pkg/workers/leader_election_mgr.go:56-117 | from every point of a round, Stop can return before a later round starts a worker |
| `Lifecycle.StopIsFinalIff` | pkg/workers/leader_election_mgr.go:56-102 | nobody runs once Stop has returned, whatever happens from the call on, if and only if the goroutine waited at its select when Stop was called or there are no workers |
| `Lifecycle.StopPanicsInOneRound` | pkg/workers/leader_election_mgr.go:90-117 | a run in which Stop waits for one worker, a round stops it and starts another, and Stop then resumes and panics |
| `Lifecycle.StopFindsTheGroupInUse` | pkg/workers/leader_election_mgr.go:56-117 | every point of a round has a continuation in which Stop panics |
| `Lifecycle.StopIsSafeIff` | pkg/workers/leader_election_mgr.go:56-102 | Stop cannot panic, whatever happens from the call on, if and only if the goroutine waited at its select when Stop was called or there are no workers |
| `Credentials.CreateNonPrivilegedUser` | fleetshard/pkg/central/postgres/dbinit.go:75-113 | reports success even if the commit failed; a new role has both grants; a duplicate is reported only for an existing role |
| `Credentials.InitializeCentralDBUser` | fleetshard/pkg/central/postgres/dbinit.go:57-73 | on success the role is missing or has the given password; without failures it has it |
| `Credentials.CreateCentralDB` | fleetshard/pkg/central/postgres/dbinit.go:124-145 | succeeds only with an existing role whose member the master has become, and then the database exists |
| `Credentials.InitializeDatabase` | fleetshard/pkg/central/postgres/dbinit.go:24-55 | success means role with its grants and the given password, database and extensions, in spite of the dropped commit error |
| `Credentials.EnsureSecret` | fleetshard/pkg/central/reconciler/reconciler.go:618-661 | the secret is untouched or has the given password and user type, keeping its other annotations |
| `Credentials.CentralDBUserExists` | fleetshard/pkg/central/reconciler/reconciler.go:677-700 | true exactly if the secret is annotated for the Central user |
| `Credentials.EnsureManagedDBInitialized` | fleetshard/pkg/central/reconciler/reconciler.go:564-616 | whatever fails, the credentials stay in order; success stores the new Central password; a new database has the stored master password, or the generated one if none was stored; without failures it succeeds |
| `Credentials.GetCentralDBConnectionString` | fleetshard/pkg/central/reconciler/reconciler.go:533-553 | the same for the whole step, which skips the hand-over once it is complete and returns the verified connection of the Central user |
| `Deletion.EnsureCRDeleted` | fleetshard/pkg/central/reconciler/reconciler.go:739-778 | lifts the pause before asking for deletion and changes nothing else of the resource, and reports gone only when it is not found |
| `Deletion.EnsureChartDeleted` | fleetshard/pkg/central/reconciler/reconciler.go:821-857 | asks to delete every rendered object that is there, and reports true unless one was already being deleted |
| `Deletion.EnsureCentralDeleted` | fleetshard/pkg/central/reconciler/reconciler.go:412-458 | whatever fails, nothing appears or is unmarked and the database is given up first; a success report means namespace and all objects are gone; a pass without failure is exactly the pass on values |
| `Deletion.LegsMakeAPass` | fleetshard/pkg/central/reconciler/reconciler.go:412-458 | the five legs in their order together mark every target, lift the pause and terminate the namespace |
| `Deletion.RoundShrinks` | fleetshard/pkg/central/reconciler/reconciler.go:412-458 | a pass and a move of a diligent cluster leave fewer objects, unless none are left |
| `Deletion.DeletionConverges` | fleetshard/pkg/central/reconciler/reconciler.go:412-458 | from every state, after as many rounds of passes and diligent moves as there are objects, every pass reports that nothing is left, and nothing is |
| `Revision.AtoiItoa` | fleetshard/pkg/util/revision.go:36-41 | reading back a printed revision gives the number, over the whole 64-bit range |
| `Revision.AtoiReads` | fleetshard/pkg/util/revision.go:36-41 | a text is a number exactly if it is digits with or without a sign and fits 64 bits |
| `Revision.ValueByPlace` | fleetshard/pkg/util/revision.go:36-41 | digits count by their decimal place |
| `Revision.IncrementCentralRevision` | fleetshard/pkg/util/revision.go:18-43 | fails exactly without a Central or on a revision that is no number, and then changes nothing; otherwise the revision goes up by one, starting at 1, and other annotations stay |
| `Reconciling.EnsureNamespaceExists` | fleetshard/pkg/central/reconciler/reconciler.go:502-513 | creates the namespace only if it is absent |
| `Reconciling.EnsureChartExists` | fleetshard/pkg/central/reconciler/reconciler.go:780-819 | success means every rendered object is there with its rendered content; nothing else changes |
| `Reconciling.ApplyCentral` | fleetshard/pkg/central/reconciler/reconciler.go:284-324 | the Central is untouched, or has the wanted spec, its revision was a number and is one higher, and its other annotations stayed; a new one has exactly the service mark and revision 1; without failures it is applied exactly if its revision is a number |
| `Reconciling.EnsureRoutesExist` | fleetshard/pkg/central/reconciler/reconciler.go:859-911 | creates at most the two routes; success means both exist; without failures it succeeds exactly if the reencrypt route or the TLS secret is there |
| `Reconciling.SkippedOnlyAfterReady` | fleetshard/pkg/central/reconciler/reconciler.go:461-478 | over every sequence of calls the early exit is taken only for a Central an earlier call carried to Ready, with equal versions, a wanted auth provider known and no deletion timestamp |
| `Reconciling.ReadyIsSkippedNext` | fleetshard/pkg/central/reconciler/reconciler.go:461-478 | over every sequence of calls, a Central carried to Ready is answered NotChanged when asked for again, if its request is ready, its versions are equal and an auth provider is known exactly if wanted |
| `Reconciling.CentralReconciler.Finish` | fleetshard/pkg/central/reconciler/reconciler.go:338-380 | without failures Ready, Failure, NotChanged and Installing each exactly under their own condition on deployment, TLS secret, routes and request; the cache is set exactly on Ready; an auth provider is created only if wanted, unknown and the request is not ready |
| `Reconciling.CentralReconciler.Install` | fleetshard/pkg/central/reconciler/reconciler.go:246-380 | Ready means installed, from the store at the start of the call; a failure-free attempt completes the credential hand-over and has the outcome the tenant calls for |
| `Reconciling.CentralReconciler.Remove` | fleetshard/pkg/central/reconciler/reconciler.go:235-244 | Deleted exactly when the pass found everything gone; without failures every call is a full pass |
| `Reconciling.CentralReconciler.Reconcile` | fleetshard/pkg/central/reconciler/reconciler.go:102-380 | a call during another one changes nothing; credentials stay in order whatever fails; Ready means installed, with the admin password disabled exactly if an auth provider was known or found; Deleted means gone, the cache follows its rules; a call without failures makes a full deletion pass, or hands over the credentials and reports exactly what the tenant calls for, and changes nothing for a Central that cannot be converted |
| `Reconciling.AnyHistory` | fleetshard/pkg/central/reconciler/reconciler.go:102-458 | over every history of attempts failing anywhere, restarts and cluster moves, the credentials are in order and the database is given up first |
| `Reconciling.AttemptAfterAnyHistory` | fleetshard/pkg/central/reconciler/reconciler.go:102-458 | after any such history, one attempt without failures makes the progress that the state reached allows |
| `Reconciling.DeleteForGood` | fleetshard/pkg/central/reconciler/reconciler.go:102-458 | alternating failure-free calls and diligent moves of the cluster end in Deleted within as many rounds as there are objects, if and only if the Central can be converted |
| `Reconciling.ReconcileTwice` | fleetshard/pkg/central/reconciler/reconciler.go:102-380 | of two calls for a ready request with equal versions, the first of which reports Ready, the second reports NotChanged and touches nothing, even if the client fails, if and only if an auth provider is known exactly if wanted |
| `Interleaving.AnyInterleaving` | fleetshard/pkg/central/reconciler/reconciler.go:102-458 | over every interleaving of client calls failing anywhere, abandoned attempts and cluster moves, at every point: the credentials are in order, the database is given up first, an attempt past its database step has handed over the credentials, and a reported deletion has left nothing |
| `Interleaving.MovesLeaveCredentials` | fleetshard/pkg/central/reconciler/reconciler.go:564-616 | whatever the cluster does between two calls, secret and database stay as they were while the database has not been given up |
| `Interleaving.AttemptShrinks` | fleetshard/pkg/central/reconciler/reconciler.go:412-458 | at every point of a deletion with moves between its calls, what was found is there or the tenant has become smaller, and the pause is lifted once the Central has had its turn |
| `Interleaving.InterleavedDeletionConverges` | fleetshard/pkg/central/reconciler/reconciler.go:412-458 | with moves between any two calls and a diligent move after each attempt, every attempt after as many rounds as there are objects reports that nothing is left, and nothing is |
| `Interleaving.AttemptsAreShort` | fleetshard/pkg/central/reconciler/reconciler.go:412-458 | however the cluster moves, an attempt makes at most two calls for each chart object and twelve more |
| `Interleaving.QuietAttemptIsAPass` | fleetshard/pkg/central/reconciler/reconciler.go:412-458 | without moves and failures the calls of an attempt make exactly the pass on values, with its report |
| `Interleaving.DeletionErrsIff` | fleetshard/pkg/central/reconciler/reconciler.go:412-458 | without failing calls an attempt ends in an error if and only if what its last call was to change was gone |
| `Interleaving.DeletionErrsOnItsOwn` | fleetshard/pkg/central/reconciler/reconciler.go:739-759 | a run in which the Central is gone between its discovery and the request to delete it |
| `Interleaving.HandOverSucceeds` | fleetshard/pkg/central/reconciler/reconciler.go:533-616 | from every state in order, without failing calls and however the cluster moves between them, the database step does not fail and hands over the credentials within nineteen calls |
| `Versions.JoinInjective` | pkg/api/semverutil.go:24-52 | joining build identifiers with dots loses nothing, for identifiers that parsing can produce |
| `Versions.ComparisonIsAntisymmetric` | pkg/api/semverutil.go:24-52 | swapping the arguments negates the result, and zero means identical versions |
| `Versions.ComparisonIsTransitive` | pkg/api/semverutil.go:24-52 | the comparison is transitive |
| `Versions.ComparisonIsItem11` | pkg/api/semverutil.go:24-52 | the comparison is exactly the order of item 11 of Semantic Versioning 2.0.0, clause by clause, and for equal precedence the order of the joined build metadata by its first differing character |
| `Versions.JoinAppend` | pkg/api/semverutil.go:37-38 | joining lists of identifiers puts a dot between them |
| `Versions.MinorComparisonAgrees` | pkg/api/semverutil.go:55-77 | a non-zero comparison of major and minor agrees with the build-aware one |
| `DeepSort.SortSlice` | pkg/api/cluster_types.go:333-339 | the slice is rearranged in place by a permutation, sorted unless a comparison failed, and one fails exactly if there are two elements and a malformed one |
| `DeepSort.SortedIsOldestFirst` | pkg/api/cluster_types.go:333-339 | nothing later in a sorted list is older, in the order of item 11 |
| `DeepSort.DeepCopy` | pkg/api/cluster_types.go:262-273 | the same content in new storage, nil staying nil |
| `DeepSort.CentralOperatorVersionsDeepSort` | pkg/api/cluster_types.go:316-365 | a permutation sorted at both levels in new storage, changing nothing of the caller's; it fails exactly on the rejected inputs; nil stays nil |
| `DeepSort.ClusterRow.SetAvailableCentralOperatorVersions` | pkg/api/cluster_types.go:373-387 | stores the deeply sorted versions, an empty list for nil, and nothing on an error |
| `DeepSort.ClusterRow.GetAvailableCentralOperatorVersions` | pkg/api/cluster_types.go:298-310 | the stored list, empty if none was stored, an error on a column that is no list |
| `DeepSort.ClusterRow.GetAvailableAndReadyCentralOperatorVersions` | pkg/api/cluster_types.go:278-291 | the stored versions that are ready, in order |
| `DeepSort.ReadyOfIsTheReady` | pkg/api/cluster_types.go:278-291 | the filter keeps exactly the ready versions |
| `DeepSort.LastReadyIsMaximal` | pkg/api/cluster_types.go:278-387 | after Set, the last available and ready version is a ready one given, and no other ready one given is newer |
| `Transactions.TxFactory.constructor` | pkg/db/connection.go:137-146 | a new factory holds one open transaction and no actions |
| `Transactions.TxFactory.Begin` | pkg/db/connection.go:148-171 | replaces the transaction and its flags, keeps the pending actions, and changes neither when opening or reading the id fails |
| `Transactions.TxFactory.AddPostCommitAction` | pkg/db/context.go:84-92 | the action is pending after all earlier ones |
| `Transactions.TxFactory.MarkForRollback` | pkg/db/context.go:104-113 | only the flag changes |
| `Transactions.TxFactory.Resolve` | pkg/db/context.go:40-67 | a resolved transaction is left alone; otherwise it is rolled back or committed, and only a commit runs the actions, which may register further ones, mark for rollback or begin a transaction |
| `Transactions.AnyCalls` | pkg/db/context.go:40-113 | after any calls, whatever the actions do, no transaction was resolved twice and actions ran in registration order, each after it was registered and none twice |
| `Transactions.BeginningActionsBreakTheOrder` | pkg/db/context.go:62-81 | a run in which an action begins a transaction and the next action runs while it is open |
| `Transactions.ProperExactlyWhen` | pkg/db/context.go:40-113 | for every sequence of calls, each action ran when the latest news of a transaction was its commit if and only if no committing call had a pending action, other than its last one, that begins a transaction |
| `Transactions.TheLastActionMayBegin` | pkg/db/context.go:62-81 | a run in which the last action begins a transaction and nothing is out of order |
| `Transactions.ResolveRunsThePending` | pkg/db/context.go:40-67 | resolving runs all pending actions exactly when it commits an open transaction, and none otherwise |
| `Transactions.RunsWithItsTransactionIff` | pkg/db/connection.go:148-171 | after any calls with that property, an action ran with the transaction it was registered under if and only if no other began in between |
| `Transactions.ActionsOutliveTheirTransaction` | pkg/db/context.go:70-92 | a run in which an action of an unresolved transaction runs with the next one |
| `Rollbacks.ResolveFollowsTheMarks` | pkg/db/context.go:40-113 | after any calls, Resolve rolls back the current transaction if and only if MarkForRollback was called, or an action marked it, since it was opened, and commits it otherwise; a resolved one is left alone, and only a commit runs actions |
| `Rollbacks.RunsIffCommittedNext` | pkg/db/context.go:40-92 | after any calls, an action has run if and only if the first transaction resolved after its registration was committed |
| `Migrations.Migration.Migrate` | pkg/db/migrations.go:274-282 | applies exactly the actions before the first failing one, or all |
| `Migrations.Migration.Rollback` | pkg/db/migrations.go:283-291 | takes back from the last action to the first, stopping at a failure |
| `Migrations.TakenBackRetraces` | pkg/db/migrations.go:271-293 | taking back applied reversible actions leads through the same databases in reverse |
| `Migrations.Migration.RoundTrip` | pkg/db/migrations.go:271-293 | a migration of reversible actions goes through exactly if every action applies in its turn, and rolling it back then never fails and restores the database |
| `Migrations.Migrator.RollbackAll` | pkg/db/migrations.go:68-85 | rolls back until no migration is left or a query fails; from a database that reversible migrations led to no rollback fails, and it ends at the start if and only if no query fails before |

## Left out

- `Reconciling.CentralReconciler.Install`: the credential hand-over is claimed only while the database has not been given up.
- `DeepSort.SortSlice`: sort.Slice is modelled as insertion sort, so the order of equal versions is that of insertion sort.
- `Migrations.Migrator.RollbackAll`: the migration table is a count of the migrations done, so rows of unknown migrations or with an empty id are not modelled.
- `Transactions.TxFactory.Resolve`: an action that resolves a transaction it began itself is not modelled; resolving the one it runs for has no effect.
- `Lifecycle.StopIsSafeIff`: for one caller of Stop at a time and one Start; two callers that race between the test and the close of the channel are not modelled.
- `Workers.Worker.Stop`: its loops end within Stop, since the class has one thread; in `Lifecycle` they end at their own time.
- `Interleaving.AnyInterleaving`: chart objects, Central and routes are created or updated in any order and with any content of their kind; their contents are the subject of `Reconciler`, where the cluster moves between attempts.
- Text outside ASCII in the filter, where the source mixes runes and bytes.
- The operator-version pattern and the tolerant version parser: they are an abstract outcome, parsed or malformed.
- State machine states are addressed by name instead of by reference.
- Several lease types: their rows are independent, and one is modelled. Clocks are one shared clock, and a worker starts in the step in which its check succeeds.
- `forceLeader`, tickers and metrics of the leader election.
- Kubernetes, Helm, JSON, GORM and SQL themselves: stores are maps, a rendered object is its text, encoding is the identity, and the hash of the change cache is the value itself.
- Groups of the auth provider, route status contents, labels and namespaces other than the tenant's.
- HTTP handlers, middlewares, the OCM, IAM and AWS clients, quota and configuration, the probe and the tests.
