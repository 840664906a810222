# Verified models of the college platform's scripts, chat and boundaries

This project models the parts of the repository whose correctness rests on hand-written scanning,
replaying and life cycles, and proves what their callers rely on. `dafny verify dfyconfig.toml` checks
the whole project.

## What is modelled

**SQL text as statements.** `Scanner` is the statement scanner of the security review: nested block
comments, doubled quotes, dollar quoting and line tracking after section 4.1 "Lexical Structure" of the
PostgreSQL documentation, as far as the script implements it. Its statement list is the meaning of SQL
text for everything else. `ScannerLaws` and `Masking` prove what the scanner keeps: scanning distributes
over concatenation, comments are inert, and lines and places are exact; `ScannerPieces` says what
becomes of each comment, name, value and body. `Fragments` is the way back: text printed from literals,
words and sealed dollar bodies scans to exactly one statement. On this basis `Builder`, `Release`,
`ReleaseMeaning`, `ReleaseWording` and `LateFailure` prove that scripts that only cut and join text keep
its meaning: the migration builder, the release artifacts with guard, ledger insert and summary, and the
negative variant that fails just before COMMIT. `BuilderMeaning`, `ReleaseControls` and `ReleaseLedger`
say what the builder accepts and what the artifacts hold around the sources. `Transactions` says where
the artifacts open and close transactions, for every form of transaction control in PostgreSQL, among
the statements the scanner cuts. `ServerScan` cuts statements as the PostgreSQL server does, with escape
strings and dollar signs in names, and says exactly where the scanner differs. `ServerLaws` and
`ServerRelease` carry the results on transactions over to the server, and `ServerExamples` has sources
for which they fail.

**Two replays of the grant history.** `AclReplay` holds both scripts, one that logs everything and
queries the log at the end and one that keeps a list per live function. `AclAgreement` proves that they
agree on every history in which statements respect the live functions and come in order, role lists have
no suffix, a function is renamed at most once and a name involved in a rename has one lifetime. Two
statements may share a line unless a function is created anew, or granted on under a new name, on the
line of an earlier grant on it. `AclExamples` has, for each of these conditions but the order, which
reading the files one after the other gives, a history that breaks it and on which the two differ.
`AclExact` says exactly when they agree where nothing is renamed, and `AclLives` what both report, by
the statements alone.

**One disposable container.** `Transport` is the bounded Docker transport; Docker's answers and the
passing of time are arbitrary, and every command and every sleep may be interrupted. `Sessions.Session`
is the session object. Each of its methods is proved to be one legal call of the state machine in
`Lifecycle`, where a call follows a plan of commands and stops at the first answer it cannot accept, or
where it is interrupted. `LifecycleLaws` proves what holds of every run of calls, `LifecycleMeaning`
what each call sent that returned, `LifecycleRuns` shows two runs of interest, and `Workflow` and
`WorkflowMeaning` prove what the whole plan sends, call by call.

**The shared chat.** `Chat` is the hook with its recovery part as a machine, in a system where replies
and checks come back in any order. `ChatLaws` is the invariant of every reachable state, `ChatRuns` and
`ChatAnswers` hold the promises over whole runs, `ChatSteps` those of each step, and `ChatMeaning` says
what each step does to what is shown and sent. `ChatHook` is the hook itself; it owns what is under way,
every handler keeps the invariant and promises what its step promises. Every value carries the account
it was obtained for; this is bookkeeping of the model, like the numbers that stand for the random
identifiers of turns, of which a new one differs from all that are known. User actions see the state as
it is, and effects run before the next change of identity.

**Token streams, bodies, permissions, metrics, options.** `Lexer` and `Brackets` are the review's
tokenizer and its two ways of matching brackets; `LexerTokens` says what a token is, `BracketGrammar`
what is balanced. `BodyLimit` is the pair of body limits in front of the application, and
`BodyLimitMeaning` says which way every request and body takes. `Permissions` goes from the database row
to the tenant and permissions of a request, and `PermissionMeaning` says by the row alone what they are.
`Metrics` are the retrieval metrics and their means, over real numbers, `MetricMeaning` says what these
are by the cases alone, and `Evaluation` the report on a whole dataset. `QuotedNames` compares the
tokenizer with one that knows names. `Tmpfs` is the option parser of the disposable container.

## Where the code does not do what is said of it

- The builder refuses sources with outer transactions, but only looks for certain lines; see
  `SearchMisses` for artifacts with two transaction openings or ends, and `OneTransactionIff` for the
  exact condition.
- The scanner does not know that a backslash takes the next character along in an escape string, and
  takes dollar signs in names for tags: the server finds a COMMIT in the accepted source lines
  `SELECT E'\''; COMMIT; --';` and `SELECT 1 AS a$$; COMMIT; SELECT 2 AS b$$;`, see `ServerFindsCommit`.
  `SameCutIff` has the exact condition, `OneTransactionForServer` what holds under it.
- The type of resource contexts promises that unavailable ones carry no title, but the hook does not
  rely on it being kept; see `TitleKept` for the exact condition and `TitleShown` for a run. The
  repository's own server keeps the promise (backend/app/services/ai/chat_support/resource_scope.py:25).
- Identifiers of a former account can be sent before the reset has run; see `SentTooEarly` for a run,
  `SentOwnIff` and `SentBeforeReset` for the exact conditions.
- The tokenizer counts a double-quoted name that is a bracket as a bracket; see `QuotedNameCounts`.
  `NamesDoNotMatter` shows that other names do no harm, `OddNamesMislead` what brackets among them do.
- Recall can exceed 1 when results repeat; `RecallBoundedIff` has the exact condition.
- A supported case without a gold entry passes the validation of the dataset but makes the report raise;
  `EvaluateDataset` has the exact condition, `NoGoldNoReport` an example.
- SQL is blocked while readiness is unfinished, but not before readiness was ever asked for; see
  `SqlUnasked` for a run and `ReadinessIff` for the exact condition.
- A run of the plan that is interrupted, rather than failing, leaves its container without a cleanup;
  see `ExecutePlan`, and `InterruptedRun` for a run.

## Model

| member | source | states |
|---|---|---|
| `Scanner.Statements` | docs/reviews/student_enrollment_final_2026-10-11/verify_security_containment_static.py:21-72 | The scanning loop, with its buffer, offsets and nested loops, computes the statement list of the specification, and fails exactly when that has none |
| `Scanner.SkipBlock` | docs/reviews/student_enrollment_final_2026-10-11/verify_security_containment_static.py:30-39 | The comment loop stops where the nesting depth first returns to zero, and fails when it never does |
| `Scanner.SkipQuote` | docs/reviews/student_enrollment_final_2026-10-11/verify_security_containment_static.py:41-54 | The quote loop stops behind the first quote that is not doubled, and fails when there is none |
| `Scanner.Next` | docs/reviews/student_enrollment_final_2026-10-11/verify_security_containment_static.py:24-71 | The branch taken at an index, and how far it goes, depend only on the text from there |
| `ScannerLaws.Homomorphism` | docs/reviews/student_enrollment_final_2026-10-11/verify_security_containment_static.py:21-72 | If `a` scans completely and ends in a newline, `a + b` scans exactly when `b` does, to the statements of `a` followed by those of `b` moved down by the newlines of `a` |
| `ScannerLaws.Splice` | docs/reviews/student_enrollment_final_2026-10-11/verify_security_containment_static.py:21-72 | Exchanging blank text at the end of a scanned prefix for a newline-led rest continues the scan exactly there |
| `ScannerLaws.LinesShift` | docs/reviews/student_enrollment_final_2026-10-11/verify_security_containment_static.py:64-67 | Starting further down shifts every reported line by the same amount and changes nothing else |
| `ScannerLaws.TrimmedSource` | scripts/maintenance/migrations/build_academic_decommission.py:35 | A source keeps its statements and lines when its trailing whitespace is cut and one newline put back |
| `Masking.MaskKeepsLines` | docs/reviews/student_enrollment_final_2026-10-11/verify_security_containment_static.py:25-40 | Blanking comments keeps the length and every newline in place |
| `Masking.CommentsAreInert` | docs/reviews/student_enrollment_final_2026-10-11/verify_security_containment_static.py:22-40 | Scanning the comment-blanked text gives the same statements on the same lines, for any nesting of comments, quotes and dollar bodies |
| `Masking.Located` | docs/reviews/student_enrollment_final_2026-10-11/verify_security_containment_static.py:62-70 | Every statement is an exact slice of the blanked text, in order, without overlap, closed by a semicolon and reported on the line of its first significant character; only whitespace and semicolons lie between |
| `ScannerPieces.CommentGone` | docs/reviews/student_enrollment_final_2026-10-11/verify_security_containment_static.py:30-40 | A block comment, with any comments nested in it, leaves blanks of its own length and lines in the statement around it, and no token |
| `ScannerPieces.LineGone` | docs/reviews/student_enrollment_final_2026-10-11/verify_security_containment_static.py:25-29 | A line comment goes to the end of its line and no further |
| `ScannerPieces.NamePasses` | docs/reviews/student_enrollment_final_2026-10-11/verify_security_containment_static.py:41-55 | A name in double quotes passes into the statement as it stands, whatever it holds |
| `ScannerPieces.ValuePasses` | docs/reviews/student_enrollment_final_2026-10-11/verify_security_containment_static.py:41-55 | So does every printed literal |
| `ScannerPieces.BodyPasses` | docs/reviews/student_enrollment_final_2026-10-11/verify_security_containment_static.py:56-61 | So does a dollar body, up to the first return of its tag |
| `ScannerPieces.TagIff` | docs/reviews/student_enrollment_final_2026-10-11/verify_security_containment_static.py:56 | Two dollar signs make a tag if and only if nothing or a name of word characters stands between them |
| `Fragments.UndoubleDouble` | scripts/maintenance/academic_decommission/release_sql.py:8-9 | Undoubling the quotes of a printed literal gives the value back |
| `Fragments.LiteralScans` | scripts/maintenance/academic_decommission/release_sql.py:8-9 | For every value and every following text that does not start with a quote, scanning the printed literal consumes exactly it |
| `Fragments.ScannedIsLiteral` | docs/reviews/student_enrollment_final_2026-10-11/verify_security_containment_static.py:41-55 | Conversely, every single-quoted value the scanner consumes is the printed literal of exactly one value |
| `Fragments.OneStatement` | docs/reviews/student_enrollment_final_2026-10-11/verify_security_containment_static.py:62-70 | Well-formed pieces of SQL followed by a semicolon scan as one statement, whatever text their literals and sealed bodies hold |
| `Builder.Render` | scripts/maintenance/migrations/build_academic_decommission.py:20-37 | The loop over the sources returns the concatenated migration exactly when the sources are present, distinct, at most 250 lines long and free of transaction lines |
| `BuilderLaws.MigrationShape` | scripts/maintenance/academic_decommission/prepare_release.py:105-108 | Every migration the builder returns passes the release test: one outer BEGIN line, at the place it was put, and a final COMMIT line |
| `BuilderLaws.BlockStatements` | scripts/maintenance/migrations/build_academic_decommission.py:35 | A source keeps its statements inside its block, two lines further down |
| `BuilderLaws.BlocksStatements` | scripts/maintenance/migrations/build_academic_decommission.py:25-37 | The blocks scan to the sources' statements, in order and each on its line, before whatever follows |
| `BuilderMeaning.UnixLines` | scripts/maintenance/migrations/build_academic_decommission.py:30 | Of every carriage return before a newline exactly that character is dropped, and nothing else |
| `BuilderMeaning.LineCounts` | scripts/maintenance/migrations/build_academic_decommission.py:31 | Lines are counted by their ends, a carriage return with its newline as one, and an unfinished last line counts |
| `BuilderMeaning.AcceptsIff` | scripts/maintenance/migrations/build_academic_decommission.py:30-34 | A source is accepted if and only if it has at most 250 lines and none of them says only BEGIN, COMMIT or ROLLBACK, up to whitespace behind the semicolon |
| `BuilderMeaning.SourcesWritten` | scripts/maintenance/migrations/build_academic_decommission.py:24-37 | The migration is cut into the opening, one entry per source in order, with its path, its digest and its text up to trailing whitespace, and the final COMMIT, with nothing between them |
| `ReleaseWording.GuardAsWritten` | scripts/maintenance/academic_decommission/release_sql.py:12-70 | With the wording the script has, the dollar body of the guard closes where it is meant to, and every piece of the guard is well-formed, if and only if the serialised inspection does not contain the tag |
| `ReleaseLaws.InsertProper` | scripts/maintenance/academic_decommission/release_sql.py:73-86 | The ledger insert is one well-formed statement for any migration text, version, name and column list; what it fills is in ReleaseLedger.LedgerRow |
| `ReleaseLedger.LedgerRow` | scripts/maintenance/academic_decommission/release_sql.py:73-86 | The insert fills exactly those of the columns version, name and statements that the ledger has, in its order; read back, the quoted values are the version, the name and the migration text, each in its column |
| `ReleaseControls.ControlsOf` | scripts/maintenance/academic_decommission/release_sql.py:12-107 | In both artifacts the first six statements open the transaction, set the timeouts, take the two locks and hold the inspection as a quoted value; the last three are the ledger insert, a select with version, digest and ending as quoted values in their places, and the ending |
| `ReleaseWording.SummaryAsWritten` | scripts/maintenance/academic_decommission/release_sql.py:89-107 | With the projection the script has, the summary is one select and one transaction end, for any version and hash |
| `ReleaseMeaning.StrippedBody` | scripts/maintenance/academic_decommission/prepare_release.py:109 | Removing the outer transaction from a built migration leaves exactly the comment lines and the blocks |
| `ReleaseMeaning.ReleasePreservesMeaning` | scripts/maintenance/academic_decommission/prepare_release.py:100-122 | For any sources that scan completely and that the builder accepts, and any fixed wording without dollar signs in the guard and with sound pieces in the summary, both artifacts are produced and scan to exactly the guard, the sources' statements in order, one ledger insert, the summary and the chosen ending |
| `ReleaseWording.ReleaseAsWritten` | scripts/maintenance/academic_decommission/prepare_release.py:100-122 | The same with the wording the script has, where the only condition left is that the inspection does not contain the guard's tag |
| `ReleaseWording.RealFixed` | scripts/maintenance/academic_decommission/release_sql.py:20-105 | The real text of the guard's body and of the summary's projection, spelled out, meets that condition |
| `Transactions.TransactionBoundaries` | scripts/maintenance/academic_decommission/prepare_release.py:114-122 | Among the statements the scanner cuts, an artifact opens a transaction exactly once, and closes one exactly once, each plus what the statements of the sources open and close; BEGIN, START TRANSACTION, COMMIT, END, ROLLBACK, ABORT, PREPARE TRANSACTION and AND CHAIN count in any case |
| `Transactions.OneTransactionIff` | scripts/maintenance/academic_decommission/prepare_release.py:105-108 | Among the statements the scanner cuts, an artifact opens exactly one transaction if and only if no statement of any source opens one, and closes exactly one if and only if none closes one |
| `ServerScan.SameCutIff` | docs/reviews/student_enrollment_final_2026-10-11/verify_security_containment_static.py:21-72 | The scanner cuts a text at its head as the server does if and only if no line comment holds a carriage return, no escape string closes elsewhere for the server, and no dollar tag stands in a name or has other letters |
| `ServerScan.SameStatements` | docs/reviews/student_enrollment_final_2026-10-11/verify_security_containment_static.py:21-72 | Where this holds at every cut, the server finds the statements the scanner finds, with the same text and lines |
| `ServerScan.PlainUnderstood` | docs/reviews/student_enrollment_final_2026-10-11/verify_security_containment_static.py:21-72 | It holds of every text without backslashes, dollar signs and carriage returns |
| `ServerRelease.ServerReadsRelease` | scripts/maintenance/academic_decommission/prepare_release.py:100-122 | If it holds of every source, the server finds in both artifacts exactly the guard, the sources' statements in order, one ledger insert, the summary and the chosen ending |
| `ServerRelease.OneTransactionForServer` | scripts/maintenance/academic_decommission/prepare_release.py:105-108 | Then, for the server too, each artifact opens exactly one transaction if and only if no statement it finds in a source opens one, and closes exactly one if and only if none closes one |
| `ServerExamples.ServerFindsCommit` | scripts/maintenance/migrations/build_academic_decommission.py:33-34 | Two accepted one-line sources in whose artifacts the scanner counts one opening and one end, although the server finds a COMMIT in the source: one behind a backslash in an escape string, one between dollar signs that belong to names |
| `Transactions.FirstAndLast` | scripts/maintenance/academic_decommission/prepare_release.py:114-122 | The artifact's own BEGIN is its first statement and the chosen ending its last |
| `Transactions.SearchMisses` | scripts/maintenance/migrations/build_academic_decommission.py:33-34 | The line search does not guarantee this: the one-line sources `A; BEGIN;`, `begin;` and `END;` are accepted, and the artifacts made of them open or close two transactions |
| `ReleaseMeaning.RehearsalDiffersOnlyInEnding` | scripts/maintenance/academic_decommission/README.md:21-23 | The two artifacts agree statement by statement and line by line, except for the reported ending and the final transaction end |
| `LateFailure.LateFailureMeaning` | scripts/validation/academic_setup/workflow.py:30-38 | On a complete script whose final COMMIT starts a line, the variant scans to the original statements without COMMIT, the control statements, one failing DO, and COMMIT, for LF and CRLF |
| `LateFailure.CompleteBeforeCommit` | scripts/validation/academic_setup/workflow.py:34-36 | A script that ends in a COMMIT line is complete before it if and only if its last statement is that COMMIT |
| `WorkflowMeaning.LateStatements` | scripts/validation/academic_setup/workflow.py:66-70 | The late variant the plan sends runs the decommission up to its COMMIT, then the controls, then raises the very SQLSTATE the plan expects of it |
| `AclReplay.LogReplay` | docs/reviews/student_enrollment_final_2026-10-11/verify_security_containment_static.py:97-160 | The logging loop and its queries compute, for every final function, the last operation per role over the logged events from its creation on and the events it inherited; which functions these are and what it reports of them, by the statements alone, is in AclLives |
| `AclReplay.QueryLog` | docs/reviews/student_enrollment_final_2026-10-11/verify_security_containment_static.py:145-157 | The inventory holds one entry per created function |
| `AclReplay.TableReplay` | docs/reviews/student_enrollment_final_2026-10-11/build_security_containment_source_evidence.py:40-116 | The incremental loop over create, replace, grant, rename and drop computes, for every live function, the last operation per role over its own list; AclLives says by the statements alone which these are |
| `AclReplay.Summarise` | docs/reviews/student_enrollment_final_2026-10-11/build_security_containment_source_evidence.py:112-116 | One pass over the events leaves the last operation that names each role |
| `AclReplay.PopAll` | docs/reviews/student_enrollment_final_2026-10-11/build_security_containment_source_evidence.py:94-98 | Dropping removes exactly the named functions: a name stays if and only if it was there and is not dropped, with what was kept for it |
| `AclLives.FinalFunctions` | docs/reviews/student_enrollment_final_2026-10-11/verify_security_containment_static.py:119-144 | By the statements alone: a function is there in the end, in both replays, if and only if some statement brought it to life, a CREATE or a rename of a function that was there, and no later one drops it or renames it away |
| `AclLives.FinalReport` | docs/reviews/student_enrollment_final_2026-10-11/build_security_containment_source_evidence.py:40-116 | For each of the four roles the incremental replay reports the last word of the statements, found by searching the history backwards, through renames and not past the creation |
| `AclLives.FinalLogReport` | docs/reviews/student_enrollment_final_2026-10-11/verify_security_containment_static.py:145-160 | On regular histories the queried log reports that last word too |
| `AclAgreement.SameFunctions` | docs/reviews/student_enrollment_final_2026-10-11/verify_security_containment_static.py:115-144 | Both replays end with the same functions, for every history |
| `AclAgreement.HistoriesAgree` | docs/reviews/student_enrollment_final_2026-10-11/build_security_containment_source_evidence.py:70-98 | On regular histories the events the log assigns to each final function are exactly its list in the other replay, in the same order |
| `AclAgreement.ReplaysAgree` | docs/reviews/student_enrollment_final_2026-10-11/build_security_containment_source_evidence.py:112-116 | On regular histories the two scripts report the same last operation per role for every final function; dropping and recreating functions is allowed |
| `AclExact.HistoryIs` | docs/reviews/student_enrollment_final_2026-10-11/verify_security_containment_static.py:145-154 | Without renames and role suffixes the queried log gives a final function the marks from before its last creation that are not before the place of its first, then the list of the other replay |
| `AclExact.HistoriesAgreeIff` | docs/reviews/student_enrollment_final_2026-10-11/build_security_containment_source_evidence.py:70-98 | Without renames and role suffixes both replays hold the same marks for all final functions if and only if none has such early marks |
| `AclExact.ReplaysAgreeIff` | docs/reviews/student_enrollment_final_2026-10-11/build_security_containment_source_evidence.py:112-116 | Without renames and role suffixes the two scripts report alike if and only if every reported role an early mark names is named again later |
| `AclExamples.SameLineDiffers` | docs/reviews/student_enrollment_final_2026-10-11/verify_security_containment_static.py:148 | A grant, a drop and a new CREATE on one line: the log still counts the grant of the dropped function |
| `AclExamples.SameLineRenameDiffers` | docs/reviews/student_enrollment_final_2026-10-11/verify_security_containment_static.py:149-154 | A grant, a rename and a revoke on one line: the log takes the inherited grant for the later one |
| `AclExamples.TwiceRenamedDiffers` | docs/reviews/student_enrollment_final_2026-10-11/verify_security_containment_static.py:136-140 | A function renamed twice: the log loses the grant made under its first name |
| `AclExamples.SuffixDiffers` | docs/reviews/student_enrollment_final_2026-10-11/verify_security_containment_static.py:130 | A history with a role list ending in CASCADE: the two reports differ, because the log does not recognise the last role |
| `AclExamples.RecreatedDiffers` | docs/reviews/student_enrollment_final_2026-10-11/verify_security_containment_static.py:119-125 | CREATE over a live function without OR REPLACE: the log keeps the grant on it, the other replay starts anew |
| `AclExamples.MissingSourceDiffers` | docs/reviews/student_enrollment_final_2026-10-11/verify_security_containment_static.py:131-140 | A rename of a function that does not exist: grants under its name reach a function created later under the new one |
| `AclExamples.TakenTargetDiffers` | docs/reviews/student_enrollment_final_2026-10-11/verify_security_containment_static.py:131-148 | A rename onto a live function: the log counts the grant on the function that was there before |
| `AclExamples.EarlyGrantDiffers` | docs/reviews/student_enrollment_final_2026-10-11/verify_security_containment_static.py:145-148 | A grant under a name that a live function is renamed to later: only the log counts it |
| `AclExamples.SecondLifeDiffers` | docs/reviews/student_enrollment_final_2026-10-11/verify_security_containment_static.py:136-140 | A name that lives twice and is renamed both times: the second function is given the grants of the first |
| `Transport.Docker.Call` | scripts/validation/academic_setup/transport.py:47-73 | A command is sent at most once, under a positive limit within its cap and the time left; it succeeds only on an integer status (zero unless failure is allowed) before the deadline, and fails only on a bad completion or lateness; it may also be interrupted, before or after the command was sent |
| `Transport.Docker.Expect` | scripts/validation/academic_setup/transport.py:75-87 | A command and the judgement of its answer extend a completed plan by one step, or end the call there |
| `Transport.Docker.Preflight` | scripts/validation/academic_setup/transport.py:89-119 | Versions, engine and image are asked for in this order, each only after the one before was accepted; success leaves the labels of the accepted image |
| `Transport.InOrder` | scripts/validation/academic_setup/transport.py:47-119 | Whatever the outcome of a call, its commands are its plan's, in order, each sent only after all before it were accepted |
| `Sessions.Session.constructor` | scripts/validation/academic_setup/session.py:15-23 | A new session has an empty history and no container |
| `Sessions.Session.Inspect` | scripts/validation/academic_setup/session.py:52-61 | An inspection sends nothing unless a container is held and the session open; otherwise it follows preflight and one inspect, and returns the accepted status |
| `Sessions.Session.Create` | scripts/validation/academic_setup/session.py:25-50 | One legal create step: new state, history and everything sent are exactly as the life cycle allows, and the returned ID is the acknowledged one |
| `Sessions.Session.Start` | scripts/validation/academic_setup/session.py:63-71 | One legal start step: a freshly created container is inspected, started and inspected running; any failure marks the session |
| `Sessions.Session.TryReady` | scripts/validation/academic_setup/session.py:81-110 | The loop follows a readiness plan of some number of unanswered rounds, stays within the deadline, polls less than timeout/0.1 + 1 times, and ends |
| `Sessions.Session.Ready` | scripts/validation/academic_setup/session.py:81-110 | One legal readiness step: improper timeouts and failed sessions are refused without effect; a call that began and did not return, whether it failed or was interrupted, leaves readiness pending |
| `Sessions.Session.Sql` | scripts/validation/academic_setup/session.py:125-171 | One legal SQL step: refused when failed, pending or given an improper SQLSTATE; otherwise inspection, identity and one psql within 120 seconds, judged by status, SQLSTATE and message; the output returned is what psql wrote |
| `Sessions.Session.Gone` | scripts/validation/academic_setup/session.py:186-188 | Removal is verified by a fresh preflight and an empty listing for the ID |
| `Sessions.Session.Cleanup` | scripts/validation/academic_setup/session.py:173-189 | One legal cleanup step: new state, history and everything sent are exactly as the life cycle allows, which CleanupReturns states command by command; it closes only when removal is verified or nothing was submitted |
| `LifecycleLaws.OneCreate` | scripts/validation/academic_setup/session.py:25-50 | Every run, interrupted calls included, sends at most one create |
| `LifecycleLaws.ActionVetted` | scripts/validation/academic_setup/session.py:52-71 | Every start, poll, identity check, SQL, stop and removal names the held container and follows an accepted inspection in the same call that showed a fitting status |
| `LifecycleLaws.ActionOnAcknowledged` | scripts/validation/academic_setup/session.py:25-189 | In every run, that container is the one an earlier create call was answered with |
| `LifecycleLaws.FailedIsSilent` | scripts/validation/academic_setup/session.py:63-65 | After a failed call, no later start, readiness or SQL call of the run sends anything or succeeds |
| `LifecycleLaws.Latch` | scripts/validation/academic_setup/session.py:86-110 | In every run the latch is set exactly when the last readiness call that began did not return |
| `LifecycleLaws.SqlNeedsReadiness` | scripts/validation/academic_setup/session.py:125-127 | SQL is sent only if the last readiness call that began before it returned: failed, interrupted or otherwise unfinished ones block it |
| `LifecycleLaws.ReadinessIff` | scripts/validation/academic_setup/session.py:125-127 | Where SQL is sent, some earlier readiness call returned if and only if some earlier one began |
| `LifecycleRuns.LatchWithoutFailure` | scripts/validation/academic_setup/session.py:86-110 | A lawful run in which an interrupted readiness call leaves the latch set although the session has not failed |
| `LifecycleRuns.SqlUnasked` | scripts/validation/academic_setup/session.py:125-129 | A lawful run in which SQL is sent although readiness was never asked for |
| `LifecycleLaws.ClosedIsSilent` | scripts/validation/academic_setup/session.py:52-54 | A closed session never sends anything again |
| `LifecycleLaws.ClosedMeansGone` | scripts/validation/academic_setup/session.py:173-189 | A closed session either never sent a create, or a cleanup call found the acknowledged container gone and nothing was sent since |
| `LifecycleLaws.Punctual` | scripts/validation/academic_setup/session.py:81-110 | In readiness and SQL calls every command has a positive limit within the time left, no success comes at or after the deadline, and readiness polls at most ceil(timeout/0.1) times |
| `LifecycleLaws.SqlSucceeds` | scripts/validation/academic_setup/session.py:137-168 | A successful SQL call sent its text last, after an accepted identity, and psql answered as wanted |
| `LifecycleLaws.SqlSentOnce` | scripts/validation/academic_setup/session.py:137-150 | However it ends, a call sends its own SQL at most once, as its last command, and other calls send none |
| `LifecycleMeaning.CreateReturns` | scripts/validation/academic_setup/session.py:25-47 | A create that returns sent the create behind an accepted preflight, was answered with an ID, and saw a freshly created container of that ID, which is held from then on |
| `LifecycleMeaning.StartReturns` | scripts/validation/academic_setup/session.py:63-68 | A start that returns saw the held container freshly created, sent its start, and then saw it running |
| `LifecycleMeaning.ReadyReturns` | scripts/validation/academic_setup/session.py:81-110 | A readiness call that returns went through some rounds in which the server did not answer; then the container was running, the server answered with 0 and its identity was accepted |
| `LifecycleMeaning.SqlReturns` | scripts/validation/academic_setup/session.py:125-168 | A SQL call that returns saw the container running and its identity accepted and sent the text; psql exited with 0, or, where a failure was expected, with 3 and that one error |
| `LifecycleMeaning.CleanupReturns` | scripts/validation/academic_setup/session.py:173-189 | A cleanup that returns while a container is held looked at it, sent exactly one stop if it was running and exactly one removal otherwise, and then saw an empty listing behind a fresh preflight |
| `LifecycleMeaning.Limits` | scripts/validation/academic_setup/session.py:81-150 | Every command has its own limit: two minutes for SQL, five seconds for readiness and identity, twenty otherwise |
| `LifecycleMeaning.RefusedIff` | scripts/validation/academic_setup/session.py:25-178 | By the history alone: which calls are refused, without sending anything |
| `Workflow.EveryProbeChecked` | scripts/validation/academic_setup/workflow.py:54-70 | In the whole plan every statement expected to fail is followed at once by the rollback check |
| `WorkflowMeaning.MigrationsInOrder` | scripts/validation/academic_setup/workflow.py:9-12 | Each of the 49 migrations has its place in the calls, behind the former one, where it is sent as it is and has to succeed, or the run stops because it is no plain SQL |
| `WorkflowMeaning.Rehearsed` | scripts/validation/academic_setup/workflow.py:54-70 | Before the decommission is sent to stay, the three ways it has to fail are called in order, each with its input, SQLSTATE and message, and each followed by the check of the rollback |
| `WorkflowMeaning.OnlyThreeFail` | scripts/validation/academic_setup/workflow.py:41-83 | No other call of the plan is expected to fail |
| `WorkflowMeaning.Surroundings` | scripts/validation/academic_setup/workflow.py:43-75 | What is sent before the migrations, behind the first 45 and behind the decommission |
| `WorkflowMeaning.Probes` | scripts/validation/academic_setup/workflow.py:76-83 | What is sent behind the last migration, both scripts of every concurrent pair included, and that the final verification is the last call |
| `Workflow.Attempt` | scripts/validation/academic_setup/workflow.py:43-83 | The try block makes the plan's calls in order and stops at the first failure, interruption or refused text |
| `Workflow.ExecutePlan` | scripts/validation/academic_setup/workflow.py:41-92 | Success and failure run exactly one cleanup, an interruption none; the method returns normally if and only if every planned call succeeded and removal was verified |
| `Workflow.InterruptedRun` | scripts/validation/academic_setup/workflow.py:43-92 | A lawful run of any plan that is interrupted while it waits for readiness: a container is held and the session is not closed |
| `Workflow.PlanPrefix` | scripts/validation/academic_setup/workflow.py:41-92 | What reaches psql is a prefix of the plan's texts up to the first refused one, and all of them when the plan went through; the cleanup sends no SQL |
| `ChatHook.ChatHook.constructor` | frontend/src/hooks/useChat.ts:52-62 | A mounted hook keeps what every run keeps, has nothing under way and shows nothing but the opened source |
| `ChatHook.ChatHook.Begin` | frontend/src/hooks/useChat.ts:122-135 | An operation that begins is current, finds the transcript it remembers, takes the place of every earlier one, and lets no other begin |
| `ChatHook.ChatHook.FinishReply` | frontend/src/hooks/useChat.ts:136-166 | A stale reply changes nothing; the current one releases the latch, leaves exactly the transcript its outcome demands, and no other reply under way can act |
| `ChatHook.ChatHook.Catch` | frontend/src/hooks/useChat.ts:139-160 | The transcript is the one the failure demands; an uncertain failure selects the request for recovery without offering a retry, a denial closes the chat |
| `ChatHook.ChatHook.TryAccept` | frontend/src/hooks/useChat.ts:72-86 | A reply about another source is thrown out before anything is set; otherwise it is taken over |
| `ChatHook.ChatHook.DenyAccess` | frontend/src/hooks/useChat.ts:87-92 | After a denial there is no transcript and no title, and no call of any kind begins |
| `ChatHook.ChatHook.SendMessage` | frontend/src/hooks/useChat.ts:170-185 | If a question goes out, it alone is current, its request holds the text that was asked, it stands behind the old transcript as the user's, sets the latch and carries only the account's own identifiers while the chat is visible; otherwise nothing is sent or lost |
| `ChatHook.ChatHook.RetryReply` | frontend/src/hooks/useChat.ts:187-189 | If a retry goes out, it sends a request sent or reported before for the turn being recovered, and the transcript is unchanged |
| `ChatHook.ChatHook.ResetChat` | frontend/src/hooks/useChat.ts:101-117 | Afterwards the chat is the current account's and empty, open for questions, and nothing under way can act on it |
| `ChatHook.ChatHook.LoadConversation` | frontend/src/hooks/useChat.ts:190-212 | The saved transcript is shown to the current account, and of everything under way only the new check can change it |
| `ChatHook.ChatHook.RunEffects` | frontend/src/hooks/useChat.ts:94-120 | Afterwards the chat belongs to the account it is rendered for, and after a change of account it is empty and nothing under way can act on it |
| `ChatHook.ChatHook.Rerender` | frontend/src/hooks/useChat.ts:43-52 | A render shows nothing of another account, even before the effects have run |
| `ChatHook.ChatHook.TearDown` | frontend/src/hooks/useChat.ts:94-100 | No reply and no check under way acts on an unmounted hook |
| `ChatHook.ChatHook.Return` | frontend/src/hooks/useChat.ts:213-227 | What the page is given is the account's own, up to the unavailable opened source |
| `ChatHook.ChatHook.HasMessage` | frontend/src/hooks/useChat.ts:79-83 | A recovered reply counts as known exactly when a message carries its server ID |
| `ChatHook.ChatHook.ClearRecovery` | frontend/src/features/chat/recovery/useTurnRecovery.ts:37-46 | No check that began before can act any more |
| `ChatHook.ChatHook.RememberTurn` | frontend/src/features/chat/recovery/useTurnRecovery.ts:47-58 | No check that began before can act any more, and no question is taken until the turn is recovered |
| `ChatHook.ChatHook.CheckReply` | frontend/src/features/chat/recovery/useTurnRecovery.ts:59-63 | A check begins exactly with a selected turn and a token; it is current, and no other check is disturbed |
| `ChatHook.ChatHook.FinishCheck` | frontend/src/features/chat/recovery/useTurnRecovery.ts:64-91 | A stale report changes nothing; the first report about the turn asked for outdates every other check, and no report touches the latch |
| `ChatHook.ChatHook.CatchCheck` | frontend/src/features/chat/recovery/useTurnRecovery.ts:92-105 | A denial closes the chat and drops the turn; otherwise the transcript stays, and a retry is offered only for a turn the server does not know whose question is known |
| `ChatLaws.RunKeeps` | frontend/src/hooks/useChat.ts:94-212 | Every reachable state keeps the invariant: epochs bound operation numbers, the latch has its operation, a current operation finds the transcript it left, and visible content is the account's own |
| `ChatRuns.OnlyCurrentChanges` | frontend/src/hooks/useChat.ts:130-138 | A reply changes the chat only if its operation is current, and at most one operation under way is |
| `ChatRuns.LatchReleases` | frontend/src/hooks/useChat.ts:161-166 | While the latch blocks a visible chat there is exactly one current operation, and any reply to it releases the latch |
| `ChatRuns.InFlight` | frontend/src/hooks/useChat.ts:129-135 | Until the reply comes, the transcript is the one before plus the question, if one was asked, and nothing is being recovered |
| `ChatRuns.Accounted` | frontend/src/hooks/useChat.ts:136-160 | In every run the reply to the current operation leaves the transcript defined without the hook: an answer is appended once; a busy turn gives back exactly the transcript before the send; a denial empties it; anything else leaves it with the question |
| `ChatRuns.ConversationContinues` | frontend/src/hooks/useChat.ts:76-85 | After a confirmed answer the next question is taken, in the session and conversation of the answer and about its source, unless that has become unavailable |
| `ChatRuns.QuestionsOnce` | frontend/src/hooks/useChat.ts:122-189 | In every run each question asked stands in the transcript at most once |
| `ChatAnswers.AnsweredOnce` | frontend/src/hooks/useChat.ts:72-86 | In every run the answer to a turn is appended at most once to a transcript, whether it came as a reply, after a retry or by a check |
| `ChatAnswers.AnswersCounted` | frontend/src/hooks/useChat.ts:79-83 | Every answer shown was shown before at the same place, came with a loaded conversation, or is the one counted as appended |
| `ChatRuns.RetryResends` | frontend/src/hooks/useChat.ts:187-189 | In every run, whatever came between, a retry sends the request of an earlier operation or the one reported for its turn, about the turn being recovered, and the transcript is unchanged |
| `ChatRuns.FirstReportActs` | frontend/src/features/chat/recovery/useTurnRecovery.ts:59-91 | Of checks under way at the same time only the first report about the turn acts, so a recovered answer is appended once |
| `ChatRuns.NothingForeign` | frontend/src/hooks/useChat.ts:213-227 | In every run nothing of another account is shown, except possibly that the opened source is unavailable |
| `ChatRuns.TitleKept` | frontend/src/hooks/useChat.ts:107-111 | A title of the former account outlives the reset if and only if its resource is unavailable, titled and the source now opened |
| `ChatRuns.TitleShown` | frontend/src/hooks/useChat.ts:190-208 | Such a run: a conversation is loaded whose source is unavailable but titled, and the account changes; the hook allows it, the repository's own server sends no such title |
| `ChatRuns.HonestTitles` | frontend/src/types/chat.ts:34-39 | If unavailable resources carry no title, as their type promises, no foreign title is ever shown |
| `ChatRuns.SentOwnIff` | frontend/src/hooks/useChat.ts:174-181 | A question carries only the account's own identifiers if and only if the open session and conversation are its own; a retry if and only if the remembered request is |
| `ChatRuns.SentOwn` | frontend/src/hooks/useChat.ts:174-181 | In every run this holds while the chat is visible |
| `ChatRuns.SentBeforeReset` | frontend/src/hooks/useChat.ts:94-120 | In every run, between a change of account and the reset, a question carries own identifiers if and only if no session and no conversation was open, and a retry never does |
| `ChatRuns.SentTooEarly` | frontend/src/hooks/useChat.ts:174-181 | A question sent between a change of account and the reset takes the former conversation along |
| `ChatMeaning.SendMeans` | frontend/src/hooks/useChat.ts:122-182 | A question goes out exactly if it is not empty, nothing is recovered or under way and the user may call; the request carries the question, a new turn, and the open session, conversation and source; the transcript grows by the question, as the user's |
| `ChatMeaning.RetryMeans` | frontend/src/hooks/useChat.ts:187-189 | A retry goes out exactly if it is offered and the user may call; it sends the remembered request as it is |
| `ChatMeaning.ReplyMeans` | frontend/src/hooks/useChat.ts:72-86 | An awaited answer about the asked source is appended as the assistant's, with its text, and its conversation, session and source are taken over; one about another source closes the chat |
| `ChatMeaning.FailureMeans` | frontend/src/hooks/useChat.ts:140-164 | Each kind of failure, field by field: the outcome is open, the turn is busy, access is denied, or it is shown |
| `ChatMeaning.CheckMeans` | frontend/src/features/chat/recovery/useTurnRecovery.ts:59-64 | A check begins exactly with a selected turn and a token and remembers them and the account |
| `ChatMeaning.ReportMeans` | frontend/src/features/chat/recovery/useTurnRecovery.ts:66-105 | Each kind of report to a check, field by field; nothing happens if the check is stale |
| `ChatMeaning.ResetMeans` | frontend/src/hooks/useChat.ts:101-117 | A reset leaves an empty chat about the opened source, or about the lost one if that is the opened one |
| `ChatMeaning.LoadMeans` | frontend/src/hooks/useChat.ts:190-209 | Loading shows each saved text with its author and ID, in order, takes over conversation and source, and restores an unfinished turn exactly if the source is available |
| `ChatMeaning.EffectsMean` | frontend/src/hooks/useChat.ts:118-120 | The effects reset the chat exactly after a change of account, and outdate its checks |
| `ChatMeaning.RenderMeans` | frontend/src/hooks/useChat.ts:94-100 | Rendering changes only what the page passes in, unmounting only ends what is under way |
| `ChatMeaning.ShownMeans` | frontend/src/hooks/useChat.ts:213-227 | The page is given everything of its own account and otherwise an empty chat about the opened source |
| `Lexer.Lex` | docs/reviews/student_enrollment_final_2026-10-11/verify_review_static.py:21-81 | The tokenizer, recursive on dollar bodies, computes the specified tree and terminates because bodies are shorter |
| `Lexer.SkipEscape` | docs/reviews/student_enrollment_final_2026-10-11/verify_review_static.py:46-58 | The loop over an escape string steps over backslash pairs and doubled quotes |
| `LexerTokens.NameFirst` | docs/reviews/student_enrollment_final_2026-10-11/verify_review_static.py:68-70 | A word is one token, as long as it can be, with the tokens of the rest behind it |
| `LexerTokens.NumberFirst` | docs/reviews/student_enrollment_final_2026-10-11/verify_review_static.py:68-70 | So is a run of digits |
| `LexerTokens.ValueFirst` | docs/reviews/student_enrollment_final_2026-10-11/verify_review_static.py:41-59 | So is every printed literal, with its quotes |
| `LexerTokens.EscapeFirst` | docs/reviews/student_enrollment_final_2026-10-11/verify_review_static.py:41-59 | So is every escape string |
| `LexerTokens.QuotedFirst` | docs/reviews/student_enrollment_final_2026-10-11/verify_review_static.py:41-59 | A name in double quotes is the token between them |
| `LexerTokens.BodyFirst` | docs/reviews/student_enrollment_final_2026-10-11/verify_review_static.py:60-67 | A dollar body is the token of its tag and is tokenized by itself |
| `LexerTokens.MarkFirst` | docs/reviews/student_enrollment_final_2026-10-11/verify_review_static.py:71-73 | Any other character is a token by itself, where whitespace follows it |
| `LexerTokens.WordInFront` | docs/reviews/student_enrollment_final_2026-10-11/verify_review_static.py:68-81 | A word or number in front of any text does not change whether it is accepted, and is its first token |
| `LexerTokens.PrintedTokens` | docs/reviews/student_enrollment_final_2026-10-11/verify_review_static.py:21-81 | Words, numbers, printed literals and marks, printed with blanks and read back, are the same tokens; the text is accepted exactly if their brackets are balanced |
| `Lexer.LexBalanced` | docs/reviews/student_enrollment_final_2026-10-11/verify_review_static.py:70-81 | In a text that lexes, the brackets of every token stream are balanced, down to the innermost body |
| `Lexer.LexConcat` | docs/reviews/student_enrollment_final_2026-10-11/verify_review_static.py:21-81 | Behind a text that lexes and ends in a newline, anything lexes exactly when it lexes alone, to the tokens and bodies of both |
| `Lexer.QuotedNameCounts` | docs/reviews/student_enrollment_final_2026-10-11/verify_review_static.py:59 | Double-quoted names lose their quotes: a name that is a bracket counts as one in the balance |
| `QuotedNames.LexesIffBalanced` | docs/reviews/student_enrollment_final_2026-10-11/verify_review_static.py:70-81 | A text is accepted if and only if every piece is closed and all its streams are balanced with every name counted as what it says; its tree is then that of all tokens |
| `QuotedNames.NamesDoNotMatter` | docs/reviews/student_enrollment_final_2026-10-11/verify_review_static.py:59 | If no double-quoted name is a bracket, a text is accepted if and only if every piece is closed and its streams without the names are balanced, down to the innermost body |
| `QuotedNames.OddNamesMislead` | docs/reviews/student_enrollment_final_2026-10-11/verify_review_static.py:59-80 | With an odd number of bracket names at some level, the verdict is that of the streams without names if and only if both refuse |
| `Brackets.CheckDelimiters` | docs/reviews/student_enrollment_final_2026-10-11/verify_review_static.py:72-80 | The stack loop accepts exactly the balanced streams |
| `BracketGrammar.BalancedIffNested` | docs/reviews/student_enrollment_final_2026-10-11/verify_review_static.py:74-80 | The stack accepts a stream if and only if it is made of other tokens and of nested groups between matching brackets |
| `Brackets.Enclosed` | docs/reviews/student_enrollment_final_2026-10-11/verify_review_static.py:84-91 | The counting loop returns the tokens up to the first place where the count of parentheses is zero |
| `Brackets.EnclosedFindsPartner` | docs/reviews/student_enrollment_final_2026-10-11/verify_review_static.py:84-91 | On a balanced stream `enclosed` never fails at an opening parenthesis and ends at the partner the two-kind stack gives it |
| `Brackets.GroupParts` | docs/reviews/student_enrollment_final_2026-10-11/verify_review_static.py:84-105 | That group is balanced; its parts are balanced, have no comma outside brackets, and rejoin to it unless it ends in a comma |
| `Brackets.Parts` | docs/reviews/student_enrollment_final_2026-10-11/verify_review_static.py:94-105 | The loop computes the specified pieces |
| `BracketGrammar.FirstPiece` | docs/reviews/student_enrollment_final_2026-10-11/verify_review_static.py:94-105 | A stream with no comma outside its groups is the first piece of itself and of itself with a comma and anything behind it |
| `Brackets.PartsRejoin` | docs/reviews/student_enrollment_final_2026-10-11/verify_review_static.py:94-105 | For every stream the pieces rejoin to it if and only if it is empty or does not end in a separating comma |
| `Brackets.PartsSimple` | docs/reviews/student_enrollment_final_2026-10-11/verify_review_static.py:94-105 | The pieces of a balanced stream are balanced and without separating commas |
| `Brackets.BalancedConcat` | docs/reviews/student_enrollment_final_2026-10-11/verify_review_static.py:72-80 | Behind a balanced stream, another is balanced together with it exactly when it is alone |
| `BodyLimit.Collect` | backend/app/middleware/request_limits.py:91-125 | The reading loop, which gives up as soon as the limit is passed, returns the verdict on the whole stream |
| `BodyLimit.ChunkingIrrelevant` | backend/app/middleware/request_limits.py:91-125 | How a finished body is cut into chunks does not matter |
| `BodyLimit.TooLargeStays` | backend/app/middleware/request_limits.py:117-122 | Once the limit is passed, nothing that follows changes the refusal |
| `BodyLimit.HandedOver` | backend/app/middleware/request_limits.py:91-136 | Only a finished body within the limit is handed over, and it is exactly what was sent |
| `BodyLimit.Replay.Receive` | backend/app/middleware/request_limits.py:127-135 | The whole body on the first read, empty and finished reads afterwards |
| `BodyLimit.Counted.Receive` | backend/app/middleware/request_limits.py:143-151 | Chunks pass unchanged as long as their sum is within the limit, and never again after that |
| `BodyLimit.App.RunCounted` | backend/app/middleware/request_limits.py:153-154 | However often the application reads, it sees at most the limit, and an error reaches the middleware only for a body over it |
| `BodyLimit.HandleBuffered` | backend/app/middleware/public_body_limit.py:57-99 | The application runs once on the whole body or not at all; the client is told once of a refusal, and never after a disconnect |
| `BodyLimit.HandleUpload` | backend/app/middleware/request_limits.py:138-159 | The application runs once on a prefix within the limit, with at most one rejection, only for a body over it |
| `BodyLimit.Serve` | backend/app/middleware/request_limits.py:53-159 | Through both middlewares: the outcome for every request, declared length and message stream |
| `BodyLimit.OneMiddleware` | backend/app/middleware/request_limits.py:61-68 | A request one middleware handles is passed on by the other, so no body is buffered twice |
| `BodyLimit.OnlyWithinLimit` | backend/app/middleware/request_limits.py:70-105 | No body is read against a declared length that is not a number within the limit; exactly uploads are counted, with a declared length |
| `BodyLimit.UnboundedIff` | backend/app/middleware/public_body_limit.py:23-29 | A body-carrying API request is bounded by neither middleware if and only if it goes to the public chat with a method other than POST in capitals |
| `BodyLimit.SmallLettersPass` | backend/app/middleware/public_body_limit.py:23-29 | Such a request: a post in small letters to the public chat |
| `BodyLimitMeaning.WayIs` | backend/app/middleware/request_limits.py:37-100 | The way every request takes, by its method, path and declared length: who passes, who is refused with which status and code, and the limit for everyone else |
| `BodyLimitMeaning.ToldIs` | backend/app/middleware/request_limits.py:109-125 | What the client is told where a body was not handed over |
| `BodyLimitMeaning.TooLargeIff` | backend/app/middleware/request_limits.py:113-125 | A body is refused as too large if and only if some beginning of it is over the limit |
| `BodyLimitMeaning.CompleteIff` | backend/app/middleware/request_limits.py:113-127 | It is handed over if and only if its last chunk comes while all of it is within the limit |
| `BodyLimitMeaning.GoneIff` | backend/app/middleware/request_limits.py:118-119 | The request is dropped without an answer if and only if the client disconnects before that |
| `Permissions.Project` | backend/app/db/supabase.py:79-160 | The loops over roles, permissions and grants compute the projected user |
| `Permissions.PrimaryFrom` | backend/app/core/security/roles.py:20-36 | The primary role is the first supported role, in order of precedence, that the account holds |
| `Permissions.TenantAgrees` | backend/app/core/security/identity.py:71-90 | Whoever is given any permission has exactly one scope of the primary role; an institution there is the reported tenant, and otherwise only a student's profile gives one |
| `Permissions.Provenance` | backend/app/core/security/scoped_permissions.py:4-36 | At a known scope a code is given if and only if it traces to an active role there by an active compatible permission, or to an unrevoked direct grant at an institution with a staff role |
| `Permissions.CurrentTraced` | backend/app/core/security/identity.py:71-107 | The same, from the database row to the current user, together with the tenant |
| `Permissions.OtherScopesIrrelevant` | backend/app/core/security/scoped_permissions.py:39-49 | With the same role names and primary scopes, what is held at other scopes changes neither permissions nor tenant |
| `PermissionMeaning.LetIn` | backend/app/core/security/identity.py:43-69 | Who is let in, and how everyone else is refused: unknown, inactive, or without resolved permissions |
| `PermissionMeaning.GivenIff` | backend/app/core/security/scoped_permissions.py:4-49 | By the row alone: a code is given if and only if the leading role is held at exactly one counted scope and the row gives the code there |
| `PermissionMeaning.TenantIs` | backend/app/core/security/identity.py:71-90 | By the row alone: the tenant is the one institution of the leading role, and otherwise only a student has that of the profile |
| `Metrics.CaseLaws` | backend/evaluation/evaluator.py:86-110 | With distinct results the relevant ones are counted exactly, recall and precision lie in [0, 1], and recall times gold size and precision times retrieved count are both that count |
| `Metrics.CutoffMonotone` | backend/evaluation/evaluator.py:92-106 | Recall and hit never fall as the cutoff grows |
| `Metrics.RankIffHit` | backend/evaluation/evaluator.py:95-108 | A reciprocal rank exists exactly for hits and is one over the place of the first relevant result |
| `MetricMeaning.CaseFigures` | backend/evaluation/evaluator.py:86-110 | At a cutoff, by the results and gold entries alone: recall, precision, hit and reciprocal rank are quotients of the number of hits and of the place of the first |
| `MetricMeaning.MeanIs` | backend/evaluation/evaluator.py:113-140 | Every mean of a dataset that can be reported, overall or of a category, times the number of cases it is over is the sum of their figures; there is none exactly if there are no such cases |
| `Metrics.RecallBoundedIff` | backend/evaluation/evaluator.py:94-104 | Recall is at most 1 for every gold set if and only if the results up to the cutoff are distinct |
| `Metrics.Average` | backend/evaluation/evaluator.py:138-140 | The mean, nothing for no values, and an exception if and only if a value is missing |
| `Metrics.AggregateMetrics` | backend/evaluation/evaluator.py:113-135 | Every reported metric, and no other, with its mean over the supported cases; it raises if and only if one of them lacks recall or hit |
| `Evaluation.EvaluateDataset` | backend/evaluation/evaluator.py:170-234 | The report holds every case's metrics, the means over the supported cases and those of each category; it raises if and only if a supported case has no gold entry |
| `Evaluation.NoGoldNoReport` | backend/evaluation/evaluator.py:113-140 | Such a dataset: one direct case without a gold entry |
| `Metrics.CategoriesPartition` | backend/evaluation/evaluator.py:211-213 | The supported cases are split among the categories without loss or overlap |
| `Evaluation.OverallOfDataset` | backend/evaluation/evaluator.py:211-230 | Of every dataset that can be reported: overall recall, precision, hit and zero-result rates are the case-weighted means of the category ones |
| `Evaluation.MrrOfDataset` | backend/evaluation/evaluator.py:127-132 | Of every dataset that can be reported: the mrr times the hit rate at ten is the mean reciprocal rank with misses as zero; mrr is missing exactly when nothing was hit |
| `Tmpfs.AcceptedIff` | scripts/validation/disposable_container.py:94-109 | For every string: accepted if and only if no option repeats, all are known, `rw` is there and there is exactly one size, in (0, 2^29] bytes |
| `Tmpfs.OrderIrrelevant` | scripts/validation/disposable_container.py:94-109 | Acceptance does not depend on the order of the options |
| `Tmpfs.SplitJoin` | scripts/validation/disposable_container.py:98 | Joining options with commas and splitting them gives them back |
| `Tmpfs.BytesDecimal` | scripts/validation/disposable_container.py:104-107 | Printing any size, with or without a unit, and reading it gives the same bytes |
| `Tmpfs.DigitsAre` | scripts/validation/disposable_container.py:104-107 | A run of digits is read as the number whose decimal print it is, behind some zeros |
| `Tmpfs.HarnessOptions` | scripts/validation/disposable_container.py:94-109 | The options the harness asks for are accepted for exactly the sizes in (0, 2^29] |

## Left out

- Regular expressions and `isspace`: word characters in dollar tags and names are ASCII, whitespace is Python's whole set.
- The scanner as a generator: a failure gives no statements at all, where the script has already yielded the earlier ones.
- Reading files, JSON, SHA-256 pins and path checks: the migration text, the serialised inspection and the digests are parameters; paths and digests in comment lines hold no newline.
- ReplaysAgree: one direction only; for histories without renames and role suffixes ReplaysAgreeIff is exact, and every other condition except the order of statements is shown to matter by an example.
- Transactions.OneTransactionIff: the statements are those the scanner cuts; escape strings, dollar signs in names and carriage returns in comments, which the server reads otherwise, are in ServerScan.
- ServerRelease.OneTransactionForServer: statements as section 4.1 of the PostgreSQL documentation cuts them, with standard strings on; rule bodies in parentheses, function bodies with BEGIN ATOMIC, whose END counts as one, names right behind a number and the commands of the client are not modelled, nor what procedures do; whitespace outside ASCII is trimmed as the scanner does.
- Interrupts between two statements of a method: they are possible at every command and every sleep, where the code blocks.
- Sessions.Session: what an interrupt leaves of a running process is up to Docker; only the session's own fields are modelled.
- Parsing of CREATE, GRANT, RENAME and DROP statements into names and roles, and the normalisation of signatures: the replays start from parsed statements; the order of migration files is their rank.
- The other columns of both inventories (bodies, triggers, owners, default privileges, nested calls).
- The live transport, which is sealed in the repository, the exact command-line arguments, and the wording of harness errors; a failure is a failure.
- The field-by-field checks on Docker's JSON, on versions, engine, image and runtime identity, and the reading of psql's error lines: functions of the output, given by the pins.
- Docker.Call: the time limit that kills a process may be exceeded by process creation; only the limit handed over is modelled.
- Real threads in the concurrency step: the two scripts of a lane run one after the other.
- snapshot_sql: its text is a parameter of the plan.
- The loading flag of React Query, rendering, and the texts of chat errors; message identifiers used as list keys.
- ChatMeaning.SendMeans: the question is the text after trimming, and the institution named in a request, the account's own, is not modelled.
- The conversation history hook, the document version chain, rate limiting and the SQL functions behind the endpoints.
- Bearer token parsing and JWT verification before the user is looked up; the session fields of the result.
- What the application has already sent when an upload passes the limit: the rejection is counted, not ordered against it.
- Python's limit on the number of digits read as an integer, and non-ASCII letters whose capital is ASCII in method names.
- Floating point: means and deadlines are over real numbers.
- Loading and validating the evaluation dataset, the scope-filter report and the report file.
