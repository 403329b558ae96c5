# OmniHarness gateway, modelled in Dafny

OmniHarness runs LLM agents for one owner. This project models the parts of its gateway that
carry state other parts rely on, and proves what they promise:

- **The Project Ledger** (`Ledger*.dfy`): plans of changes over a versioned store with an
  append-only change log; dry runs, pins that hold a confirmed plan to what it resolved,
  batches, undo and what it leaves behind, the report of a plan and the card it is
  confirmed on.
- **Single-use grants and turn ids** (`Grants.dfy`, `TurnIds.dfy`): worker processes that
  share a directory of nonces, and ids that only the server can sign.
- **The permission policy** (`PolicyModel.dfy`, `Classifier.dfy`, `RulesLoader.dfy`,
  `PolicyInForce.dfy`): the indexed rule lookup, the tier of a call, the hot-reloaded rules
  file, and a call decided under the rules in force.
- **The log files** (`LogTakeover.dfy`): the race to replace a plain log by a symlink, and
  one append-only file per day.
- **The run context** (`RunContext.dfy`): which keys of a run's config a client can decide.
- **Continue locks, ownership, the refusal index** (`ContinueLocks.dfy`, `Ownership.dfy`,
  `RefusalIndex.dfy`): locks on confirmed actions, the one account that owns the install,
  and a bounded duplicate filter.
- **Two text tools** (`EnvFile.dfy`, `SplitText.dfy`): the `.env` merge of the setup wizard
  and the message splitter of the Discord channel.

## How the models are built

Code that changes things in place is a class or a method with loops (`LedgerRepository`,
`LedgerService`, `Classifier`, `ConfigLoader`, `PolicyMiddleware`, `DailyAppendFileHandler`,
`RunConfig`, `RefusalLog`, `DotEnv`), each proved to do what a function of the old state says; the
properties are lemmas about those functions. A protocol between processes is a state
machine whose actions are single file operations, transactions or crashes; its theorems hold
for every sequence of actions by any number of processes.

What the programs do not decide is a parameter: character classes and case tables, SHA-256
and HMAC (no two inputs collide), the hash of an object, the YAML reader, the checks named
by the policy rules, the time, which system calls fail, and the text of a row's id. A row's id is a
creation number, so a dry run and a later apply, which draw different ids, are two
*namings* of the same numbers; a theorem that needs fresh ids to be no word of the plan
says so (`FreshNames`).

## What the code was found to do

- A plan pinned to its dry run does **not** always make the same writes in the same ledger.
  An update that names no project, finds a task the same plan adds by its title, and whose
  words also spell another task's short id is refused or changes that other task once the
  project is pinned. `LedgerDryRun.PinnedPlanRepeats` proves that this is exactly when;
  `LedgerMisread.PinnedPlanDiffers` is such a plan.
- Two writes that changed one row can never be undone together
  (`LedgerUndoMany.SharedRowsRefuse`); otherwise a list can be undone exactly when each
  write can be undone alone, so no disjointness has to be assumed.
- Undo does not restore a project's task counter, and leaves links alone: creating a task
  moves the counter without logging it, and links are logged without a cause.
- Undoing the write that created a project strands every goal, task and note others put
  under it since: a new task moves its project's counter but no version, so nothing refuses
  the undo. `LedgerStranded.UndoStrandsIff` says exactly which rows are left without their
  project or goal.
- The card does not state exactly what will be stored, as service.py:13 says it does.
  Of two accepted changes of one kind that agree in every argument their lines are made
  of, `LedgerCardStores.SameStoredIff` says exactly when they store the same: when what
  they say in the hidden arguments reads alike. Hidden are a new project's status and
  context, a new task's status and todo, and a link's label; each is stored as given and
  shown nowhere (`LedgerCard.ProjectUnshown`, `LedgerCard.TaskUnshown`,
  `LedgerCardStores.TodoUnshown`, `LedgerCardStores.LabelUnshown`). Of goals, updates and
  notes nothing is hidden, but a reason given as 0 or false is stored and not shown
  (`LedgerCardStores.FalsyWhyUnshown`), and two refs under one name look alike
  (`LedgerCardStores.RefsLookAlike`).
- Nor does a line always tell the words it is made of: a title "A, status → done" reads as
  a title and a status (`LedgerCardWords.UpdatesCollide`). Where no word holds what a later
  one is told by, it does (`LedgerCardWords.LineFixesWords`, `PersonsUpdateIff`).
- The model's copy of a card shows a change of an unknown kind whole, its pin included
  (`LedgerCard.CardHidesStored` says exactly when the copy is free of stored text). A pin
  is the server's only on a plan that was accepted, which holds no such change
  (`LedgerCard.AcceptedCardHidesStored`); a refusal likewise
  (`LedgerReport.PinnedRefusalQuotesWords`).
- A NUL can let a grant admit a request it was not issued for. A request is told apart from
  every request whose path is free of NULs exactly when its own path is
  (`Grants.ToldApartIff`); where the other request's path is not checked, a NUL in the body
  is enough (`Grants.NulInBodyCollides`), and `Grants.SharesIff` and
  `Grants.AnotherLetInIff` give the exact condition.
- One startup recovery can let an action be spent twice: it reads the record before it
  checks the owner, so a run that succeeds and exits in between leaves a spent lock that
  the recovery unlinks (`ContinueLocks.OneRecoverySpendsTwice`). Two recoveries can release
  a live lock (`ContinueLocks.RecoveriesCanCollide`). Looking at an unspent action is safe
  exactly where its lock is there, of a run that is over, and no other recovery is past its
  own look at it (`ContinueLocks.LookIsSafeIff`); checking the owner before the record, one
  recovery at a time, meets that (`ContinueLocks.GoneOwnerMayLook`).
- When a new day's log cannot be opened, the old day's stream is already closed: nothing
  more is written on the old day (`LogTakeover.FailedOpeningShutsOldDay`).

## Model

| member | source | states |
|---|---|---|
| LedgerPins.PinnedPlanIsConfined | backend/app/ledger/service.py:264-396 | A plan validated in one ledger and applied with its pins in any other writes nothing, or updates only tasks the pins name or the call created, and puts every new goal, task, note and conversation link under a project the pins name or the call created. |
| LedgerPins.HeldPlanIsConfined | backend/app/ledger/service.py:264-396 | The same of any plan whose every change is held by its own pin, whatever dry runs the pins came from. |
| LedgerEdits.EditedPlanIsConfined | backend/app/gateway/routers/confirmations.py:318-348 | The same of a plan edited on its card, with the pins it keeps and those it gets: however often it is edited and wherever it is checked. |
| LedgerEdits.ValidatedIsServerPinned | backend/app/policy/middleware.py:900-930 | What a first check pins may be so edited: each pin an edit may keep holds its change by itself. |
| LedgerPins.PinnedStep | backend/app/ledger/service.py:299-330 | One change held to its pin touches only what the pin names or the plan made. |
| LedgerDryRun.DryRunAgrees | backend/app/ledger/service.py:225-249 | A dry run, under its own stamp and with its own fresh ids, fails with the same error as applying or makes the same writes, up to the ids' texts. |
| LedgerDryRun.PinnedPlanRepeats | backend/app/ledger/service.py:225-330 | The plan with its returned pins makes the writes the dry run tried exactly when none of its updates is misread. |
| LedgerDryRun.SentPlanRepeats | backend/app/ledger/service.py:91-96 | The same of a plan as sent: the pins it came with are dropped before it is checked. |
| LedgerDryRun.ReadInProject | backend/app/ledger/service.py:519-607 | A task found across projects by its title is found again within its project exactly when its words are no other task's short id. |
| LedgerMisread.PinnedPlanDiffers | backend/app/ledger/service.py:299-347 | A concrete plan and ledger whose validated, pinned plan does not repeat its dry run. |
| LedgerHistory.EveryStateIsRecorded | backend/packages/harness/omniharness/persistence/ledger/sql.py:97-173 | Over any run of writes: every row is as its last change left it, no logged row is lost, versions grow along a row's changes, and no row changes its kind or place. |
| LedgerHistory.PlanIsWrites | backend/app/ledger/service.py:251-262 | A plan, or a batch of plans, is a run of single writes stamped with the call's user, actor and cause. |
| LedgerUndo.UndoIff | backend/app/ledger/service.py:417-467 | In every reachable state a write can be undone exactly when it is one undo may revert and its last change of every row it touched is that row's last; undo then reverts those rows and no others. |
| LedgerUndo.UndoInverts | backend/app/ledger/service.py:417-467 | A plan or batch, then anything that leaves its rows alone, then undo: it succeeds, everything created is gone and everything changed is back, but for versions and task counters. |
| LedgerUndo.UndoRowsExact | backend/app/ledger/service.py:439-467 | Undoing rows newest first succeeds exactly when each is at the version the write left, and puts each right. |
| LedgerUndo.TouchedByLast | backend/app/ledger/service.py:447-452 | The rows a write touched are those of its changes, each with what its last change left. |
| LedgerStranded.UndoStrandsIff | backend/packages/harness/omniharness/persistence/ledger/model.py:50-87 | After an undo a row's project is gone exactly when the row is not the write's own and its project was already gone or is one the write created; likewise a task's goal. |
| LedgerStranded.AddedTaskIsStranded | backend/app/ledger/service.py:439-467 | A task anybody adds under a project a write created does not keep that write from being undone, and is stranded by it. |
| LedgerUndoMany.UndoTogetherIff | backend/app/ledger/service.py:417-437 | Writes can be undone together exactly when each can be alone; then every row of each is put right and nothing else moves. |
| LedgerUndoMany.SharedRowsRefuse | backend/app/ledger/service.py:417-437 | Two writes that changed one row are never undone together. |
| LedgerUndoMany.UndoOneAfterAnother | backend/app/ledger/service.py:425-437 | After one undo, another write can be undone exactly when it could before and shares no row with the first. |
| LedgerFields.StepStores | backend/app/ledger/service.py:284-395 | A step stores each field its change names where the change resolved to, a task under the goal its words name, makes exactly the conversation link the change asks for, once, and moves nothing else but the project's task counter. |
| LedgerFields.PlansKeepLimits | backend/app/ledger/service.py:117-148 | Plans keep every row's texts within their limits and its status in the closed set. |
| LedgerNames.FoundTaskIsNamed | backend/app/ledger/service.py:519-557 | Whatever ids and numbers the rows have, a task found is its project's and one the words name; a short id is never read as a title. |
| LedgerNames.FoundProjectIsNamed | backend/app/ledger/service.py:469-500 | Likewise a project found is the user's. |
| LedgerNames.TaskFoundIff | backend/app/ledger/service.py:519-557 | Words find a task exactly when the first of short id, id, whole title and close title that matches anything matches it alone; they are refused as ambiguous exactly when it matches more, and as unknown exactly when none matches. |
| LedgerNames.ProjectFoundIff | backend/app/ledger/service.py:469-500 | The same of a project, by plan ref or id, name, words, and words without a trailing "project". |
| LedgerNames.AnywhereFoundIff | backend/app/ledger/service.py:583-606 | The same of a task named without its project, by id, then whole title. |
| LedgerNames.ShortIdFinds | backend/app/ledger/service.py:519-557 | Where numbers are unique, a short id finds its task. |
| LedgerNames.AnySpelling | backend/app/ledger/service.py:65-88 | "T-3", "t3" and "T - 3" are one short id. |
| LedgerShortIds.NumbersAreNeverReused | backend/packages/harness/omniharness/persistence/ledger/sql.py:97-110 | Over every run that moves no counter back, a number is given once in the life of a project. |
| LedgerShortIds.PlansKeepCounters | backend/app/ledger/service.py:251-330 | Plans and batches are such runs. |
| LedgerShortIds.UndoKeepsNumbers | backend/app/ledger/service.py:439-467 | Undo of a write that changed no earlier project gives no number back. |
| LedgerShortIds.PlanUndoKeepsNumbers | backend/app/ledger/service.py:439-467 | So undo of what plans wrote gives none back, whatever else was written before and after. |
| LedgerReport.ReportIsTheCalls | backend/app/ledger/service.py:274-395 | Two ledgers that resolve a plan to the same ids and numbers report it in the same lines, one per change, whatever names and titles they store. |
| LedgerReport.StepIsSaid | backend/app/ledger/service.py:294-395 | The line of a change is its own arguments, the plan's own names, the resolved id and the task's number. |
| LedgerReport.RefusalQuotesTheCall | backend/app/ledger/service.py:99-607 | The text a refused plan is told quotes only the plan's own words, or, of a change of an unknown kind, that change whole. |
| LedgerReport.PinnedRefusalQuotesWords | backend/app/ledger/service.py:99-107 | A plan accepted once and pinned is never shown a change whole, so what its pins say is stored is in no refusal of it. |
| LedgerCard.CardHidesStored | backend/app/ledger/service.py:156-211 | Without stored text, cards that differ only in what their pins say is stored are the same exactly when each change that differs is of a known kind. |
| LedgerCard.Render | backend/app/ledger/service.py:156-211 | Makes the card of the theorems: one line per change, in order, with projects and goals called as the plan calls them. |
| LedgerCard.AcceptedCardHidesStored | backend/app/ledger/service.py:156-211 | The model's card of an accepted plan is the same whatever its pins say is stored. |
| LedgerCard.ShownIff | backend/app/ledger/service.py:173-211 | What a change says in an argument moves its line, for some change, exactly when the argument is one its kind shows. |
| LedgerCard.ProjectUnshown | backend/app/ledger/service.py:288-291 | A new project's status and context are stored as given and change nothing of its line. |
| LedgerCard.TaskUnshown | backend/app/ledger/service.py:342-354 | Nor does a new task's line show its status. |
| LedgerCardStores.SameStoredIff | backend/app/ledger/service.py:156-395 | Accepted changes of one kind that agree in every argument shown store the same exactly when their hidden arguments read alike; a todo counts only with a conversation, a label only where the pair is not linked yet. |
| LedgerCardStores.PlansSame | backend/app/ledger/service.py:156-395 | Accepted plans that agree in shown and hidden arguments and refs do the same: nothing else they say is stored. |
| LedgerCardStores.LabelUnshown | backend/app/ledger/service.py:389-395 | A link's label is stored and changes nothing of its line. |
| LedgerCardStores.TodoUnshown | backend/app/ledger/service.py:359-363 | Nor does a new task's line show the todo its link stores. |
| LedgerCardStores.FalsyWhyUnshown | backend/app/ledger/service.py:179-206 | A reason given as 0, false or an empty list is read as its text and shown nowhere. |
| LedgerCardStores.RefsLookAlike | backend/app/ledger/service.py:168-180 | Two refs the plan gave one name look alike on every line. |
| LedgerCardWords.LineFixesWords | backend/app/ledger/service.py:173-211 | Two changes of one kind, no word of which holds what a later word is told by, have one line exactly when they say the same words. |
| LedgerCardWords.PersonsUpdateIff | backend/app/ledger/service.py:190-202 | So the person's line of an update pinned to one task tells exactly which fields it sets and to which words. |
| LedgerCardWords.UpdatesCollide | backend/app/ledger/service.py:190-202 | A title that holds ", status → " gives an update the line of another that sets the status too; both are accepted. |
| LedgerStore.LedgerRepository.CreateRow | backend/packages/harness/omniharness/persistence/ledger/sql.py:97-110 | Inserts a row under a new id, numbers a task from its project's counter, and logs it. |
| LedgerStore.LedgerRepository.UpdateRow | backend/packages/harness/omniharness/persistence/ledger/sql.py:112-127 | Refuses a version that moved on; else changes the row, bumps its version and logs before and after. |
| LedgerStore.LedgerRepository.RemoveRow | backend/packages/harness/omniharness/persistence/ledger/sql.py:151-163 | Deletes a row at the version given, logged. |
| LedgerStore.LedgerRepository.LinkRows | backend/packages/harness/omniharness/persistence/ledger/sql.py:129-141 | Links a pair once. |
| LedgerStore.LedgerRepository.ChangesCausedBy | backend/packages/harness/omniharness/persistence/ledger/sql.py:165-168 | The changes of one owner and cause, oldest first. |
| Ledger.LedgerService.ApplyOne | backend/app/ledger/service.py:284-395 | One change of a plan, applied in place, is the step the theorems are about. |
| Ledger.LedgerService.Apply | backend/app/ledger/service.py:220-223 | All of a plan or none of it, and its report. |
| Ledger.LedgerService.Validate | backend/app/ledger/service.py:225-249 | Leaves the ledger as it was and answers what applying would resolve. |
| Ledger.LedgerService.ApplyBatch | backend/app/ledger/service.py:251-262 | Several cards in one transaction, with each card's own report where the cards before it left the ledger; or none, naming the first card that failed there and its error. |
| Ledger.LedgerService.TouchedRows | backend/app/ledger/service.py:447-452 | Each touched row with its state before the first change and after the last. |
| Ledger.LedgerService.UndoInPlace | backend/app/ledger/service.py:425-467 | One write undone row by row, newest first. |
| Ledger.LedgerService.UndoAll | backend/app/ledger/service.py:417-437 | Several writes undone, each once, newest first, all or none. |
| Grants.AcceptedOnce | backend/app/gateway/internal_auth.py:160-207 | In every interleaving of issuers and redeemers, with crashes anywhere, a grant is accepted at most once. |
| Grants.AcceptedAsIssued | backend/app/gateway/internal_auth.py:183-207 | A request let in came within the grant's lifetime with the digest of the one it was issued for, and is that one, but for the case of the method, when that one is not ambiguous or neither path holds a NUL. |
| Grants.KeptUntilExpiry | backend/app/gateway/internal_auth.py:160-180 | A published, unclaimed, unexpired grant is in the directory, whole: no purge takes it. |
| Grants.FirstRedeemIsAccepted | backend/app/gateway/internal_auth.py:183-207 | Such a grant lets its own request in. |
| Grants.DigestBindsRequest | backend/app/gateway/internal_auth.py:156-157 | Without a NUL in kind, method or path, two digests are equal exactly for one request. |
| Grants.ToldApartIff | backend/app/gateway/internal_auth.py:156-157 | A request is told apart from every request with a path free of NULs exactly when its own path is. |
| Grants.SharesIff | backend/app/gateway/internal_auth.py:156-157 | Another request has the same digest exactly when the path holds a NUL, or the body one that a longer path may run to. |
| Grants.AnotherLetInIff | backend/app/gateway/internal_auth.py:183-207 | A grant that can be redeemed lets another request in exactly when the one it was issued for is so ambiguous. |
| Grants.NulInPathCollides | backend/app/gateway/internal_auth.py:156-157 | A NUL in the path: the request cut there, with the rest in front of its body, has the same digest. |
| Grants.NulInBodyCollides | backend/app/gateway/internal_auth.py:156-157 | A NUL in the body, whatever the path: the front of the body moved to the path gives the same digest. |
| Grants.NamesApart | backend/app/gateway/internal_auth.py:176-191 | Temporary, published and claimed files of all nonces have different names. |
| TurnIds.AcceptedOnItsThread | backend/app/gateway/internal_auth.py:231-252 | A signed id is well signed for its own thread and for no other. |
| TurnIds.SignedIsAccepted | backend/app/gateway/internal_auth.py:242-252 | The engine's own request with a signed id not seen before is accepted. |
| Classification.Classifier.Candidates | backend/app/policy/classify.py:92-109 | For every cache history the rules found are those a linear scan finds, in file order. |
| Classification.Classifier.BuildEntry | backend/app/policy/classify.py:96-104 | Sorts the rules into exact patterns and globs, all of them, in order. |
| Classification.IndexIsLinear | backend/app/policy/classify.py:83-109 | Exact positions and glob hits, sorted, are the positions of the linear scan, each once. |
| Classification.ExactMatchesItself | backend/app/policy/classify.py:99-103 | A pattern with no glob character matches its own name and no other. |
| Classification.Classifier.Classify | backend/app/policy/classify.py:38-80 | The tier is the highest that a matching rule, an applicable exception or the floor asks for; the deciding rule is the first to reach the rules' highest; no rule means refused, or asked about when the rules are unreadable. |
| Classification.FlagsOnlyRaise | backend/app/policy/classify.py:45-63 | Content or private data read before a call never lowers its tier. |
| Classification.RaisedTierIsHighest | backend/app/policy/classify.py:57-64 | Exceptions raise a rule to the highest that applies, never below its own tier. |
| Loading.ParseRules | backend/app/policy/config.py:145-213 | A file is accepted exactly when every rule is well written, and read as written; else the first bad rule is named. |
| Loading.ParseException | backend/app/policy/config.py:160-199 | An exception stands exactly when it raises the tier, names known checks and has one kind of condition. |
| Loading.OnlyRaises | backend/app/policy/config.py:166-199 | In an accepted file every exception raises, and has exactly one kind of reason to apply. |
| Loading.ConfigLoader.Load | backend/app/policy/config.py:85-123 | A valid file gives its own rules; a bad one the previous rules object, or none at all; an unchanged text the same object. |
| Loading.RulesAreLastValid | backend/app/policy/config.py:85-143 | Over any loads and edits the rules kept are a fresh parse of the last valid text. |
| Loading.InForceOnlyRaise | backend/app/policy/config.py:85-199 | So does every exception of the rules kept, whatever was loaded and edited. |
| Loading.NothingUnannounced | backend/app/policy/config.py:97-131 | Listeners are told exactly the changes of the text notifying loads ran on, whatever silent or bad loads came between. |
| Loading.AnnouncedInForce | backend/app/policy/config.py:119-131 | After a notifying load of a valid file the last text announced is the one in force. |
| PolicyInForce.PolicyMiddleware.Decide | backend/app/policy/middleware.py:648-659 | Whatever was edited before, a call gets the highest tier the last valid rules ask for, and is asked about when no file was ever valid. |
| PolicyInForce.RaisedIff | backend/app/policy/classify.py:57-60 | Under rules that were loaded, a rule's tier is raised exactly when one of its exceptions applies. |
| PolicyInForce.LookupNeverMissed | backend/app/policy/private_reads.py:81-89 | Where no exception asks for private reads, not looking for them changes no decision. |
| LogTakeover.NothingLost | backend/app/gateway/log_files.py:59-83 | In every interleaving the plain file is reachable under the log path or its kept name until a pruner finds it past the retention. |
| LogTakeover.PathStays | backend/app/gateway/log_files.py:72-83 | The log path never goes missing, and once a symlink stays one. |
| LogTakeover.TakesOver | backend/app/gateway/log_files.py:59-83 | A call none of whose own operations fails ends, whatever the others do, with the log path a symlink to its target, and the path stays a symlink. |
| LogTakeover.NoLeftovers | backend/app/gateway/log_files.py:65-83 | A call that ended, well or with an error it cleaned up after, left no temporary link. |
| LogTakeover.LinesKept | backend/app/gateway/log_files.py:50-57 | Whatever fails, a day's file holds what it held, then every line of that day that was written, in order, until the day is past the retention. |
| LogTakeover.WrittenIff | backend/app/gateway/log_files.py:115-123 | A line is written exactly when nothing raises while it is emitted and its day's stream was not closed under the handler. |
| LogTakeover.NoneLost | backend/app/gateway/log_files.py:115-123 | Where nothing raises, no line is lost. |
| LogTakeover.FailedOpeningShutsOldDay | backend/app/gateway/log_files.py:50-57 | When the new day's file cannot be opened, nothing more is written on the old day, and the next line of the new day tries again. |
| LogTakeover.DailyAppendFileHandler.Emit | backend/app/gateway/log_files.py:115-123 | Opens a new day's file without truncating it, prunes, and appends the line; what raises on the way loses the line and no other. |
| LogTakeover.DailyAppendFileHandler.Prune | backend/app/gateway/log_files.py:85-113 | Deletes exactly the kept copies and dated files past the retention that can be unlinked, and returns them. |
| RunContext.PreparedIsServers | backend/app/gateway/services.py:864-999 | In a finished run config every context key outside the client's allowlist has the server's value or is absent, and the other containers hold nothing else of the client's. |
| RunContext.ClientsCannotTell | backend/app/gateway/services.py:317-382 | What a client sends never makes a run differ in a key the server owns. |
| RunContext.MirrorKeepsServers | backend/app/gateway/services.py:402-433 | Mirroring the configurable into the context lets nothing of the client's past the allowlist. |
| RunContext.RunConfig.ApplyServerOwned | backend/app/gateway/services.py:317-382 | Drops what the client may not set from all four containers, then writes the server's values. |
| RunContext.RunConfig.MergeOverrides | backend/app/gateway/services.py:385-399 | Merges the client's context into both containers under its own keys only. |
| RunContext.RunConfig.Mirror | backend/app/gateway/services.py:402-433 | Copies named keys of the configurable the context lacks. |
| RunContext.Prepare | backend/app/gateway/services.py:603-672 | Built, merged, overridden, stripped and mirrored in place, or refused. |
| ContinueLocks.OneHolder | backend/app/gateway/resume.py:108-175 | While recoveries look only where they may, two live runs never hold one action, and what a run holds is not spent. |
| ContinueLocks.SpentOnce | backend/app/policy/pending.py:253-261 | Under the same condition an action is spent at most once, by a run that ended in success. |
| ContinueLocks.ExitsSettle | backend/app/gateway/resume.py:133-172 | And a run that left by a handled exit left each of its locks free or spent. |
| ContinueLocks.RunsResumeSomething | backend/app/gateway/resume.py:127-138 | And a launched run holds an action that was executed. |
| ContinueLocks.LookIsSafeIff | backend/app/policy/pending.py:263-284 | A recovery's look at an unspent action is safe, for all that may follow, exactly where `MayLook` allows it. |
| ContinueLocks.LookElsewhereBreaks | backend/app/policy/pending.py:263-284 | A look anywhere else can be followed by operations that leave one action with two holders, or a holder of a spent one. |
| ContinueLocks.GoneOwnerMayLook | backend/app/policy/pending.py:279 | Had the owner been found gone before the record is read, by one recovery at a time, the look would be one that may be. |
| ContinueLocks.OneRecoverySpendsTwice | backend/app/policy/pending.py:275-282 | One recovery alone: an action spent by two runs. |
| ContinueLocks.RecoveriesCanCollide | backend/app/policy/pending.py:263-284 | Two recoveries that look at one lock can release it from under a live run. |
| Ownership.ClaimedOnce | backend/app/gateway/ownership.py:129-157 | However registrations and startups race, at most one claim is committed. |
| Ownership.FreshInstallHasOne | backend/app/gateway/ownership.py:194-226 | A fresh install has at most one account, the claimed one. |
| Ownership.OwnerStays | backend/app/gateway/ownership.py:92-126 | Once claimed, the owner without the environment's word is that account exactly while it is enabled, else nobody. |
| Ownership.AnOwner | backend/app/gateway/ownership.py:92-126 | The resolution always has an answer. |
| Ownership.FirstRegistrationOwns | backend/app/gateway/ownership.py:194-226 | An undisturbed first registration makes its account the owner. |
| RefusalIndex.RepeatsAreFarApart | backend/app/policy/audit.py:45-78 | The index never exceeds 2048 keys, and two entries with one key have at least 2048 other keys accepted between them. |
| RefusalIndex.EntriesAreFarApart | backend/app/policy/audit.py:170-228 | Of any two entries of the log with one key, at least 2048 other keys were accepted between the places of those two. |
| RefusalIndex.RefusalLog.RecordRefused | backend/app/policy/audit.py:170-228 | Records a refusal once per key, always without one, and forgets the key when the log cannot be written. |
| EnvFile.ReadAfterWrite | scripts/wizard/writer.py:22-63 | Reading a file after a merge gives the old pairs overridden by the new. |
| EnvFile.WriteTwice | scripts/wizard/writer.py:37-63 | A second merge of the same pairs changes no character. |
| EnvFile.DotEnv.ReadFile | scripts/wizard/writer.py:22-34 | The pairs of a file, later lines winning. |
| EnvFile.DotEnv.WriteFile | scripts/wizard/writer.py:37-63 | Updates keys in place, appends new ones, keeps every other line. |
| SplitText.Split | backend/app/channels/discord.py:276-292 | Cuts a text at the last newline that fits, else at the limit. |
| SplitText.NothingElseDropped | backend/app/channels/discord.py:276-292 | Every chunk is 1 to 2000 characters, and the text is the chunks with only runs of newlines dropped at the cuts. |
| SplitText.OneSplit | backend/app/channels/discord.py:276-292 | There is one such split. |

## Left out

- LedgerCardWords.LineFixesWords: what a line tells is words; two arguments with one text, as null and "None", are one word.
- Ledger timestamps and `done_at`, `declared_files`, the views, `promote` and the text of an undo report.
- Ledger links other than to conversations; a lookup that takes the first of two rows under one id, which the primary key rules out.
- Goals are not pinned by the code, so no theorem confines which goal a new task is put under.
- Non-object changes and arguments of a plan: a change is a kind, named arguments and a pin.
- LedgerUndo.UndoIff: foreign keys are not modelled. A database that enforces them refuses to remove a project or goal others refer to, so there the undo fails; the ledger's own SQLite engine sets no pragma (sql.py:54-57), so there it succeeds and strands those rows (`LedgerStranded`).
- LedgerUndoMany.UndoTogetherIff: the same.
- SQL itself: a transaction is a store saved and put back, a primary key a number never drawn twice; writes of one ledger are one after another.
- Turning a YAML document into raw rules: a value of another shape, and values `int` or the checks fail on, are a file that does not parse.
- TurnIds: that `consume` says yes once for an id, which is the database's primary key.
- Grants: a clock that goes back, two equal random nonces, and a file system that reorders a finished rename.
- LogTakeover.DailyAppendFileHandler.Emit: a write that raises after part of the line reached the file, and the handler's `close`.
- LogTakeover.NothingLost: one plain file at the path before the workers start; a plain file put there later by another program is not followed.
- ContinueLocks.OneHolder: for runs whose recoveries look only where they may; `LookIsSafeIff` is the exact condition on one look.
- ContinueLocks.SpentOnce: under the same condition.
- ContinueLocks.ExitsSettle: under the same condition.
- The exception `_thread_running` may raise in a resume, and failures between taking a lock and a handled exit, are crashes: their locks stay until a recovery.
- RunContext: the agreement of the configurable with the context for the client's own keys, which the code does not promise, and the mention lookup and the checks on a Continue, whose results are parameters.
- Ownership: accounts made or deleted by other means than a first registration, and the access checks on records and threads.
- RefusalIndex: seeding the index from the log's tail at start, the content of an entry, and several processes.
- EnvFile: the translation of line ends when a file is read; a text is what the reader gets.
- The rest of the gateway: routes, streaming, channels, sandboxes, MCP and connectors.
