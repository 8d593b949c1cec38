# Orion: recovery records, ingest and presentation

A Dafny model of three protocols of this repository and proofs of what they guarantee across every crash, retry
and interleaving. `dafny verify dfyconfig.toml` checks everything.

**The vault action executor** (`hermes_plugins/orion-vault-actions`). `VaultModel` has plans, records and the disk;
`Approval` the text a human approves and the receipt's check of it; `Recovery` the classification read from disk and
the inventory; `Executor` one call as a thread of small steps, each of which may raise or be the last one the process
takes; `System` any number of calls with previews, expiry, human answers, restarts and outside edits between any two
steps. `Preservation` proves the system's invariant, `Guarantees` what follows from it, `Checks` what a call had
seen on disk before it went on, and `Ledger` what calls leave behind and say of it. `Solo` looks at one call
that nobody interferes with, `ProductionExecutor` writes that call out as straight-line code over mutable files and
shows that it is such a run, `Episode` follows one call from its preview to what outside writers make of its record,
`StepForms` says what the steps come to, `Restore` chains restores, and `PreviewCache` is the bounded cache as a class.

**The DC-02 ingest transaction** (`scripts/dc02`). `IngestModel` and `IngestPlan` have the files and the loops that
plan and journal a run, `IngestRun` the crash-safety argument over every history of runs, and `IngestCoordinator`
the command itself as an object whose process may die at any effect.

**The presentation path** (`hud`). `Projection` shows a result and is tied to the executor's guarantees, `Events` has
the payloads of streamed events with the numbers in them, `Stream` is the bridge's encoder and frame loop with the
browser's buffering loop, `RunControl` the page's run-control state.

## What the code does that its description does not say

- The receipt check lets prefix and suffix share a newline, so an edit with an empty diff also accepts a text one
  newline shorter than its summary (`Approval.EmptyDiffIsNotPinned`).
- A performed edit or restore whose content was already there is classified `prepared_no_effect`
  (`Solo.UnchangedEditLooksUntouched`); the truth of the classification is proved for plans that change something.
- The journal refuses two paths that fold together. A note renamed to a name that folds alike, between two runs that
  die early, puts both into the journal, and no later run of any vault can load it; unless the vendor gives both paths
  the same tag, or the file system takes both for one entry. `A.md` and `a.md` are one entry where case is ignored and
  two elsewhere; `straße.md` and `strasse.md` are two everywhere (`IngestRun.NeverWedgesExactly`,
  `IngestRun.StuckExactly`, `IngestRun.RenameWedges`). Where they are one entry the old name is still found, and every
  run is refused while the note has the new name (`IngestRun.SameEntryIsRefused`).
- A finished record can demand attention again: the inspection hashes the notes a manifest names before it looks at
  its state, so a link or an unreadable file in a note's place makes a committed record unreadable and blocks every
  call (`Guarantees.AttentionFollowsTheReceipt`, `Episode.OutsideReopens`, `Episode.LinkReopensSettledEdit`).
- A status reply that is not recognised, or is not about the run at all, frees the page for another turn just as a
  terminal status does (`RunControl.UntrustedReplyFrees`).
- The page can miss an event without a word. `json.loads` takes `NaN` and numbers like `1e999`, the projection copies
  `seq`, `ts`, `timestamp` and some fields of shown results whatever number they hold, and `json.dumps` writes a number
  that is not finite as `NaN` or `Infinity`, on which `JSON.parse` throws: the event is dropped, an approval request or
  the end of a run as well. An integer that no double holds arrives changed. All other events arrive as they were sent
  (`Stream.PageSeesTheEvents`, `Stream.HugeTimestampIsLost`).
- The second look at the set of used plans, after the record is prepared, never refuses: the exclusive record directory
  has done so before (`Ledger.PreparedPlansAreUnused`).

## Assumptions

- SHA-256 is injective on the values used: a digest is the text it hashes, a token the plan it names.
- Random nonces, attempt ids and pattern keys are new. The monotonic clock does not go back.
- Replacing a file by renaming is atomic. An exclusively created file may be left with any beginning of its content;
  a proper beginning of a receipt is not valid JSON.
- Temporary files next to a note, and record directories, are written by the executor only. Notes and drafts, whether
  they can be read, and other entries under the recovery root are free to change between any two steps; a final check
  and the write it guards are one step.
- `study_document` sets the content of one tag, and may leave that tag arbitrary when interrupted. The vendor's tag
  function, the case folding and the directory entry that a path names are arbitrary functions.
- `Approval.Plugin` is the plugin in `mutation_enabled` mode. The executor is proved for every rendering and receipt
  check that are `Consistent`, and `Approval.PluginIsConsistent` shows that the plugin's are.
- In `Stream`, JSON is written on one line and does not start with a blank; a value that holds a number that is not
  finite does not parse, and every other value reads back as itself, with integers as doubles.

## Model

| member | source | states |
|---|---|---|
| Guarantees.ChangesAreDecided | hermes_plugins/orion-vault-actions/__init__.py:1049-1127 | in every run with any interleaving of calls, answers, outside edits, crashes and restarts, a note change is preceded by a decision under its key whose text is a valid summary of exactly that plan |
| Guarantees.DecisionsAreHuman | hermes_plugins/orion-vault-actions/__init__.py:1025-1046 | every decision in the log is an in-time, uncoalesced ONCE from the CLI or the gateway to exactly that text under exactly that key |
| Guarantees.OnceIsHeard | hermes_plugins/orion-vault-actions/__init__.py:1025-1046 | and conversely: in every run, such an answer to a waiting call is logged as a decision, and any other answer changes nothing |
| Guarantees.AnsweredCallGoesOn | hermes_plugins/orion-vault-actions/__init__.py:1049-1127 | a waiting call goes on to the stale check if and only if its request has its ONCE, and the request is forgotten either way |
| Guarantees.RequestsAreBounded | hermes_plugins/orion-vault-actions/__init__.py:1087-1096 | in every run at most 32 requests for a decision are open at once |
| Guarantees.ChangesInjectIntoAnswers | hermes_plugins/orion-vault-actions/__init__.py:1025-1127 | executed plans inject into human answers: each plan that changed a note, the halves of a move taken as one, has a ONCE of its own, given to exactly its text before its first change |
| Guarantees.DecisionsAreSpentOnce | hermes_plugins/orion-vault-actions/__init__.py:2038-2057 | no plan token and no decision is ever used for two changes, across restarts too, except for the two halves of one move |
| Guarantees.OnlyNamedBytesGo | hermes_plugins/orion-vault-actions/__init__.py:4349-4371 | with outside writers between any two steps, only bytes whose hash the plan names are overwritten or deleted, creates never overwrite, and what is put in place is what the plan promises or, for a torn create, its beginning |
| Guarantees.ChangesAreRecorded | hermes_plugins/orion-vault-actions/__init__.py:4303-4333 | from the moment a note changes, the kept bytes, which are exactly those overwritten or removed, the manifest and the receipt of that plan and that decision are complete on disk |
| Checks.ChangesFollowAFreshLook | hermes_plugins/orion-vault-actions/__init__.py:4217-4300 | with outside writers between any two steps, every record made and every note changed has, after its human decision and before it, a moment when the preview was still known, one when nothing was unfinished, and one when the notes were readable and held exactly what the plan names, a draft being still a draft |
| Checks.RemovalsFollowAWholeCopy | hermes_plugins/orion-vault-actions/__init__.py:4668-4716 | with outside writers between any two steps, a move's source is removed only after a moment at which that call's own copy, already made, held exactly the bytes that are removed |
| Checks.SuccessesWereSeen | hermes_plugins/orion-vault-actions/__init__.py:4378-4409 | a call reports success only if at a moment after its last change the notes were as promised: the written note with the promised hash, a deleted one absent, the source of a move gone |
| Checks.OtherwiseItStops | hermes_plugins/orion-vault-actions/__init__.py:4668-4727 | a call that finds anything else at that moment ends as a failure with mutation_performed and recovery_required and the error of its action, or dies; in every continuation it changes nothing more and its record stays unfinished |
| Ledger.FailuresOweExactly | hermes_plugins/orion-vault-actions/__init__.py:4988-5014 | in every run a failing call reports recovery_required if and only if it owns a record, and then the record is there |
| Ledger.ChangesAreClaimedLate | hermes_plugins/orion-vault-actions/__init__.py:4275-5014 | in every run a failing call reports mutation_performed only from its protected write on, and of a replacement or deletion not if nothing was begun |
| Ledger.FinishedCallsAreTidy | hermes_plugins/orion-vault-actions/__init__.py:4357-4376 | in every run a call that ended with a record has left no replacement file, and no replacement file is without a record |
| Ledger.PreparedPlansAreUnused | hermes_plugins/orion-vault-actions/__init__.py:4329-4338 | in every run a call that has prepared its record finds its plan unused |
| Ledger.LateChecksSayWhy | hermes_plugins/orion-vault-actions/__init__.py:4349-4371 | the final checks refuse before they write, with the error of the action and without claiming a change, and the check before a source is removed owns up to the copy |
| Ledger.RereadsSayWhy | hermes_plugins/orion-vault-actions/__init__.py:2669-3008 | what a re-read of the notes reports, by action: unreadable, missing, other content, and for a move its draft |
| Checks.SpentPlansAreNotAskedAgain | hermes_plugins/orion-vault-actions/__init__.py:4206-4212 | until a restart, a plan that was carried out or is being carried out is refused at its lookup, before a human is asked again |
| Guarantees.RestoresComeFromRecords | hermes_plugins/orion-vault-actions/__init__.py:2884-2949 | a restore that changed a note has an origin record that is committed and still holds exactly the bytes to bring back |
| Guarantees.OriginStandsExactly | hermes_plugins/orion-vault-actions/__init__.py:2884-2949 | the origin of a restore passes the stale check if and only if its record can be inspected, is committed, is of a restorable kind and still keeps bytes with both hashes of the plan |
| Guarantees.NotesChangeAsLogged | hermes_plugins/orion-vault-actions/__init__.py:4287-4986 | unless an outsider writes, the notes change only by the logged write, at the logged place, to the logged content |
| Guarantees.ResultsAreTruthful | hermes_plugins/orion-vault-actions/__init__.py:4275-5014 | a result without mutation_performed means the call changed no note; a successful one means it did and its receipt is committed |
| Guarantees.SettledStays | hermes_plugins/orion-vault-actions/__init__.py:3127-3147 | a record with a committed receipt is never touched again in any continuation |
| Guarantees.AttentionFollowsTheReceipt | hermes_plugins/orion-vault-actions/__init__.py:1627-1653 | at any later time a record needs attention if and only if its receipt is not committed or a note its manifest names cannot be resolved and read; what the notes contain has no say |
| Guarantees.ClassesFollowTheNotes | hermes_plugins/orion-vault-actions/__init__.py:2076-2399 | in every run, whatever outsiders wrote: a record with a manifest and readable notes gets exactly the class that fits the notes' hashes now, for all six classes, and recovery is required if and only if it is prepared and the notes are not the pre-image |
| Guarantees.SettledThenChanged | hermes_plugins/orion-vault-actions/__init__.py:2146-2156 | a finished record is called committed at any later time if and only if the notes are the post-image, and committed_then_changed otherwise; nothing is owed |
| Episode.SteadyCallSettles | hermes_plugins/orion-vault-actions/__init__.py:4163-5014 | from any notes, a good preview of an edit, a move or a delete that a human approves once is carried out as promised in a steady run of the whole system, its record is settled and nothing blocks the next call |
| Episode.OutsideReopens | hermes_plugins/orion-vault-actions/__init__.py:1627-1653 | in every run, after an outside write a settled record needs attention if and only if that write left a note it names unreadable, and then every call is blocked |
| Episode.LinkReopensSettledEdit | hermes_plugins/orion-vault-actions/__init__.py:2060-2073 | `a.md` is previewed, approved, edited and recorded; then an outside writer puts a link in its place, and the finished record needs attention and blocks every call, though the content is what was approved |
| Guarantees.UnfinishedStopsEverything | hermes_plugins/orion-vault-actions/__init__.py:4246-4273 | once no call is past its second inventory, an unfinished record stops everything for ever, calls already waiting for the human included: no later record is made and no later note changed |
| Guarantees.OneUnfinishedAtMost | hermes_plugins/orion-vault-actions/__init__.py:4251-4273 | when calls do not overlap, at most one record lacks a committed receipt, it is the newest, and at most 129 records are ever made |
| Preservation.RunKeepsInv | hermes_plugins/orion-vault-actions/__init__.py:4163-5014 | every happening keeps the invariant that ties threads, records, attempts and the log together |
| Preservation.ThreadOk | hermes_plugins/orion-vault-actions/__init__.py:4163-5014 | one step of a thread keeps what it may rely on: its decision, its record's exact stage, its sole right to its token |
| Preservation.OthersKeep | hermes_plugins/orion-vault-actions/__init__.py:2054-2057 | no step of one thread disturbs what another thread relies on |
| Preservation.StepKeepsSound | hermes_plugins/orion-vault-actions/__init__.py:4119-4137 | at every step each record is complete in order: kept bytes before manifest before receipt before commit |
| System.StepIsLocal | hermes_plugins/orion-vault-actions/__init__.py:4163-5014 | a step touches only its own record, temporary file and attempt, and changes notes only with a log entry of its own |
| Solo.RecordTellsTheTruth | hermes_plugins/orion-vault-actions/__init__.py:2076-2399 | for all five actions and every crash point without outside writers, the class read from disk says exactly whether the notes are untouched, done, doubled or torn, and before the manifest nothing is readable and nothing was touched |
| Solo.ReceiptTellsWhatIsOwed | hermes_plugins/orion-vault-actions/__init__.py:3240-3375 | at the same crash points, a receipt that can be read says applied_unfinalized with recovery required exactly when the notes are done and it is not committed, also when the manifest already is; until it can be read the notes are untouched, and something is owed exactly while it is not committed and they are not untouched |
| Solo.NotesAreClassified | hermes_plugins/orion-vault-actions/__init__.py:2145-2161 | the classification of each state the notes can be in, given a plan that changes something |
| Solo.UnchangedEditLooksUntouched | hermes_plugins/orion-vault-actions/__init__.py:2151-2156 | a performed edit or restore is classified prepared_no_effect if and only if its before and after hashes are equal, which previews allow |
| Solo.MoveKeepsTheDraft | hermes_plugins/orion-vault-actions/__init__.py:4547-4751 | at every crash point the draft is whole at its source or its target, and success means source gone, target whole, copy in the record |
| Solo.AloneState | hermes_plugins/orion-vault-actions/__init__.py:4287-4986 | every cut-off execution leaves notes and record at a pair of stages that belong together |
| Solo.SteadyRun | hermes_plugins/orion-vault-actions/__init__.py:4287-4986 | an admitted execution nothing goes wrong in reaches success in at most fourteen steps |
| ProductionExecutor.VaultExecutor.Execute | hermes_plugins/orion-vault-actions/__init__.py:4275-5014 | the straight-line call under arbitrary faults is a run of the step model to its end, and the record it leaves tells the truth |
| ProductionExecutor.VaultExecutor.Prepare | hermes_plugins/orion-vault-actions/__init__.py:4287-4338 | re-read, record directory, kept bytes, manifest, receipt and consumed plan follow the step model in order |
| ProductionExecutor.VaultExecutor.ReplaceFile | hermes_plugins/orion-vault-actions/__init__.py:4345-4375 | final hash check, atomic replacement and removal of the temporary file, as the step model has them |
| ProductionExecutor.VaultExecutor.CopyAndRemove | hermes_plugins/orion-vault-actions/__init__.py:4642-4727 | the two writes of a move with their checks, as the step model has them |
| ProductionExecutor.VaultExecutor.ChangeOne | hermes_plugins/orion-vault-actions/__init__.py:4340-4518 | the protected write of an edit, a delete or a restore |
| ProductionExecutor.VaultExecutor.Commit | hermes_plugins/orion-vault-actions/__init__.py:4378-4409 | last check, committed manifest, committed receipt |
| Restore.RestoreBringsBack | hermes_plugins/orion-vault-actions/__init__.py:4768-4889 | restoring a committed edit or restore puts back exactly the kept bytes, changes nothing else, leaves the origin as it was and a record that kept what was there |
| Restore.RestoresAlternate | hermes_plugins/orion-vault-actions/__init__.py:2427-2516 | a chain of n restores, each of the one before, alternates the note between its two contents |
| Restore.RestoreMoveRecreates | hermes_plugins/orion-vault-actions/__init__.py:4891-4986 | restoring a move recreates the draft exactly and leaves the vault as it is |
| Restore.PreviewIsNotStale | hermes_plugins/orion-vault-actions/__init__.py:2884-3008 | a restore preview names what is there now and passes the post-approval check while nothing changes |
| Restore.RestorableExactly | hermes_plugins/orion-vault-actions/__init__.py:2427-2629 | a restore preview succeeds if and only if the record is committed with readable notes and is an edit or a restored edit of an existing, identifiable note with text in note and backup, or a move whose source is absent, whose folder is there and whose kept bytes are a draft; deletes are never restorable |
| Restore.DiffShowsTheRestore | hermes_plugins/orion-vault-actions/__init__.py:2486-2491 | the diff put to the human turns the note as it is into the bytes the restore puts in place |
| Restore.PreviewNamesPaths | hermes_plugins/orion-vault-actions/__init__.py:2427-2629 | the paths and the record a restore preview names are those of the origin's own plan |
| Recovery.AttentionExactly | hermes_plugins/orion-vault-actions/__init__.py:1627-1653 | a sound record needs attention if and only if its receipt is not committed or a note it names cannot be read |
| Recovery.InspectSaysExactly | hermes_plugins/orion-vault-actions/__init__.py:2076-2399 | for every sound record and any notes: committed means as is or changed by the post-image; prepared means no effect, applied, duplicate or divergent by pre-image, post-image and both copies; exactly one class fits |
| Recovery.ReceiptSaysExactly | hermes_plugins/orion-vault-actions/__init__.py:3340-3375 | a complete receipt of a sound record reports the same, except that under a committed manifest and the post-image a prepared receipt reports applied_unfinalized with recovery required |
| Recovery.InspectedExactly | hermes_plugins/orion-vault-actions/__init__.py:2100-2399 | on any disk, tampered with or not, inspection succeeds if and only if the manifest is this record's, the file its action keeps is there with the named hash, and the notes can be read |
| Recovery.ReceiptExactly | hermes_plugins/orion-vault-actions/__init__.py:3240-3338 | on any disk, tampered with or not, a receipt is good if and only if it is whole, names this record, its plan and an approval of exactly that plan, and agrees with the kept file and with a record that can itself be inspected |
| Recovery.Enumerate | hermes_plugins/orion-vault-actions/__init__.py:1576-1666 | over a listing in any order, the bounded inventory is truncated exactly when there are more entries than the bound, and otherwise finds attention exactly when some entry is no record directory or some record needs it |
| Recovery.CheckInventory | hermes_plugins/orion-vault-actions/__init__.py:4082-4108 | the preflight refusal is exactly truncation first, then attention |
| Approval.SummaryPasses | hermes_plugins/orion-vault-actions/__init__.py:894-978 | every text the plugin asks approval for passes the receipt check of its schema, for all five actions |
| Approval.SummaryTells | hermes_plugins/orion-vault-actions/__init__.py:894-978 | for each action the text is fixed words each followed by the plan's own field, in order (source after Source, target after Target, each hash after its label, the record id first for restores), then the diff, then what the approval is good for |
| Approval.ReceiptTells | hermes_plugins/orion-vault-actions/__init__.py:3150-3237 | every text the receipt check accepts tells its plan in the same words and fields |
| Approval.TextTellsPlansApart | hermes_plugins/orion-vault-actions/__init__.py:110-137 | with fields that path policy allows, two previews share a text only if they are of the same action and agree in every field shown and in the whole diff |
| Approval.UntamePathsAreAmbiguous | hermes_plugins/orion-vault-actions/__init__.py:918-928 | with a colon before a blank in a path, which path policy refuses, two different moves share one text |
| Approval.EditReads | hermes_plugins/orion-vault-actions/__init__.py:906-916 | the exact text for an edit of a named note |
| Approval.MoveReads | hermes_plugins/orion-vault-actions/__init__.py:918-928 | the exact text for a move between two named paths |
| Approval.DeleteReads | hermes_plugins/orion-vault-actions/__init__.py:930-943 | the exact text for a delete of a named note |
| Approval.RestoreReads | hermes_plugins/orion-vault-actions/__init__.py:945-959 | the exact text for a restore of a named note from a named record |
| Approval.RestoreMoveReads | hermes_plugins/orion-vault-actions/__init__.py:961-977 | the exact text for recreating a named draft from a named record |
| Approval.SuffixReads | hermes_plugins/orion-vault-actions/__init__.py:870-891 | the exact closing words: in enabled mode for every action, otherwise by action |
| Approval.MatchesExactly | hermes_plugins/orion-vault-actions/__init__.py:3150-3237 | the receipt check accepts exactly prefix, the plan's own diff and an allowed suffix, and for an empty diff also the text whose prefix and suffix share a newline |
| Approval.NonEmptyDiffIsPinned | hermes_plugins/orion-vault-actions/__init__.py:3150-3237 | for a non-empty diff the schema 2 check accepts prefix, that exact diff and one of the two suffixes, and nothing else |
| Approval.EmptyDiffIsNotPinned | hermes_plugins/orion-vault-actions/__init__.py:3150-3237 | with an empty diff the check also accepts a text that is no summary |
| Approval.ReceiptMatches | hermes_plugins/orion-vault-actions/__init__.py:3150-3237 | the suffix loop decides by the first suffix that fits |
| Approval.PluginIsConsistent | hermes_plugins/orion-vault-actions/__init__.py:3240-3302 | in enabled mode what is rendered for a human is what the receipt check accepts |
| PreviewCache.Cache.Remember | hermes_plugins/orion-vault-actions/__init__.py:583-609 | expiry, eviction of the oldest and insertion keep the cache equal to the young part of the last 32 previews |
| PreviewCache.Cache.Lookup | hermes_plugins/orion-vault-actions/__init__.py:612-623 | a lookup returns exactly the remembered entry, if and only if it is at most 600 seconds old and fewer than 32 previews came after it |
| PreviewCache.Cache.SameKeys | hermes_plugins/orion-vault-actions/__init__.py:583-609 | both dictionaries have the same keys, at most 32 |
| PreviewCache.Oldest | hermes_plugins/orion-vault-actions/__init__.py:597-600 | the evicted key is the first one with the smallest time |
| PreviewCache.SnapshotIsPlan | hermes_plugins/orion-vault-actions/__init__.py:3025-3031 | the public part of a stored entry is the previewed plan if and only if no plan field is private |
| Projection.ReportsAreTruthful | hud/action_projection.py:673-739 | shown as succeeded only with a committed receipt and a change, as stale or refused only if the call changed no note, and always as succeeded if it succeeded and its paths can be shown |
| Projection.StatesExactly | hud/action_projection.py:673-739 | for any result at all, well formed or not: succeeded, stale and refused each by an exact condition on its fields, and always failed when recovery is required |
| Projection.EvidenceNeeds | hud/action_projection.py:540-573 | evidence is complete if and only if there is no error, the record's hash is there, and the paths and the origin that the action needs |
| Projection.OtherNotesShowStale | hud/action_projection.py:703-708 | a call refused by a re-read of the notes is shown as stale if and only if the notes are there, readable and not what its plan names |
| Projection.RefusalShows | hud/action_projection.py:703-712 | a failed call is shown as stale or as refused if and only if it changed nothing, owes nothing and its error is in that list |
| Projection.SuccessNames | hud/action_projection.py:437-452 | a success names the record, source and target of its own plan |
| Projection.SuccessShows | hud/action_projection.py:540-573 | a successful result is shown as succeeded if and only if every path it names is trimmed, free of NUL, non-empty and at most 1024 characters |
| Projection.PresentExactly | hud/action_projection.py:481-486 | the exact-text check accepts exactly those texts |
| Projection.ToolCallNameMap | hud/action_projection.py:365-401 | an id maps to a tool if and only if every well-formed call with that id names that tool |
| Projection.PairsExactly | hud/action_projection.py:347-401 | the calls that decide are exactly the well-formed ones in messages of this run and session |
| Stream.FramesConcat | hud/static/app.js:1670-1688 | the frames of any text do not depend on where it is cut |
| Stream.NextExactly | hud/static/app.js:1670-1688 | a buffer is cut at its first blank line, written in one of four ways, which belongs to neither part, and left alone if there is none |
| Stream.FirstLineExactly | hud/static/app.js:1433-1449 | a line goes up to the first line feed, without a carriage return right before it |
| Stream.FrameSaysExactly | hud/static/app.js:1433-1449 | a frame is nothing if it has no data or its joined data is no JSON; else it is the event of its last name line, or without one the event its data names, or a message |
| Stream.StreamTurn | hud/static/app.js:1651-1694 | the buffering loop delivers what the whole text delivers, for every way of cutting it into chunks |
| Stream.ProxyStream | hud/orion_hud_bridge.py:659-749 | the frame loop writes the encoding of the items of the upstream lines, with a refusal at the first bad or oversized frame and nothing after it |
| Stream.StepsFollowLines | hud/orion_hud_bridge.py:659-749 | of the lines: they are taken frame by frame with none left out, up to the first frame that is refused or outgrows the limit, and every frame before that is passed on |
| Stream.RefusedExactly | hud/orion_hud_bridge.py:762-792 | a frame is refused if and only if it has data and that is no JSON, no object, of another session, without the run it must name, or not encodable; one without data is dropped and comments are keepalives |
| Stream.PageSeesTheEvents | hud/orion_hud_bridge.py:752-792 | for all upstream lines and all chunks, bridge and browser together deliver the projected events in order, each as its JSON reads back, keepalives dropped; they deliver all of them as they were sent if and only if every number in `seq`, `ts`, `timestamp` and the shown results of the frames is finite and, if an integer, one that a double holds |
| Stream.EncodedArrives | hud/static/app.js:1433-1449 | on every list of items the browser's framing takes the bridge's encoding apart again and leaves nothing over; an event vanishes exactly where its JSON does not parse |
| Stream.ToldExactly | hud/static/app.js:1433-1449 | a list of events arrives as it was sent if and only if every number in every payload survives JSON |
| Stream.HugeTimestampIsLost | hud/orion_hud_bridge.py:752-792 | the frame `event: assistant.delta`, `data: {"delta":"hi","ts":1e999}` is passed on by the bridge and never told to the page |
| Events.PayloadFine | hud/action_projection.py:150-160 | for every event and all upstream fields, the projected payload has only numbers that survive if and only if the three copied numbers, and at the end of a run those of the shown results, are such numbers |
| Events.ProjectedExactly | hud/action_projection.py:917-934 | an upstream event is projected if and only if it is an object of no other session that names its run where it must |
| Events.EventKeepsIdentity | hud/action_projection.py:150-160 | a shown event keeps its name if it is a known one and carries each id if and only if it is well formed upstream, an approval its run only if exact, and no other ids |
| Events.FineReadsBack | hud/orion_hud_bridge.py:752-759 | a value of any depth comes back from JSON as it was if and only if all its numbers are finite and its integers are held by doubles |
| Events.ResultIsCopied | hud/action_projection.py:437-470 | a shown result carries every copied field that is a number, a flag or a text not empty once bounded, numbers and flags as they are, and beside them only texts of its own |
| RunControl.RunControlHolds | hud/static/app.js:939-1082 | in every interleaving: an approval on show belongs to the active run of a running stream, the interlock excludes both, and every stop or decision names a run the server had named as live |
| RunControl.RequestCanBeDecided | hud/static/app.js:1514-1536 | on every page: an approval request for the active run of a running stream puts a new approval for exactly that run on show, it stays until hidden or replaced, and a click sends that run's decision |
| RunControl.ApprovalExactly | hud/static/app.js:1202-1220 | for every input: what puts an approval on show and what takes it away, both directions |
| RunControl.ActiveExactly | hud/static/app.js:1459-1649 | for every input: when a run becomes active and when it stops being so, both directions |
| RunControl.SentExactly | hud/static/app.js:1294-1342 | for every input: a stop or a decision is sent if and only if the user asks for it, for the active run or the run of the approval on show |
| RunControl.TerminalClears | hud/static/app.js:1556-1580 | the end of the active run clears run, locator and approval |
| RunControl.LocatorExactly | hud/static/app.js:1459-1485 | for every input: which locator is stored afterwards |
| RunControl.InterlockExactly | hud/static/app.js:939-1082 | for every input: when the interlock is set for a run and when it is lifted, both directions |
| RunControl.StreamingExactly | hud/static/app.js:1696-1745 | for every input: when a turn is running afterwards |
| RunControl.SessionExactly | hud/static/app.js:1136-1151 | for every input: which session is selected afterwards |
| RunControl.UnresolvedEndsExactly | hud/static/app.js:966-1069 | a run whose end is unknown stays unresolved at each input unless that input is a current reply that is not active, a current 404 or 410, a settled current lookup, or the loss of the session |
| RunControl.NoCompetingTurn | hud/static/app.js:1696-1704 | until one of those arrives no other turn starts, whatever else does, active replies and failed lookups included |
| RunControl.UntrustedReplyFrees | hud/static/app.js:1036-1046 | a current reply that does not even name the run frees the page for the next turn |
| RunControl.UnfinishedTurnIsUnresolved | hud/static/app.js:1726-1745 | a stream that ends without a terminal event leaves its located run unresolved |
| RunControl.LocatorRoundTrip | hud/static/reconnect-state.js:27-52 | a remembered locator is found again for its session and for no other |
| RunControl.LocatorParsesExactly | hud/static/reconnect-state.js:27-52 | a stored locator counts if and only if it is of version 1, its ids are well formed, and its session is the expected one, if one is expected |
| RunControl.Page.HandleStreamEvent | hud/static/app.js:1459-1649 | an approval request for the active run shows a new approval for it or, without content, hides the one on show; one for any other run changes nothing; the end of the active run clears run, locator and approval; a run becomes active only by `run.started` when none is; the page stays where its inputs have brought it |
| RunControl.Page.SendMessage | hud/static/app.js:1696-1719 | a turn starts exactly when nothing streams, no run is active, no interlock is set and there is a session and an input; otherwise nothing changes |
| RunControl.Page.DecideApproval | hud/static/app.js:1294-1308 | a decision is sent only for the approval on show, whose run is the active run of a running stream and was named live by the server |
| RunControl.Page.StartReconcile | hud/static/app.js:939-964 | a lookup starts only for the located run of a page that neither streams nor shows an approval, is current when it starts, and claims nothing about the run |
| RunControl.Page.ReconcileReply | hud/static/app.js:1012-1046 | only a current reply that names the run with an active status adopts it; any other current reply frees the page |
| RunControl.Page.StopRun | hud/static/app.js:1752-1763 | a stop is sent only for the active run, which the server had named live |
| RunControl.Page.DecisionReplied | hud/static/app.js:1309-1342 | a reply hides the approval only if it is still the one the decision was sent for; nothing else changes |
| RunControl.Page.ReconcileFailure | hud/static/app.js:971-987 | a failed current lookup keeps the page busy, and only a 404 or 410 gives up a known run |
| RunControl.Page.SettleReconcile | hud/static/app.js:1048-1069 | the locator is forgotten only if it is the one that was looked up; run and stream are untouched |
| RunControl.Page.AdoptSession | hud/static/app.js:1144-1151 | a created session is adopted without looking again: locator and interlock go, run and stream stay |
| RunControl.Page.SelectSession | hud/static/app.js:1775-1786 | a busy page keeps its session; otherwise locator and interlock go with the old one |
| RunControl.Page.SessionsArrived | hud/static/app.js:571-611 | the session is dropped only if it is still the one asked for, is not listed and nothing streams |
| RunControl.Page.FinishTurn | hud/static/app.js:1726-1745 | the end of a turn drops run and approval, and an interlock is set only from the session's own locator |
| IngestRun.StoreFollowsCheckpoint | scripts/dc02/orion_vault_markdown_ingest.py:104-198 | after any sequence of runs cut off anywhere, the store differs from the checkpoint only at journaled tags, and not at all once the journal is absent or completed |
| IngestRun.UncutRunReachesSnapshot | scripts/dc02/orion_vault_markdown_ingest.py:104-198 | from every reachable state, one run that is not cut off leaves the store equal to the admitted snapshot at every tag and the checkpoint under its own or, if nothing was to be done, the old id, unless a deleted path is another name of a note, when it does no more than clear a completed journal |
| IngestRun.StudiesWhatChanged | scripts/dc02/orion_vault_ingest_state.py:172-204 | a run studies exactly the notes that are new, differ from the checkpoint or are journaled, and fades exactly the known paths that are no notes |
| IngestRun.SecondRunIsQuiet | scripts/dc02/orion_vault_ingest_state.py:172-204 | after a complete run another of the same vault has nothing to study or fade |
| IngestRun.InterruptedStudyIsFaded | scripts/dc02/orion_vault_ingest_state.py:190-204 | a note studied by an interrupted run and gone before any checkpoint is faded by the next complete run that finds it absent |
| IngestRun.CoverageGrows | scripts/dc02/orion_vault_ingest_state.py:241-258 | over any number of later runs, while the old checkpoint is in place the journal stays active and names every path it ever named |
| IngestRun.TagsInjectiveWhenAdmitted | scripts/dc02/orion_vault_ingest_state.py:147-169 | after any history, tags are injective over notes, checkpoint and active journal of every admitted run, though journal and checkpoint are never compared |
| IngestRun.TagsAlwaysKnown | scripts/dc02/orion_vault_ingest_state.py:222-271 | after any history, an admitted run never lacks a tag and journals exactly the affected paths with their own tags |
| IngestRun.ActiveIsNeverEmpty | scripts/dc02/orion_vault_ingest_state.py:190-204 | after any history, every path of an active journal is affected again, so a retry is never empty |
| IngestRun.JournalLoadsExactly | scripts/dc02/orion_vault_ingest_state.py:274-343 | in every reachable state the journal loads if and only if its paths differ after case folding and, when active, no note's tag clashes with it, and loads as completed if and only if the checkpoint is its target; an owner file implies a checkpoint or a journal |
| IngestRun.NeverWedgesExactly | scripts/dc02/orion_vault_ingest_state.py:305-342 | recovery never wedges if and only if paths that fold alike, yet are different directory entries, have the same tag |
| IngestRun.RenameWedges | scripts/dc02/orion_vault_ingest_state.py:309-313 | after a note is renamed to one that folds alike, is another directory entry and has another tag, between two runs that die early, no vault whatever lets the journal load and no later run changes anything, for ever |
| IngestRun.SameEntryIsRefused | scripts/dc02/orion_vault_ingest_fs.py:470-476 | after any history, while a journaled note has another name that the file system takes for the same entry, every run leaves everything as it is |
| IngestRun.KnownKeptApart | scripts/dc02/orion_vault_ingest_fs.py:470-476 | once the deleted paths are seen to be absent, paths of notes, checkpoint and active journal that fold alike are different directory entries |
| IngestRun.StuckExactly | scripts/dc02/orion_vault_ingest_state.py:305-342 | after any history, the journal loads for no vault at all if and only if two of its own paths fold alike |
| IngestRun.HistoryKeepsInv | scripts/dc02/orion_vault_markdown_ingest.py:104-198 | every history of runs keeps the invariant of store, journal, owner and checkpoint |
| IngestRun.PermittedStep | scripts/dc02/orion_vault_markdown_ingest.py:104-198 | each effect made in the program's order keeps the invariant, also when it is cut off in the middle |
| IngestRun.MutationsReachSnapshot | scripts/dc02/orion_vault_ingest_runtime.py:62-86 | studies and fades take a store that follows the checkpoint to the snapshot |
| IngestPlan.ValidateFileMap | scripts/dc02/orion_vault_ingest_state.py:82-110 | accepts exactly the file maps with valid, distinct tags and paths distinct after case folding |
| IngestPlan.ValidateDocTags | scripts/dc02/orion_vault_ingest_state.py:147-169 | accepts exactly the scans whose tags are valid and clash neither with each other nor with the checkpoint |
| IngestPlan.BuildPlan | scripts/dc02/orion_vault_ingest_state.py:172-187 | sorts every path into new, changed, unchanged or deleted |
| IngestPlan.ReconcileActivePending | scripts/dc02/orion_vault_ingest_state.py:190-204 | adds the journaled paths to the plan, as studies when the note exists and as fades when it does not |
| IngestPlan.ReconciledPlan | scripts/dc02/orion_vault_ingest_state.py:190-204 | the reconciled plan touches the affected and the journaled paths and nothing else |
| IngestPlan.PendingPayload | scripts/dc02/orion_vault_ingest_state.py:222-271 | the journal of the affected paths, or the error the code raises |
| IngestPlan.LoadPending | scripts/dc02/orion_vault_ingest_state.py:274-343 | none, completed or active exactly as the journal relates to the checkpoint, and an error otherwise |
| IngestCoordinator.Coordinator.Apply | scripts/dc02/orion_vault_markdown_ingest.py:48-239 | the whole command, dying at any effect, leaves exactly the disk the run model says, and answers exactly: applied if it is admitted, its plan accepted and no effect cut off; died if it is cut off before the last effect; rejected otherwise, with nothing changed but a completed journal cleared |
| IngestCoordinator.Coordinator.StudyAll | scripts/dc02/orion_vault_ingest_runtime.py:65-77 | the study loop performs the studies in order and stops where the process dies |
| IngestCoordinator.Coordinator.FadeAll | scripts/dc02/orion_vault_ingest_runtime.py:78-85 | the fade loop, likewise |
| IngestCoordinator.ValidateDeletedAbsence | scripts/dc02/orion_vault_ingest_fs.py:470-476 | the loop refuses exactly when some deleted path is another name of a note |

## Left out

- The Windows file ids, handles, ACL and volume probes: at the places where they can refuse, a step may refuse with any error.
- Which of several errors the ingest command names first: only whether it rejects.
- Path containment and read errors are one set of unreadable places, which inspection, stale check and re-read refuse. At the last check before a write such a place may raise or still be read, as through a link.
- The disposable executors and the probes: near copies of the production path.
- The preview functions for edit, move and delete: previews are arbitrary entries, which includes every one the code makes.
- Preview expiry by time inside `System`: a preview may be forgotten at any moment; `PreviewCache` has the times.
- Leftover `manifest.json.tmp-*` and `receipt.json.tmp-*` files in a record.
- Timestamps, schema versions other than 2 in the executor, file ids in plans, and `target_candidate_path` and similar plan fields that only the hash sees.
- The post-approval check compares canonical paths as well as content; here a mismatch is a refusal without a cause.
- The spelling of the executor's error codes: `Projection.Names` writes them in any way, and the truthfulness theorem does not depend on it.
- Guarantees.OneUnfinishedAtMost: only for calls that do not overlap, because two calls of different plans may both pass the second inventory.
- Solo.RecordTellsTheTruth: only without outside writers, because a writer can put any bytes at a prepared record's target.
- Solo.ReceiptTellsWhatIsOwed: likewise, and for plans that change something.
- The sorted order of plan lists, source-name rules, staging, study reports and database identity of the ingest command: each can only stop a run before an effect, which the runs cut off at every point include.
- A deleted path that is still there as something other than a note: it stops the run before the journal, which the runs cut off at every point include.
- Projection.OtherNotesShowStale: for re-reads that come to their end, because file identity and other probes may refuse first with any error.
- The dry run of the ingest command and its printed report.
- The texts in projected events: `Events.Words` stands for bounded texts, choices and which results are shown, and may give any. Of a run status only what run control looks at.
- Lone surrogates are a set of payloads that cannot be encoded (`Bridge.encodes`) and are answered with the refusal.
- The UTF-8 decoder, HTTP serving and the rendering of the page; text is a sequence of characters, and `MAX_SSE_FRAME_BYTES` counts them.
- `createSession` does not look again after its await, so the active run is not claimed to belong to the selected session.
- The page's history and evidence request counters, which guard rendering and not run control.
