# A model of delune's library engine

delune keeps a music library: it imports downloaded albums into a tree of files, puts better
copies in place of worse ones, merges and tidies folders, and can undo every such change. This
Dafny project models that engine and proves what it promises. It also models the queue for
download slots, the naming templates and the paths they make, and the arithmetic by which dates,
qualities and search results are ordered.

`dafny verify dfyconfig.toml` checks everything.

## How it is modelled

- **Files.** Library, trash and staging are one map from places to contents (`Paths`,
  `Relocation`). A rename is one step that may be refused; a refused step leaves the map alone.
  `Trash.Disk` holds that map and the batches' logs, and its methods change it in place, as do the
  methods of `Renumbering`, `Replacing`, `Arrivals`, `Importing`, `Destinations`, `Health`, `Merging`,
  `Duplicates`, `Tidying` and `Fixing`. The field `stuck` counts steps of an undo that the system refused: what is
  said about rolling back holds when none was. A `Journey` says where each file has got to, so that
  "nothing is lost, doubled or overwritten" is one statement about a bijection (`Relocated`).
- **Batches.** A batch is a run of operations, each putting a file away or moving one. Restoring is a
  function of the tree and the log (`Batches.Restored`), and the method `Trash.Restore` is proved
  against it. A history (`Histories`) is any sequence of puts, moves and restores over any number of
  batches, with a log for each.
- **Merging.** Each method of `Merging` takes the merge so far as ghost state and hands on the merge with
  its own steps. `Copies` says of the folders, before anything is done, which copy of a track gets in
  and which make way; `Tracing` follows a merge track by track and proves that it does what they say.
- **Tags.** A track has a body and stored tags (`Tracks`, `Tags`). What matters of the tags is the
  identity read from them; writing and reading back is proved rather than taken for granted.
- **Download slots.** `Downloads.Downloads` has the server's methods over the shared job list.
  `SlotProtocol` interleaves any number of tasks, step by step, with releases, limit changes,
  prioritising, cancelling and removing; its claims hold of every reachable state. A wake-up that
  has been sent but not delivered is counted as pending.
- **Templates.** The parser is a function of the remaining text (`Templates.ParseFrom`), and the
  recursive method with positions is proved to compute it. Printing, merging, rendering, sanitising and
  the optional year are functions; the loops of the source are methods proved against them.
- **Text.** Strings are sequences of characters with a UTF-8 width; lower case, letters and bracketed
  notes are parameters, with the few laws a theorem needs stated in it.

## What came out false

- Undoing renames moves files straight back. It restores the tree exactly when no later rename starts
  where an earlier one ends (`Renaming.UnrenamingIff`); renaming forward handles every permutation.
- The conflict check accepts plans that lose a file: two renames to one name, a rename to the name of a
  copy that is to be replaced, and a rename onto a file when a name differing from it only in case is
  vacated (`Unchecked`). Renaming loses nothing exactly when targets are distinct and each is free or
  renamed away (`Overwriting.RenamingKeepsFilesIff`); the conflict check does not ask for that.
- An unsafe name among the replaced files stops the trashing without putting back the copies put away
  before it: that error leaves ahead of the restore. Two names suffice
  (`Replacing.UnsafeNameStrandsCopy`). The import is then without effect exactly when there was no file
  under any of the names before it (`Importing.StoppedImportIs`).
- A failed cover step is not rolled back: the plan stays carried out (`Importing.Execute`,
  `Importing.CoverFailureKeepsTracks`). With an unsafe cover name no import succeeds; without a cover,
  and without unsafe names, every failure puts everything back.
- Restoring a batch is exact exactly when the batch puts nothing away from a place its own moves filled,
  and no library file at the top level that is named like a batch's own records
  (`Batches.UndoIsExactIff`). Such files are lost (`Batches.AllButRecordsReturn`,
  `Batches.RestoreKeepsFilesIff`), and so is a file put away twice into one batch
  (`Batches.NothingDeletedIff`). Over any history of batches, nothing else is
  (`Histories.NothingLostIff`).
- Merging loses a file when two of the other folders have the same track, each in a better copy than
  the one before, and the copies that make way share a name: the second is put into the batch over the
  first (`LostCopy.CopyIsLost`). For folders where the copies of a track can be followed
  (`Copies.Folders.Orderly`), a merge can be undone exactly when no more than one of the other folders'
  copies of each track gets in, being better than all before it (`OneTakenIn`), and keeps every file
  exactly when no two copies that make way, or what goes with them, were in one place
  (`DisplacedApart`); `Merging.MergeInto` and `Fixing.FixSplit` say so, and for any folders give the
  exact condition on the run.
- Merging folders whose track keys are all different can still leave a batch that can't be undone,
  through lyrics that arrive under a number (`LostLyrics.UniqueKeysAreNotEnough`).
- A batch's log doesn't read back as written when an old path has a tab, either path a line feed, or a
  new path ends in a carriage return (`Notes.ReadsBackIff`).
- More tasks can download than there are slots: removing a running job, or a second task of a running
  job giving up, frees the slot under the task (`SlotProtocol.RunnersHoldIff`,
  `SlotProtocol.OneMoreRuns`). The jobs that hold slots stay within the limit all the same.
- When a file has moved but the note of it can't be written, the fix is undone around that move: a failed
  tidying then leaves that one file where it was moved (`Fixing.FixMixed`, `Unnoted.OneFileStays`), a
  failed merge too, with the copy it took the place of in the trash (`Merging.MergeCutShort`). After a
  merge and a tidying everything is back exactly when the tidying moved the file to where the merge had
  found it (`Fixing.FixSplit`, `Unnoted.ThereAndBack`). The failing note itself loses no file.
- The album tags that merging writes are not noted, so undoing a merge restores places and bodies but not
  those tags, unless they said the same before (`Health.AlbumTagsStay`).
- A template whose path begins with the trash folder gives destinations in the trash
  (`Destinations.PlanIsProperIff`).
- Tidying reaches a fixed point exactly when the album's name is not blank and the credited artist
  survives being written and read (`Looks.TidySettlesIff`); otherwise the same folder is found untidy
  each time.
- Without a year, the optional-year template keeps a `[` that would open its group and drops a `]` that
  would follow it. It renders like the template without years exactly when no component has either
  (`Years.YearlessIff`, `Years.OptionalYearsOfTemplates`).
- Sanitised components are safe exactly for a replacement of at most one byte that is neither a separator
  nor a dot (`Rendering.SafeIff`).
- An album whose name is just a year and a dash loses its key when a bracket is added
  (`AlbumKeys.OneDecorationIff`).

## Model

| member | source | states |
|---|---|---|
| SlotProtocol.NoLostWakeUp | crates/delune-server/src/downloads.rs:157-231 | In every state of every run of tasks and controls, a waiting job that a slot is free for has a task about to try (or already notified), or a wake-up is still pending |
| SlotProtocol.QuietMeansFull | crates/delune-server/src/downloads.rs:200-217 | When no task can take another step and no wake-up is pending, nobody is waiting or every slot of the limit is held |
| SlotProtocol.StepKeepsInv | crates/delune-server/src/downloads.rs:157-231 | Every step of every task, and every release, limit change, prioritising and removal, keeps the invariant behind those two: reads of the limit are fresh or a wake-up is due, and a parked task has nothing to try |
| SlotProtocol.HoldersNeverExceedLimit | crates/delune-server/src/downloads.rs:157-188 | While limits are set, no run ever has more holders than the largest limit in force so far, whatever the interleaving and however the limit changes |
| SlotProtocol.HoldersNeverExceedLimitSet | crates/delune-server/src/downloads.rs:144-188 | The same for a server that starts without a limit and sets one before anything else happens |
| SlotProtocol.StaysWithinLimit | crates/delune-server/src/downloads.rs:157-188 | From any state within a limit, no interleaving gets beyond it as long as no higher one is set |
| SlotProtocol.NoLeakedSlot | crates/delune-server/src/downloads.rs:157-211 | In every state of every run, a job that holds a slot has a task that downloads: no slot is held by nobody |
| SlotProtocol.RunnersHoldIff | crates/delune-server/src/downloads.rs:191-217 | From a state where every running task holds a slot of its own, a step keeps it so if and only if it neither removes a running job nor is a second task of a running job giving up |
| SlotProtocol.AsManyRunAsHold | crates/delune-server/src/downloads.rs:157-217 | In a run without such steps as many tasks download as jobs hold a slot |
| SlotProtocol.OneMoreRuns | crates/delune-server/src/downloads.rs:191-217 | After the first such step one more task downloads than slots are held |
| SlotProtocol.PrioritiseMovesToFront | crates/delune-server/src/downloads.rs:220-231 | Prioritising leaves nobody ahead of the job, the same jobs waiting, and the order of any two others as it was |
| Slots.GrantRespectsLimit | crates/delune-server/src/downloads.rs:157-188 | A grant adds exactly one holder and stays within the limit it read |
| Slots.TakenIndex | crates/delune-server/src/downloads.rs:157-188 | A grant goes to the one job that asked, which had fewer waiting ahead of it than there were free slots; no other job changes hands |
| Slots.NotTaken | crates/delune-server/src/downloads.rs:157-188 | A refused attempt leaves every slot as it was, with the asker in line, and the asker still can't start |
| Slots.AttemptKeepsOthersOut | crates/delune-server/src/downloads.rs:157-188 | One job's attempt never makes a slot free for another job that had none |
| Slots.NumberedInOrder | crates/delune-server/src/downloads.rs:157-188 | A waiting job shows one more than the number of jobs ahead of it that the free slots don't reach: 1, 2, 3… in line order |
| Slots.LineUpIsInOrder | crates/delune-server/src/downloads.rs:157-188 | The sorted line is in the order of priority, then age, then id |
| Downloads.Downloads.TryTakeSlot | crates/delune-server/src/downloads.rs:157-188 | The new job list and the answer are those of one attempt under the current limit, with every waiting job's place renewed |
| Downloads.Downloads.RenumberLine | crates/delune-server/src/downloads.rs:168-187 | Going down the sorted line grants the asker its slot only within the free ones and tells every other job its place |
| Downloads.Downloads.ReleaseSlot | crates/delune-server/src/downloads.rs:191-198 | The job loses its slot or its place in line, nothing else changes, and everyone waiting is woken |
| Downloads.Downloads.Prioritise | crates/delune-server/src/downloads.rs:220-231 | A waiting job gets a priority above all others and everyone is woken; any other job, or none, changes nothing |
| Downloads.Downloads.Remove | crates/delune-server/src/downloads.rs:943-964 | The job leaves the list, the order of the others stays, and everyone waiting is woken if it was there; who may remove it and what else is thrown away is left out |
| Downloads.Downloads.SetSlots | crates/delune-server/src/downloads.rs:144-149 | The limit changes, and everyone waiting is woken exactly when it really did |
| Batches.UndoIsExactIff | crates/delune-library/src/trash.rs:123-196 | Restoring a batch gives back every file at its place with nothing left over if and only if the batch never put away a file from a place one of its own earlier moves filled, nor a top-level file named like its own records |
| Batches.UndoIsExact | crates/delune-library/src/trash.rs:157-196 | For such a batch, however its puts and moves are interleaved, undoing the moves newest first and then putting the contents back is the inverse of the batch |
| Batches.PutsComeFirst | crates/delune-library/src/trash.rs:157-196 | The interleaved puts and moves of such a batch have the same effect as all puts followed by all moves, which is the order restoring relies on |
| Batches.UnsettledMeansLeft | crates/delune-library/src/trash.rs:162-177 | Otherwise restoring reports at least one file it could not bring back |
| Batches.NothingDeleted | crates/delune-library/src/trash.rs:57-97 | A run of puts and moves of one batch that puts no path away twice keeps every file, once, somewhere in library or trash |
| Batches.NothingDeletedIff | crates/delune-library/src/trash.rs:57-97 | A run loses no file if and only if no path is put away twice in one batch |
| Batches.RestoreKeepsFiles | crates/delune-library/src/trash.rs:157-196 | Restoring never overwrites a file and never drops one, whatever else has happened since |
| Batches.RestoreKeepsFilesIff | crates/delune-library/src/trash.rs:123-196 | Restoring any batch of library files loses one if and only if it reports nothing left and the batch holds a file named like its own records |
| Histories.NothingLostIff | crates/delune-library/src/trash.rs:57-196 | Over any sequence of puts and moves into any batches and restores of any, in any order, no file is lost if and only if every put goes to a place its batch doesn't hold and every restore that reports nothing left is of a batch without files named like its records |
| Histories.NothingIsDeleted | crates/delune-library/src/trash.rs:57-196 | So whatever was put, moved and restored, every file is still there, once, unchanged, when no path is put twice into one batch and no top-level file is named like a batch's records |
| Batches.AllButRecordsReturn | crates/delune-library/src/trash.rs:123-126 | After any run that puts away only settled files, restoring returns every file but the top-level ones named like the batch's own records; those go with the batch's folder |
| Trash.Put | crates/delune-library/src/trash.rs:57-97 | A put is a run of single moves into the batch: of the file and of companions of its name, and of no others; it is done only if all of them moved |
| Trash.Restore | crates/delune-library/src/trash.rs:157-196 | Restoring in place leaves the tree and the report of the specification when no rename is refused, and keeps every file in any case |
| Trash.UndoNoted | crates/delune-library/src/trash.rs:161-177 | Undoing the noted moves newest first, leaving those whose places are taken |
| Trash.PutBackFiles | crates/delune-library/src/trash.rs:178-191 | The batch's files whose places are free go back; the others stay and are reported |
| Trash.Disk.RecordMove | crates/delune-library/src/trash.rs:104-112 | A note is appended only for paths outside the trash, and only to its own batch |
| Notes.ReadsBackIff | crates/delune-library/src/trash.rs:104-121 | The lines of a log read back as the moves written if and only if no old path has a tab, neither path a line feed, and no new path ends in a carriage return |
| Notes.NoteAppended | crates/delune-library/src/trash.rs:111 | Noting a move appends its line to those before |
| Trash.Disk.Rename | crates/delune-library/src/import.rs:596-614 | A rename replaces what was at the target, or fails and changes nothing |
| Importing.Execute | crates/delune-library/src/import.rs:455-573 | Nothing moves when a name is taken or unsafe. For a well-made plan a success realises it, permutations and cycles of numbers included. A failure leaves library and staging as they began when no later rename starts where an earlier one ends, but in two cases: an unsafe name among the replaced files leaves those trashed before it in the trash, and a failing cover leaves the plan carried out |
| Importing.PlanRealised | crates/delune-library/src/import.rs:455-573 | After all stages each rename's target holds what its file held, unless that went to the trash as the companion of a replaced copy, each destination holds its staged track, each replaced copy is in the trash, every other file is untouched, and no file is lost or doubled |
| Importing.AudioRenamesHold | crates/delune-library/src/import.rs:496-517 | An audio file is never such a companion: renamed, it is at its target |
| Importing.StoppedImportIs | crates/delune-library/src/import.rs:519-528 | When an import stops at an unsafe replaced name, no file is lost, each copy replaced before it is in the trash and not in the library, and everything is as it began if and only if there was none |
| Importing.CoverFailureKeepsTracks | crates/delune-library/src/import.rs:566-573 | What `Execute` says of a failure, for an unsafe cover name: told of that name, the plan is carried out and its tracks have left staging; told anything else, everything is as it was |
| Importing.RenamesAreSafe | crates/delune-library/src/import.rs:417-438 | Distinct files, targets and temporary names, together with an empty conflict check, keep renames out of each other's and of everyone's way |
| Importing.DestinationIsFree | crates/delune-library/src/import.rs:417-438 | When the tracks arrive, each destination is free: whatever was there has been renamed or replaced, and nothing has come since |
| Importing.MoveTracks | crates/delune-library/src/import.rs:497-565 | Trashing and arriving after the renames succeed as planned, or everything is put back, but for what was trashed before an unsafe name |
| Importing.MoveCover | crates/delune-library/src/import.rs:566-571 | The cover only ever moves to a free place; an error leaves it in staging |
| Plans.FindConflicts | crates/delune-library/src/import.rs:417-438 | The check finds nothing if and only if every destination is a plain relative path that is free or being vacated, and no arriving track takes a rename's name |
| Plans.BringHome | crates/delune-library/src/import.rs:464-485 | Moving files straight back, in order, is bringing them home one by one |
| Rollback.HomeAgainIff | crates/delune-library/src/import.rs:464-475 | Bringing files straight home in order restores the tree if and only if no home is occupied by a file that goes home later |
| Rollback.HomeTaken | crates/delune-library/src/import.rs:464-475 | Otherwise bringing them home overwrites a file |
| Renaming.UnrenamingIff | crates/delune-library/src/import.rs:464-475 | Undoing renames that all succeeded restores the tree if and only if no later rename starts where an earlier one ends |
| Renaming.AllRenamedComesHomeIff | crates/delune-library/src/import.rs:464-475 | That condition on the plan is the same as homes being free in time, in the order the undo goes through |
| Renumbering.RenumberFiles | crates/delune-library/src/import.rs:461-517 | Renaming through temporary names has the effect of all parkings then all settlings; safe renames are carried out whatever their permutation; a failure puts everything back when no later rename starts where an earlier one ends |
| Renumbering.ParkFiles | crates/delune-library/src/import.rs:476-494 | Each file gets its temporary name in order; a failure puts back those before it, as long as the files are distinct and the temporary names unused and distinct |
| Overwriting.RenamingKeepsFilesIff | crates/delune-library/src/import.rs:461-517 | With files that are there and temporary names of their own, renaming loses no file if and only if the targets are distinct and each is free or itself renamed away |
| Overwriting.NoneLostIff | crates/delune-library/src/import.rs:596-614 | Moving files one after another loses none if and only if no place is moved to twice or while a file is there |
| Unchecked.SharedTargetIsMissed | crates/delune-library/src/import.rs:417-438 | Two renames to one free name pass the conflict check and lose a file |
| Unchecked.ReplacedTargetIsMissed | crates/delune-library/src/import.rs:418-433 | A rename to the name of a copy that is to be replaced passes the check and overwrites that copy before it can be put in the trash |
| Unchecked.CaseIsMissed | crates/delune-library/src/import.rs:418-433 | The check compares lower-case names: a rename onto a file passes when another file whose name differs only in case is renamed away |
| Replacing.TrashReplaced | crates/delune-library/src/import.rs:577-594 | Every replaced file that exists, and what goes with it, is in the trash; a refused put puts everything back, an unsafe name leaves what was done for the names before it |
| Replacing.StoppedIff | crates/delune-library/src/import.rs:577-586 | Stopping after some names has put each of their files in the trash, and is without effect if and only if there was none |
| Replacing.UnsafeNameStrandsCopy | crates/delune-library/src/import.rs:577-586 | With two names, the first a file's and the second unsafe, the first file is in the trash in every state the trashing can stop in, and there is one |
| Replacing.PutsUndone | crates/delune-library/src/import.rs:519-528 | Putting replaced copies away and restoring the batch is exact |
| Arrivals.Arrive | crates/delune-library/src/import.rs:530-565 | Tracks arrive one after another; a failure takes back those that already arrived |
| Arrivals.ArrivingKeepsFilesIff | crates/delune-library/src/import.rs:530-565 | Arriving replaces no file if and only if the destinations are distinct and free |
| Planning.MakePlan | crates/delune-library/src/import.rs:84-223 | Each track's destination is the first free one of the stem its name renders to, each track is skipped or replaces the existing copy it matches by the quality rule, and the existing tracks whose number has changed and that aren't replaced get their new names |
| Planning.FreeDestination | crates/delune-library/src/import.rs:162-166 | The suffix loop ends with the first name that is free ignoring case |
| Planning.ChooseDestinations | crates/delune-library/src/import.rs:118-166 | Destinations are pairwise distinct ignoring case |
| Planning.AlreadyThere | crates/delune-library/src/import.rs:227-250 | Each staged track is matched with the first unclaimed existing track of its exact key, or with the only one alike |
| Planning.ReplacedOnce | crates/delune-library/src/import.rs:167-177 | No file is replaced twice, since no existing track is matched twice |
| Planning.Renumberings | crates/delune-library/src/import.rs:206-297 | The existing tracks whose number differs from their position in the track list, and that aren't replaced, and only those, are renamed, in album order, to their rendered name with the lower-case extension |
| Planning.NewNameIsAudio | crates/delune-library/src/import.rs:286-293 | A renumbered track is still an audio file |
| Destinations.DestinationsResolve | crates/delune-library/src/import.rs:407-413 | A destination built from any rendered template resolves if and only if something was rendered, or there is an extension or a number |
| Destinations.FolderDestinationsResolve | crates/delune-library/src/import.rs:155-166 | A destination in an existing album's folder resolves to a file directly in that folder |
| Destinations.PlanIsProperIff | crates/delune-library/src/import.rs:118-166 | All destinations of a plan are plain paths outside the trash if and only if no rendered path of two or more names begins with the trash folder, or the album's folder doesn't |
| Destinations.PlanSuitsImport | crates/delune-library/src/import.rs:84-223 | A plan for rendered paths that keep out of the trash has the proper and distinct destinations, the skips without replacement, and the renames of files that aren't replaced, that carrying it out asks for |
| Destinations.PlanIsWellMade | crates/delune-library/src/import.rs:84-223 | Such a plan is well made, but for what depends on the other files of the library: names that differ only in case, and the targets and temporary names of its renames |
| Destinations.Import | crates/delune-library/src/import.rs:84-573 | From rendered names through the plan to the library: a success realises the plan, a failure puts everything back or comes from the cover |
| Merging.MergeInto | crates/delune-library/src/health.rs:349-387 | Merging, however it ends, is a run of puts and moves. With the batch's log empty before, restoring undoes it (but for a last move whose note failed) if and only if the run puts nothing away from where it had moved something, when every move was noted; every file is kept if and only if nothing is put away twice. Folders whose keys never meet allow both. When a track's copies can be followed, a complete merge can be undone exactly when of the other folders' copies at most one gets in, and keeps all files exactly when no two copies that make way were in one place; it empties the other folders |
| Tracing.FollowedToTheEnd | crates/delune-library/src/health.rs:349-378 | A merge followed through all tracks: no put of something moved there if and only if the folders let in at most one copy of a track (`OneTakenIn`), no put repeated if and only if the copies that make way were apart (`DisplacedApart`) |
| Tracing.FollowOne | crates/delune-library/src/health.rs:354-370 | Merging one track, whether it moves in, takes over or goes to the trash, keeps what is known of the kept folder: of every track it has one of the best copies so far and what goes with it, under the names the folders say |
| Tracing.FollowPart | crates/delune-library/src/health.rs:354-370 | A step that stops part way leaves a run that can be undone, and keeps all files, if the folders allow it for the whole merge |
| LostCopy.CopyIsLost | crates/delune-library/src/health.rs:349-370 | Two folders merged into a third, all with a copy of one track under one name, each better than the last: both steps are as merging does them, the second copy put away replaces the first in the batch, and a file is lost |
| Merging.MergeFile | crates/delune-library/src/health.rs:354-370 | A track without a twin moves in, one that outranks its first twin moves in after the twin is put away, any other is put away; each with what goes with it, in full when the step ends well |
| Merging.FindTwin | crates/delune-library/src/health.rs:356 | The twin is the first track by name of the kept folder with the same key of at least two bytes |
| Merging.MergeComesTo | crates/delune-library/src/health.rs:349-417 | However far a merge got: every file is there, once, unchanged, if and only if it put nothing away twice; restoring undoes it if and only if it put away nothing it had moved in, and but for the one unnoted move if it is cut short |
| Unnoted.RunKeepsFilesIff | crates/delune-library/src/trash.rs:58-101 | A run of puts and moves into a new batch keeps every file if and only if no path is put away twice |
| Merging.MergeCutShort | crates/delune-library/src/health.rs:413-417 | When the last move's note failed and nothing moved in was put away, restoring gives back everything but that one file; a copy it took the place of stays in the trash and is reported |
| LostLyrics.UniqueKeysAreNotEnough | crates/delune-library/src/health.rs:349-417 | Two folders merged into a third, each step as merging does it, with a key of its own for every track: lyrics arrive under a number and are put away with the kept copy of the track that has that number in its name, and the merge can't be undone |
| LostLyrics.OneAlbum | crates/delune-library/src/merge.rs:224-246 | The three folders of that merge are one album's by their names |
| Health.MoveIn | crates/delune-library/src/health.rs:391-434 | A file and its companions move to places of their own in the target, under their own names unless these are taken, each noted in the log but for a last one whose note fails, replacing nothing; their bodies are unchanged |
| Health.MoveInKeepsFiles | crates/delune-library/src/health.rs:391-434 | However it ended, noted or not, no file is lost |
| Health.AlbumTagsStay | crates/delune-library/src/health.rs:418-430 | Undoing such a move restores the place but not the tags: everything is back if and only if the tags already said what was written |
| Unnoted.BackIff | crates/delune-library/src/trash.rs:157-196 | After a run with one unnoted move, where no file moves twice, restoring gives back the library if and only if that move took its file back to where the run had first moved it from |
| Unnoted.BackButForOne | crates/delune-library/src/trash.rs:157-196 | When no noted move brought that file or vacated its new place, restoring gives back everything but that one move, and reports only what it finds taken |
| Unnoted.BackAfterLaterIff | crates/delune-library/src/trash.rs:157-196 | The same condition when further noted moves, of other files and from other places, come between |
| Unnoted.KeptUnnoted | crates/delune-library/src/trash.rs:157-196 | Either way no file is lost |
| Unnoted.OneFileStays | crates/delune-library/src/health.rs:416-417 | A library of one file, moved without a note: after restoring it is where it was moved |
| Unnoted.ThereAndBack | crates/delune-library/src/trash.rs:157-196 | A file moved with a note and back without one is home again, and reported as left |
| Health.FreeName | crates/delune-library/src/health.rs:406-414 | The numbering loop ends with a name nobody has |
| Health.MergeUndone | crates/delune-library/src/trash.rs:157-196 | Restoring a merge's batch returns every file to its place, with nothing reported left, if and only if nothing was put away from where the merge had moved it |
| Health.KeptNamesakeIsSettled | crates/delune-library/src/health.rs:354-370 | What is put away with a kept track was never brought there by the merge, when track keys and possible numbered names are their own |
| Duplicates.KeepBest | crates/delune-library/src/health.rs:335-345 | Of a folder's tracks exactly the best copy of each stays, and nothing goes but the other copies and files named like them and like no kept track |
| Duplicates.BestOf | crates/delune-library/src/health.rs:337-338 | The best copy ranks highest, and is the first by name among those that do |
| Duplicates.ExtraMayGo | crates/delune-library/src/trash.rs:69-85 | Putting another copy away never takes the lyrics or cue sheet a kept track needs |
| Duplicates.FixDuplicates | crates/delune-library/src/health.rs:279-332 | Keeping the best copies is a batch that can be undone, and is put back when a put fails |
| Fixing.FixMixed | crates/delune-library/src/health.rs:317-331 | Making a folder one album is a batch that undoing inverts in places, bodies and album identities; a failed one is put back if and only if no move went unnoted, and otherwise but for that one file; no file is ever lost |
| Fixing.FixSplit | crates/delune-library/src/health.rs:309-331 | A finished fix can be undone in places and bodies if and only if its merge put away nothing it had moved in, and any fix keeps every file if and only if the merge put nothing away twice; both are told from the folders as for `Merging.MergeInto`. A failed one is put back if no move went unnoted, and otherwise if and only if that move took its file back to where the merge had found it |
| Fixing.Undo | crates/delune-library/src/tidy.rs:425-428 | Undoing a batch replays the tag notes newest first and then restores the files; no file is lost, whatever is in the way |
| Tidying.Tidy | crates/delune-library/src/tidy.rs:330-386 | A tidying moves the strays out and retags the members, noting both, but for a last move whose note fails; what is left in the folder is the listing the second look sees |
| Tidying.TidyKeepsFiles | crates/delune-library/src/tidy.rs:330-386 | However it ended, noted or not, no file is lost |
| Tidying.SecondTidyIff | crates/delune-library/src/tidy.rs:165-244 | After a complete tidying a second look finds no strays and nothing to retag if and only if the album's name isn't blank and its artist survives being written and read |
| Looks.TidySettlesIff | crates/delune-library/src/tidy.rs:165-244 | The same for the identities alone: tidying reaches a fixed point if and only if that holds |
| Looks.PlainArtistsSettle | crates/delune-library/src/tidy.rs:97-105 | In particular it does when no artist holds a semicolon |
| Looks.SettledIff | crates/delune-library/src/tidy.rs:165-244 | A folder whose tracks agree on all else is settled if and only if it has an album name and one artist |
| Looks.RetaggingChanges | crates/delune-library/src/tidy.rs:352-372 | A track the look disagrees with really gets other tags |
| Looks.CreditHoldsNames | crates/delune-library/src/tidy.rs:97-105 | Several artists joined into one credit come apart again |
| Albums.WithoutRepeats | crates/delune-library/src/tidy.rs:97-105 | The loop keeps the first of each repeated artist, in order |
| Albums.FindMostCommon | crates/delune-library/src/tidy.rs:107-117 | Counting and comparing finds the value the specification names |
| Albums.CommonestWins | crates/delune-library/src/tidy.rs:107-117 | That value is counted most often, and is the first among those that are |
| Albums.MainKeyBeats | crates/delune-library/src/tidy.rs:165-200 | The main album is the one more tracks carry, then the one named like the folder, then the smaller key, and there is one such |
| Tags.WrittenIsRead | crates/delune-library/src/tidy.rs:290-311 | Reading what was written gives the identity back, but for the track's own artist, and for the year when an old note leaves it |
| Tags.ValuesReadBack | crates/delune-library/src/tidy.rs:63-94 | Clean values without semicolons are read as they are written |
| Tags.JoinedValuesComeApart | crates/delune-library/src/tidy.rs:63-94 | Several values written as one, with semicolons between, are read as those values |
| Tidying.FolderName | crates/delune-library/src/tidy.rs:247-261 | The folder made for a stray album has a plain name that is not hidden |
| Retags.TagsUndone | crates/delune-library/src/tidy.rs:398-418 | Replaying the notes newest first gives every file the identity it began with |
| Retags.OldestTagsWin | crates/delune-library/src/tidy.rs:398-418 | A file noted several times ends with its oldest noted tags |
| Retags.BatchUndone | crates/delune-library/src/tidy.rs:425-428 | Undoing tags and then files restores every identity and every place |
| Tracks.RestoredSees | crates/delune-library/src/trash.rs:157-196 | Restoring goes by places alone: it commutes with any view of what the files hold |
| Layouts.ParseInvertsPrint | crates/delune-library/src/layout.rs:380-392 | Parsing the printed form of any text and token pieces gives those pieces with neighbouring texts merged; without any it is the empty-template error |
| Layouts.PartsAreMerged | crates/delune-library/src/naming.rs:184-250 | The merged parts spell what the pieces spell, with no empty text and no two texts side by side |
| Layouts.OneMerging | crates/delune-library/src/naming.rs:184-250 | There is only one such list of parts for a spelling |
| Templates.ParseParts | crates/delune-library/src/naming.rs:184-250 | The recursive loop over positions computes the parse of the remaining text |
| Templates.Parse | crates/delune-library/src/naming.rs:156-164 | Parsing a template is parsing its text from the start, and refuses one with nothing in it |
| Templates.ProblemPosition | crates/delune-library/src/naming.rs:156-250 | Every reported problem other than an empty template is at a bracket or brace of the template |
| Rendering.RenderedIsSafe | crates/delune-library/src/naming.rs:173-181 | With a safe replacement, rendering any parsed template on any values gives components that are names within the byte limit, free of separators, never `.` or `..`, and no more than the template's own slashes make |
| Rendering.RenderPath | crates/delune-library/src/naming.rs:173-181 | Splitting at slashes, sanitising, dropping what is empty and joining gives the rendered path |
| Rendering.SafeIff | crates/delune-library/src/naming.rs:323-356 | Every component, whitespace style and limit is sanitised safely if and only if the replacement is at most one byte, no slash and no dot |
| Rendering.SanitizeComponent | crates/delune-library/src/naming.rs:323-356 | The steps compute the sanitised component |
| Rendering.Truncate | crates/delune-library/src/naming.rs:338-346 | The shortening loop finds the longest prefix that fits the byte limit |
| Rendering.OneFits | crates/delune-library/src/naming.rs:338-346 | There is only one longest prefix that fits |
| Rendering.RenderParts | crates/delune-library/src/naming.rs:252-272 | Rendering appends each part, groups only when all their values are there |
| Years.OptionalYearIsFaithful | crates/delune-library/src/layout.rs:396-434 | A path's template with optional years renders like the plain one when the year is there, and like the one without years when it isn't if and only if in no component the group opens with `[` or is followed by `]` |
| Years.OptionalYearsOfTemplates | crates/delune-library/src/layout.rs:396-434 | The same of the parser with delune's own token names |
| Years.OptionalYearIff | crates/delune-library/src/layout.rs:396-434 | For one component: the parsed template renders like the one without the year exactly when no such loose bracket meets the group |
| Years.ParserReadsGroup | crates/delune-library/src/naming.rs:184-250 | A printed group whose brackets meet no others is read as one optional part |
| Years.PathWithoutYearIff | crates/delune-library/src/layout.rs:396-434 | Without a year, over any number of components, the two texts agree if and only if no component has such a loose bracket: differences can't cancel out, as every loose bracket opens one more or closes one less |
| Years.YearlessIff | crates/delune-library/src/layout.rs:396-434 | Without a year the group's own leading `[` stay and the `]` after it go, so the text is that of the template without the year if and only if there are none of either |
| Splitting.Component.SplitIn | crates/delune-library/src/layout.rs:366-378 | Splitting a text at a match keeps what the component spells when tokens stand for their matched text |
| Splitting.Component.ReplaceWords | crates/delune-library/src/layout.rs:265-285 | The first matching words of the first text that has them become a token; the component still spells the same |
| Splitting.Component.ReplaceNumber | crates/delune-library/src/layout.rs:311-323 | The first fitting number becomes a token; the component still spells the same |
| Splitting.Component.ReplaceDiscTrack | crates/delune-library/src/layout.rs:327-345 | A disc number, one character and a track number become a token; the component still spells the same |
| Splitting.SplicedSpells | crates/delune-library/src/layout.rs:366-378 | Replacing a stretch of text by a token and putting the stretch back is the identity |
| Splitting.DigitRuns | crates/delune-library/src/layout.rs:348-364 | The loop lists exactly the maximal runs of digits, in order |
| Splitting.FindDiscTrack | crates/delune-library/src/layout.rs:327-345 | A disc and track pair is found exactly when there is one |
| AlbumKeys.KeysIgnoreDecorationIff | crates/delune-library/src/merge.rs:224-246 | Adding any number of year or format brackets leaves an album's key alone if and only if the name isn't just a year and a dash |
| AlbumKeys.OneDecorationIff | crates/delune-library/src/merge.rs:224-246 | The same for one bracket; a name that is just a year and a dash loses its key |
| AlbumKeys.StripDecoration | crates/delune-library/src/merge.rs:231-244 | The stripping loop ends with the undecorated name |
| AlbumKeys.FindTitleKey | crates/delune-library/src/merge.rs:80-98 | The loop over the shrinking rest computes the title key |
| AlbumKeys.TitleKeyTrims | crates/delune-library/src/merge.rs:80-108 | Whitespace after a title does not change its key |
| Dates.CountsEachDay | crates/delune-server/src/automation.rs:320-332 | The era formula grows by exactly one from each valid date to the next under the Gregorian leap rule |
| Dates.CountsDays | crates/delune-server/src/automation.rs:320-332 | It is the number of days after 1 January 1970 |
| Dates.TimestampIsExact | crates/delune-server/src/automation.rs:320-332 | The timestamp of a valid date is the midnight that many days after the epoch; earlier dates have none |
| Dates.ConversionsAgree | crates/delune-bandcamp/src/lib.rs:337-367 | Both conversions give the same seconds for every valid date both accept |
| Qualities.FieldsDontOverlap | crates/delune-core/src/quality.rs:123-135 | The rank of a lossless file is its flag, depth field and rate field side by side: joining them with or never carries into a neighbour |
| Qualities.LosslessInOrder | crates/delune-core/src/quality.rs:116-141 | Lossless files are ordered by depth, then whether it is known, then rate in 100 Hz steps, then whether it is known |
| Qualities.LosslessBeatsLossy | crates/delune-core/src/quality.rs:116-141 | Every lossless file beats every lossy one |
| Qualities.LossyInOrder | crates/delune-core/src/quality.rs:123-135 | Between lossy files of known bitrate, one with no more bitrate and no better codec never beats the other |
| Ranking.CompareInIsTotalOrder | crates/delune-core/src/api.rs:225-237 | The comparison is antisymmetric, transitive, and equal only for the same id |
| Ranking.Rank | crates/delune-core/src/api.rs:257-270 | The ranked list is a permutation sorted under the typical track count, the upper median, and with distinct ids the only one |
| Ranking.TypicalTracks | crates/delune-core/src/api.rs:257-264 | The typical track count is the upper median, at least one |

## Left out

- Importing.Execute: the tags written on the way (numbers of renumbered tracks, album tags of added ones) and taken back; the claims are about places and contents. A plan has to be well made (`Importing.WellMade`): proper names, the conditions of `Overwriting`, and no two names that differ only in case.
- Importing.Execute: directories, beyond a name being occupied by a folder with files in it.
- Trash.Disk.Rename: moves between file systems, which copy, sync and then delete, and may leave the copy when the original can't be deleted.
- Downloads.Downloads.Remove: who may see and remove a job, throwing its cancel switch, and deleting its staged files.
- Destinations.Import: the names the plan's renames use, and files that differ from its names only in case, depend on the rest of the library and remain conditions.
- Merging.MergeInto: the conditions on folders are exact where the copies of each track can be followed: the other folders' tracks have keys that tell something, the kept folder has at most one copy of each, any other file there with such a key goes with that copy, and ranks don't depend on tags (`Copies.Folders.Orderly`, `Merging.TagsDontCount`). Elsewhere `Health.Mergeable` is enough but not necessary, and the exact condition is on the run.
- Merging.MergeInto: the order in which companions and leftover files of one folder are moved is arbitrary; emptied folders are not removed; covers and lyrics are not embedded.
- Duplicates.KeepBest: the order of the groups, and of the copies put away, is arbitrary; the count of files is not kept.
- Fixing.FixSplit: what a failed fix leaves, beyond which files are lost, when its merge had put away something it had moved in.
- Trash.Disk.RecordMove: `Trash.Disk` keeps the log as a list of pairs; `Notes` says when its lines of text come to the same. Labels, `.ndignore` files, purging and batch names, which are taken to be fresh, are not modelled.
- Fixing.FixMixed, Fixing.FixSplit: the fingerprint of a finding and the limit on its size, which are checked before anything is touched.
- Tidying.Tidy: touching the folder so that the media server looks again, and other copies of an album's folder beyond a list of candidates.
- Tags.WrittenIsRead: tag formats; a file has one record of tags, and a write may fail as a whole.
- SlotProtocol.NoLostWakeUp: what downloading does while it holds a slot, and fairness of the runtime: the claims are about safety, not that every task runs in the end.
- Slots.NumberedInOrder: job counts of 2^32 and more.
- Planning.MakePlan: titles, keys, qualities and rendered names are given, and so is whether two keys may be one song; disc and track numbers, warnings and the album's identity are not modelled.
- Planning.Renumberings: the position of a title in the track list, and the path the new number renders to, are given.
- Rendering.RenderedIsSafe: the values of tokens are given, any strings; how they are made from tags is not modelled.
- Splitting.Component.ReplaceWords: positions count characters, where the source counts bytes; which replacements detection tries, and in what order, is not modelled.
- Ranking.Rank: sorting inserts into a new list, where the source sorts a slice in place; the outcome is unique when ids are.
- Ranking.TypicalTracks: overflow of `u32` products in judging completeness.
- Qualities.LossyInOrder: lossy files of unknown bitrate, which are ranked by a default.
- Dates.ConversionsAgree: splitting the text of a date into words and numbers; machine overflow for dates before the epoch in the second conversion.
- AlbumKeys.KeysIgnoreDecorationIff: lower case, letters and bracketed notes are given; whitespace is no letter and digits are their own lower case.
- `DownloadJob::refresh`, `same_title`, `position`, `usable`, layout detection, scanning and metadata reading: facts about single branches, or input and output.
- HTTP handlers, databases, clients, accounts, chat, alerts, artwork, caches, the web interface and the terminal interface.
