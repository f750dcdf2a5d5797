# Crash-tolerant file protocols of the local workspace backend

This project models the parts of the backend that must survive crashes, concurrency and
tampering, and proves what they promise. Verify with `dafny verify dfyconfig.toml` (Dafny 4.11).

## What is modelled

- **Controlled write** (`Records`, `Ledger`, `LedgerDirectory`, `LockFile`, `Operation`,
  `OperationProofs`, `OperationProgress`, `ControlledWrite`, `ControlledWriteProofs`,
  `ControlledWriteProgress`, `ControlledWriteRaces`, `ControlledWriteVerdicts`,
  `ControlledWriteRoundTrip`, `LedgerRaces`).
  `apply`, `restore` and `reconcile` are a step machine over the
  target, the create-only backup, the hash-chained ledger, the lock name with its inodes and
  advisory locks, and one program counter for each process. A step is one system call or one
  publication; any step may fail before or after its effect, any process may crash between
  steps, and outsiders may change the target at will. `ControlledWriteProofs` and
  `ControlledWriteProgress` have what rests on the lock excluding, `ControlledWriteRaces` and
  `ControlledWriteVerdicts` what holds even when a late lock failure lets several processes in,
  and `LedgerRaces` takes each append apart into read, publication and read-back, with no lock
  at all. The ledger grammar itself is the loop of
  `_validate_chain`, proved equal to an independent definition of an accepted ledger.
- **Authoring records** (`AuthoringStore`, `AuthoringRecovery`, `AuthoringCompletion`,
  `AuthoringRuns`, `AuthoringResults`, `AuthoringReplay`, `AuthoringBlocking`,
  `AuthoringBinding`, `AuthoringInterleaved`, `AuthoringFlow`, `AuthoringAttention`,
  `AuthoringCapacity`, `AuthoringService`). Requests, intents, outputs, receipts and bindings for
  any number of tasks; a call publishes a list of records and a crash leaves a prefix of that
  list; recovery, with and without a material root, is modelled with all its checks and may
  crash too.
- **Publication, segmentation, results** (`Publisher`, `Segments`, `MarkdownLines`, `BlockSegments`,
  `ResultVerifier`, `ResultAssembly`, `HitSelection`, `ResultGeneration`). The staged link/unlink
  routine under failure of any system call; both Markdown segmenters; the assembly of a
  conflict-free result and the structural checks of its verifier, with retrieval as an oracle.
- **Smaller cores** (`Telemetry`, `Loopback`, `Composer`, `Markers`, `ComposerAgreement`,
  `ComposerOriginal`, `ComposerReading`, `EventPatch`). The telemetry pump, at-most-once dispatch, append-only proposals, event patches.
  `Wrappers` holds the optional value that the modules share.

## Assumptions

- SHA-256 is injective and JSON canonicalisation is injective. A digest is the term it was
  computed from; an authoring or loopback record stands for its own hash.
- `os.replace`, `os.link` and exclusive creation take effect atomically; `Publisher` lets the
  link take effect and still report an error. In the ledger and in the record
  stores one publication is atomic and crashes fall between publications; the inner steps of a
  publication are the subject of `Publisher`. A stray temporary file in an operation directory
  makes the directory unreadable (`LedgerDirectory.EntryOk`), which fails closed.
- The authorized image differs from the original (the composer always appends a section).
- The retrieval library answers "no query tokens" or not depending on the query alone, and its
  hits are well formed. The builders of drafts, results and exports, the line heuristics, the
  digit class of regular expressions, path redaction and Unicode normalisation are parameters.
  `ComposerAgreement` needs one law of normalisation: the generated section, whose fields were
  normalised one by one and stand between ASCII separators, is already normalised.
- "Undisturbed" means that nothing but the protocol changes the target (`Op.clean`); in the
  authoring theorems the sources do not change (`AuthoringStore.Steady`).

## Findings

- The lock excludes as long as no creator fails *late*: between writing its complete record and
  holding the lock it still has to sync the record, look the name up and read the record back
  (controlled_write.py:555-617), and an I/O error in any of these makes it unlink a name that
  another process may have recovered meanwhile. `LockFile.MutualExclusion` covers every run
  without such a failure. `LockFile.ExclusionExactly` is the exact condition: from any state of
  the lock invariant, a failure of p lets two processes in with no further late failure if and
  only if p's record is complete. `LockFile.AfterLateFailure` names the run, for any two other
  idle processes.
- Two processes let in by a late lock failure cannot use an authorization twice
  (`ControlledWriteRaces.SingleUse`; `LedgerRaces.SingleUseUnlocked` with appends taken apart),
  the ledger stays closed after a receipt (`ControlledWriteRaces.LedgerClosed`), and COMMITTED is
  never false (`ControlledWriteVerdicts.CommittedIsTrue`). But FAILED_NO_EFFECT can be: one process
  reconciles while the other stands between its dispatch and the replacement.
  `ControlledWriteRaces.LateFailureBreaksVerdict` gives the run, for every target and proposal, and
  `ControlledWriteRaces.ReplacedAfterReceipt` the exact condition: after a receipt the target can
  still be replaced if and only if some process stands there.
- A creator that dies before its lock record is complete blocks the target for good
  (`LockFile.WedgedForever`); `LockFile.AcquirableIff` says exactly when the lock can be had.
- A task can be blocked for good: no call, no new key and no recovery ever publishes its binding.
  `AuthoringBinding.BoundExactly` gives the exact condition, `AuthoringBlocking.Bindable`, on the
  records alone: with a result, one draft intent, one result intent, and no export that stops
  recovery; with a draft only, one draft intent, and its receipt or no request for a result yet,
  and a draft that can be turned into a result; with neither, no draft intent, usable sources, and
  room for the task. When it holds `AuthoringBinding.BindableBinds` names the run that binds. Blocked
  families: a draft intent without its output, whether the call died there or the builder
  rejected the draft (`DraftIntentBlocks`, `RejectedDraftBlocks`), with or without a retry; a
  result published beside an earlier result intent and not bound (`SecondResultBlocks`); a draft
  whose receipt is missing once a result was asked for (`UnfiledDraftBlocks`). This is why the
  recovery theorem asks for one intent in each slot.
- Recovery ends in attention exactly when an intent lacks its output, an output without a receipt has
  several intents, or an unbound result has several intents for draft or result or an unpublished
  catalog (`AuthoringAttention.RecoversExactly`).
- A publication that ends with an ordinary error has left the final name alone, unless the link
  call was made on a free name, took effect and still reported an error; then, and only then, the
  error is `PRECOMMIT_CLEANUP_FAILED` with the whole data in place under both names
  (`Publisher.Directory.Publish`). When nothing but the link call fails, that is exactly what its
  late failure leads to.
- The composer's output fails the validator exactly when a field holds a complete marker
  (`ComposerAgreement.ComposerMeetsValidator`); a task that reads like the start marker is one
  (`ComposerAgreement.MarkerTaskRefused`).
- Two event patches cannot always be compacted into one; `EventPatch.CompactionExactly` gives
  the exact condition, and `EventPatch.LeafThenMapping` two patches that cannot.

## Model

| member | source | states |
|---|---|---|
| Ledger.ValidateChain | backend/app/controlled_write.py:839-1032 | the single pass with its remembered facts accepts a list exactly when every event is admissible after the events before it |
| Ledger.CheckEvent | backend/app/controlled_write.py:850-859 | the loop body decides admissibility from the remembered facts alone |
| Ledger.CheckBody | backend/app/controlled_write.py:860-1032 | the kind-specific checks, on the remembered facts alone, decide whether the event fits the events before it |
| Ledger.PrefixAccepted | backend/app/controlled_write.py:839-1032 | every prefix of an accepted ledger is accepted |
| Ledger.FirstIsPreflight | backend/app/controlled_write.py:860-871 | the first event of a non-empty accepted ledger is a preflight, and only an empty one has none |
| Ledger.OrderOfKinds | backend/app/controlled_write.py:860-1032 | one preflight, manifest, intent, dispatch and receipt at most, in this order; no post before the dispatch, no recovery after the intent, the receipt last |
| Ledger.AttentionBarrier | backend/app/controlled_write.py:916-952 | between an attention and a later manifest, intent or dispatch there is a recovery |
| Ledger.CommittedShowsImage | backend/app/controlled_write.py:980-1032 | a COMMITTED receipt ends the ledger, follows a dispatch and cites the last post, which shows the authorized bytes, size and mode |
| Ledger.LastHashFixesLedger | backend/app/controlled_write.py:311-349 | two accepted ledgers of one authorization with the same last hash are equal |
| Ledger.AcceptedSubsetIsPrefix | backend/app/controlled_write.py:850-859 | any accepted list made of an accepted ledger's events is a prefix of it: no deletion but of a tail, no duplicate, insertion or swap |
| LedgerDirectory.ReadEvents | backend/app/controlled_write.py:806-836 | reading a directory succeeds exactly when all entries are in order and their events can be arranged into an accepted ledger, and returns that ledger |
| LedgerDirectory.SortedIsLedger | backend/app/controlled_write.py:834-836 | sorting an accepted ledger's events by sequence number gives that ledger |
| LedgerDirectory.OneArrangement | backend/app/controlled_write.py:806-836 | the ledger read does not depend on the order in which the directory lists its files |
| LedgerDirectory.OnlyTailsCanVanish | backend/app/controlled_write.py:806-859 | after deleting files a readable directory holds a prefix of the ledger |
| LedgerDirectory.OnlyTailsCanAppear | backend/app/controlled_write.py:806-859 | added files can only extend a readable ledger at its end |
| LedgerDirectory.MisplacedRecordRefused | backend/app/controlled_write.py:815-833 | swapping or copying records between file names is refused |
| LockFile.StepKeepsInv | backend/app/controlled_write.py:555-691 | every lock system call, crash and I/O error keeps the lock invariant, save the late failure of `ExclusionExactly` |
| LockFile.RunKeepsInv | backend/app/controlled_write.py:555-691 | the lock invariant holds over every run without a late failure |
| LockFile.MutualExclusion | backend/app/controlled_write.py:577-669 | at most one process is between acquiring the lock and releasing it, in every interleaving, across authorizations, unless a creator failed after completing its record |
| LockFile.ExclusionExactly | backend/app/controlled_write.py:555-651 | from every state of the invariant: an I/O error that meets an acquiring process makes two lock holders possible, without any later late failure, exactly when the process is a creator whose record is complete |
| LockFile.AfterLateFailure | backend/app/controlled_write.py:555-651 | whenever a creator fails after its record is complete, any two other idle processes can both get the lock |
| LockFile.LateFailureReachable | backend/app/controlled_write.py:588-617 | both stages of such a creator are reached from the start |
| LockFile.AcquirableIff | backend/app/controlled_write.py:577-651 | with nobody else active an authorization gets the lock exactly when there is no lock file or it holds that authorization's complete record |
| LockFile.ReleasesAlone | backend/app/controlled_write.py:654-669 | a lone holder's release leaves the lock name free and nobody active |
| LockFile.WedgedForever | backend/app/controlled_write.py:577-651 | once the lock name holds an incomplete record and its creator is gone, no run ever acquires it, whatever fails |
| LockFile.CrashedCreatorWedges | backend/app/controlled_write.py:588-617 | a crash between creating and writing the lock file gets there |
| OperationProofs.StepKeeps | backend/app/controlled_write.py:1645-1858 | every step of apply, restore and reconcile, failing or not, keeps the operation's invariant and what the next stage relies on |
| Operation.Step | backend/app/controlled_write.py:1645-1858 | a step appends at most one event, never touches the authorization, the earlier ledger or an existing backup, and only the replacing step touches the target |
| Operation.Append | backend/app/controlled_write.py:1047-1078 | an append changes the ledger by at most one event at its end and nothing else |
| OperationProofs.AppendKeepsOp | backend/app/controlled_write.py:1047-1078 | appending an admissible event keeps the operation's invariant |
| OperationProofs.FailKeeps | backend/app/controlled_write.py:1240-1293 | the failure handler keeps the invariant whatever it manages to record |
| OperationProofs.ReconcileKeeps | backend/app/controlled_write.py:1861-1939 | the observing step of reconcile keeps the invariant: the terminal state it goes for is the one the target shows |
| OperationProofs.ValidateKeeps | backend/app/controlled_write.py:1296-1321 | only a target that still shows the authorized original gets to the replacement |
| OperationProofs.ReplaceKeeps | backend/app/controlled_write.py:1787-1791 | the replacement keeps the invariant whether or not its error leaves the outcome open |
| OperationProofs.ClassifyTells | backend/app/controlled_write.py:1170-1197 | on an undisturbed target the classification says whether the replacement has happened |
| OperationProgress.ProposalsAreAccepted | backend/app/controlled_write.py:1047-1078 | every event that an undisturbed run appends is accepted by the grammar |
| OperationProgress.CheckDecides | backend/app/controlled_write.py:2388-2521 | on an undisturbed terminal operation check returns the receipt's state, COMMITTED exactly when the target was replaced |
| OperationProgress.CheckExactly | backend/app/controlled_write.py:2388-2521 | on every accepted ledger check returns a state exactly when the ledger ends with a receipt of it, backup and evidence are those on record, and the target is what was last observed, to its inode |
| OperationProgress.CheckFindsNothing | backend/app/controlled_write.py:2388-2521 | check finds nothing dispatched exactly when nothing is on record and the target is as authorized |
| OperationProgress.FailureRecorded | backend/app/controlled_write.py:1240-1293 | a failed call with something on its ledger and no receipt leaves an attention as the last event, with the error's own code or else the one that tells whether a dispatch is on record; a new one tells what the target shows; without another failure the lock is let go |
| OperationProgress.FailureUnrecorded | backend/app/controlled_write.py:1240-1293 | with an empty ledger, or after a receipt, a failure records nothing |
| OperationProgress.ReceiptFacts | backend/app/controlled_write.py:1574-1642 | what the terminal receipt of an operation rests on |
| OperationProgress.GetsOn | backend/app/controlled_write.py:1696-1858 | without failures no step of an undisturbed call stops short |
| ControlledWriteProofs.NextKeeps | backend/app/controlled_write.py:1645-1970 | every step of any process, crash or outside change keeps the protocol invariant, save the late lock failure of `LockFile.ExclusionExactly` |
| ControlledWriteRaces.NextCore | backend/app/controlled_write.py:1645-1970 | every step whatever, late lock failures included, keeps what no other process can take away: accepted ledgers, exact backups, and one run at most between dispatch and replacement for each authorization |
| ControlledWriteRaces.SingleUse | backend/app/controlled_write.py:1502-1519 | in every interleaving, late lock failures included, an authorization replaces the target at most once |
| LedgerRaces.SingleUseUnlocked | backend/app/controlled_write.py:1047-1078 | with any number of processes appending to one ledger directory, each append being a read, a create-only publication and a read-back, and no lock between them, at most one gets from its confirmed dispatch to the replacement |
| LedgerRaces.ConfirmedGrows | backend/app/controlled_write.py:1047-1078 | in the same races the appends that are confirmed form one accepted ledger that only grows at its end |
| LedgerRaces.AppendAlone | backend/app/controlled_write.py:1047-1078 | an append that meets nobody is the one atomic append of the step machine |
| ControlledWriteRaces.EveryChangeIsDispatched | backend/app/controlled_write.py:1666-1791 | in every run the protocol changes the target only by a replacement whose dispatch is in the ledger, once for each authorization, and only to the authorized image |
| ControlledWriteProofs.EveryChangeIsDispatched | backend/app/controlled_write.py:1666-1791 | while the lock excludes, the operation is also not yet terminated |
| ControlledWriteRaces.LedgerClosed | backend/app/controlled_write.py:1877-1884 | after a receipt no run whatever appends to the ledger again, and none replaces the target for that authorization unless some process stood between its dispatch and the replacement |
| ControlledWriteRaces.ReplacedAfterReceipt | backend/app/controlled_write.py:1776-1791 | after a receipt the target can still be replaced for its authorization exactly when some process stands between its dispatch and the replacement |
| ControlledWriteRaces.LateFailureBreaksVerdict | backend/app/controlled_write.py:555-651 | for every target and proposal a run with one late lock failure and no outside interference ends with a FAILED_NO_EFFECT receipt and a replaced target |
| ControlledWriteProofs.TerminalForever | backend/app/controlled_write.py:1877-1884 | after a receipt no later run without a late lock failure appends to the ledger or replaces the target for that authorization |
| ControlledWriteProofs.TerminalStep | backend/app/controlled_write.py:1666-1668 | no single step appends or replaces after a receipt |
| ControlledWriteProofs.AuthorizeRestoreKeeps | backend/app/controlled_write.py:1973-2097 | authorizing a restore of a committed apply keeps the protocol invariant |
| ControlledWriteRoundTrip.RestoreAuthorized | backend/app/controlled_write.py:1973-2097 | after an undisturbed settled apply a restore under an unused id is authorized exactly when the apply was committed; it is bound to the target as observed and wants the bytes, size and mode that the apply was authorized on |
| ControlledWriteRoundTrip.RestoreRefused | backend/app/controlled_write.py:1973-2097 | an unfinished apply, a restore, an unknown operation or a used id authorizes nothing |
| ControlledWriteRoundTrip.CallThrough | backend/app/controlled_write.py:1645-1970 | from any quiet state whose lock name is free or the authorization's own, one whole call, from taking the lock to giving it up, settles an undisturbed operation and leaves the lock name free |
| ControlledWriteRoundTrip.Applies | backend/app/controlled_write.py:1645-1858 | for every target and every differing proposal there is a run that authorizes and commits the apply, and the target then holds the proposal |
| ControlledWriteRoundTrip.Restores | backend/app/controlled_write.py:1973-2153 | from every committed undisturbed apply there is a run that authorizes a restore, commits it and puts back the bytes and the mode that the apply found |
| ControlledWriteRoundTrip.RoundTrip | backend/app/controlled_write.py:1645-2153 | so for every target and every differing proposal an apply and a restore in one run end with the target's original bytes and mode |
| ControlledWriteRaces.BackupBeforeEffect | backend/app/controlled_write.py:1559-1571 | in every run, once the target was replaced the backup holds exactly the original bytes and the ledger holds its matching manifest and the dispatch |
| ControlledWriteRaces.ValidatedIsBackedUp | backend/app/controlled_write.py:1296-1321 | in every run, whatever was done to the target before, a process gets past its last validation only while the target is the authorized file, to its inode and mode, and the backup holds its bytes |
| ControlledWriteVerdicts.RestoreUndoesApply | backend/app/controlled_write.py:2007-2153 | in every run an undisturbed committed restore leaves the bytes and mode that the undone apply started from |
| ControlledWriteVerdicts.CommittedIsTrue | backend/app/controlled_write.py:1574-1642 | in every run a COMMITTED receipt of an undisturbed operation means that the target was replaced and shows the authorized image |
| ControlledWriteProofs.VerdictIsTrue | backend/app/controlled_write.py:1861-1970 | in an undisturbed run without a late lock failure the receipt says COMMITTED exactly when the replacement happened |
| ControlledWriteProgress.NoDeadEnd | backend/app/controlled_write.py:1861-1970 | from every quiet state that a run without a late lock failure reaches, an undisturbed operation is settled by one call: apply or restore without an intent, reconcile with one |
| ControlledWriteProgress.RunsToTheEnd | backend/app/controlled_write.py:1666-1845 | a failure-free call of an undisturbed operation runs to its verified receipt |
| Publisher.Directory.Publish | backend/app/material_workflow.py:3513-3639 | whatever system call fails: success means the final name holds the data alone, rolled back means it is absent and the temporary empty, an ordinary error means it was left alone, except exactly when the link call took effect on a free name and reported an error, and then it holds the whole data; an existing final is never touched, and at no moment is it partial; when nothing but the link fails the outcome follows from how it ended |
| Publisher.Directory.LinkFinal | backend/app/material_workflow.py:3565-3566 | linking never replaces a name, and may take effect and still fail |
| Publisher.Directory.Stage | backend/app/material_workflow.py:3517-3537 | the temporary holds exactly the data, or nothing has become of it that needs scrubbing |
| Publisher.Directory.WriteAll | backend/app/material_workflow.py:3529-3537 | writing in any number of pieces leaves a prefix of the data at every moment |
| Publisher.Directory.IsOwned | backend/app/material_workflow.py:3483-3494 | ownership is only claimed for the expected inode with the expected number of links |
| Publisher.Directory.Finish | backend/app/material_workflow.py:3566-3622 | after the link the publication is confirmed, taken back, or reported as attention |
| Publisher.Directory.ScrubTemporary | backend/app/material_workflow.py:3642-3682 | success means that nothing of the data remains under the temporary name; other files are untouched |
| Publisher.Directory.VerifyStaged | backend/app/material_workflow.py:3538-3564 | the read-back loop passes only when the staged inode holds exactly the data |
| Segments.RawLines | backend/app/material_workflow.py:929-938 | the spans are the boundaries of the lines |
| Segments.LineForOffset | backend/app/material_workflow.py:941-946 | the first span holding the offset, else the last line |
| Segments.LineAt | backend/app/material_workflow.py:929-946 | every position of the k-th line has line number k, counted by line ends |
| Segments.LineNumber | backend/app/material_workflow.py:963-965 | looking an offset up in the spans gives its line number |
| Segments.NextCut | backend/app/material_workflow.py:953-961 | the inner loop takes as many characters as the limit allows |
| Segments.SegmentsV1 | backend/app/material_workflow.py:949-968 | the chunks are the text in order, each within the byte limit and as long as the limit allows, with the line numbers of their first and last characters |
| Segments.LinesOfLines | backend/app/material_workflow.py:985-997 | splitting whole joined lines gives the same lines back |
| Segments.SegmentsPartition | backend/app/material_workflow.py:2999-3024 | such chunks concatenate to the text and their line ranges start at 1, continue at the previous end or the next line, and end at the line count |
| BlockSegments.Sections | backend/app/material_workflow.py:975-986 | the first loop computes the blocks that begin exactly at headings and blank lines (`MarkdownLines.OpensMeans` says which lines these are) |
| MarkdownLines.OpensMeans | backend/app/material_workflow.py:979-979 | a line begins a block exactly when it is blank or its first character that is not white space is a hash |
| MarkdownLines.StandaloneMeans | backend/app/material_workflow.py:997-998 | a line stands alone exactly when its first such character is a bar, or a bullet followed by white space, or the first of some digits followed by a full stop or bracket and white space |
| BlockSegments.Items | backend/app/material_workflow.py:987-1010 | the second loop makes every bullet, numbered item and table row a block of its own and joins the lines between |
| BlockSegments.Bounded | backend/app/material_workflow.py:1011-1019 | only blocks over the limit are cut further, and their line ranges are shifted into the text |
| BlockSegments.LocatedShift | backend/app/material_workflow.py:1017-1018 | line ranges found inside a block, shifted by its first line, are line ranges of the text |
| BlockSegments.SegmentsV2 | backend/app/material_workflow.py:971-1019 | the output is the text in order and within the limit; in a chunk no line after the first is blank or a heading, and a bullet, numbered item or table row has its chunk to itself; where one chunk ends and the next begins, the next one's first character would not have fitted, or a line ends there and the line after or before is one of these; a block that fits is kept whole |
| BlockSegments.GroupedOk | backend/app/material_workflow.py:971-1010 | the block division has this property for every number of lines: it cuts there and nowhere else |
| ResultVerifier.VerifyResult | backend/app/material_workflow.py:2931-3166 | the verifier decides the structural conditions on segments, hits, citations and coverage |
| ResultVerifier.WalkSegments | backend/app/material_workflow.py:2999-3024 | the walk over all segments as a loop |
| ResultVerifier.AcceptedSegmentsCover | backend/app/material_workflow.py:2999-3024 | acceptance means that no line of any selected source is missing from the segments |
| ResultVerifier.WalkUnique | backend/app/material_workflow.py:2999-3018 | an accepted walk never meets a path and ordinal twice |
| ResultVerifier.AcceptedResultRight | backend/app/material_workflow.py:3025-3118 | in an accepted result each citation has its number, the digest of its source and lines of it; hit k repeats index and bundle hash of a segment and is cited by citation k, lexically and within that segment; all other citations are structural |
| ResultVerifier.AcceptedResultCitesAll | backend/app/material_workflow.py:3158-3166 | in an accepted result every selected source is cited, structurally exactly when no hit cites it, and none is reported uncited |
| ResultVerifier.NotAfterIsKeyOrder | backend/app/material_workflow.py:2700-2703 | the hit order is that of the keys (-score, path, ordinal, start, end, chunk): the first place where they differ decides |
| ResultAssembly.Gather | backend/app/material_workflow.py:2590-2671 | the segments of all sources are the chunks that the version's segmenter makes of their texts, in order, each with what the library answers for it; the hits are exactly those of all their searches; the segments pass the verifier's walk |
| ResultAssembly.GatherSource | backend/app/material_workflow.py:2590-2671 | the same for one source: its chunks are cut as the version cuts, and carry the walk from its first line to its end |
| ResultAssembly.IndexChunk | backend/app/material_workflow.py:2596-2671 | a segment has the hashes that the library answers for its number and text, and its hits are exactly those its search finds |
| HitSelection.SubstantiveLine | backend/app/material_workflow.py:1332-1358 | the last line of greatest worth in the range, or none when no line has worth |
| HitSelection.BestForTheme | backend/app/material_workflow.py:2719-2739 | the best usable segment of a theme in the order score, path, ordinal |
| HitSelection.ChooseLexical | backend/app/material_workflow.py:2755-2758 | at most eight hits, each a lexical hit that is the first of its segment in key order; with room left every lexical hit's segment is present, and no left-out segment has a hit before a chosen one |
| HitSelection.ChooseThemes | backend/app/material_workflow.py:2719-2754 | at most four theme hits on distinct usable segments: for each theme its first candidate, and nothing else |
| HitSelection.ThemeQuotaMet | backend/app/material_workflow.py:2719-2754 | in a local plan every theme that some usable segment scores for has a hit on a segment of greatest score on its own lines, the first of them by path and ordinal |
| HitSelection.ChooseBlocks | backend/app/material_workflow.py:2759-2802 | the added hits stand for usable segments with a line worth citing, in segment order; with room left none of these is missing |
| HitSelection.SelectHits | backend/app/material_workflow.py:2700-2805 | the hits are the theme quotas (local plans after the first version), then the best lexical hits, one for each segment, as long as there is room, then the relevant blocks that are left (after the first version); at most eight, in key order, on distinct segments, each backed by its segment's hashes |
| HitSelection.SortDistinct | backend/app/material_workflow.py:2803-2805 | sorting keeps the chosen segments distinct |
| ResultGeneration.CiteHits | backend/app/material_workflow.py:2806-2844 | each hit is accepted with a citation of its own segment, or dropped exactly when the version cites best lines and no line of the segment has worth; order and distinctness are kept |
| ResultGeneration.Cite | backend/app/material_workflow.py:2533-2561 | a citation is made exactly when the range lies in the source and the list is not full |
| ResultGeneration.CitedLines | backend/app/material_workflow.py:2808-2832 | a hit cites the only segment it names: all its lines, or in the versions that cite best lines the last line of greatest worth, or none when none has worth |
| ResultGeneration.FirstNonblank | backend/app/material_workflow.py:2848-2855 | the first line with something on it |
| ResultGeneration.Assemble | backend/app/material_workflow.py:2700-2901 | hits, citations and coverage over accepted segments pass the verifier, and the result is what `Explains` says |
| ResultGeneration.CiteSources | backend/app/material_workflow.py:2845-2865 | every source without a lexical citation gets one structural citation, of its first line with something on it, in selection order; at most 108 citations |
| ResultGeneration.Generate | backend/app/material_workflow.py:2564-2928 | with a retrieval library that does not fail a conflict-free draft always yields a result; every result passes the verifier, and is explained by the chunks of its sources, what their searches found, the choice among it and the lines to be quoted; the 128-citation limit is never reached |
| ResultGeneration.FoundIsCited | backend/app/material_workflow.py:2755-2844 | when the version does not cite best lines, a hit found in any segment means that the result has hits and a lexical citation, and one of that segment while there is room |
| ResultGeneration.ThemeIsCited | backend/app/material_workflow.py:2719-2844 | a local plan of the versions that cite whole blocks has a hit, for each theme that some segment scores for, on a segment that scores as much |
| Telemetry.BoundedTelemetry.Emit | backend/app/telemetry.py:357-374 | the lock region is the emit step |
| Telemetry.BoundedTelemetry.BeginClose | backend/app/telemetry.py:376-382 | only the first close goes on |
| Telemetry.BoundedTelemetry.PumpGet | backend/app/telemetry.py:407-409 | taking from the queue, without the lock, is the get step |
| Telemetry.BoundedTelemetry.PumpIdle | backend/app/telemetry.py:409-413 | after an empty poll the worker ends exactly when closed or broken |
| Telemetry.BoundedTelemetry.Drain | backend/app/telemetry.py:459-466 | draining empties the queue into the drop count while the worker may take items from it |
| Telemetry.BoundedTelemetry.FinishClose | backend/app/telemetry.py:394-403 | whatever the worker takes meanwhile, all queued records end up dropped and the one in flight timed out |
| Telemetry.BoundedTelemetry.PumpTake | backend/app/telemetry.py:415-422 | the worker's accounting of the item in hand is the take step |
| Telemetry.BoundedTelemetry.PumpFinish | backend/app/telemetry.py:423-435 | the worker's accounting of an export is the finish step, draining on a timeout |
| Telemetry.NextKeeps | backend/app/telemetry.py:357-435 | every step of caller, closer and worker keeps the invariant |
| Telemetry.Conservation | backend/app/telemetry.py:357-466 | in every interleaving the counters add up, the gauges mean what they say, and the exporter was handed a prefix of the accepted records, in order and once each |
| Telemetry.CountersCount | backend/app/telemetry.py:357-435 | over every run each counter is the number of the events it is named for, the circuit is open exactly after a timed-out export or a close that found the worker running, and the accepted records are exactly those offered before the close that are sampled and found the circuit closed and room in the queue |
| Telemetry.StableAfterClose | backend/app/telemetry.py:376-403 | after the finalising close returned no step changes a counter or exports a record |
| Loopback.NextKeeps | backend/app/v3_loopback_service.py:201-259 | every step of any process, and every crash, keeps intents, dispatches, results and answers consistent |
| Loopback.AtMostOnce | backend/app/v3_loopback_service.py:201-246 | over any calls of any number of processes and restarts, an operation and key is dispatched at most once |
| Loopback.ConflictNeverDispatches | backend/app/v3_loopback_service.py:202-206 | once a key's intent is on disk a call with another digest is answered with a conflict and never dispatches |
| Loopback.ReplayRepeats | backend/app/v3_loopback_service.py:207-214 | a request once answered with success was dispatched, and its record answers it with the same projection ever after |
| Loopback.WithinCapacity | backend/app/v3_loopback_service.py:215-219 | one process at a time, with any restarts, never has more than 512 records on disk |
| Loopback.LoopbackService.Mutate | backend/app/v3_loopback_service.py:173-259 | which answer, dispatch and records a call ends with, for every directory and every failure of the read, the two publications and the dispatch: refused before anything for a wrong action, confirmation or key; answered from the record of its key if there is one; refused when two more records do not fit; else dispatched once its intent is published, and answered with the projection once the result is; it takes only steps of the machine |
| Loopback.LoopbackService.LookUp | backend/app/v3_loopback_service.py:443-485 | a go-ahead means that nothing is on disk under the key and two more records fit; each answer says what is on disk: a completed answer is the stored projection of an intent for the same content, attention an intent without a result, a conflict an intent for other content, a refusal a damaged record or a full directory; a readable record is always answered from |
| Loopback.LoopbackService.Fulfil | backend/app/v3_loopback_service.py:220-259 | intent, dispatch and result in this order, ending wherever a publication or the dispatch fails, with the answer for each ending |
| Loopback.OnRecord | backend/app/v3_loopback_service.py:443-485 | in every reachable directory the lookup answers a recorded key from its record and finds nothing under any other |
| AuthoringService.WorkRoot.CreateDraft | backend/app/local_workspace_task_authoring.py:731-812 | publishes and answers what the draft script says, in the source's order |
| AuthoringService.WorkRoot.ConfirmAndGenerate | backend/app/local_workspace_task_authoring.py:819-934 | publishes and answers what the generate script says, up to the binding |
| AuthoringService.WorkRoot.ExportResult | backend/app/local_workspace_task_authoring.py:937-998 | publishes and answers what the export script says |
| AuthoringService.WorkRoot.Recover | backend/app/local_workspace_task_authoring.py:1221-1382 | publishes and answers what the recovery script says, with and without a material root, including the error raised for a slot with several intents |
| AuthoringService.WorkRoot.Repair | backend/app/local_workspace_task_authoring.py:1112-1191 | the repair step; on a linked store a binding that it publishes satisfies the binding verifier and keeps the store linked |
| AuthoringService.WorkRoot.MatchingIntent | backend/app/local_workspace_task_authoring.py:1194-1208 | the only intent of a slot, or the error when there are several, in whatever order the directory lists them |
| AuthoringService.WorkRoot.ReceiptForIntent | backend/app/local_workspace_task_authoring.py:693-703 | the only receipt of an intent |
| AuthoringService.WorkRoot.IdempotentRequest | backend/app/local_workspace_task_authoring.py:542-563 | the first request listed under the key decides; since no reachable store has two of them, a conflict exactly when some request under the key has another payload |
| AuthoringService.WorkRoot.CheckReplay | backend/app/local_workspace_task_authoring.py:635-669 | a replayed output is returned only with a verified request, intent and receipt |
| AuthoringService.WorkRoot.PublishAll | backend/app/local_workspace_task_authoring.py:566-617 | request, intent, output and receipt in this order, stopping after the intent when the output slot is taken |
| AuthoringService.WorkRoot.RestoreReceipt | backend/app/local_workspace_task_authoring.py:1274-1309 | a missing receipt is restored only for the single intent of a fresh output |
| AuthoringService.WorkRoot.RecoverTurn | backend/app/local_workspace_task_authoring.py:1270-1345 | one output of the recovery loop |
| AuthoringRuns.Monotone | backend/app/local_workspace_task_authoring.py:353-365 | over every sequence of calls with crashes published records never change, and requests, intents, outputs, receipts and bindings stay linked |
| AuthoringInterleaved.InterleavedLinked | backend/app/local_workspace_task_authoring.py:497-499 | they stay linked however the publications of calls of different tasks interleave, as the per-task lock allows, and wherever calls are cut off |
| AuthoringInterleaved.InterleavedGrows | backend/app/local_workspace_task_authoring.py:353-365 | nothing published is lost or altered in such runs |
| AuthoringInterleaved.AloneIsSequential | backend/app/local_workspace_task_authoring.py:731-998 | a call that meets nobody, cut off before its binding, leaves what it leaves in a sequence of calls |
| AuthoringRuns.ScriptFits | backend/app/local_workspace_task_authoring.py:731-998 | every publication of every operation, in turn, finds its name free and is linked to what is already there |
| AuthoringRuns.EveryRunLinked | backend/app/local_workspace_task_authoring.py:731-998 | every store that a run with crashes reaches from the empty one is linked |
| AuthoringRuns.LinkedIsTidy | backend/app/local_workspace_task_authoring.py:542-617 | on every linked store intents name published requests, receipts name published intents, no output has two receipts and no key two requests: what the operations rely on |
| AuthoringRuns.RepairVerifies | backend/app/local_workspace_task_authoring.py:1112-1191 | on a linked store the repair step publishes a binding that satisfies the binding verifier and changes nothing else, or it stops |
| AuthoringRecovery.RootlessExactly | backend/app/local_workspace_task_authoring.py:1272-1375 | without a material root recovery does the same as with one when no output lacks its receipt, and otherwise answers attention or raises it, and publishes nothing |
| AuthoringRecovery.NeverFabricates | backend/app/local_workspace_task_authoring.py:1253-1278 | on any store recovery publishes receipts and a binding only; an intent without its output is answered with attention and nothing is written |
| AuthoringCompletion.RecoverCompletes | backend/app/local_workspace_task_authoring.py:1221-1382 | on a healthy task recovery ends with every receipt and the binding in place and reports the state the outputs say |
| AuthoringCompletion.RecoverReports | backend/app/local_workspace_task_authoring.py:1314-1382 | what it reports, on the outputs alone: exported with a result and an export, generated with a result and none, waiting for confirmation with a draft and no result, cataloged with neither; and the very draft, result and exports |
| AuthoringCompletion.RecoverTwice | backend/app/local_workspace_task_authoring.py:1221-1382 | a second recovery writes nothing and answers the same |
| AuthoringCompletion.CrashInRecovery | backend/app/local_workspace_task_authoring.py:1272-1375 | recovery may die after any publication and the next one finishes the same job |
| AuthoringCompletion.BindingGood | backend/app/local_workspace_task_authoring.py:1001-1109 | the binding that a complete chain determines passes the binding verifier |
| AuthoringResults.ReachableHealthy | backend/app/local_workspace_task_authoring.py:1221-1382 | in a linked store a task with one intent for each slot, no intent without output and its catalog published is healthy |
| AuthoringResults.EveryRunHealthy | backend/app/local_workspace_task_authoring.py:1221-1382 | so it is after any run with crashes from the empty store |
| AuthoringResults.CrashThenRecover | backend/app/local_workspace_task_authoring.py:871-934 | crash anywhere after the output, recover, and store and state are those of recovering the uninterrupted run |
| AuthoringResults.CrashEqualsUninterrupted | backend/app/local_workspace_task_authoring.py:595-617 | the recovered store is exactly the store of the uninterrupted run, and recovering again writes nothing |
| AuthoringResults.SuccessFinishes | backend/app/local_workspace_task_authoring.py:871-934 | a call that ends well leaves no receipt and no binding missing |
| AuthoringFlow.DraftExactly | backend/app/local_workspace_task_authoring.py:731-812 | under a new key a draft is given exactly when the catalog is of this material and current, the sources are some it knows, the task is known or there is room, the README target and the builder agree, and there is no draft; it leaves the draft's four records and nothing else |
| AuthoringFlow.GenerateExactly | backend/app/local_workspace_task_authoring.py:819-934 | under a new key a result is given exactly when the draft is the confirmed one, the builder delivers, there is no result, and the draft has a single intent, its receipt and a published catalog; it leaves the result's four records and a binding of both |
| AuthoringFlow.ExportExactly | backend/app/local_workspace_task_authoring.py:937-998 | under a new key an export is given exactly when there is a result, the builder delivers and there is no export of its kind; it leaves the export's four records |
| AuthoringFlow.CarriedThrough | backend/app/local_workspace_task_authoring.py:731-1382 | from every linked store a task that nothing is known of goes through draft, result and both exports when the builders deliver, each call answering with what was built, and recovery then writes nothing and reports it |
| AuthoringAttention.RecoversExactly | backend/app/local_workspace_task_authoring.py:1221-1382 | over every linked store recovery reports the state of the task's outputs exactly when every intent has its output, every output a receipt or a single intent, and a result its binding or one intent for draft and result and a published catalog; otherwise it ends in attention |
| AuthoringAttention.RecoveryFinishes | backend/app/local_workspace_task_authoring.py:1221-1382 | in that case it leaves every output with its receipt and a result bound |
| AuthoringCapacity.AtMostSixtyFour | backend/app/local_workspace_task_authoring.py:780-784 | over every run of calls and crashes no more than 64 tasks ever have a record |
| AuthoringReplay.ReplayPublishesNothing | backend/app/local_workspace_task_authoring.py:542-563 | the same call at any later time, whether the first one finished, failed or was cut off after any publication, publishes nothing, and answers with a failure or with the content of the slot behind its verified chain, which is the first call's output once that was published |
| AuthoringReplay.ReplayAnswers | backend/app/local_workspace_task_authoring.py:758-779 | when nothing of the task is missing or ambiguous, replaying a call that ended well gives its first answer |
| AuthoringReplay.ReusedKeyRefused | backend/app/local_workspace_task_authoring.py:542-563 | a draft key whose request was published is refused for any other payload before anything is published |
| AuthoringReplay.OnePayload | backend/app/local_workspace_task_authoring.py:542-563 | all requests of one task for a result, or for one kind of export, carry the same payload, since the draft or result it names never changes |
| AuthoringReplay.GenerateNeverConflicts | backend/app/local_workspace_task_authoring.py:819-870 | so generating never meets a conflicting payload |
| AuthoringReplay.ExportNeverConflicts | backend/app/local_workspace_task_authoring.py:937-965 | and neither does exporting |
| AuthoringBlocking.BlockedForever | backend/app/local_workspace_task_authoring.py:1112-1208 | a task that is unbound and not bindable stays so over every run |
| AuthoringBinding.BindableBinds | backend/app/local_workspace_task_authoring.py:731-1382 | from every bindable store some run publishes the binding |
| AuthoringBinding.BoundExactly | backend/app/local_workspace_task_authoring.py:731-1382 | some later run binds an unbound task exactly when its records are bindable now |
| AuthoringBinding.DraftIntentBlocks | backend/app/local_workspace_task_authoring.py:794-812 | a draft call cut off between intent and output blocks the task for ever |
| AuthoringBinding.RejectedDraftBlocks | backend/app/local_workspace_task_authoring.py:797-808 | so does a draft that the builder rejects |
| AuthoringBinding.SecondResultBlocks | backend/app/local_workspace_task_authoring.py:871-934 | a result published beside an earlier result intent and not bound is never bound |
| AuthoringBinding.UnfiledDraftBlocks | backend/app/local_workspace_task_authoring.py:1253-1268 | a draft without its receipt is lost once a result was asked for and not delivered |
| Composer.Compose | backend/app/executable_proposal.py:288-296 | refuses what the original check refuses, ungrounded results and oversized images, and otherwise appends the section |
| Composer.Section | backend/app/executable_proposal.py:262-285 | the loops build the section's lines between the two markers |
| Composer.InertHarmless | backend/app/executable_proposal.py:246-259 | an inert field holds no control, direction, byte order mark or line end character |
| ComposerReading.PlainSurvives | backend/app/executable_proposal.py:246-259 | a text with nothing to clean, escape or strip, which normalisation and redaction leave alone, is shown as it is |
| ComposerReading.CitationLineTells | backend/app/executable_proposal.py:270-276 | the line of a citation has exactly one reading: its number, its first and last line, and its preview and path as shown |
| ComposerReading.SectionTells | backend/app/executable_proposal.py:262-276 | the section has the citations in order, each on such a line |
| Markers.CountSplit | backend/app/executable_proposal.py:268-285 | marker text cannot straddle the text between two fields, so occurrences add up |
| Markers.CountZero | backend/app/executable_proposal.py:357-358 | a count of zero means that the text is not contained |
| ComposerAgreement.SectionCounts | backend/app/executable_proposal.py:357-358 | the generated section holds one marker more of each kind than its fields do |
| ComposerAgreement.NewlinesOk | backend/app/executable_proposal.py:370-376 | the generated section has only the chosen line ends |
| ComposerAgreement.SeparatorsAgree | backend/app/executable_proposal.py:288-352 | on every accepted original the composer's and the validator's separator rules coincide |
| ComposerOriginal.AcceptedExactly | backend/app/executable_proposal.py:218-243 | an original is accepted exactly when it is small enough, has a byte order mark at most in front, and after it no marker text, no unsafe character and one kind of line end, which is then the composer's |
| ComposerOriginal.CompositionUniform | backend/app/executable_proposal.py:288-296 | a composition has the original's kind of line end throughout |
| ComposerAgreement.ComposerMeetsValidator | backend/app/executable_proposal.py:262-386 | a composition keeps the original as its prefix and passes the validator exactly when no inert field holds marker text |
| ComposerAgreement.MarkerTaskRefused | backend/app/executable_proposal.py:357-358 | a task that reads like the start marker is composed on every accepted original, and the validator refuses it |
| ComposerAgreement.ComposedOnce | backend/app/executable_proposal.py:218-230 | composing on a composition is always rejected |
| EventPatch.Merge | backend/app/runtime.py:37-45 | the loop over the patch items, in any order, computes the merge |
| EventPatch.Replay | backend/app/runtime.py:73-81 | the loop folds the events from the initial state and stops at the first type error |
| EventPatch.ApplyTwice | backend/app/runtime.py:57-71 | applying an event twice is applying it once |
| EventPatch.Apply | backend/app/runtime.py:57-71 | applying an event merges its patch or is a type error |
| EventPatch.MergedLeaf | backend/app/runtime.py:37-45 | the leaves of a merge are those of the patch, and those of the base on whose path the patch is silent |
| EventPatch.AppliedLeaf | backend/app/runtime.py:57-71 | an event fails exactly when there is no mapping at its patch, which is found under payload of a plain event if it has one, and there under patch if there is one; else the leaves are those of that mapping and the old ones it is silent about |
| EventPatch.ReplaySplits | backend/app/runtime.py:73-81 | a replay may be split anywhere |
| EventPatch.CompactionExactly | backend/app/runtime.py:37-45 | two patches can be compacted into one for every state exactly when no key path is a leaf in the first and a mapping in the second |
| EventPatch.LeafThenMapping | backend/app/runtime.py:37-45 | setting a key to a number and then to a mapping are two patches that no single one stands for |

## Left out

- Conflict citations and conflict checks of results: previews are redacted and truncated, so the generator and verifier theorem is for drafts without conflicts.
- ResultVerifier.VerifyResult: hashes, artifact text and conflict records are not modelled; they are fixed text over uninterpreted builders.
- ResultGeneration.Generate: for drafts without conflicts, and without the size limit of a session.
- ResultAssembly.IndexChunk: the hash of a segment's own text is not a field of the model's segment.
- Plan building and PDF rendering: uninterpreted builders.
- The retrieval index and search: an oracle with the stated laws.
- LockFile.MutualExclusion: for runs without a late failure, because it fails otherwise (see Findings). Windows release of the lock is not modelled.
- ControlledWriteProofs.TerminalForever: for runs without a late lock failure, because its second half fails otherwise; `ControlledWriteRaces.LedgerClosed` and `ReplacedAfterReceipt` have all runs.
- ControlledWriteProofs.VerdictIsTrue: for runs without a late lock failure, because it fails otherwise (`LateFailureBreaksVerdict`); `ControlledWriteVerdicts.CommittedIsTrue` has all runs.
- ControlledWriteProgress.NoDeadEnd: for runs without a late lock failure, because a receipt can be false otherwise and then nothing settles the operation.
- ControlledWriteRaces.NextCore: an append is one atomic publication there; with several processes inside it is not, and `LedgerRaces` takes it apart for the results on single use and on the order of the ledger.
- Reading through unstable or unsafe paths: a read gives the bytes, identity, mode and link count of one moment, or an error.
- Operation (module): `apply`, `restore` and `reconcile` are a step machine on values, not methods on a file system object, because each of their system calls must interleave with other processes; the order of steps, branches and error codes is that of the source.
- Restore authorizations: only those made by `create_restore_authorization` for a committed apply.
- AuthoringRuns.Monotone: the calls of a run follow one another. `AuthoringInterleaved` lets calls of different tasks interleave; the results on recovery, replays and binding are about sequences of calls. The source's task lock is a `threading.Lock` that only the three creating calls take, so a recovery beside another call of its task, and calls from other processes, are not part of this model.
- AuthoringService.WorkRoot.Recover: a call without a material root finds the catalog's root to be the only one there is.
- Damaged or non-canonical record files in the authoring store: every file holds a valid record.
- Loopback sessions, bindings, inspection and the controlled-write call inside a dispatch: the dispatch returns a result or raises.
- Loopback.LoopbackService.Mutate: by the only process that is running; calls of several processes are steps of the state machine.
- Loopback.WithinCapacity: for one process at a time, as in the source; two processes on one directory can exceed the limit.
- Publisher.Directory.Publish: other users do not change the two names meanwhile.
- ComposerAgreement.ComposerMeetsValidator: the proposal's own hash, diff and scope fields are not modelled, and normalisation enters by the law stated above.
- Catalog building, root initialisation, routes, command line tools, provider secrets, budgets, watchdogs and the message bus: plumbing or single-branch checks.
