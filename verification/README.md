# Verified model of the Ralph memory code

This project models the hard core of the repository in Dafny and proves what its
documentation, comments and names promise. Everything is checked by

    dafny verify dfyconfig.toml

## What is modelled

**The memory tree, its index and recall.** A store keeps one validated JSON node per
file. Every write rebuilds a fat index and an inverted index from tokens to node ids.
Recall reads only the nodes the postings suggest, rejects, scores, sorts and selects them
greedily under a limit and a budget.

| file | part |
|---|---|
| `Memory.dfy`, `MemoryTree.dfy`, `TreeStore.dfy` | nodes and their validation, the tree as a value, the store as a class changed in place |
| `Postings.dfy`, `PyRepr.dfy`, `RecallRules.dfy`, `Lossless.dfy` | postings, Python's `repr` of containers, rejecting and scoring, which terms the postings hold |
| `StoreRuns.dfy` | the invariant of the store over every run of its operations |
| `Recall.dfy`, `RecallLimits.dfy`, `PaddedIds.dfy` | indexed recall against the scan, and exactly when they agree |

**Transactions over the store.** Consolidation and branch promotion snapshot the tree,
apply updates one by one, and restore on failure. A failure is a parameter: it may strike
before any operation and between any two of the three writes of a node.

| file | part |
|---|---|
| `Consolidation.dfy`, `BranchPromotion.dfy`, `Transactions.dfy` | the plan, the eligible nodes, the transaction and its rollback |
| `OpEffects.dfy`, `CommittedRuns.dfy`, `TreeSteps.dfy` | what one operation, a completed run and a sequence of runs do |
| `BranchIsolation.dfy`, `DuplicateChains.dfy` | what holds after any sequence of runs with any failures |
| `Convergence.dfy`, `HubConvergence.dfy` | what is left to do after a committed consolidation |
| `CommitCondition.dfy`, `HubClash.dfy` | exactly when a consolidation commits, and a branch that cannot |

**Parsers with inverses.** The small YAML loader over a heap of dictionaries and lists
that are filled through references (`SimpleYaml.dfy`, `YamlRoundTrip.dfy`), JSON string
literals (`JsonText.dfy`, section 7 of RFC 8259) and front matter (`FrontMatter.dfy`).

**Bounded selection and idempotent passes.** The task-intake selector and the block it
renders (`TaskIntake.dfy`, `Selection.dfy`, `Delimiters.dfy`), layer promotion
(`PromotionPass.dfy`), compaction (`Compaction.dfy`, `Recompaction.dfy`), the early-exit
JSON walk (`JsonWalk.dfy`), session archive and restore (`Manifest.dfy`,
`SessionArchive.dfy`). `Text.dfy`, `Seqs.dfy` and `Sorting.dfy` hold what they share.

Code that works step by step is a method with loops, proved equal to a function of its
inputs or of the old state; the promised properties are lemmas about that function.

## Where the code does not keep its promise

* **Lossless recall.** Comments call the postings lossless. The scorer prints whole
  dictionaries before it searches them, so a term inside one of the labels "entities",
  "paths", "tags" or "links" scores on every node and is in no posting.
  `RecallLimits.LosslessIffLabelFree` proves that the claim holds for a query if and only
  if no scoring term lies inside a label; `RecallLimits.ShortTree` is the tree on which
  every other query fails. Trigger keys answer the same way: for every query with a
  scoring term there is a tree whose node is missed because of one
  (`RecallLimits.KeyTermIsMissed`).
  Trees with such keys, and with text that Python's `repr` prints with escapes, are excluded
  by `Recall.KeysClear`.
* **Front matter.** The body comes back if and only if line feeds are its only line
  boundaries and none ends it (`FrontMatter.BodyComesBackIff`).
* **Padded ids.** Validation strips an id, the file is named after the stripped id, the
  index keeps the padded one. The index represents every file if and only if all ids are
  trimmed (`StoreRuns.IndexRepresentsIffTrimmed`), and recall through it is the scan if and
  only if no node with a padded id is a hit: such a node is met twice
  (`PaddedIds.AgreesIffNoPaddedHit`).
* **Rollback.** A failed run is rolled back if and only if every node file validates and
  no raw file is flagged (`Transactions.RollbackIsAtomic`).
* **Hubs.** Hub ids depend on project and topic, not on the branch. A consolidation commits
  if and only if there is something to do, the snapshot name is free, no operation fails for
  the disk, no link it adds and no hub it makes is refused by validation, no two of its hubs
  share an id, and no hub it needs is already stored out of its sight
  (`CommitCondition.CommitsIff`). So the hub one branch makes blocks another branch for as long as it stays there
  (`HubClash.HubOfOneBranchBlocksAnother`), and that happens in a tree reached by four
  creations and one consolidation (`HubClash.BlockedBranchIsReachable`).
* **Settling.** A re-run finds no hub to make if and only if the detector flags no hub of a
  topic two considered nodes carry (`HubConvergence.NoHubLeftIff`); a flagged hub is skipped,
  planned again, and blocks.
* **Delimiters.** Contents cannot forge a marker, ids can
  (`Delimiters.BlockIsWellDelimitedIff`).
* **Session restore.** The manifest is written with non-ASCII characters as they are and
  read with `splitlines`, so U+0085, U+2028 or U+2029 in an id or path stops the restore;
  a row with an empty id is never restored (`SessionArchive.RestoreInvertsArchiveIff`).

## Model

| member | source | states |
|---|---|---|
| Recall.IndexedRecallIsScan | scripts/memory/recall_v2.py:166-225 | Through the index, recall selects the same items in the same order with the same budget use as a scan of every node file, for every tree in order, answerable query, limit and budget, in whatever order the candidate set is walked |
| Recall.RecallQuery | scripts/memory/recall_v2.py:351-406 | The recall method returns the indexed recall of its query and the reasons of everything passed over, under the node's id or the file's name; whenever the tree is in order and the query answerable that is the result of the scan |
| Recall.ScoringNodeIsCandidate | scripts/memory/recall_v2.py:206-213 | Every indexed node that scores is listed under a posting token that contains a search term |
| Recall.EntryRefinesNode | scripts/memory/tree_store.py:463-497 | Rejecting, scoring and rendering the index entry of a valid node gives what the full node gives, although the entry drops keys |
| Recall.EntryValidates | scripts/memory/memory_node.py:129-152 | An index entry of a valid node loads again, its missing keys filled in |
| Recall.SortForgetsOrder | scripts/memory/recall_v2.py:217-225 | Two duplicate-free walks that meet the same hits are sorted into the same sequence |
| Recall.CollectCandidates | scripts/memory/recall_v2.py:206-213 | The loop over the postings finds exactly the ids under tokens that contain a search term |
| Recall.CandidatePayloads | scripts/memory/recall_v2.py:166-225 | The candidates are the records of a duplicate-free walk of the candidate set, then the files the index does not represent |
| Recall.UnindexedPayloads | scripts/memory/recall_v2.py:186-204 | Exactly the files the index does not represent, in directory order |
| Recall.ScoreCandidates | scripts/memory/recall_v2.py:355-367 | Every record is either a hit, in order, or passed over with its reason |
| Recall.SelectGreedily | scripts/memory/recall_v2.py:369-385 | The selection loop is the greedy pass, refuses exactly the hits that overrun the budget, and keeps both limits |
| Lossless.PostingHitIsFound | scripts/memory/tree_store.py:500-520 | A term of three or more token characters lies in a posting token exactly when it occurs anywhere in the joined search fields |
| Lossless.ScorerSeesPostingsAndLabels | scripts/memory/recall_v2.py:287-311 | A term scores on a plain record exactly when a posting token or a label holds it |
| RecallLimits.LosslessIffLabelFree | scripts/memory/tree_store.py:499-508 | The lossless claim holds for a query if and only if none of its scoring terms lies inside a label |
| RecallLimits.LabelTermIsMissed | scripts/memory/recall_v2.py:302-324 | For every query with a label term there is a tree on which the scan selects a node and the index none |
| RecallLimits.KeyTermIsMissed | scripts/memory/recall_v2.py:302-324 | For every lower-case scoring term of a query there is a tree whose one node carries it as a trigger key, is selected by the scan and missed by the index |
| PaddedIds.AgreesIffNoPaddedHit | scripts/memory/recall_v2.py:166-225 | In a tree the store kept, for a query no label or key answers to, recall through the index is the scan for every walk, limit and budget if and only if no node with a padded id is a hit |
| PaddedIds.PaddedHitIsMetTwice | scripts/memory/recall_v2.py:186-204 | A node with a padded id that is a hit makes the two differ for some walk, limit and budget |
| RecallRules.Terms | scripts/memory/recall_v2.py:67-75 | The query loop yields the first occurrences of the kept runs, in order |
| Text.ContainsIffInRun | scripts/memory/recall_v2.py:206-213 | A text of class characters is a substring exactly when it is a substring of one maximal run |
| Postings.PostingsExact | scripts/memory/tree_store.py:522-532 | Each posting is the sorted duplicate-free sequence of exactly the ids whose entry carries the token |
| Postings.BuildPostings | scripts/memory/tree_store.py:522-532 | The loops that append, sort and drop repeats build those postings |
| StoreRuns.RunKeeps | scripts/memory/tree_store.py:276-331 | Every run of create, update, save-raw, snapshot and restore keeps: files are the complete records of valid nodes under their own names, snapshots too, and the index is the projection of the directory |
| StoreRuns.IndexIsExact | scripts/memory/tree_store.py:548-560 | In every reachable tree with an index, entries are the projections of the listed nodes and each posting is exact |
| StoreRuns.WriteKeeps | scripts/memory/tree_store.py:290-298 | What was written reloads to itself and the invariant holds again |
| StoreRuns.UpdateKeepsIdentity | scripts/memory/tree_store.py:282-288 | Whatever the edit, an update keeps node and project id and touches no other file |
| StoreRuns.ReachableIsInOrder | scripts/memory/tree_store.py:548-560 | A reachable tree with trimmed ids is in order for recall |
| StoreRuns.IndexRepresentsIffTrimmed | scripts/memory/tree_store.py:249-252 | The index represents every file if and only if every id is trimmed |
| Memory.ReloadIsIdentity | scripts/memory/memory_node.py:129-155 | A node reloads to itself if it validates, and not at all otherwise |
| TreeStores.TreeStore.ListNodes | scripts/memory/tree_store.py:316-331 | The loop returns the nodes that load, in directory order |
| TreeStores.TreeStore.WriteIndex | scripts/memory/tree_store.py:548-560 | The index becomes the projection of the directory with its postings |
| TreeStores.TreeStore.WriteNode | scripts/memory/tree_store.py:290-298 | The three writes of a node, stopped at any of them, leave exactly the state of the specification |
| TreeStores.TreeStore.CreateNode | scripts/memory/tree_store.py:276-280 | Create refuses invalid and existing nodes and otherwise writes |
| TreeStores.TreeStore.UpdateNode | scripts/memory/tree_store.py:282-288 | Update merges into the stored node, puts its identity back, validates and writes |
| TreeStores.TreeStore.SaveRaw | scripts/memory/tree_store.py:336-345 | Raw text is saved under its digest unless its class or content forbids it |
| TreeStores.TreeStore.SnapshotTree | scripts/memory/tree_store.py:367-401 | A snapshot copies files, raw files, index and both logs under a new safe name, made from the time when none is given |
| TreeStores.TreeStore.ValidateSnapshot | scripts/memory/tree_store.py:441-460 | A snapshot passes exactly when all its nodes validate for the project and no raw file is flagged |
| TreeStores.TreeStore.RestoreSnapshot | scripts/memory/tree_store.py:411-439 | Restore puts the files, raw files and both logs of a valid snapshot of this project back and rebuilds the index, or changes nothing |
| Transactions.RunUpdates | scripts/memory/consolidate_tree.py:235-258 | The update loop stops at the first failure with exactly the state reached there |
| Transactions.RunTransaction | scripts/memory/consolidate_tree.py:227-266 | Snapshot, update loop and restore leave exactly the state and status of the specification |
| Transactions.ConsolidateTree | scripts/memory/consolidate_tree.py:269-271 | Planning and applying a consolidation, with its report: the operation, target and relation of every write, empty unless it committed |
| Transactions.RollbackIsAtomic | scripts/memory/consolidate_tree.py:256-265 | Wherever a failure strikes, a rolled-back tree has the node files, raw files and logs from before and an index consistent with them; it is rolled back exactly when all files are valid |
| Consolidation.BuildPlan | scripts/memory/consolidate_tree.py:207-217 | The loops that collect duplicates, links and hubs build the plan of the considered nodes |
| Consolidation.CollectPairs | scripts/memory/consolidate_tree.py:148-155 | The nested loop visits every pair once, the earlier node first |
| BranchPromotion.SelectEligible | scripts/memory/promote_branch_memory.py:123-131 | Every listed node is eligible or skipped with all its reasons, in order |
| BranchPromotion.PromoteBranchMemory | scripts/memory/promote_branch_memory.py:103-159 | Promotion runs the transaction over the eligible nodes and reports exactly them when it commits |
| BranchPromotion.EligibleIsCandidate | scripts/memory/promote_branch_memory.py:71-84 | Only a merge candidate of the source branch with full provenance, evidence, no unsafe content and no conflict with main is promoted |
| BranchIsolation.NodeNeverLeavesItsBranch | scripts/memory/recall_v2.py:247-258 | A node created branch-local is never selected by recall on a branch its own is not visible from, after any sequence of creates, consolidations and promotions with any failures |
| BranchIsolation.PinnedRecordIsPassedOver | scripts/memory/recall_v2.py:228-258 | A record that keeps the node to another branch is rejected, full or projected |
| DuplicateChains.DuplicatesAreWellFounded | scripts/memory/consolidate_tree.py:97-108 | After any run of creates, consolidations and promotions with any failures, refused restores among them, following duplicate pointers strictly decreases the id and ends at a stored node no consolidation has marked |
| DuplicateChains.RunKeepsPointersDown | scripts/memory/consolidate_tree.py:236-241 | Every marked id keeps pointing to a stored node with a smaller id |
| DuplicateChains.CompletedRunMarksAll | scripts/memory/consolidate_tree.py:236-241 | A completed run marks every duplicate it planned to mark |
| DuplicateChains.ChainEndsAtCanonical | scripts/memory/consolidate_tree.py:97-108 | The chain from any stored node ends at a stored unmarked node and never goes up |
| CommittedRuns.RunEffects | scripts/memory/consolidate_tree.py:235-255 | After a completed run every node lives on with its identity, tags and visibility, no link or flag is lost, a marked node is deprecated and names its canonical one, a superseded one is deprecated and stale, every link and hub is there, and untouched files are unchanged |
| CommittedRuns.WithLinkAddsOnce | scripts/memory/consolidate_tree.py:220-224 | Adding a link keeps all links, has the new one, and never makes a second one with the same relation and target |
| CommitCondition.CommitsIff | scripts/memory/consolidate_tree.py:227-266 | A consolidation commits if and only if its plan is not empty, the snapshot name is free, the disk fails at none of its operations and nothing in the tree stands in the way |
| CommitCondition.TakenHubBlocks | scripts/memory/consolidate_tree.py:158-204 | When two considered nodes carry a topic whose hub is stored but not considered, no consolidation commits, under any name and any fault |
| CommitCondition.CollidingHubsBlock | scripts/memory/consolidate_tree.py:180-204 | When two topics in need of a hub have the same hub id, no consolidation commits |
| CommitCondition.FlaggedLinkBlocks | scripts/memory/consolidate_tree.py:244-250 | When a link that would be added is flagged by the detector, no consolidation commits |
| HubClash.HubOfOneBranchBlocksAnother | scripts/memory/consolidate_tree.py:158-204 | Once one branch made the hub of a topic, no consolidation commits on another branch on which two nodes carry the topic |
| HubClash.BlockedBranchIsReachable | scripts/memory/consolidate_tree.py:227-266 | Four creations and a consolidation of one branch lead to a tree in which the plan of the other branch needs a taken hub and never commits |
| Convergence.NoTopicLinkLeft | scripts/memory/consolidate_tree.py:148-155 | After a committed consolidation, re-planning proposes no same-topic link between nodes considered before |
| Convergence.DedupeCovers | scripts/memory/consolidate_tree.py:119-127 | Dropping repeats keeps one operation of every key and invents none |
| HubConvergence.NoHubLeftIff | scripts/memory/consolidate_tree.py:158-204 | After a committed consolidation on a named branch, re-planning on it proposes no hub if and only if no hub of a topic two considered nodes carry is flagged |
| HubConvergence.HubLeftIffFlagged | scripts/memory/consolidate_tree.py:79-81 | Topic by topic: the hub is planned again exactly when the stored one is flagged |
| HubConvergence.MembersIffCarriers | scripts/memory/consolidate_tree.py:158-204 | A topic has two members in the hub map exactly when two nodes carry it or one carries it twice |
| SimpleYaml.SimpleYamlLoad | scripts/evals/_eval_common.py:69-108 | The loop over the lines leaves exactly the objects, or the exception, of the specification |
| SimpleYaml.ItemLine | scripts/evals/_eval_common.py:86-93 | A list line appends in place, making and hanging in the missing list first |
| SimpleYaml.KeyLine | scripts/evals/_eval_common.py:94-107 | A mapping line sets its key in place and remembers it for the next indent |
| SimpleYaml.StepKeepsGood | scripts/evals/_eval_common.py:72-85 | On every input the stack starts at the root, its indents never decrease, and every reference is allocated |
| YamlRoundTrip.LoadInvertsPrint | scripts/evals/_eval_common.py:69-108 | Loading a printed document gives it back: all nested mappings, empty ones too, scalars and non-empty scalar lists, with distinct keys |
| YamlRoundTrip.BlockLoads | scripts/evals/_eval_common.py:72-107 | Reading the lines of a mapping adds exactly its entries to the dictionary on top of the stack and changes nothing else that existed |
| JsonText.ReadInvertsQuote | scripts/memory/_memory_common.py:105-110 | Reading a written string literal gives back the string, whatever characters it holds |
| JsonText.QuoteIsPlain | scripts/memory/_memory_common.py:105-110 | A written literal is printable ASCII, has no line break and no white space at its ends |
| FrontMatter.RenderFrontmatter | scripts/memory/_memory_common.py:105-110 | The printer loop joins the fence, one line a field, and the fence |
| FrontMatter.Frontmatter | scripts/memory/compact_to_nodes.py:72-88 | The parser loop returns the specified metadata and body, also without a closing fence |
| FrontMatter.ParseInvertsRender | scripts/memory/compact_to_nodes.py:72-88 | Parsing a rendered block and a body gives back the metadata for all values, and the lines of the body |
| FrontMatter.BodyComesBackIff | scripts/memory/compact_to_nodes.py:78-79 | The body comes back if and only if line feeds are its only boundaries and none ends it |
| FrontMatter.RoundTripIff | scripts/memory/compact_to_nodes.py:72-88 | The whole round trip holds exactly under that condition |
| FrontMatter.MapOfHasEachField | scripts/memory/_memory_common.py:105-110 | The metadata map holds every pair of a dictionary |
| TaskIntake.FilterMemoriesByScope | scripts/memory/task-intake.py:660-675 | Accepted and rejected memories are split in order, each rejection with its reason |
| TaskIntake.SelectRelevantMemories | scripts/memory/task-intake.py:711-763 | The loop with its seen sets and running total is the greedy pass over the ranking, with all rejections |
| TaskIntake.RenderSelectedMemoryContext | scripts/memory/task-intake.py:789-799 | The rendered block, empty for no memories |
| Selection.SelectionIsFair | scripts/memory/task-intake.py:711-763 | The pass is greedy in rank order; ids and normalised bodies are distinct; both limits hold; the block's words are the tracked total; every refusal's reason is true of the final selection |
| Selection.EveryMemoryOnce | scripts/memory/task-intake.py:721-763 | Every input memory is selected, refused or out of scope exactly once |
| Selection.SelectedStayInScope | scripts/memory/task-intake.py:612-657 | A selected memory is one of the input and, unless managed, of the active project and branch |
| Selection.RankedIsOrdered | scripts/memory/task-intake.py:722-729 | The ranking never puts a memory behind one it outranks |
| Selection.BlockHasUsedTokens | scripts/memory/task-intake.py:705-708 | The words of the rendered block equal overhead plus lines |
| Delimiters.BlockIsWellDelimitedIff | scripts/memory/task-intake.py:789-799 | For all contents, the block holds the begin marker only at its start and the end marker only at its end, if and only if no selected id holds a marker |
| Delimiters.SafeHasNoMarker | scripts/memory/task-intake.py:678-683 | Neither marker survives or is created by the two replacements |
| Delimiters.SafeChangesMarkersOnly | scripts/memory/task-intake.py:678-683 | Content is changed exactly when it holds a marker |
| Delimiters.EscapingKeepsMarkers | scripts/memory/task-intake.py:686-702 | JSON escaping neither makes nor hides a marker |
| PromotionPass.Runtime.AppendToLayer | scripts/memory/_promotion.py:54-66 | The layer text after an append, other layers unchanged |
| PromotionPass.Runtime.SummarizePromotions | scripts/memory/_promotion.py:95-141 | The loop leaves exactly the layers and log of the specification and reports every candidate in its list |
| PromotionPass.RepeatedReportIsIdle | scripts/memory/_promotion.py:95-141 | After any run of passes, repeating any of their reports at any time changes no layer and appends no event |
| PromotionPass.RunKeepsDistinct | scripts/memory/_promotion.py:38-42 | The log never holds two events with the same candidate hash and decision |
| PromotionPass.RunGrows | scripts/memory/_promotion.py:54-66 | Over any run the log is only appended to and every layer keeps its text and words |
| PromotionPass.ExtendsKeepsHolding | scripts/memory/_promotion.py:45-51 | A layer that holds a candidate holds it after anything is appended |
| Compaction.Dedupe | scripts/memory/compact_to_nodes.py:221-247 | The loop with three seen sets keeps exactly the candidates that share no key with a stored node or an earlier candidate |
| Compaction.Compact | scripts/memory/compact_to_nodes.py:258-278 | The write loop stores the unique candidates, passing over those the store refuses |
| Compaction.StoredShareNoKey | scripts/memory/compact_to_nodes.py:216-247 | Stored candidates share no source hash, normalised summary or type-and-paths key with each other or with earlier nodes |
| Recompaction.SecondRunStoresNothing | scripts/memory/compact_to_nodes.py:258-278 | With unchanged sources a second write run leaves any tree as it is and stores nothing |
| Recompaction.StoreAllKnown | scripts/memory/compact_to_nodes.py:270-277 | After the write loop the known keys are the old ones and those of the stored candidates |
| JsonWalk.Walker.Walk | scripts/context/summarize_json.py:70-85 | The walk appends the full depth-limited preorder of the value, cut at the row limit |
| JsonWalk.WalkAll | scripts/context/summarize_json.py:114 | From no rows the result is the first rows of the full preorder |
| JsonWalk.FullIsFinal | scripts/context/summarize_json.py:77-85 | Neither the early exit nor the cap on children ever changes the rows |
| Manifest.FirstLine | scripts/maintenance/keep_codex_fast.py:530-531 | The first line of a manifest reads as its record exactly when the record was written on one line |
| Manifest.OneLineIffClean | scripts/maintenance/keep_codex_fast.py:502-508 | A record is written on one line if and only if its strings hold no U+0085, U+2028 or U+2029 |
| Manifest.ReadInvertsLine | scripts/maintenance/keep_codex_fast.py:502-508 | A written line reads back as its record |
| SessionArchive.CodexHome.ArchiveSessions | scripts/maintenance/keep_codex_fast.py:471-515 | The archive loop leaves exactly the files, rows and manifest of the specification |
| SessionArchive.CodexHome.RestoreSessions | scripts/maintenance/keep_codex_fast.py:518-547 | The restore program leaves exactly the files and rows of the specification, or stops at a line that does not read |
| SessionArchive.RestoreInvertsArchiveIff | scripts/maintenance/keep_codex_fast.py:471-547 | Archive always completes; archive then restore is the identity on files and rows if and only if ids and paths are clean, no id is empty and no row was flagged |
| SessionArchive.ArchiveStep | scripts/maintenance/keep_codex_fast.py:498-512 | After each step exactly the candidates handled so far are in the archive with their content, rows to match, and every other file and row is untouched |
| SessionArchive.RestoreStep | scripts/maintenance/keep_codex_fast.py:530-541 | After each record exactly the candidates not yet restored are in the archive |
| SessionArchive.NothingIsLost | scripts/maintenance/keep_codex_fast.py:498-537 | In every state between two steps, and so wherever the restore stops, every content of the start is in some file |

## Left out

- Real files, directories, permissions, fsync, symbolic links, path-escape checks, temporary files: the model works on maps from names to contents, and a rename is one step.
- Git calls and project-id derivation, the sensitive-content detector, SHA-256, the clock, age arithmetic, the size estimate of a rendered item and the regular expressions on the raw query: parameters of `Memory.Oracles`.
- Case folding beyond ASCII, and Unicode categories beyond the white space and line boundaries listed in `Text.dfy`; `repr` takes printability of other characters as a parameter.
- Lone surrogates: strings are sequences of Unicode scalar values.
- Node records are typed: list fields hold strings, links use `target_node_id`, keys of evidence and quality that no modelled code reads or writes are not modelled, and a raw reference is never an empty object.
- Index entries of old trees that lack keys, and dot-files in the node directory.
- Scores are reals: float rounding and not-a-number are not modelled.
- Usage ledger, latency and report rendering; the two logs of the store are modelled as lists of lines.
- A disk failure during the restore of a snapshot itself.
- Recall.IndexedRecallIsScan: stated for trees in order and queries no label or trigger key answers to, because it is false otherwise; RecallLimits.LosslessIffLabelFree, RecallLimits.KeyTermIsMissed and PaddedIds.AgreesIffNoPaddedHit say where. Trees with text that `repr` prints with escapes are excluded without a counterexample.
- DuplicateChains.DuplicatesAreWellFounded: the project id has no white space at its ends.
- HubConvergence.NoHubLeftIff: on a named branch, in a tree whose loadable files are named after their ids and whose project id is trimmed, as in every tree the store made; the same holds of CommitCondition.CommitsIff on every branch.
- YamlRoundTrip.LoadInvertsPrint: how a scalar's text becomes a number, boolean or string is a parameter; keys and scalars fit on one line and carry no edge white space.
- FrontMatter.Frontmatter: the value of a text that is not one JSON string literal is a parameter, and a file's line ends are not translated on reading.
- TaskIntake.SelectRelevantMemories: fields are looked up, stripped and converted before; the shadow and timeout code is not modelled.
- PromotionPass.RepeatedReportIsIdle: the hash of a candidate does not end in white space, as no digest does; the event log is a list, not its JSON lines.
- Compaction.Compact: how a candidate is built from a source file is not modelled, only that its source hash is a digest and its project the tree's.
- SessionArchive.RestoreInvertsArchiveIff: paths are canonical, nothing else touches the files between, and the manifest reader accepts lines of the written shape.
- JsonWalk.Walker.Walk: how a key is made safe for a path is a parameter; the sampled reading of a truncated file is not modelled.
- Hook benchmarks, gates, scorecard runners, the maintenance queue, route and prompt classifiers, the flat TOML reader, importers and the dream scheduler: not modelled.
