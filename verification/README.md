# Vault manager: verified model

This project models the deterministic engine of the vault manager and proves what its documentation and
tests promise of it. A vault is a finite map from paths to texts with a set of directories; a note is a
frontmatter mapping and a body. Each module follows one part of the program:

- `Wikilinks`, `VaultPaths`, `LinkIntegrity`: scanning and rewriting wikilinks, and what they denote.
- `Proposals`, `EngineLaws`, `VaultEngine`, `GeneratedRegion`, `Refinement`, `RefinementLaws`: the proposal
  engine, its preflight, what each operation does, the execution on a mutable vault, region merges and
  guarded rewrites.
- `VaultLayout`, `LayoutSuggestion`, `LayoutLaws`, `Routing`, `InboxSort`: the folder layout, its validator,
  the layout proposer, routing, and the inbox sort from end to end.
- `Frontmatter`, `NoteBody`, `Processing`, `ProcessingLaws`, `ProcessingRun`: printing and splitting notes,
  templates and summaries, the staged processing machine with its ledger, and its loops over a vault.
- `SchemaTerms`, `SchemaSync`, `SchemaLaws`, `SchemaGuard`, `SchemaNote`, `SchemaNoteLaws`, `SchemaNoteText`,
  `MarkdownTable`, `FolderTable`, `FolderTableLaws`, `Dashboard`, `DashboardLaws`, `SchemaOwnNote`,
  `SchemaFullNote`, `SchemaHistory`: the schema note as source of truth, printed, parsed, synced, read back as
  a whole, and synced over any history.
- `EmbeddingClient`, `EmbeddingIndex`, `EmbeddingLaws`, `Similarity`: batching, the incremental index, and
  the arithmetic.
- `JsonScanner`: finding the first JSON object in a model's answer.

Code that works step by step is written as methods and classes that are proved against functions; the
theorems are about those functions, over every input, run or history. The modules named `...Laws` say what the
functions of their neighbours mean in terms of paths, texts and fields alone. `dafny verify dfyconfig.toml` checks
the whole project.

## Model

| member | source | states |
|---|---|---|
| `Wikilinks.MatchLinkIff` | vault-manager/vault_agent/review.py:1094-1096 | the matcher decides the link pattern: it finds a link at the front of a text exactly when the link is well formed and the text starts with it, so at most one link starts at any position |
| `Wikilinks.GapStaysGap` | vault-manager/vault_agent/review.py:1094-1135 | a start inside the text between two links that fails before one link also fails before any other link put in its place, so substitution creates no new link |
| `Wikilinks.RescanIff` | vault-manager/vault_agent/review.py:1094-1135 | rewriting is exactly a map over link targets: rescanning the rewritten text gives the same links and gaps with only the targets replaced, if and only if every replaced target is free of `]`, `\|` and `#` and not empty |
| `Wikilinks.RewriteLeavesOthers` | vault-manager/vault_agent/review.py:1111-1135 | a text in which no link names the moved note, by path or by stem, is left byte for byte unchanged |
| `Wikilinks.SimpleLinkSeen` | vault-manager/vault_agent/review.py:1138-1151 | the ambiguity search never misses: every scanned link is found by the search for its target |
| `Wikilinks.SimpleLinkIff` | vault-manager/vault_agent/review.py:1138-1151 | in any text the search finds a stem if and only if some link has it as its target or a stray `[[` that opens no link stands before it; so it is wrong exactly when no link has the target and there is such a stray |
| `LinkIntegrity.AmbiguousIff` | vault-manager/vault_agent/review.py:1138-1151 | a move is refused as ambiguous if and only if more than one file or folder has the name of the note and some searched note links to it by its bare stem or holds a stray `[[` before that stem; where every `[[` opens a link only the links count |
| `VaultPaths.KeyInjective` | vault-manager/vault_agent/review.py:1106-1107 | two Markdown notes with the same path without suffix are the same note |
| `VaultPaths.KeyIs` | vault-manager/vault_agent/review.py:1106-1107 | that path is the path of the note as text, without `.md` |
| `LinkIntegrity.RenameKeepsDenotation` | vault-manager/vault_agent/review.py:1099-1135 | moving a note and replacing targets preserves what a target denotes, when the new stem is the old one or new to the vault and a renamed stem is not another note's full path |
| `LinkIntegrity.RenameSafeIff` | vault-manager/vault_agent/review.py:1099-1151 | renaming a filed note that its bare stem denotes keeps the meaning of every target if and only if the stem stays or no note of the vault already has the new one |
| `LinkIntegrity.BareStemIsOwn` | vault-manager/vault_agent/review.py:1138-1151 | what the ambiguity check is for: in a clean batch, a link that still says the bare stem of the note about to move, and denotes a note, denotes that very note |
| `LinkIntegrity.LinksKeepTheirMeaning` | vault-manager/vault_agent/review.py:1041-1135 | after any part of a preflight-clean batch of sound moves, every link of a file named `*.md`, below no `.git` and outside the system folder, that denoted a note denotes that same note, at its new path if moved, with heading, alias and surrounding text unchanged |
| `Proposals.Preflight` | vault-manager/vault_agent/review.py:989-1065 | the operations reported are exactly those there is an objection to, and those that are not clean against the three sets earlier operations have planned, written and landed on |
| `Proposals.CleanIff` | vault-manager/vault_agent/review.py:881-1065 | an operation is clean if and only if there is no objection to it: each objection of the source spelled out in terms of paths, files, folders and the operations before it, such as a write without permission to overwrite whose target exists |
| `Proposals.MoveLandsOnFreePath` | vault-manager/vault_agent/review.py:1041-1091 | in a clean list no move ever lands on an occupied path, at whatever point of the run |
| `Proposals.PlacesDistinct` | vault-manager/vault_agent/review.py:1076-1091 | no two original notes ever share a place |
| `Proposals.PlaceIsOwnOrLanded` | vault-manager/vault_agent/review.py:1076-1091 | a note that is not at its own path is where a move of the list put it: on a path free at the start and outside the system folder |
| `Proposals.NothingLost` | vault-manager/vault_agent/review.py:416-446 | for every proposal that passes preflight, between any two operations each original note is at its own path or its move destination, unchanged but for link targets unless an operation names it as an edit target, and every file present is accounted for |
| `Proposals.NothingLostWhenStopped` | vault-manager/vault_agent/review.py:416-446 | a run that stops part-way stops in a state in which nothing is lost |
| `Proposals.ApplyTree` | vault-manager/vault_agent/review.py:1068-1091 | every operation keeps the vault a directory tree and removes no directory |
| `VaultEngine.Vault.RewriteInbound` | vault-manager/vault_agent/review.py:1099-1135 | rewriting notes one after the other, in any order, ends in the vault with every non-system note rewritten; every state on the way is one between |
| `VaultEngine.Vault.MoveNote` | vault-manager/vault_agent/review.py:1076-1091 | the move on the mutable vault has exactly the specified effect, and passes only through states between |
| `VaultEngine.Vault.ApplyOp` | vault-manager/vault_agent/review.py:416-446 | one operation on the mutable vault has exactly the specified effect |
| `EngineLaws.WriteEffect` | vault-manager/vault_agent/review.py:688-703 | a write is refused exactly on a protected path or on an existing one without permission to overwrite; applied, the file holds the given text, or the merged one when it merges into a file, and every other file is the same; otherwise nothing changes |
| `EngineLaws.EditEffect` | vault-manager/vault_agent/review.py:717-846 | an edit is refused exactly in the system folder, for a missing note or when it refuses itself; applied, that one note has the new text; otherwise nothing changes |
| `EngineLaws.MkdirEffect` | vault-manager/vault_agent/review.py:1068-1073 | creating a folder raises exactly when a file is in the way or the folder must be new and is not; applied, exactly the folders on the way are added and no file changes |
| `EngineLaws.MoveEffect` | vault-manager/vault_agent/review.py:1076-1135 | after a move the note is at its new path only; with link updating every file whose name ends in `.md`, below no `.git` and outside the system folder, the root included, has its links rewritten, and every other file has its text |
| `EngineLaws.AliasesEffect` | vault-manager/vault_agent/review.py:449-472 | adding aliases changes the configuration file and no other |
| `EngineLaws.TextLostOnlyTo` | vault-manager/vault_agent/review.py:416-446 | in a clean run the text of an original note, up to link targets, is lost only to an edit of that note or to a write to it that permits overwriting |
| `EngineLaws.ProtectedKept` | vault-manager/vault_agent/review.py:881-900 | no clean proposal, run to any point, changes the generated state of the agent, nor a file below a `.git` that no move takes away |
| `VaultEngine.Vault.ApplyProposal` | vault-manager/vault_agent/review.py:416-446 | a proposal is rejected exactly when there is an objection to one of its operations, so whenever a write without permission to overwrite names an existing path, and then nothing changes; otherwise the run ends in the specified state, and every state it passes through, even inside a move, keeps every original note |
| `GeneratedRegion.MergeRaisesIff` | vault-manager/vault_agent/review.py:706-714 | merging raises exactly when both texts carry both markers but the existing text has its end markers only before its first start marker |
| `GeneratedRegion.MergeSays` | vault-manager/vault_agent/review.py:706-714 | part by part: only what is between the markers of the existing text is replaced, by what is between those of the generated one |
| `GeneratedRegion.MergeReplaces` | vault-manager/vault_agent/review.py:706-714 | when either text lacks a marker the generated text takes the place of the whole existing one |
| `GeneratedRegion.MergeKeepsOutside` | vault-manager/vault_agent/review.py:706-714 | text outside the region is preserved byte for byte, and the region holds exactly the generated contents |
| `GeneratedRegion.MergeOverwrites` | vault-manager/vault_agent/review.py:706-714 | merge(merge(e, g1), g2) = merge(e, g2), so merging is idempotent |
| `Refinement.ChainStaysInBudget` | vault-manager/vault_agent/refine.py:45-75 | after k accepted rewrites at most k times the budget of words is missing and at most k times the budget is new |
| `RefinementLaws.AcceptedIff` | vault-manager/vault_agent/review.py:812-846 | a rewrite is accepted if and only if the frontmatter can be read, at most the allowed number of words is lost and at most the allowed number is new |
| `RefinementLaws.WordsAre` | vault-manager/vault_agent/refine.py:39-42 | what counts as a word: a run of word characters as long as it goes, in lower case; every other character is passed over |
| `RefinementLaws.MarkerIff` | vault-manager/vault_agent/refine.py:31-36 | a text starts with a list marker of some length if and only if it has the form of the pattern, white space taken as far as it goes |
| `RefinementLaws.DropFirst` | vault-manager/vault_agent/refine.py:39-42 | nothing is dropped up to the first marker at the start of a line; that marker is, and the rest goes on as a text of its own |
| `Refinement.RestructureKeepsFrontmatter` | vault-manager/vault_agent/review.py:812-846 | a rewrite of a note with closed frontmatter keeps the block byte for byte and reparses to exactly the new body |
| `Refinement.RestructurePlainIff` | vault-manager/vault_agent/review.py:812-846 | a note without frontmatter is read back as the new body exactly when that body does not itself open like a frontmatter block |
| `Refinement.AddedNewlineKeepsWordsIff` | vault-manager/vault_agent/review.py:812-846 | the newline appended to a body keeps its words if and only if the scan for list markers does not end, at a line start, on a bare marker such as `7.`; otherwise words are lost |
| `Refinement.RewriteChainSafe` | vault-manager/vault_agent/review.py:812-846 | along any chain of applied rewrites none of whose bodies ends on a bare marker, the frontmatter never changes and the words in the file stay within k times the budget |
| `Frontmatter.RenderLines` | vault-manager/vault_agent/frontmatter.py:44-60 | the printing loops produce the specified lines |
| `Frontmatter.OrderedKeysComplete` | vault-manager/vault_agent/frontmatter.py:57-60 | the printed keys are exactly the keys of the mapping |
| `Frontmatter.RenderIgnoresInsertionOrder` | vault-manager/vault_agent/frontmatter.py:44-60 | rendering depends only on the mapping, not on the order its keys were inserted in |
| `Frontmatter.SplitRendered` | vault-manager/vault_agent/frontmatter.py:22-54 | splitting a rendered note at its first close recovers exactly the printed lines and the body without leading newlines, for non-empty frontmatter without line breaks |
| `Frontmatter.RenderFixedPoint` | vault-manager/vault_agent/frontmatter.py:22-54 | rendering again what was split off changes nothing |
| `Frontmatter.EmptyFrontmatterUnclosedIff` | vault-manager/vault_agent/frontmatter.py:22-54 | with empty frontmatter the printed block is read back as unclosed if and only if the body contains no closing fence of its own |
| `Frontmatter.ListRoundTripIff` | vault-manager/vault_agent/frontmatter.py:63-88 | a printed list of non-empty strings of printable characters, tabs and line breaks reads back as the same strings, under YAML 1.2 flow quoting and line folding, if and only if none holds a line break |
| `Frontmatter.BareIff` | vault-manager/vault_agent/frontmatter.py:71-94 | a text is printed without quotes if and only if it holds no character of the flow and comment syntax, has no white space around it and no indicator in front, and is no keyword in any case and no integer |
| `VaultLayout.BuildPaths` | vault-manager/vault_agent/paths.py:113-161 | accepts exactly the configurations whose paths are legal and whose layout meets every separation and nesting rule, and returns what they ask for |
| `VaultLayout.ValidateDomains` | vault-manager/vault_agent/paths.py:200-235 | accepts exactly the domain folders with legal slugs and paths, apart from each other and from every reserved and content folder |
| `VaultLayout.ValidateCustoms` | vault-manager/vault_agent/paths.py:164-197 | accepts exactly the distinct custom folders apart from the system, inbox and dashboards folders |
| `LayoutLaws.ValidIff` | vault-manager/vault_agent/paths.py:113-235 | what the pairwise checks come to: a layout is valid if and only if no file can be in two of its nine top-level folders, the people and administration folders are nested, each domain has a legal key and shares no file with a top-level folder or another domain, and custom folders are distinct and share no file with the three reserved ones |
| `LayoutLaws.ConfiguredLast` | vault-manager/vault_agent/paths.py:113-161 | a role the configuration names has the folder of its last entry |
| `LayoutLaws.ConfiguredDefault` | vault-manager/vault_agent/paths.py:113-161 | a role it does not name keeps its default folder |
| `LayoutSuggestion.UniqueDomainSlug` | vault-manager/vault_agent/layout_suggestion.py:201-209 | the search ends, by pigeonhole over the taken names, with the first free candidate, and that is a legal slug |
| `LayoutLaws.DomainSlugIs` | vault-manager/vault_agent/layout_suggestion.py:196-198 | the slug of a folder is the maximal runs of letters and digits of its lower-case name joined by single underscores, or `domain` when there are none |
| `LayoutLaws.ClassifiedIff` | vault-manager/vault_agent/layout_suggestion.py:175-193 | a folder is taken for a role if and only if its name holds a word of the role and none of an earlier role, or no telling word at all and at least half of its notes have the type, and for projects the domain, of that role |
| `LayoutLaws.SuggestionExactly` | vault-manager/vault_agent/layout_suggestion.py:97-152 | each role is claimed by exactly the first folder taken for it that is not passed over, every other folder not passed over becomes a domain, and no two domains share a key |
| `LayoutLaws.ContentSays` | vault-manager/vault_agent/layout_suggestion.py:212-220 | the thirteen suggested folders, each under the name claimed for its top-level role or the default one |
| `LayoutSuggestion.RemapRole` | vault-manager/vault_agent/layout_suggestion.py:212-220 | a top-level role and exactly the roles beneath it move under the observed folder |
| `LayoutSuggestion.DefaultClassifies` | vault-manager/vault_agent/layout_suggestion.py:175-193 | a default folder is classified as its own role, whatever notes it holds |
| `LayoutSuggestion.SuggestLayout` | vault-manager/vault_agent/layout_suggestion.py:97-152 | each observed folder gets exactly one home: reserved, one role, or one fresh domain slug |
| `LayoutSuggestion.SuggestionAccepted` | vault-manager/vault_agent/layout_suggestion.py:97-220 | whatever folders the vault has, the validator accepts the suggested layout, remapped child roles included |
| `Routing.SafeSegmentIsFolder` | vault-manager/vault_agent/layout_routing.py:269-271 | a cleaned project name is always one legal folder name |
| `Routing.RouteLands` | vault-manager/vault_agent/layout_routing.py:94-154 | in any valid layout a routed note lands under the home folder of its type and domain, outside the system, inbox and dashboards folders |
| `Routing.RouteExactly` | vault-manager/vault_agent/layout_routing.py:94-154 | the routing table in both directions: a note is filed in a folder if and only if one of its rows says so - contacts and authors by parent, organizations, sources, projects under their cleaned stem, other types under their cleaned parent, in the folder of the domain, configured or by role, or among the thoughts - and in every other case it is left for review |
| `Routing.PersonsRouted` | vault-manager/vault_agent/layout_routing.py:104-118 | a person with the parent `[[Contacts]]` goes to the contacts folder and one with `[[Authors]]` to the authors folder; a person is filed only when the parent names one of the two |
| `Routing.LinkNameIs` | vault-manager/vault_agent/layout_routing.py:263-266 | the name a parent link stands for: what is between the brackets, without alias and first folder, stripped |
| `Routing.SafeSegmentIs` | vault-manager/vault_agent/layout_routing.py:269-271 | a cleaned name is what is kept of the name, stripped, with hyphens for spaces, or `Project` when nothing is left |
| `Routing.KeptChars` | vault-manager/vault_agent/layout_routing.py:269-271 | what is kept, character by character: ASCII letters, digits, spaces, underscores and hyphens |
| `Routing.DecideExactly` | vault-manager/vault_agent/layout_routing.py:30-91 | where a note is sorted in custom mode, if and only if: its recorded folder when it is configured, else the chosen one when the model is sure of a configured one, else the table when that is the fallback |
| `Routing.DecisionLands` | vault-manager/vault_agent/layout_routing.py:30-91 | whatever the model answers, a note is only ever sorted outside the system, inbox and dashboards folders |
| `InboxSort.BuildProposal` | vault-manager/vault_agent/layout_routing.py:157-234 | the nested loops build exactly the planned folders and moves of the selected notes: each folder once, those of one note parents before children, and each folder before its note |
| `InboxSort.SelectionIs` | vault-manager/vault_agent/layout_routing.py:157-234 | the selection is exactly the first notes, up to the limit, that can be read, that routing gives a folder, that automation may move if it must, and whose destination is free |
| `InboxSort.SortSucceedsIff` | vault-manager/vault_agent/layout_routing.py:157-234 | the built proposal passes preflight and applies to the end if and only if destinations are distinct, no selected note is ambiguously linked, and no file is or is put where a folder is needed |
| `InboxSort.InboxSortSucceedsIff` | vault-manager/vault_agent/layout_routing.py:157-234 | end to end: with any valid layout and distinct inbox file names, the proposal goes through if and only if no selected note is ambiguously linked and no file is in the way of a folder |
| `InboxSort.SortLands` | vault-manager/vault_agent/layout_routing.py:94-234 | after a successful sort each selected note is at its routed destination, outside the three reserved folders, unchanged but for link targets |
| `InboxSort.SortLeaves` | vault-manager/vault_agent/layout_routing.py:157-234 | after a successful sort every other file is where it was |
| `InboxSort.SortKeepsLinks` | vault-manager/vault_agent/layout_routing.py:157-234 | a successful sort into folders that links can name keeps the meaning of every link of the vault |
| `NoteBody.TemplateFills` | vault-manager/vault_agent/templates.py:31-50 | after the missing sections are appended none is missing, every titled heading is still there, and the old text stays in front |
| `NoteBody.SummaryKeepsHeadings` | vault-manager/vault_agent/processor.py:908-919 | writing the summary loses no titled heading |
| `NoteBody.SummaryMissingIff` | vault-manager/vault_agent/processor.py:894-905 | a summary heading counts as filled exactly when some line between it and the next heading is not blank |
| `Processing.CanonicalSpec` | vault-manager/vault_agent/processor.py:837-854 | the canonical frontmatter keeps exactly the approved properties and, when told to, the others, values unchanged |
| `Processing.WrittenReadsBack` | vault-manager/vault_agent/processor.py:645-678 | a note a stage has written is read back with the same frontmatter and body |
| `Processing.AnswersApproved` | vault-manager/vault_agent/llm.py:904-959 | a validated answer leaves no unapproved controlled value behind |
| `ProcessingLaws.ValidatedIff` | vault-manager/vault_agent/llm.py:794-982 | an answer is validated to a payload if and only if it has the form of its stage and says only what may be said: an approved type, values of fields that allow them, a listed hub or folder, a non-blank summary |
| `ProcessingLaws.GateSays` | vault-manager/vault_agent/processor.py:937-949 | the review gate holds an answer back exactly when warnings are to be reviewed and there is one, or when confidence and threshold are both given and the confidence is below the threshold or not above it by more than the margin |
| `ProcessingLaws.DraftSays` | vault-manager/vault_agent/processor.py:389-645 | each stage writes exactly the validated answer: the type, each property value, the parent link, or the summary, and nothing else of the frontmatter or body |
| `ProcessingLaws.FolderRecorded` | vault-manager/vault_agent/processor.py:389-645 | a folder is recorded exactly as the validated answer gives it, and the text of the note stays |
| `ProcessingLaws.TextWritten` | vault-manager/vault_agent/processor.py:645-678 | the text a completed stage leaves is the canonical frontmatter of what the answer writes, and the body |
| `ProcessingLaws.NeededIff` | vault-manager/vault_agent/processor.py:722-834 | which stages a note needs, spelled out: what is missing, blank, unapproved or not yet marked complete |
| `ProcessingLaws.NextIsFirstNeeded` | vault-manager/vault_agent/processor.py:722-735 | the next stage is the first of the seven that the note needs; a list for a type stops the search once the note has its shape |
| `ProcessingLaws.CompletedIsRecorded` | vault-manager/vault_agent/processing_state.py:31-120 | a completed stage is recorded as complete for the text it leaves and the norms in force |
| `Processing.DraftChanges` | vault-manager/vault_agent/processor.py:389-678 | whatever the stage and the answer, a draft changes only what its stage is for |
| `Processing.WroteSettles` | vault-manager/vault_agent/processor.py:722-834 | after a stage has written the note, neither it nor any stage before it is needed |
| `Processing.StepAdvances` | vault-manager/vault_agent/processor.py:389-678 | every completed step leaves a workable note whose next needed stage, if any, comes strictly later |
| `Processing.RunConverges` | vault-manager/vault_agent/processor.py:389-834 | a run over one note takes at most seven steps, its stages come in order, none twice, and after seven no stage is needed |
| `Processing.NeededCompletesIff` | vault-manager/vault_agent/processor.py:389-678 | the needed stage completes if and only if it is served: the answer validates, clears the review gate and, for a hub or folder, picks one |
| `Processing.TurnAdvances` | vault-manager/vault_agent/organize_pass.py:83-117 | a served turn completes the needed stage and moves the note on |
| `Processing.ServedNoteIsDone` | vault-manager/vault_agent/processor.py:389-834 | the machine converges: a workable note whose stages are served has no stage needed after at most seven turns |
| `Processing.EditForgotten` | vault-manager/vault_agent/processing_state.py:31-64 | an outside edit reopens every stage, but completing any one stage afterwards makes exactly the previously complete stages count as complete again |
| `Processing.ListTypeCrashes` | vault-manager/vault_agent/processor.py:722-834 | a note whose type is a list is shaped at most once, and then every search for its next stage raises |
| `ProcessingRun.VaultConverges` | vault-manager/vault_agent/processor.py:302-380 | whatever order notes are taken in, a run over n notes takes at most 7n steps and no stage of a note runs twice |
| `ProcessingRun.CanonicalFrontmatter` | vault-manager/vault_agent/processor.py:837-854 | the two loops build the canonical frontmatter |
| `ProcessingRun.ApplyShapeDefaults` | vault-manager/vault_agent/processor.py:692-700 | the loop sets exactly the missing defaults |
| `ProcessingRun.Vault.ProcessNote` | vault-manager/vault_agent/processor.py:389-678 | one stage on the mutable vault has exactly the specified effect on its note and none on the others |
| `ProcessingRun.Vault.SelectNext` | vault-manager/vault_agent/processor.py:109-141 | the first note, in scan order, with a stage to run |
| `ProcessingRun.Vault.Run` | vault-manager/vault_agent/processor.py:231-380 | the loop's history is a run of provider-answered steps; it fails only when refused or stuck, a failed step changes no text, and a run not cut short leaves no stage needed |
| `ProcessingRun.LoopIsVaultRun` | vault-manager/vault_agent/processor.py:231-380 | the loop with a provider is one of the schedules for which convergence is proved |
| `ProcessingRun.ServedLoopFinishes` | vault-manager/vault_agent/processor.py:231-380 | over a readable vault whose notes are served the loop never gets stuck, and with room for seven steps a note it leaves no stage needed |
| `ProcessingRun.Vault.OrganizePass` | vault-manager/vault_agent/organize_pass.py:25-117 | a pass gives one turn to each of the first listed candidates, to every note when the limit allows; it raises exactly when some next stage cannot be found |
| `ProcessingRun.SevenPassesFinish` | vault-manager/vault_agent/organize_pass.py:25-117 | seven passes over a readable vault whose notes the provider serves leave no stage needed anywhere |
| `SchemaSync.CurrentValues` | vault-manager/vault_agent/schema.py:383-394 | the loop collects the built-in values and then the stored ones, each once |
| `SchemaSync.Reconcile` | vault-manager/vault_agent/schema_note.py:746-778 | the passes compute the final values and the four reported lists |
| `SchemaSync.EffectiveValues` | vault-manager/vault_agent/schema_note.py:746-778 | the effective values afterwards are exactly built-ins, note values and blocked removals |
| `SchemaSync.EffectiveTypes` | vault-manager/vault_agent/schema_note.py:781-817 | the same for note types; no type in use is dropped |
| `SchemaSync.EffectiveHubs` | vault-manager/vault_agent/schema_note.py:820-848 | the hubs of a domain afterwards are exactly the note's and those a note still points to |
| `SchemaSync.EffectiveProperties` | vault-manager/vault_agent/schema_note.py:871-919 | the accepted properties afterwards are exactly built-ins, the note's, and those still carried by a note |
| `SchemaSync.SyncAllowsExactly` | vault-manager/vault_agent/schema_note.py:1069-1086 | what applying a parsed note leaves allowed, over all kinds of items: built in, noted, or allowed before and used |
| `SchemaSync.SyncSafe` | vault-manager/vault_agent/schema_note.py:1069-1086 | applying a parsed note drops nothing that was allowed and is used by a scanned note |
| `SchemaLaws.ValueKeptIffUsed` | vault-manager/vault_agent/schema_note.py:716-778 | a controlled value is allowed afterwards if and only if it is built in, listed, or was allowed and some scanned note gives the property that value, as a text or in a list, lifted or in the frontmatter |
| `SchemaLaws.TypeKeptIffUsed` | vault-manager/vault_agent/schema_note.py:716-817 | the same for note types |
| `SchemaLaws.HubKeptIffUsed` | vault-manager/vault_agent/schema_note.py:727-848 | a hub is allowed afterwards if and only if the note lists it for its domain, or it was allowed there and the parent of some scanned note is its name, bare or in double brackets |
| `SchemaLaws.PropertyKeptIffUsed` | vault-manager/vault_agent/schema_note.py:851-919 | a property is declared afterwards if and only if it is built in, listed, or was declared and some scanned note carries it; a note without the section changes nothing |
| `SchemaLaws.ValuesReported` | vault-manager/vault_agent/schema_note.py:746-778 | which values a sync reports as added, removed, blocked and edited, each spelled out |
| `SchemaLaws.HubsReported` | vault-manager/vault_agent/schema_note.py:820-848 | the same for hubs |
| `SchemaLaws.TypesReported` | vault-manager/vault_agent/schema_note.py:781-817 | the same for note types |
| `SchemaLaws.PropertiesReportSays` | vault-manager/vault_agent/schema_note.py:871-919 | the same for properties |
| `SchemaLaws.ValueTexts` | vault-manager/vault_agent/schema_note.py:746-778 | the text stored for a value afterwards: that of the note, or the one the schema had when the note leaves the value out and it stays because it is used; no other |
| `SchemaLaws.PropertyTexts` | vault-manager/vault_agent/schema_note.py:871-919 | the same for properties; and which are lists afterwards |
| `SchemaLaws.TypeSpecs` | vault-manager/vault_agent/schema_note.py:781-817 | what is stored for a note type: all it had, with the description of the note if it gives one, and a folder |
| `SchemaLaws.HubTexts` | vault-manager/vault_agent/schema_note.py:820-848 | the hubs of a domain with their texts: the last line of the note for each hub listed, and the stored text of each other hub still pointed to |
| `SchemaSync.ApplyControlledIdempotent` | vault-manager/vault_agent/schema_note.py:746-778 | applying the same section again leaves the stored property, definitions included, as it is |
| `SchemaSync.SyncIdempotent` | vault-manager/vault_agent/schema_note.py:1069-1086 | applying the same parsed note again leaves the whole schema as it is |
| `SchemaSync.SecondReport` | vault-manager/vault_agent/schema_note.py:746-778 | applying the same section again reports nothing added, edited or newly blocked, but as removed exactly the unused built-in values it leaves out |
| `SchemaSync.SecondTypesReport` | vault-manager/vault_agent/schema_note.py:781-817 | applying the same section again reports as edited exactly the built-in types the note describes differently |
| `SchemaSync.SchemaStore.SyncControlled` | vault-manager/vault_agent/schema_note.py:746-778 | one section updates the stored schema and its report, and nothing else |
| `SchemaSync.SchemaStore.SyncFromNote` | vault-manager/vault_agent/schema_note.py:1041-1105 | returns at once, reporting nothing, when there is no note or its hash is the recorded one; otherwise the sections in order compute the specified schema and reports, the schema is written back only when a report counts as a change, and the hash is recorded |
| `SchemaHistory.ProgramOk` | vault-manager/vault_agent/schema_note.py:459-503 | the parser of the program turns every text into a note fit for a sync, so the results below hold for it |
| `SchemaHistory.IngestAllowsExactly` | vault-manager/vault_agent/schema_note.py:1041-1105 | what one call allows: nothing changes at the recorded hash or without write access; otherwise, written back or not, exactly what is built in, listed, or allowed before and kept |
| `SchemaHistory.HistoryAllowsExactly` | vault-manager/vault_agent/schema_note.py:1041-1105 | after any history of note texts, vault states and calls an item is allowed if and only if it is built in, or was allowed at the start or listed by an ingested note and kept by every later ingested one: listed by it, of a kind it is silent about, or used when it was ingested |
| `SchemaHistory.SameTextIsIdle` | vault-manager/vault_agent/schema_note.py:1060-1067 | as long as the text is the one last ingested nothing is changed, whatever happens to the vault |
| `SchemaHistory.UnusedDroppedIff` | vault-manager/vault_agent/schema_note.py:1060-1067 | an allowed item that is not built in, not listed and not used any more is dropped if and only if the hash of the text is not the recorded one |
| `SchemaHistory.NextReport` | vault-manager/vault_agent/schema_note.py:746-778 | when a changed text with the same section is ingested, the section is reported to add and edit nothing, to block what was blocked, and to remove exactly the unused built-in values it leaves out |
| `SchemaHistory.NextTypesReport` | vault-manager/vault_agent/schema_note.py:781-817 | the same for note types, with exactly the built-in types that the note describes differently reported as edited |
| `SchemaGuard.UnreportedSyncIff` | vault-manager/vault_agent/schema_note.py:1041-1105 | a sync that reports no change has computed a schema of the same meaning if and only if the note clears no stored definition of a value, hub or property, omits no redefined built-in property and changes no list mark |
| `SchemaNote.ParseNote` | vault-manager/vault_agent/schema_note.py:459-503 | the line loop computes the specified fold |
| `SchemaNote.ValueLineReadsBack` | vault-manager/vault_agent/schema_note.py:248-250 | a printed value line is read back as its value and stripped definition |
| `SchemaNoteLaws.LineIff` | vault-manager/vault_agent/schema_note.py:93-97 | a line is read as a bullet or a heading with a text if and only if it has the form of the two patterns: indentation, mark, white space, text, white space |
| `SchemaNoteLaws.HandWrittenSplits` | vault-manager/vault_agent/schema_note.py:448-456 | a plain value, in back-ticks or not, followed by a colon or any of the three dashes set off by white space, is split from its definition there, whatever the definition holds |
| `SchemaNoteLaws.ListIff` | vault-manager/vault_agent/schema_note.py:437-445 | a property is a list if and only if `(list)` or `(array)`, in either case, follows its name |
| `SchemaNoteLaws.NoteSays` | vault-manager/vault_agent/schema_note.py:459-503 | what any text of the note says: a value has a definition in a section, and a property a type and definition, if and only if the last line for it under a heading of the section says so; the hubs of a domain are those of its lines, in order |
| `SchemaNote.RoundTrip` | vault-manager/vault_agent/schema_note.py:272-385 | parsing the printed lines gives back exactly the properties with their types, the values, the hubs by domain and every definition, stripped |
| `SchemaNoteText.RenderNote` | vault-manager/vault_agent/schema_note.py:272-385 | the appending loops build the specified text |
| `SchemaNoteText.TextLines` | vault-manager/vault_agent/schema_note.py:272-385 | the printed text splits into exactly the printed lines, but for blank ones at its end |
| `MarkdownTable.RowReadsBack` | vault-manager/vault_agent/schema_note.py:392-393 | cells that are stripped and free of bars are read back exactly as printed |
| `FolderTable.ParseFolders` | vault-manager/vault_agent/schema_note.py:506-566 | the scan of the section computes the specified table |
| `FolderTable.RenderFolders` | vault-manager/vault_agent/schema_note.py:388-406 | the appending loops build the specified rows |
| `FolderTable.FolderStructureChanged` | vault-manager/vault_agent/schema_note.py:673-684 | true exactly when there is a table and it is invalid or asks for another layout |
| `FolderTable.TableReadsBack` | vault-manager/vault_agent/schema_note.py:388-566 | the printed rows are read back cell by cell: header and rule passed over, roles, domains and custom folders recognised |
| `FolderTableLaws.RowSays` | vault-manager/vault_agent/schema_note.py:516-566 | what a row edited by hand does, in any spelling of its key: it sets exactly the folder of the root, role or domain its key names, over an earlier row, or adds a custom folder; the header, rules, rows without a folder and other keys do nothing |
| `FolderTable.TableAccepted` | vault-manager/vault_agent/schema_note.py:569-581 | what the table of a valid layout asks for is accepted by the validator and gives back that layout |
| `FolderTable.CustomKeptIff` | vault-manager/vault_agent/schema_note.py:388-566 | a custom folder survives the round trip if and only if its description is stripped and has no bar |
| `SchemaOwnNote.AnyNoteParsed` | vault-manager/vault_agent/schema_note.py:459-503 | whatever text the note holds, the parsed note has no empty or repeated value and no empty or padded hub name |
| `SchemaOwnNote.AnyNoteIsSafe` | vault-manager/vault_agent/schema_note.py:1069-1086 | applying any text of the note drops nothing in use, allows only what was built in, noted or allowed before, and is idempotent |
| `SchemaOwnNote.EchoReportsNothing` | vault-manager/vault_agent/schema_note.py:1041-1105 | syncing a note that says what the schema says reports nothing in any section, whatever the vault holds; only dashboard requests can differ |
| `SchemaFullNote.RequestsOfText` | vault-manager/vault_agent/schema_note.py:350-363 | whatever requests the schema stores, the printed note ticks none of them |
| `SchemaFullNote.FullRoundTrip` | vault-manager/vault_agent/schema_note.py:272-581 | one text read by its three parsers gives back exactly the values, definitions, property types and hubs, exactly the layout through the validator, and no dashboard request |
| `SchemaFullNote.OwnNoteUnchangedIff` | vault-manager/vault_agent/schema_note.py:1069-1105 | parsing and applying the unedited note proposes no folder change and reports no change if and only if the schema stores no dashboard request |
| `SchemaFullNote.OwnNoteMeansTheSame` | vault-manager/vault_agent/schema_note.py:1041-1105 | when it reports no change the schema it computes means the same as the stored one |
| `Dashboard.ParseRequests` | vault-manager/vault_agent/schema_note.py:602-622 | each ticked pair once, in order |
| `Dashboard.CandidateRows` | vault-manager/vault_agent/dashboard_table.py:53-90 | a row, with its count, for exactly the offered pairs and for every kept one, grouped and ordered |
| `DashboardLaws.TableSays` | vault-manager/vault_agent/dashboard_table.py:33-90 | the table has one row for each pair that is checked or that enough notes outside the system and dashboard folders have, no other and none twice, each with the number of those notes |
| `DashboardLaws.ParentCountsAs` | vault-manager/vault_agent/dashboard_table.py:39-50 | a parent counts under its bare name: plain, as a link, through a path, or under an alias |
| `DashboardLaws.TickIff` | vault-manager/vault_agent/schema_note.py:599-622 | a row ticks its pair if and only if its first cell is one of the marks and the next two name a property and a value |
| `DashboardLaws.TableStands` | vault-manager/vault_agent/schema_note.py:584-591 | the table is the text between the first start marker and the first end marker after it |
| `DashboardLaws.NoTableStands` | vault-manager/vault_agent/dashboard_table.py:93-101 | without both markers in that order the section under the heading is read, and a refresh appends a new section |
| `Dashboard.TicksKept` | vault-manager/vault_agent/dashboard_table.py:93-118 | the pairs ticked after a refresh are exactly those ticked before it |
| `Dashboard.OutsideKept` | vault-manager/vault_agent/dashboard_table.py:93-101 | outside the marked region nothing changes |
| `Dashboard.RefreshIdempotent` | vault-manager/vault_agent/dashboard_table.py:104-118 | refreshing again with the same rows changes nothing |
| `Dashboard.SchemaFile.Refresh` | vault-manager/vault_agent/dashboard_table.py:104-118 | the refresh of the stored note splices in the table of the vault, and loses and gains no tick |
| `EmbeddingClient.VectorsFromPayload` | vault-manager/vault_agent/embeddings.py:218-240 | the in-place sort yields the vectors by index, or raises on a bad payload |
| `EmbeddingClient.RefusedIff` | vault-manager/vault_agent/embeddings.py:218-240 | a payload is refused exactly when an item has no vector or there are too many or too few |
| `EmbeddingClient.PayloadInOrder` | vault-manager/vault_agent/embeddings.py:218-240 | in whatever order the server puts its items, the vectors come out in input order |
| `EmbeddingClient.TruncatedIsPrefix` | vault-manager/vault_agent/embeddings.py:105-118 | truncation ends with the vector of a prefix of the text that fits |
| `EmbeddingClient.TextIff` | vault-manager/vault_agent/embeddings.py:89-118 | a text on its own gives its vector when it fits, and otherwise that of the first of at most six cuts that fits, each the longest prefix within nine tenths of the reported allowance, or nothing when none does |
| `EmbeddingClient.BatchIsPointwise` | vault-manager/vault_agent/embeddings.py:89-103 | however a batch is split on the way, its result is that of each text on its own |
| `EmbeddingClient.EachInOrder` | vault-manager/vault_agent/embeddings.py:53-61 | unless something is raised there is one vector per text, in order, that of the text or of an accepted prefix of it |
| `EmbeddingClient.Embed` | vault-manager/vault_agent/embeddings.py:53-61 | the batch loop refines the pointwise map for every batch size |
| `EmbeddingIndex.MeanVector` | vault-manager/vault_agent/embedding_index.py:69-79 | the component loops compute the mean |
| `EmbeddingIndex.RefreshIsRebuild` | vault-manager/vault_agent/embedding_index.py:126-222 | refreshing a faithful index gives exactly the records of a rebuild |
| `EmbeddingIndex.Cache.Refresh` | vault-manager/vault_agent/embedding_index.py:126-222 | the two passes leave exactly the rebuilt index, with embedded + reused = total, embedded = the notes not up to date, and removed = vanished paths; a raised error leaves the old one |
| `EmbeddingIndex.EmbedsTheStale` | vault-manager/vault_agent/embedding_index.py:126-222 | a refresh embeds exactly the notes that are not up to date: those whose last record under the same model is missing or has another hash |
| `EmbeddingLaws.RecordsSay` | vault-manager/vault_agent/embedding_index.py:117-222 | the index holds one record for each note, in scan order, with the hash of its text and the vector of its title and as much of its body as fits |
| `EmbeddingLaws.CentredIff` | vault-manager/vault_agent/embedding_index.py:69-222 | the index is centred if and only if at least 25 records have a vector, and then its mean is their average in every component |
| `EmbeddingIndex.CacheAgrees` | vault-manager/vault_agent/embedding_index.py:126-222 | over any history of vault states and model changes, with one excerpt length, the cache agrees with a rebuild |
| `EmbeddingIndex.SameInputIff` | vault-manager/vault_agent/embedding_index.py:117-123 | another excerpt length embeds the same text of a note if and only if as much of its stripped body is taken |
| `EmbeddingIndex.ExcerptChangeIff` | vault-manager/vault_agent/embedding_index.py:126-222 | after a change of the excerpt length a refresh that goes through agrees with a rebuild if and only if every note it reuses would be given the same vector under the new length |
| `Similarity.ComputeCosine` | vault-manager/vault_agent/embeddings.py:170-183 | the loop computes the cosine, 0 for unequal lengths or zero vectors |
| `Similarity.CosineIs` | vault-manager/vault_agent/embeddings.py:170-183 | the cosine times the lengths of the vectors is the sum of the products of their components, with its sign; it is 0 exactly when that sum is, or when the lengths differ or a vector is zero |
| `Similarity.CosineOfMultiple` | vault-manager/vault_agent/embeddings.py:170-183 | a positive multiple of a non-zero vector has cosine 1 with it, a negative one -1 |
| `Similarity.CauchySchwarz` | vault-manager/vault_agent/embeddings.py:170-183 | dot squared is at most the product of the norms |
| `Similarity.CosineBounded` | vault-manager/vault_agent/embeddings.py:170-183 | a cosine lies between -1 and 1 |
| `Similarity.CenteredSumsToZero` | vault-manager/vault_agent/embedding_index.py:82-86 | the centred corpus sums to zero in every component |
| `Similarity.CenteredRankingIgnoresShift` | vault-manager/vault_agent/embedding_index.py:89-114 | adding one constant vector to every note and the query leaves the centred scores unchanged |
| `Similarity.Rank` | vault-manager/vault_agent/embeddings.py:186-215 | the loops and the in-place sort produce the ranking of the eligible records |
| `Similarity.RankingIsTop` | vault-manager/vault_agent/embeddings.py:186-215 | the ranking is ordered, holds k of the eligible scores, and none left out belongs ahead of one in it |
| `Similarity.RankingUnique` | vault-manager/vault_agent/embeddings.py:186-215 | the ranking does not depend on the order records are stored in |
| `Similarity.ScoredExactly` | vault-manager/vault_agent/embeddings.py:186-215 | what is ranked: the path and cosine of exactly the records that are not excluded and not below the floor |
| `Similarity.ParallelIsBest` | vault-manager/vault_agent/embeddings.py:186-215 | among eligible records one whose vector is a positive multiple of a non-zero query has a score no other exceeds, and the ranking starts with that score |
| `JsonScanner.FirstBalancedObject` | vault-manager/vault_agent/llm.py:698-723 | the answer is the shortest slice from the first brace at which depth outside strings reaches zero, and none exactly when there is none |
| `JsonScanner.ScansGeneratedObject` | vault-manager/vault_agent/llm.py:698-723 | for any JSON object text of RFC 8259, after text without a brace and before any suffix, the answer is exactly that text |

## Findings

Properties that the code does not have. Each row names an input for which one fails, or the exact condition
under which it holds.

| member | source | what fails |
|---|---|---|
| `LinkIntegrity.RenameSafeIff` | vault-manager/vault_agent/review.py:1138-1151 | the preflight checks that the old stem is not ambiguous but not that the new one is free; links by stem then change their meaning exactly when some note already has the new stem |
| `Wikilinks.SimpleLinkTooMany` | vault-manager/vault_agent/review.py:1138-1151 | the ambiguity search reads text, not links: it finds a stem after a stray `[[`, as in `[[b#]]`, and refuses a move; `SimpleLinkIff` says exactly when |
| `GeneratedRegion.MergeCanRaise` | vault-manager/vault_agent/review.py:706-714 | an existing note with its end marker only before its start marker makes the merge raise, which stops the run; `MergeRaisesIff` says exactly when |
| `Refinement.AddedNewlineCanLoseAWord` | vault-manager/vault_agent/review.py:812-846 | the guard compares the words of the proposed body, but the file is written with a newline added, which turns a final `7.` into a list marker and loses the word; `AddedNewlineKeepsWordsIff` says exactly when |
| `Frontmatter.EmptyFrontmatterMisread` | vault-manager/vault_agent/frontmatter.py:22-54 | a note with empty frontmatter is printed in a form that is read back as unclosed, or, when its body holds a fence, with part of the body taken for frontmatter; `EmptyFrontmatterUnclosedIff` says which |
| `Processing.ListTypeExample` | vault-manager/vault_agent/processor.py:722-834 | a note whose `type` is a list, such as `type: [note]`, makes every later search for its next stage raise; `ListTypeCrashes` is the general statement |
| `Processing.EditForgotten` | vault-manager/vault_agent/processing_state.py:31-64 | the content hash is kept per note, so completing one stage after an outside edit hides from all other stages that the note was edited |
| `ProcessingRun.Vault.Run` | vault-manager/vault_agent/processor.py:231-322 | the loops refuse every limit but one when they are given any provider, although the check is meant for a proposal file only; with a configured model only single steps and the organize pass process notes |
| `SchemaHistory.NextReport` | vault-manager/vault_agent/schema_note.py:746-778 | built-in values left out of the note are reported as removed again whenever a changed text is ingested, since they go on being allowed |
| `SchemaHistory.NextTypesReport` | vault-manager/vault_agent/schema_note.py:781-817 | a built-in type described differently in the note is reported as edited again whenever a changed text is ingested, since the built-in description goes on winning |
| `SchemaHistory.BlockedThenUnused` | vault-manager/vault_agent/schema_note.py:1060-1067 | a removal that was blocked is not retried when the value falls out of use: it stays allowed until the text of the note changes; `UnusedDroppedIff` says exactly when it is dropped |
| `SchemaHistory.ClearedDefinitionLost` | vault-manager/vault_agent/schema_note.py:1041-1105 | a definition cleared in the note is reported nowhere, so the schema is not written, and the recorded hash makes the loss last; `UnreportedSyncIff` says exactly which edits are lost |
| `SchemaGuard.UnreportedSyncIff` | vault-manager/vault_agent/schema_note.py:1041-1105 | clearing a definition, omitting a redefined built-in property or changing a list mark is reported nowhere, so the schema is not written and the edit is lost |
| `SchemaFullNote.OwnNoteUnchangedIff` | vault-manager/vault_agent/schema_note.py:350-363 | stored dashboard requests are printed without a tick, so parsing and applying the printed note withdraws every one of them; the program itself prints the note only from a new schema, which stores none |
| `Frontmatter.ListRoundTripIff` | vault-manager/vault_agent/frontmatter.py:63-88 | a list item that holds a line break is printed as it is and folded when it is read back |
| `EmbeddingIndex.ExcerptChangeIff` | vault-manager/vault_agent/embedding_index.py:126-222 | the index does not record the excerpt length, so after it changes unchanged notes keep the vectors of the old excerpt; nothing goes stale where as much of every reused body is taken (`SameExcerptKeeps`) |
| `FolderTable.CustomKeptIff` | vault-manager/vault_agent/schema_note.py:388-406 | a custom folder description with a bar in it is cut at the bar when the note is read back |

## Left out

- Processing.WrittenReadsBack: rests on the assumption that YAML reads printed lines with plain keys and printable texts back as text; dates, floats, `~` and other typed scalars are treated as their text, and nested mappings as values are not modelled.
- EmbeddingClient.BatchIsPointwise: assumes a server that accepts or rejects each input on its own.
- EmbeddingIndex.CacheAgrees: assumes an injective content digest, a deterministic embedder and one excerpt length; `ExcerptChangeIff` says what a change of the excerpt length does.
- Other writers of `schema.json` between two calls of the sync.
- Similarity.CosineBounded: floats are modelled as real numbers with an exact square root; rounding is not modelled.
- FolderTable.FoldersReadBack: a heading whose text stands on the following line, which the section pattern would accept, is not modelled; sections are found line by line.
- ASCII stands for Unicode wherever the source lower-cases (`str.lower` in words, slugs, role hints, hub names and tick cells), and domain slugs are ASCII letters, digits and underscores where the source asks `str.isalnum`.
- The file system itself: symbolic links, backups, timestamps, case-insensitive names, glob metacharacters, directories named like notes, a file named exactly `.md`, and text that is not UTF-8.
- YAML and JSON decoding: frontmatter edits, the schema guard and the YAML check of a rewrite are arbitrary functions of the text.
- The order in which notes are rewritten during a move is arbitrary; the observed top-level folders are taken in the order the scan gives them.
- The topic-hub heuristics that pick a candidate path are one parameter, the folder's cluster name; template sections are parameters.
- Dashboard text outside the markers when they are gone (the heading fallback) is a parameter of the parser.
- The contents of the folder-change proposal; only whether one is made is modelled.
- Domain keys are taken without surrounding white space, and the keys of a configuration are distinct, as in a mapping.
- Run time limits, dry runs, logs, reports, prompts and error message texts.
- Network calls, backends, Git versioning, undo, and the command line.
- `topic_hubs.py`, `validation.py`, `status.py`, `starter_files.py`, `versioning.py` and `version_cli.py` are not part of this model.
