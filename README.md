# Upshift version-control core, modelled in Dafny

Upshift is a Rails application that keeps Google Drive folders under version control.
This project models four parts of it:

- **`VCS::Operations::FileAncestryTree`** (`ancestry_tree.dfy`, module `AncestryTree`).
  For a commit, its parent commit, a list of file ids and a depth, the resolver fills a
  memo table of `id → nil | false | {name, parent}`. It sends one version query per
  generation, and only for the ids still `nil`. It then reads each file's ancestor
  names off the table, nearest first.
  - The table is the mutable field `tree` of the class `FileAncestryTree`. The version
    query is a function of the commit pair, and a ghost log records every id set
    sent to it.
  - The main theorem is `GenerateResolvesAncestors`. After `depth + 1` generations,
    `ancestors_names_for(id, depth)` equals the names found by walking the version
    store directly. `Generate` sends at most `depth + 1` queries.
- **`VersionControl::FileCollections::Staged`** (`staged_collection.dfy`, module
  `StagedCollection`, with path helpers in `paths.dfy`, module `Paths`).
  - The working directory holds one entry per file, named by its id and nested
    under its parent. The root sits directly in the working directory.
  - The class `Staged` keeps the entries as a map from id to file and records the
    root's id. Its `root` and `root_id` caches are fields.
  - A file's absolute path is the working directory followed by the ids on its
    parent chain.
  - Lookup by id, by path and by a list of ids are modelled with their nil and
    not-found cases and their error values. So are `exists?`, `count`,
    `create_or_update`, `create_root` and `metadata_for`.
- **`VCS::FileDiff::Changes::Movement`** (`movement.dfy`, module `FileDiffChanges`).
  This is the change shown when a file's parent differs between two versions. It
  has a fixed type, colour and tooltip, and a description built from the ancestor path. Its `unapply` writes the previous
  parent id back onto the mutable current version.
- **`FileItems::Base` and its subclasses** (`file_items.dfy`, module `FileItems`).
  - The kind of an item is chosen by its mime type.
  - The external link is the kind's link template, with `GID` replaced by the Drive
    id.
  - The icon URL is a fixed prefix followed by the mime type.

`wrappers.dfy` holds `Option` and `Result`.

## Model

| member | source | states |
|---|---|---|
| AncestryTree.Find | app/models/vcs/operations/file_ancestry_tree.rb:79-81 | an entry is found exactly when the id is non-nil and resolved; a `false` (absent) or `nil` entry reads as nil, and a found record is the stored name and parent |
| AncestryTree.NilEntries | app/models/vcs/operations/file_ancestry_tree.rb:90-92 | the ids returned are exactly those whose entry is still nil |
| AncestryTree.AddEntries | app/models/vcs/operations/file_ancestry_tree.rb:70-76 | merging fetched rows: keys are the union, every fetched id now holds its `{name, parent}`, every other entry is unchanged |
| AncestryTree.UpdateEntries | app/models/vcs/operations/file_ancestry_tree.rb:101-104 | the given ids all map to the new value (overwriting), all others keep theirs |
| AncestryTree.AddNilEntries | app/models/vcs/operations/file_ancestry_tree.rb:95-98 | `reverse_merge!`: existing entries are never overwritten, new ids are added as nil |
| AncestryTree.InitialTree | app/models/vcs/operations/file_ancestry_tree.rb:84-87 | the table's keys are exactly the requested ids, each nil |
| AncestryTree.FetchRecordsFor | app/models/vcs/operations/file_ancestry_tree.rb:107-113 | the rows answered are those of the requested ids that the version store holds, with the store's name and parent |
| AncestryTree.ParentIds | app/models/vcs/operations/file_ancestry_tree.rb:54 | the compacted parent ids are exactly the non-nil parents of the fetched rows |
| AncestryTree.Step | app/models/vcs/operations/file_ancestry_tree.rb:41-55 | one generation: with no nil entry nothing changes; every nil entry becomes its store record or `false`; resolved and `false` entries are never overwritten; the new keys are exactly the parents of rows just fetched, and they are the only nil entries afterwards |
| AncestryTree.Generations | app/models/vcs/operations/file_ancestry_tree.rb:58-62 | repeated generations keep the table consistent with the store and closed under parents, and never lose a key |
| AncestryTree.Chain | app/models/vcs/operations/file_ancestry_tree.rb:30-35 | the walk collects at most `depth` names, nearest ancestor first |
| AncestryTree.ChainPrefix | app/models/vcs/operations/file_ancestry_tree.rb:30-35 | a walk with a larger depth only extends the names of a smaller one |
| AncestryTree.ChainStops | app/models/vcs/operations/file_ancestry_tree.rb:32 | once the walk has broken off short of its depth, a larger depth collects nothing more |
| AncestryTree.StepLoaded | app/models/vcs/operations/file_ancestry_tree.rb:51-54 | each generation settles one more id along the store's parent chain of every loaded entry |
| AncestryTree.GenerationsLoaded | app/models/vcs/operations/file_ancestry_tree.rb:58-62 | after `n` generations, the first `n` ids on the chain of a requested id are resolved or `false` |
| AncestryTree.ChainAgrees | app/models/vcs/operations/file_ancestry_tree.rb:26-38 | on a settled chain, walking the table and walking the version store give the same names |
| AncestryTree.GenerateResolvesAncestors | app/models/vcs/operations/file_ancestry_tree.rb:12-15 | after `depth + 1` generations from the requested ids, the ancestor names of any requested id equal the names of walking the version store from it, the nil-receiver error included |
| AncestryTree.QueriesFor | app/models/vcs/operations/file_ancestry_tree.rb:42-44 | a generation sends at most one query, and none when no entry is nil |
| AncestryTree.FileAncestryTree.constructor | app/models/vcs/operations/file_ancestry_tree.rb:19-23 | the parent commit defaults to the commit's parent; the table starts as the requested ids, all nil |
| AncestryTree.FileAncestryTree.Generate | app/models/vcs/operations/file_ancestry_tree.rb:9-17 | the table is `depth + 1` generations deep, at most `depth + 1` queries were sent, and every requested id's ancestor names agree with the version store |
| AncestryTree.FileAncestryTree.LoadGeneration | app/models/vcs/operations/file_ancestry_tree.rb:41-55 | the table becomes one `Step` of the old table; one query for all nil ids is logged, or none when there are none |
| AncestryTree.FileAncestryTree.RecursivelyLoadGenerations | app/models/vcs/operations/file_ancestry_tree.rb:58-62 | the table is `depth` generations on from the old one, with at most `depth` more queries |
| AncestryTree.FileAncestryTree.AncestorsNamesFor | app/models/vcs/operations/file_ancestry_tree.rb:26-38 | the loop returns the table walk `AncestorNames` (at most `depth` names, nearest first, stopping at a nil or `false` entry), and fails when the file itself is not resolved and `depth > 0` |
| Paths.Basename | spec/models/version_control/file_collections/staged_spec.rb:537-556 | the result is a slash-free suffix of the path, preceded by a `/` when shorter than the path |
| Paths.Dirname | spec/models/version_control/file_collections/staged_spec.rb:537-556 | the result is a strict prefix of any non-empty path |
| Paths.SplitLast | spec/models/version_control/file_collections/staged_spec.rb:537-556 | `dirname` and `basename` of `dir/name` give back `dir` and `name` |
| Paths.SplitJoin | spec/models/version_control/file_collections/staged_spec.rb:537-556 | a path holding a `/` is its `dirname`, a `/` and its `basename` |
| Paths.UnderLast | spec/models/version_control/file_collections/staged_spec.rb:371-376 | the last id of a file's path is its basename, and its dirname is the path of the parent |
| StagedCollection.Upsert | spec/models/version_control/file_collections/staged_spec.rb:70-97 | the file with the id now holds the given attributes (created when new, updated when present), other files are unchanged, and the root stays the root with no parent |
| StagedCollection.UpsertLastWins | spec/models/version_control/file_collections/staged_spec.rb:78-86 | a second `create_or_update` on one id leaves the same collection as that call alone |
| StagedCollection.PathSegments | spec/models/version_control/file_collections/staged_spec.rb:371-376 | a path runs from the root down to the file, each id the parent of the next, and has one segment exactly for the root |
| StagedCollection.PathSegmentsOfChain | spec/models/version_control/file_collections/staged_spec.rb:371-376 | conversely, the walk up from the last id of a chain from the root finds that whole chain, given one step of fuel per id |
| StagedCollection.ChainDistinct | spec/models/version_control/file_collections/staged_spec.rb:371-376 | no id occurs twice on a chain from the root |
| StagedCollection.ChainFits | spec/models/version_control/file_collections/staged_spec.rb:371-376 | a chain from the root is never longer than the number of files, so the walk's fuel always suffices |
| StagedCollection.ParentIdOfPath | spec/models/version_control/file_collections/staged_spec.rb:537-556 | the parent id read from a path is the next-to-last id, or nil for an entry directly in the working directory |
| StagedCollection.Staged.constructor | spec/models/version_control/file_collections/staged_spec.rb:35-36 | a new collection has no files and no root |
| StagedCollection.Staged.Count | spec/models/version_control/file_collections/staged_spec.rb:35-47 | the count is the number of non-root files plus one when there is a root, and 0 without a root |
| StagedCollection.Staged.CreateOrUpdate | spec/models/version_control/file_collections/staged_spec.rb:70-97 | the entries become `Upsert` of the old entries and the stored file is returned; a non-root file whose parent is nil or missing is refused with `NoEntry` and nothing changes; the root is unchanged, and every non-root file keeps its parent in the collection |
| StagedCollection.Staged.CreateRoot | spec/models/version_control/file_collections/staged_spec.rb:116-129 | with no root, the root is created directly in the working directory and returned; with a root, `RecordInvalid` and nothing changes |
| StagedCollection.Staged.Root | spec/models/version_control/file_collections/staged_spec.rb:427-441 | returns the root file or nil, and caches a found root |
| StagedCollection.Staged.RootId | spec/models/version_control/file_collections/staged_spec.rb:453-464 | returns the root's id or nil, names a root file, and caches a found id |
| StagedCollection.Staged.FindById | spec/models/version_control/file_collections/staged_spec.rb:252-272 | nil exactly for a nil or unknown id, otherwise the stored file with that id |
| StagedCollection.Staged.FindAllById | spec/models/version_control/file_collections/staged_spec.rb:275-312 | one answer per id, in input order, each the single-id answer (nil for nil and unknown ids) |
| StagedCollection.Staged.Find | spec/models/version_control/file_collections/staged_spec.rb:201-240 | succeeds exactly when `find_by_id` finds the file and returns it; otherwise `RecordNotFound` with "Couldn't find file with id: " and the id |
| StagedCollection.Staged.Exists | spec/models/version_control/file_collections/staged_spec.rb:141-150 | true exactly when `find_by_id` finds a file; false for nil |
| StagedCollection.Staged.ExistsAll | spec/models/version_control/file_collections/staged_spec.rb:153-189 | the hash's keys are exactly the non-nil ids given, each mapped to whether it names a file |
| StagedCollection.Staged.ParentIdFromAbsoluteFilePath | spec/models/version_control/file_collections/staged_spec.rb:537-556 | nil exactly when the path lies directly in the working directory; otherwise the whole last name of the directory holding the path: slash-free, ending it, and preceded by a `/` unless it is the whole directory |
| StagedCollection.Staged.MetadataFor | spec/models/version_control/file_collections/staged_spec.rb:476-534 | nil raises invalid-argument "Path must be a String"; otherwise it succeeds exactly when an entry lives at the path |
| StagedCollection.Staged.MetadataForPathOf | spec/models/version_control/file_collections/staged_spec.rb:476-524 | at a file's own path it reads back that file, with parent id nil and `is_root` true exactly for the root |
| StagedCollection.Staged.FindByPath | spec/models/version_control/file_collections/staged_spec.rb:324-350 | a file found by path is stored and lives at that path; nil for a nil path |
| StagedCollection.Staged.FindByPathOfPathOf | spec/models/version_control/file_collections/staged_spec.rb:324-340 | `find_by_path` at a file's own path finds that file |
| StagedCollection.Staged.PathOfChain | spec/models/version_control/file_collections/staged_spec.rb:371-376 | every file on a chain from the root has a path: the working directory followed by the chain's ids |
| StagedCollection.Staged.PathForIdOfChain | spec/models/version_control/file_collections/staged_spec.rb:371-376 | `find_paths_by_ids` answers the id of every file under the root with that path, unless the id holds a glob metacharacter |
| StagedCollection.Staged.FindByPathOfChain | spec/models/version_control/file_collections/staged_spec.rb:324-340 | at the path of any file under the root, `metadata_for` succeeds and `find_by_path` finds that file |
| StagedCollection.Staged.PathForIdRoundTrip | spec/models/version_control/file_collections/staged_spec.rb:371-376 | every path `find_paths_by_ids` returns leads back through `find_by_path` to the file asked for |
| StagedCollection.Staged.FindPathsByIds | spec/models/version_control/file_collections/staged_spec.rb:371-417 | one loop over the entries visits each entry once, and only it reads the working directory (staged_spec.rb:378-381); then one answer per id in input order, each `PathForId` of it: the file's path for every file under the root (`PathForIdOfChain`), nil for nil ids, for ids holding glob metacharacters and for unknown ids |
| FileDiffChanges.Movement.Description | spec/models/vcs/file_diff/changes/movement_spec.rb:12 | the description is "moved to " followed by the diff's ancestor path |
| FileDiffChanges.Movement.Presentation | spec/models/vcs/file_diff/changes/movement_spec.rb:9-16 | type "movement", colour "purple", tooltip "File has been moved", it is a movement, and the description as above |
| FileDiffChanges.Movement.Unapply | spec/models/vcs/file_diff/changes/movement_spec.rb:18-32 | the current version takes the previous version's parent id, so the diff is no longer a move; only `parent_id` is written |
| FileDiffChanges.UnapplyWritesParentOnly | spec/models/vcs/file_diff/changes/movement_spec.rb:30-31 | after `unapply` the current version's name, mime type, content version and deleted flag are unchanged, and so is the previous version |
| FileItems.KindFor | spec/models/file_items/base_spec.rb:19-57 | a specific kind is chosen exactly by its own mime type, and every other mime type (the empty one included) gives the base kind |
| FileItems.KindForMimeTypeOf | spec/models/file_items/base_spec.rb:19-47 | each of the six Google mime types selects its own kind |
| FileItems.Load | spec/models/file_items/base_spec.rb:14-17 | a loaded item keeps its attributes; a known mime type selects its own kind, and any other kind matches its mime type (base for nil) |
| FileItems.FillTrailingPlaceholder | app/models/file_items/form.rb:7-9 | filling a template that ends in `GID` gives the template's prefix followed by the id |
| FileItems.ExternalLinkTemplate | app/models/file_items/form.rb:7-9 | every template is a 'G'-free URL prefix followed by the `GID` placeholder: the Google Forms prefix for a form, the Drive file prefix otherwise |
| FileItems.ExternalLink | spec/models/file_items/base_spec.rb:60-75 | nil exactly without a Drive id; otherwise "https://docs.google.com/forms/d/" followed by the id for a form, "https://drive.google.com/file/d/" followed by the id for every other kind |
| FileItems.Icon | spec/models/file_items/base_spec.rb:78-102 | nil exactly for a nil mime type, otherwise the icon prefix followed by the unchanged mime type |

## Left out

- The version query of the ancestry tree is a SQL select over committed files between two commits. It becomes a parameter: a function from the commit pair to a map from file id to name and parent. The SQL text, its `DISTINCT` and the row order are not part of this model.
- The query log `queries` of `FileAncestryTree` is ghost. It counts round trips; it does not model a database.
- `FileAncestryTree.AncestorsNamesFor` with `depth > 0` on a file whose entry is missing, `nil` or `false`: Ruby raises `NoMethodError` on `nil[:parent]` (`find` turns all three into nil). The model returns `Failure(NilReceiver)` instead; with `depth` 0 both return no names.
- Repository locking of the staged collection, and its delegation of `lock` and `workdir` to the repository, are left out. Concurrency is outside a sequential model.
- The file system and `Dir.glob` are left out. The working directory is a map from id to entry, and a path is the walk up the parent links.
- StagedCollection.PathSegments walks at most as many parent links as there are files, so a parent cycle has no path. `create_or_update` re-parenting a folder below itself is not refused: the moved files then keep their entries and are found by id, but get no path, so `find_paths_by_ids` and `find_by_path` answer nil for them. A file system would refuse such a move.
- StagedCollection.Staged.Count includes the root. This follows the tests at staged_spec.rb:35-47: 0 with no root, 1 with only the root, 4 with a root and three files.
- StagedCollection.Upsert on the root keeps it as the root, directly in the working directory, and ignores a parent id in the params. The tests at staged_spec.rb:88-97 only check that `update` is called on the root.
- StagedCollection.Staged.MetadataFor on a path where nothing lives returns `NoEntry` (Ruby's `Errno::ENOENT`). The tests do not cover that case.
- The set of glob metacharacters, `* ? [ ] { } \`, is this model's choice: the tests at staged_spec.rb:388-391 show `*`, `?` and a bracket list.
- StagedCollection.Staged.CreateOrUpdate refuses a non-root file whose parent is nil or missing with `NoEntry`, the error of creating an entry inside a directory that does not exist. The tests do not cover that case, so the error value is this model's choice.
- The staged file classes (Folder, Root and others), their `update` and their persistence to disk are not part of this model. A file is a value with an `isRoot` flag.
- The diff engine beyond `Movement` is not part of this model: `VCS::FileDiff`'s own change detection, the other change classes and `ancestor_path` are not modelled. The ancestor path is a given string.
- FileItems.ExternalLinkTemplate: the model gives every kind other than Form the base template; the other kinds' own templates are not modelled.
- FileItems.FillTemplate replaces every `GID`, left to right, like `gsub`. The base class's own code is not part of this model.
- The `being a file item`, `being a file collection` and `being a file diff change` shared examples, the factories and the ActiveRecord validations are not part of this model.
