/**
 * The staged (working-copy) file collection of a branch
 * (VersionControl::FileCollections::Staged).
 *
 * The backing store is the repository's working directory: each file is a
 * directory entry named by its id, nested under its parent, with the single
 * root entry directly inside the working directory. The model keeps the
 * entries as a map from id to the file's attributes, each with a parent id,
 * so that a path is the walk up the parent links.
 */
module StagedCollection {
  import opened Wrappers
  import opened Paths

  type FileId = string

  /** The attributes passed to `create_or_update` and `create_root`. */
  datatype FileParams = FileParams(
    id: Segment,
    name: string,
    mimeType: string,
    parentId: Option<FileId>,
    version: int,
    modifiedTime: int)

  /** A staged file (VersionControl::Files::Staged, or its Root subclass when `isRoot`). */
  datatype StagedFile = StagedFile(
    id: FileId,
    name: string,
    mimeType: string,
    parentId: Option<FileId>,
    version: int,
    modifiedTime: int,
    isRoot: bool)

  datatype Error =
    | RecordNotFound(message: string)   // ActiveRecord::RecordNotFound
    | RecordInvalid                     // ActiveRecord::RecordInvalid: a second root
    | InvalidArgument(message: string)  // Errno::EINVAL
    | NoEntry                           // Errno::ENOENT: no such path in the working directory

  /** The characters `Dir.glob` reads as a pattern or an escape. */
  const GlobMetacharacters: set<char> := {'*', '?', '[', ']', '{', '}', '\\'}

  predicate HasGlobMetacharacter(id: string)
  {
    exists i :: 0 <= i < |id| && id[i] in GlobMetacharacters
  }

  /** The message of the not-found error of `find`; Ruby interpolates nil as the empty string. */
  function NotFoundMessage(id: Option<string>): string
  {
    "Couldn't find file with id: " + (if id.Some? then id.value else "")
  }

  const PathNotStringMessage: string := "Invalid argument - Path must be a String."

  /** A new, non-root file made from the params. */
  function Created(params: FileParams): StagedFile
  {
    StagedFile(params.id, params.name, params.mimeType, params.parentId, params.version, params.modifiedTime, false)
  }

  /** A new root made from the params: it lives directly in the working directory. */
  function CreatedRoot(params: FileParams): StagedFile
  {
    StagedFile(params.id, params.name, params.mimeType, None, params.version, params.modifiedTime, true)
  }

  /** `update(params)` on an existing file; the root stays the root, directly in the working directory. */
  function Updated(f: StagedFile, params: FileParams): StagedFile
  {
    StagedFile(f.id, params.name, params.mimeType, if f.isRoot then None else params.parentId,
               params.version, params.modifiedTime, f.isRoot)
  }

  /** The entries after `create_or_update(params)`. */
  function Upsert(files: map<FileId, StagedFile>, params: FileParams): (r: map<FileId, StagedFile>)
    ensures r.Keys == files.Keys + {params.id}
    ensures forall id :: id in files && id != params.id ==> r[id] == files[id]
    // the file now carries the given attributes, and keeps whether it is the root
    ensures var f := r[params.id];
      && f.name == params.name && f.mimeType == params.mimeType
      && f.version == params.version && f.modifiedTime == params.modifiedTime
      && f.isRoot == (params.id in files && files[params.id].isRoot)
      && f.parentId == if f.isRoot then None else params.parentId
  {
    if params.id in files then files[params.id := Updated(files[params.id], params)]
    else files[params.id := Created(params)]
  }

  /**
   * The ids from the root down to `id`, found by walking up the parent
   * links at most `fuel` times; None when the walk does not reach the root.
   */
  function PathSegments(files: map<FileId, StagedFile>, id: FileId, fuel: nat): (segs: Option<seq<FileId>>)
    ensures segs.Some? ==> |segs.value| >= 1 && segs.value[|segs.value| - 1] == id
    ensures segs.Some? ==> forall i :: 0 <= i < |segs.value| ==> segs.value[i] in files
    // it starts at the root, and each id is the parent of the next
    ensures segs.Some? ==> files[segs.value[0]].isRoot
    ensures segs.Some? ==> forall i :: 0 < i < |segs.value| ==>
      !files[segs.value[i]].isRoot && files[segs.value[i]].parentId == Some(segs.value[i - 1])
    ensures segs.Some? ==> (|segs.value| == 1 <==> files[id].isRoot)
    decreases fuel
  {
    if fuel == 0 || id !in files then None
    else if files[id].isRoot then Some([id])
    else
      match files[id].parentId
      case None => None
      case Some(p) =>
        match PathSegments(files, p, fuel - 1)
        case None => None
        case Some(s) => Some(s + [id])
  }

  /**
   * `segs` is a directory path of the working directory: it starts at the
   * root and each later id is a non-root file inside the one before it.
   */
  ghost predicate IsChain(files: map<FileId, StagedFile>, segs: seq<FileId>)
  {
    && |segs| >= 1
    && (forall i :: 0 <= i < |segs| ==> segs[i] in files)
    && files[segs[0]].isRoot
    && (forall i :: 0 < i < |segs| ==>
          !files[segs[i]].isRoot && files[segs[i]].parentId == Some(segs[i - 1]))
  }

  /** With enough fuel, the walk up from the last id of a chain finds that whole chain. */
  lemma {:induction false} PathSegmentsOfChain(files: map<FileId, StagedFile>, segs: seq<FileId>, fuel: nat)
    requires IsChain(files, segs) && |segs| <= fuel
    ensures PathSegments(files, segs[|segs| - 1], fuel) == Some(segs)
    decreases |segs|
  {
    var id := segs[|segs| - 1];
    if |segs| == 1 {
      assert segs == [id];
    } else {
      var front := segs[..|segs| - 1];
      assert IsChain(files, front);
      PathSegmentsOfChain(files, front, fuel - 1);
      assert files[id].parentId == Some(front[|front| - 1]);
      assert front + [id] == segs;
    }
  }

  /** No id occurs twice on a chain: only its first id is the root, and parents are unique. */
  lemma {:induction false} ChainDistinct(files: map<FileId, StagedFile>, segs: seq<FileId>, i: nat, j: nat)
    requires IsChain(files, segs) && i < j < |segs|
    ensures segs[i] != segs[j]
    decreases i
  {
    if i > 0 {
      ChainDistinct(files, segs, i - 1, j - 1);
    }
  }

  /** A sequence of distinct ids drawn from `keys` is no longer than `keys` is large. */
  lemma {:induction false} DistinctIdsFit(s: seq<FileId>, keys: set<FileId>)
    requires forall i, j :: 0 <= i < j < |s| ==> s[i] != s[j]
    requires forall i :: 0 <= i < |s| ==> s[i] in keys
    ensures |s| <= |keys|
    decreases |s|
  {
    if |s| > 0 {
      var last := s[|s| - 1];
      DistinctIdsFit(s[..|s| - 1], keys - {last});
      assert keys == (keys - {last}) + {last};
    }
  }

  /** A chain is never longer than the collection, so `PathOf`'s fuel always suffices for it. */
  lemma ChainFits(files: map<FileId, StagedFile>, segs: seq<FileId>)
    requires IsChain(files, segs)
    ensures |segs| <= |files|
  {
    forall i, j | 0 <= i < j < |segs|
      ensures segs[i] != segs[j]
    {
      ChainDistinct(files, segs, i, j);
    }
    DistinctIdsFit(segs, files.Keys);
  }

  /** Where `parent_id_from_absolute_file_path` finds the parent id in a path below `workdir`. */
  function ParentIdIn(workdir: string, path: string): Option<FileId>
  {
    if Dirname(path) == workdir then None else Some(Basename(Dirname(path)))
  }

  /**
   * `parent_id_from_absolute_file_path`, on the path through `names` below
   * the working directory: the next-to-last name, or nil for an entry
   * directly in the working directory.
   */
  lemma ParentIdOfPath(workdir: string, names: seq<FileId>)
    requires |names| >= 1
    requires forall i :: 0 <= i < |names| ==> IsSegment(names[i])
    ensures ParentIdIn(workdir, Under(workdir, names)) ==
      if |names| == 1 then None else Some(names[|names| - 2])
  {
    UnderLast(workdir, names);
    if |names| > 1 {
      var front := names[..|names| - 1];
      assert |Under(workdir, front)| > |workdir| by {
        UnderLonger(workdir, front);
      }
      UnderLast(workdir, front);
    }
  }

  /** A path through at least one name is longer than the directory it starts from. */
  lemma {:induction false} UnderLonger(dir: string, names: seq<string>)
    requires |names| >= 1
    ensures |Under(dir, names)| > |dir|
    decreases |names|
  {
    if |names| > 1 {
      UnderLonger(dir, names[..|names| - 1]);
    }
  }

  /**
   * A file that is not the root can only be stored inside the directory of
   * its parent: `create_or_update` fails when that parent is nil or missing.
   */
  predicate ParentMissing(files: map<FileId, StagedFile>, params: FileParams)
  {
    && !(params.id in files && files[params.id].isRoot)
    && (params.parentId.None? || params.parentId.value !in files)
  }

  /** Two `create_or_update` calls on one id leave the collection as the last one alone would. */
  lemma UpsertLastWins(files: map<FileId, StagedFile>, first: FileParams, second: FileParams)
    requires first.id == second.id
    ensures Upsert(Upsert(files, first), second) == Upsert(files, second)
  {
  }

  class Staged {
    /** The repository's working directory, as an absolute path. */
    const workdir: string
    /** The directory entries, by id. */
    var files: map<FileId, StagedFile>
    /** The id of the entry directly in the working directory, if there is one. */
    var rootId: Option<FileId>
    /** The instance caches of `root` and `root_id`. */
    var cachedRoot: Option<StagedFile>
    var cachedRootId: Option<FileId>

    ghost predicate Valid()
      reads this
    {
      && (forall id :: id in files ==> IsSegment(id) && files[id].id == id)
      && (forall id :: id in files && files[id].isRoot ==> rootId == Some(id) && files[id].parentId.None?)
      && (rootId.Some? ==> rootId.value in files && files[rootId.value].isRoot)
      && (cachedRoot.Some? ==> rootId.Some? && cachedRoot.value == files[rootId.value])
      && (cachedRootId.Some? ==> cachedRootId == rootId)
      // every other file lives inside the directory of a file of the collection
      && (forall id :: id in files && !files[id].isRoot ==>
            files[id].parentId.Some? && files[id].parentId.value in files)
      // without a root the working directory holds nothing
      && (rootId.None? ==> files == map[])
    }

    /** A collection over an empty working directory. */
    constructor (workdir: string)
      ensures Valid()
      ensures this.workdir == workdir && files == map[] && rootId.None?
    {
      this.workdir := workdir;
      files := map[];
      rootId := None;
      cachedRoot := None;
      cachedRootId := None;
    }

    /** The ids of the entries other than the root. */
    function NonRootIds(): set<FileId>
      reads this
    {
      set id | id in files && !files[id].isRoot
    }

    /** `count`: the number of entries, the root included. */
    function Count(): (n: nat)
      reads this
      requires Valid()
      ensures n == |NonRootIds()| + if rootId.Some? then 1 else 0
      ensures rootId.None? ==> n == 0
    {
      var roots := if rootId.Some? then {rootId.value} else {};
      assert files.Keys == NonRootIds() + roots;
      assert NonRootIds() !! roots;
      |files.Keys|
    }

    /**
     * `create_or_update(params)`: update the file with that id, or create it;
     * a file other than the root needs its parent in the collection.
     */
    method CreateOrUpdate(params: FileParams) returns (r: Result<StagedFile, Error>)
      requires Valid()
      modifies this
      ensures Valid()
      ensures ParentMissing(old(files), params) ==> r == Failure(NoEntry) && files == old(files)
      ensures !ParentMissing(old(files), params) ==>
        && files == Upsert(old(files), params)
        && r == Success(files[params.id])
      ensures rootId == old(rootId)
    {
      if ParentMissing(files, params) {
        return Failure(NoEntry);
      }
      files := Upsert(files, params);
      r := Success(files[params.id]);
      cachedRoot := None;
    }

    /** `create_root(params)`: create the root, which must be unique. */
    method CreateRoot(params: FileParams) returns (r: Result<StagedFile, Error>)
      requires Valid()
      modifies this
      ensures Valid()
      ensures old(rootId).Some? ==> r == Failure(RecordInvalid) && files == old(files) && rootId == old(rootId)
      ensures old(rootId).None? ==>
        && r == Success(CreatedRoot(params))
        && files == old(files)[params.id := CreatedRoot(params)]
        && rootId == Some(params.id)
    {
      if rootId.Some? {
        return Failure(RecordInvalid);
      }
      files := files[params.id := CreatedRoot(params)];
      rootId := Some(params.id);
      cachedRoot := None;
      cachedRootId := None;
      r := Success(CreatedRoot(params));
    }

    /** The root entry, derived afresh from the entries. */
    function RootFile(): Option<StagedFile>
      reads this
      requires Valid()
    {
      if rootId.Some? then Some(files[rootId.value]) else None
    }

    /** `root`: the root file or nil, cached on the instance once found. */
    method Root() returns (r: Option<StagedFile>)
      requires Valid()
      modifies this`cachedRoot
      ensures Valid()
      ensures r == RootFile()
      ensures r.Some? ==> cachedRoot == r
    {
      if cachedRoot.Some? {
        return cachedRoot;
      }
      r := RootFile();
      cachedRoot := r;
    }

    /** `root_id`: the id of the entry directly in the working directory, cached once found. */
    method RootId() returns (r: Option<FileId>)
      requires Valid()
      modifies this`cachedRootId
      ensures Valid()
      ensures r == rootId
      ensures r.Some? ==> r.value in files && files[r.value].isRoot
      ensures r.Some? ==> cachedRootId == r
    {
      if cachedRootId.Some? {
        return cachedRootId;
      }
      r := rootId;
      cachedRootId := r;
    }

    /** `find_by_id(id)`: the file, or nil for a nil or unknown id. */
    function FindById(id: Option<string>): (r: Option<StagedFile>)
      reads this
      requires Valid()
      ensures r.Some? ==> id.Some? && r.value.id == id.value && r.value in files.Values
      ensures r.None? <==> id.None? || id.value !in files
    {
      if id.Some? && id.value in files then Some(files[id.value]) else None
    }

    /** `find_by_id(ids)`: one answer per id, in the order given. */
    function FindAllById(ids: seq<Option<string>>): (r: seq<Option<StagedFile>>)
      reads this
      requires Valid()
      ensures |r| == |ids|
      ensures forall i :: 0 <= i < |ids| ==> r[i] == FindById(ids[i])
    {
      seq(|ids|, i requires 0 <= i < |ids| && Valid() reads this => FindById(ids[i]))
    }

    /** `find(id)`: the file, or a not-found error for a nil or unknown id. */
    function Find(id: Option<string>): (r: Result<StagedFile, Error>)
      reads this
      requires Valid()
      ensures r.Success? <==> FindById(id).Some?
      ensures r.Success? ==> r.value == FindById(id).value
      ensures r.Failure? ==> r.error == RecordNotFound(NotFoundMessage(id))
    {
      if id.Some? && id.value in files then Success(files[id.value])
      else Failure(RecordNotFound(NotFoundMessage(id)))
    }

    /** `exists?(id)`: whether the id names a file; false for nil. */
    function Exists(id: Option<string>): (b: bool)
      reads this
      requires Valid()
      ensures b <==> FindById(id).Some?
    {
      id.Some? && id.value in files
    }

    /** The ids of a list, nils dropped. */
    static function NonNilIds(ids: seq<Option<string>>): set<string>
    {
      set i | 0 <= i < |ids| && ids[i].Some? :: ids[i].value
    }

    /** `exists?(ids)`: a hash from every non-nil id to whether it names a file. */
    function ExistsAll(ids: seq<Option<string>>): (m: map<string, bool>)
      reads this
      requires Valid()
      ensures forall id :: id in m <==> Some(id) in ids
      ensures forall id :: id in m ==> m[id] == Exists(Some(id))
    {
      map id | id in NonNilIds(ids) :: id in files
    }

    /** The absolute path of the file with this id, if its parent links reach the root. */
    function PathOf(id: FileId): Option<string>
      reads this
    {
      match PathSegments(files, id, |files|)
      case None => None
      case Some(segs) => Some(Under(workdir, segs))
    }

    /** Whether some entry lives at this absolute path. */
    predicate PathExists(path: string)
      reads this
    {
      Basename(path) in files && PathOf(Basename(path)) == Some(path)
    }

    /**
     * `parent_id_from_absolute_file_path(path)`: the last name of the
     * directory holding `path`, or nil when that directory is the working
     * directory itself.
     */
    function ParentIdFromAbsoluteFilePath(path: string): (p: Option<FileId>)
      ensures p.None? <==> Dirname(path) == workdir
      ensures p.Some? ==>
                IsSegment(p.value) && |p.value| <= |Dirname(path)| &&
                p.value == Dirname(path)[|Dirname(path)| - |p.value|..]
      // the whole last name: a '/' comes right before it, unless it is all of the directory
      ensures p.Some? && |p.value| < |Dirname(path)| ==>
                Dirname(path)[|Dirname(path)| - |p.value| - 1] == '/'
    {
      ParentIdIn(workdir, path)
    }

    /**
     * `metadata_for(path)`: the attributes of the entry at `path`; its id and
     * its parent id are read off the path, the rest off the entry.
     */
    function MetadataFor(path: Option<string>): (r: Result<StagedFile, Error>)
      reads this
      requires Valid()
      ensures path.None? ==> r == Failure(InvalidArgument(PathNotStringMessage))
      ensures path.Some? ==> (r.Success? <==> PathExists(path.value))
    {
      if path.None? then Failure(InvalidArgument(PathNotStringMessage))
      else if !PathExists(path.value) then Failure(NoEntry)
      else
        var id := Basename(path.value);
        var f := files[id];
        Success(StagedFile(id, f.name, f.mimeType, ParentIdFromAbsoluteFilePath(path.value),
                           f.version, f.modifiedTime, Dirname(path.value) == workdir))
    }

    /** `find_by_path(path)`: the file at the path, or nil for nil or a path where nothing lives. */
    function FindByPath(path: Option<string>): (r: Option<StagedFile>)
      reads this
      requires Valid()
      ensures r.Some? ==> path.Some? && r.value.id in files && PathOf(r.value.id) == path
    {
      if path.None? then None
      else
        match MetadataFor(path)
        case Success(f) => Some(f)
        case Failure(_) => None
    }

    /** What `find_paths_by_ids` answers for one id: nil for nil, for glob patterns and for unknown ids. */
    function PathForId(id: Option<string>): Option<string>
      reads this
    {
      if id.None? || HasGlobMetacharacter(id.value) then None else PathOf(id.value)
    }

    /** Reading the entry at a file's own path gives back that file, parent id and root flag included. */
    lemma MetadataForPathOf(id: FileId)
      requires Valid()
      requires PathOf(id).Some?
      ensures MetadataFor(PathOf(id)) == Success(files[id])
    {
      var segs := PathSegments(files, id, |files|).value;
      var path := Under(workdir, segs);
      assert forall i :: 0 <= i < |segs| ==> IsSegment(segs[i]);
      UnderLast(workdir, segs);
      assert PathExists(path);
      ParentIdOfPath(workdir, segs);
      if |segs| > 1 {
        UnderLonger(workdir, segs[..|segs| - 1]);
      }
    }

    /** `find_by_path` of a file's own path finds that file. */
    lemma FindByPathOfPathOf(id: FileId)
      requires Valid()
      requires PathOf(id).Some?
      ensures FindByPath(PathOf(id)) == FindById(Some(id))
    {
      MetadataForPathOf(id);
    }

    /** Every file on a chain from the root has a path: the working directory, then the chain. */
    lemma PathOfChain(segs: seq<FileId>)
      requires IsChain(files, segs)
      ensures PathOf(segs[|segs| - 1]) == Some(Under(workdir, segs))
    {
      ChainFits(files, segs);
      PathSegmentsOfChain(files, segs, |files|);
    }

    /**
     * `find_paths_by_ids` answers each id of a file under the root with its
     * path, unless the id holds a glob metacharacter.
     */
    lemma PathForIdOfChain(segs: seq<FileId>)
      requires IsChain(files, segs)
      requires !HasGlobMetacharacter(segs[|segs| - 1])
      ensures PathForId(Some(segs[|segs| - 1])) == Some(Under(workdir, segs))
    {
      PathOfChain(segs);
    }

    /** `metadata_for` and `find_by_path` at the path of a file under the root find that file. */
    lemma FindByPathOfChain(segs: seq<FileId>)
      requires Valid()
      requires IsChain(files, segs)
      ensures MetadataFor(Some(Under(workdir, segs))) == Success(files[segs[|segs| - 1]])
      ensures FindByPath(Some(Under(workdir, segs))) == Some(files[segs[|segs| - 1]])
    {
      PathOfChain(segs);
      MetadataForPathOf(segs[|segs| - 1]);
    }

    /** Every path `find_paths_by_ids` answers leads back, through `find_by_path`, to the file asked for. */
    lemma PathForIdRoundTrip(id: Option<string>)
      requires Valid()
      requires PathForId(id).Some?
      ensures FindByPath(PathForId(id)) == FindById(id)
    {
      FindByPathOfPathOf(id.value);
    }

    /**
     * `find_paths_by_ids(ids)`: one scan of the working directory collects the
     * path of every entry asked for, then each id gets its path, in input order.
     * The first loop is the only one that reads the entries; the second reads
     * only what the scan collected.
     */
    method FindPathsByIds(ids: seq<Option<string>>)
      returns (paths: seq<Option<string>>, ghost visited: nat)
      ensures |paths| == |ids|
      ensures forall i :: 0 <= i < |ids| ==> paths[i] == PathForId(ids[i])
      // each entry of the working directory is visited once, whatever the number of ids
      ensures visited == |files.Keys|
    {
      // the names asked for; an id with a glob metacharacter never matches an entry
      var wanted := set i | 0 <= i < |ids| && ids[i].Some? && !HasGlobMetacharacter(ids[i].value) :: ids[i].value;
      // the single scan
      var found: map<string, string> := map[];
      var unscanned := files.Keys;
      visited := 0;
      while unscanned != {}
        invariant unscanned <= files.Keys
        invariant visited + |unscanned| == |files.Keys|
        invariant forall id :: id in found <==> id in files && id !in unscanned && id in wanted && PathOf(id).Some?
        invariant forall id :: id in found ==> found[id] == PathOf(id).value
        decreases unscanned
      {
        var id :| id in unscanned;
        if id in wanted {
          var p := PathOf(id);
          if p.Some? {
            found := found[id := p.value];
          }
        }
        unscanned := unscanned - {id};
        visited := visited + 1;
      }
      paths := [];
      var i := 0;
      while i < |ids|
        invariant 0 <= i <= |ids|
        invariant |paths| == i
        invariant forall j :: 0 <= j < i ==> paths[j] == PathForId(ids[j])
      {
        var p := if ids[i].Some? && ids[i].value in found then Some(found[ids[i].value]) else None;
        paths := paths + [p];
        i := i + 1;
      }
    }
  }
}
