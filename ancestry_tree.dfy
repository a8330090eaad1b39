/**
 * The ancestry tree resolver of the version-control engine
 * (VCS::Operations::FileAncestryTree).
 *
 * For a commit, a set of file ids and a depth, it builds a memo table from
 * file id to what is known about that file at the commit, one generation per
 * query against the version store, and then reads the names of a file's
 * ancestors off that table.
 */
module AncestryTree {
  import opened Wrappers

  type FileId = string

  /** A commit and its parent commit (None for the first commit). */
  datatype Commit = Commit(id: nat, parent: Option<Commit>)

  /** One row answered by the version query: a file's name and parent id. */
  datatype Record = Record(name: string, parent: Option<FileId>)

  /**
   * What the memo table knows about a file id: `Unresolved` is the source's
   * `nil` (still to be fetched), `Absent` its `false` (fetched, no version),
   * `Resolved` its `{name:, parent:}` hash.
   */
  datatype Entry = Unresolved | Absent | Resolved(name: string, parent: Option<FileId>)

  type Tree = map<FileId, Entry>

  /**
   * The versions visible between a parent commit and a commit, keyed by
   * file id: what the version query answers for any id it is asked about.
   */
  type VersionStore = map<FileId, Record>

  /** The query for the distinct versions between a commit and its parent commit. */
  type VersionQuery = (Commit, Option<Commit>) -> VersionStore

  /** `ancestors_names_for` reads `[:parent]` of a file that is not in the tree. */
  datatype Failure = NilReceiver

  // ---------------------------------------------------------------------
  // The private helpers, on the table as a value
  // ---------------------------------------------------------------------

  /** `find`: the `{name, parent}` of an id; None for a missing, nil or false entry and for a nil id. */
  function Find(t: Tree, id: Option<FileId>): (r: Option<Record>)
    ensures r.Some? <==> id.Some? && id.value in t && t[id.value].Resolved?
    ensures r.Some? ==> t[id.value] == Resolved(r.value.name, r.value.parent)
  {
    if id.Some? && id.value in t && t[id.value].Resolved? then
      Some(Record(t[id.value].name, t[id.value].parent))
    else
      None
  }

  /** `nil_entries`: the ids whose entry is still unresolved. */
  function NilEntries(t: Tree): (ids: set<FileId>)
    ensures forall id :: id in ids <==> id in t && t[id].Unresolved?
  {
    set id | id in t && t[id].Unresolved?
  }

  /** `add_entries`: merge fetched rows into the table, overwriting what was there. */
  function AddEntries(t: Tree, rows: map<FileId, Record>): (r: Tree)
    ensures r.Keys == t.Keys + rows.Keys
    ensures forall id :: id in rows ==> r[id] == Resolved(rows[id].name, rows[id].parent)
    ensures forall id :: id in t && id !in rows ==> r[id] == t[id]
  {
    t + map id | id in rows :: Resolved(rows[id].name, rows[id].parent)
  }

  /** `update_entries`: set the given ids to one value, overwriting what was there. */
  function UpdateEntries(t: Tree, ids: set<FileId>, v: Entry): (r: Tree)
    ensures r.Keys == t.Keys + ids
    ensures forall id :: id in ids ==> r[id] == v
    ensures forall id :: id in t && id !in ids ==> r[id] == t[id]
  {
    t + map id | id in ids :: v
  }

  /** `add_nil_entries`: add ids as unresolved, never overwriting an existing entry (`reverse_merge!`). */
  function AddNilEntries(t: Tree, ids: set<FileId>): (r: Tree)
    ensures r.Keys == t.Keys + ids
    ensures forall id :: id in t ==> r[id] == t[id]
    ensures forall id :: id in ids && id !in t ==> r[id] == Unresolved
  {
    t + map id | id in ids && id !in t :: Unresolved
  }

  /** `initialize_tree`: every requested id unresolved, nothing else. */
  function InitialTree(fileIds: seq<FileId>): (t: Tree)
    ensures forall id :: id in t <==> id in fileIds
    ensures forall id :: id in t ==> t[id] == Unresolved
  {
    AddNilEntries(map[], set id | id in fileIds)
  }

  /** `fetch_records_for`: the rows the version store holds for the given ids. */
  function FetchRecordsFor(store: VersionStore, ids: set<FileId>): (rows: map<FileId, Record>)
    ensures rows.Keys == ids * store.Keys
    ensures forall id :: id in rows ==> rows[id] == store[id]
  {
    map id | id in ids && id in store :: store[id]
  }

  /** The non-nil parent ids of fetched rows (`parents.map { ... }.compact`). */
  function ParentIds(rows: map<FileId, Record>): (ps: set<FileId>)
    ensures forall p :: p in ps <==> exists id :: id in rows && rows[id].parent == Some(p)
  {
    set id | id in rows && rows[id].parent.Some? :: rows[id].parent.value
  }

  /** The entry the version store determines for an id once it has been fetched. */
  function Lookup(store: VersionStore, id: FileId): Entry
  {
    if id in store then Resolved(store[id].name, store[id].parent) else Absent
  }

  // ---------------------------------------------------------------------
  // One generation, and several
  // ---------------------------------------------------------------------

  /** The merges `load_generation` performs once it has fetched the rows for `ids`. */
  function MergeGeneration(t: Tree, store: VersionStore, ids: set<FileId>): Tree
  {
    var rows := FetchRecordsFor(store, ids);
    var t1 := AddEntries(t, rows);
    var t2 := UpdateEntries(t1, NilEntries(t1), Absent);
    AddNilEntries(t2, ParentIds(rows))
  }

  /** The ids of the merged table: the old ones and the parents of the fetched rows. */
  lemma MergeGenerationKeys(t: Tree, store: VersionStore)
    ensures var r := MergeGeneration(t, store, NilEntries(t));
      forall id :: id in r <==> id in t || exists c :: c in NilEntries(t) && c in store && store[c].parent == Some(id)
  {
  }

  /** The entries of the merged table. */
  lemma MergeGenerationValues(t: Tree, store: VersionStore)
    ensures var r := MergeGeneration(t, store, NilEntries(t));
      forall id :: id in r ==>
        && (id in NilEntries(t) ==> r[id] == Lookup(store, id))
        && (id in t && !t[id].Unresolved? ==> r[id] == t[id])
        && (id !in t ==> r[id] == Unresolved)
  {
  }

  /** The table after one `load_generation`. */
  function Step(t: Tree, store: VersionStore): (r: Tree)
    // with no unresolved entry there is no query and nothing changes
    ensures NilEntries(t) == {} ==> r == t
    ensures t.Keys <= r.Keys
    // every entry unresolved before is now resolved from the store, or known absent
    ensures forall id :: id in NilEntries(t) ==> r[id] == Lookup(store, id)
    // resolved and absent entries are never overwritten
    ensures forall id :: id in t && !t[id].Unresolved? ==> r[id] == t[id]
    // the parent of every row just fetched is in the table afterwards
    ensures forall c :: c in NilEntries(t) && c in store && store[c].parent.Some? ==>
      store[c].parent.value in r
    // the only new entries are such parents, and they are exactly the unresolved ones
    ensures forall id :: id in r && id !in t ==>
      exists c :: c in NilEntries(t) && c in store && store[c].parent == Some(id)
    ensures forall id :: id in r ==> (r[id].Unresolved? <==> id !in t)
  {
    var ids := NilEntries(t);
    if ids == {} then t
    else
      MergeGenerationKeys(t, store);
      MergeGenerationValues(t, store);
      MergeGeneration(t, store, ids)
  }

  /** Every resolved or absent entry agrees with the version store. */
  ghost predicate Consistent(t: Tree, store: VersionStore)
  {
    forall id :: id in t && !t[id].Unresolved? ==> t[id] == Lookup(store, id)
  }

  /** The parent of every resolved entry has an entry of its own. */
  ghost predicate Closed(t: Tree)
  {
    forall id :: id in t && t[id].Resolved? && t[id].parent.Some? ==> t[id].parent.value in t
  }

  /** The table after `n` calls of `load_generation`. */
  function Generations(t: Tree, store: VersionStore, n: nat): (r: Tree)
    ensures Consistent(t, store) && Closed(t) ==> Consistent(r, store) && Closed(r)
    ensures t.Keys <= r.Keys
  {
    if n == 0 then t else Step(Generations(t, store, n - 1), store)
  }

  // ---------------------------------------------------------------------
  // Ancestor names
  // ---------------------------------------------------------------------

  /**
   * The names collected by walking the table from `p` for at most `k` hops,
   * stopping at the first id that is nil, missing, unresolved or absent.
   */
  function Chain(t: Tree, p: Option<FileId>, k: nat): (names: seq<string>)
    ensures |names| <= k
    // nearest ancestor first
    ensures names != [] ==> Find(t, p).Some? && names[0] == Find(t, p).value.name
    decreases k
  {
    if k == 0 then []
    else
      match Find(t, p)
      case None => []
      case Some(rec) => [rec.name] + Chain(t, rec.parent, k - 1)
  }

  /** What `ancestors_names_for(file_id, depth:)` returns on the table `t`. */
  function AncestorNames(t: Tree, fileId: FileId, depth: nat): Result<seq<string>, Failure>
  {
    if depth == 0 then Success([])
    else
      match Find(t, Some(fileId))
      case None => Failure(NilReceiver)
      case Some(file) => Success(Chain(t, file.parent, depth))
  }

  /** The names reached by walking the version store itself from `p`, at most `k` hops. */
  function StoreChain(store: VersionStore, p: Option<FileId>, k: nat): (names: seq<string>)
    decreases k
  {
    if k == 0 || p.None? || p.value !in store then []
    else [store[p.value].name] + StoreChain(store, store[p.value].parent, k - 1)
  }

  /** The reference answer: the ancestor names of `fileId` read straight off the version store. */
  function StoreAncestorNames(store: VersionStore, fileId: FileId, depth: nat): Result<seq<string>, Failure>
  {
    if depth == 0 then Success([])
    else if fileId in store then Success(StoreChain(store, store[fileId].parent, depth))
    else Failure(NilReceiver)
  }

  /**
   * The first `k` ids on the store's ancestor chain from `p` are resolved or
   * absent in the table, and the id after them has an entry.
   */
  ghost predicate Loaded(t: Tree, store: VersionStore, p: Option<FileId>, k: nat)
    decreases k
  {
    match p
    case None => true
    case Some(x) =>
      x in t && (k > 0 ==> !t[x].Unresolved? && (x in store ==> Loaded(t, store, store[x].parent, k - 1)))
  }

  // ---------------------------------------------------------------------
  // Lemmas
  // ---------------------------------------------------------------------

  /** A longer walk only extends a shorter one. */
  lemma {:induction false} ChainPrefix(t: Tree, p: Option<FileId>, k: nat, m: nat)
    requires k <= m
    ensures Chain(t, p, k) <= Chain(t, p, m)
    decreases k
  {
    if k > 0 {
      match Find(t, p)
      case None =>
      case Some(rec) => ChainPrefix(t, rec.parent, k - 1, m - 1);
    }
  }

  /** Once a walk has stopped short of its depth, no greater depth collects anything more. */
  lemma {:induction false} ChainStops(t: Tree, p: Option<FileId>, k: nat, m: nat)
    requires k <= m
    requires |Chain(t, p, k)| < k
    ensures Chain(t, p, m) == Chain(t, p, k)
    decreases k
  {
    match Find(t, p)
    case None =>
    case Some(rec) => ChainStops(t, rec.parent, k - 1, m - 1);
  }

  /** One generation settles the next id along every chain that was loaded. */
  lemma {:induction false} StepLoaded(t: Tree, store: VersionStore, p: Option<FileId>, k: nat)
    requires Consistent(t, store) && Closed(t)
    requires Loaded(t, store, p, k)
    ensures Loaded(Step(t, store), store, p, k + 1)
    decreases k
  {
    if p.Some? {
      var x := p.value;
      var r := Step(t, store);
      if t[x].Unresolved? {
        assert x in NilEntries(t);
      }
      if x in store {
        if k > 0 {
          StepLoaded(t, store, store[x].parent, k - 1);
        } else if !t[x].Unresolved? {
          assert t[x] == Lookup(store, x);
        }
      }
    }
  }

  /** After `n` generations, `n` ids along the chain of every entry of the start table are settled. */
  lemma {:induction false} GenerationsLoaded(t: Tree, store: VersionStore, n: nat, p: Option<FileId>)
    requires Consistent(t, store) && Closed(t)
    requires Loaded(t, store, p, 0)
    ensures Loaded(Generations(t, store, n), store, p, n)
  {
    if n > 0 {
      GenerationsLoaded(t, store, n - 1, p);
      StepLoaded(Generations(t, store, n - 1), store, p, n - 1);
    }
  }

  /** On a settled chain, walking the table and walking the store collect the same names. */
  lemma {:induction false} ChainAgrees(t: Tree, store: VersionStore, p: Option<FileId>, k: nat)
    requires Consistent(t, store)
    requires Loaded(t, store, p, k)
    ensures Chain(t, p, k) == StoreChain(store, p, k)
    decreases k
  {
    if k > 0 && p.Some? {
      var x := p.value;
      assert t[x] == Lookup(store, x);
      if x in store {
        ChainAgrees(t, store, store[x].parent, k - 1);
      }
    }
  }

  /**
   * The batching discipline is sound: after `depth + 1` generations from the
   * requested ids, `ancestors_names_for(id, depth)` gives exactly the names
   * of walking the version store from `id`.
   */
  lemma GenerateResolvesAncestors(fileIds: seq<FileId>, store: VersionStore, depth: nat, id: FileId)
    requires id in fileIds
    ensures AncestorNames(Generations(InitialTree(fileIds), store, depth + 1), id, depth)
         == StoreAncestorNames(store, id, depth)
  {
    var t0 := InitialTree(fileIds);
    assert Consistent(t0, store) && Closed(t0);
    assert Loaded(t0, store, Some(id), 0);
    GenerationsLoaded(t0, store, depth + 1, Some(id));
    var t := Generations(t0, store, depth + 1);
    if depth > 0 {
      assert t[id] == Lookup(store, id);
      if id in store {
        ChainAgrees(t, store, store[id].parent, depth);
      }
    }
  }

  /** The queries one `load_generation` sends on table `t`: none, or one for all its unresolved ids. */
  ghost function QueriesFor(t: Tree): (qs: seq<set<FileId>>)
    ensures |qs| <= 1
  {
    if NilEntries(t) == {} then [] else [NilEntries(t)]
  }

  // ---------------------------------------------------------------------
  // The resolver object
  // ---------------------------------------------------------------------

  class FileAncestryTree {
    const commit: Commit
    const parentCommit: Option<Commit>
    /** What the version query answers for this tree's commit and parent commit. */
    const store: VersionStore
    var tree: Tree
    /** The id sets sent to the version query so far, one per round trip. */
    ghost var queries: seq<set<FileId>>

    /** `initialize`: the parent commit defaults to the commit's own parent. */
    constructor (commit: Commit, parentCommit: Option<Commit>, fileIds: seq<FileId>, versions: VersionQuery)
      ensures this.commit == commit
      ensures this.parentCommit == if parentCommit.Some? then parentCommit else commit.parent
      ensures store == versions(commit, this.parentCommit)
      ensures tree == InitialTree(fileIds)
      ensures queries == []
    {
      this.commit := commit;
      this.parentCommit := if parentCommit.Some? then parentCommit else commit.parent;
      store := versions(commit, if parentCommit.Some? then parentCommit else commit.parent);
      tree := InitialTree(fileIds);
      queries := [];
    }

    /** `self.generate`: build the tree and load `depth + 1` generations. */
    static method Generate(commit: Commit, parentCommit: Option<Commit>, fileIds: seq<FileId>, depth: nat,
                           versions: VersionQuery)
      returns (t: FileAncestryTree)
      ensures fresh(t)
      ensures t.parentCommit == if parentCommit.Some? then parentCommit else commit.parent
      ensures t.store == versions(commit, t.parentCommit)
      ensures t.tree == Generations(InitialTree(fileIds), t.store, depth + 1)
      ensures |t.queries| <= depth + 1
      ensures forall id :: id in fileIds ==>
        AncestorNames(t.tree, id, depth) == StoreAncestorNames(t.store, id, depth)
    {
      t := new FileAncestryTree(commit, parentCommit, fileIds, versions);
      t.RecursivelyLoadGenerations(depth + 1);
      forall id | id in fileIds
        ensures AncestorNames(t.tree, id, depth) == StoreAncestorNames(t.store, id, depth)
      {
        GenerateResolvesAncestors(fileIds, t.store, depth, id);
      }
    }

    /** `load_generation`: one query for all unresolved ids, and only when there are any. */
    method LoadGeneration()
      modifies this
      ensures tree == Step(old(tree), store)
      ensures queries == old(queries) + QueriesFor(old(tree))
      ensures |queries| <= |old(queries)| + 1
    {
      var ids := NilEntries(tree);
      if ids == {} {
        return;
      }
      var parents := FetchRecordsFor(store, ids);
      queries := queries + [ids];
      tree := AddEntries(tree, parents);
      tree := UpdateEntries(tree, NilEntries(tree), Absent);
      tree := AddNilEntries(tree, ParentIds(parents));
    }

    /** `recursively_load_generations`: `load_generation`, `depth` times over. */
    method RecursivelyLoadGenerations(depth: nat)
      modifies this
      ensures tree == Generations(old(tree), store, depth)
      ensures |queries| <= |old(queries)| + depth
    {
      ghost var start, asked := tree, |queries|;
      var i := 0;
      while i < depth
        invariant 0 <= i <= depth
        invariant tree == Generations(start, store, i)
        invariant |queries| <= asked + i
      {
        LoadGeneration();
        i := i + 1;
      }
    }

    /** `ancestors_names_for`: the names of up to `depth` ancestors, nearest first. */
    method AncestorsNamesFor(fileId: FileId, depth: nat) returns (r: Result<seq<string>, Failure>)
      ensures r == AncestorNames(tree, fileId, depth)
      ensures r.Success? ==> |r.value| <= depth
    {
      var names: seq<string> := [];
      var file := Find(tree, Some(fileId));
      ghost var self := file;
      var i := 0;
      while i < depth
        invariant 0 <= i <= depth
        invariant i == 0 ==> names == [] && file == self
        invariant i > 0 ==> file.Some? && self.Some?
        invariant file.Some? && self.Some? ==>
          names + Chain(tree, file.value.parent, depth - i) == Chain(tree, self.value.parent, depth)
      {
        if file.None? {
          return Failure(NilReceiver);
        }
        var next := Find(tree, file.value.parent);
        if next.None? {
          assert Chain(tree, file.value.parent, depth - i) == [];
          break;
        }
        names := names + [next.value.name];
        file := next;
        i := i + 1;
      }
      assert depth > 0 ==> self.Some? && names == Chain(tree, self.value.parent, depth);
      r := Success(names);
    }
  }
}
