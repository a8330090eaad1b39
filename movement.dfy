/**
 * The movement change of the file diff engine (VCS::FileDiff::Changes::Movement):
 * the change shown when a file's parent differs between its previous and its
 * current version, and `unapply`, which moves the current version back.
 */
module FileDiffChanges {
  import opened Wrappers

  /** A version of a file; the engine only ever writes its `parentId` back. */
  class Version {
    const fileId: string
    var name: string
    var parentId: Option<string>
    var mimeType: string
    var contentVersion: string
    var deleted: bool

    constructor (fileId: string, name: string, parentId: Option<string>, mimeType: string,
                 contentVersion: string, deleted: bool)
      ensures this.fileId == fileId && this.name == name && this.parentId == parentId
      ensures this.mimeType == mimeType && this.contentVersion == contentVersion && this.deleted == deleted
    {
      this.fileId := fileId;
      this.name := name;
      this.parentId := parentId;
      this.mimeType := mimeType;
      this.contentVersion := contentVersion;
      this.deleted := deleted;
    }
  }

  /** A diff between the previous and the current version of one file. */
  class FileDiff {
    const currentVersion: Version
    const previousVersion: Version
    /** The readable path of the current version's ancestors. */
    const ancestorPath: string

    constructor (currentVersion: Version, previousVersion: Version, ancestorPath: string)
      ensures this.currentVersion == currentVersion && this.previousVersion == previousVersion
      ensures this.ancestorPath == ancestorPath
    {
      this.currentVersion := currentVersion;
      this.previousVersion := previousVersion;
      this.ancestorPath := ancestorPath;
    }

    /** The file has a different parent in its current version than in its previous one. */
    predicate IsMoved()
      reads currentVersion, previousVersion
    {
      currentVersion.parentId != previousVersion.parentId
    }
  }

  const MovementPrefix: string := "moved to "

  class Movement {
    const diff: FileDiff

    constructor (diff: FileDiff)
      ensures this.diff == diff
    {
      this.diff := diff;
    }

    function Type(): string { "movement" }

    function Color(): string { "purple" }

    function Tooltip(): string { "File has been moved" }

    predicate IsMovement() { true }

    /** "moved to " and then the ancestor path of the diff. */
    function Description(): (d: string)
      ensures |d| == |MovementPrefix| + |diff.ancestorPath|
      ensures d[..|MovementPrefix|] == MovementPrefix
      ensures d[|MovementPrefix|..] == diff.ancestorPath
    {
      MovementPrefix + diff.ancestorPath
    }

    /** The fixed attributes of a movement, and the path being readable from its description. */
    lemma Presentation()
      ensures Type() == "movement" && IsMovement()
      ensures Color() == "purple" && Tooltip() == "File has been moved"
      ensures Description() == "moved to " + diff.ancestorPath
    {
    }

    /** `unapply`: give the current version the parent of the previous version back. */
    method Unapply()
      modifies diff.currentVersion`parentId
      ensures diff.currentVersion.parentId == old(diff.previousVersion.parentId)
      ensures !diff.IsMoved()
    {
      diff.currentVersion.parentId := diff.previousVersion.parentId;
    }
  }

  /** After `unapply`, the previous version is untouched and the current one differs from before in its parent only. */
  method UnapplyWritesParentOnly(change: Movement)
    modifies change.diff.currentVersion`parentId
    ensures change.diff.currentVersion.parentId == old(change.diff.previousVersion.parentId)
    ensures change.diff.currentVersion.name == old(change.diff.currentVersion.name)
    ensures change.diff.currentVersion.mimeType == old(change.diff.currentVersion.mimeType)
    ensures change.diff.currentVersion.contentVersion == old(change.diff.currentVersion.contentVersion)
    ensures change.diff.currentVersion.deleted == old(change.diff.currentVersion.deleted)
    ensures change.diff.currentVersion != change.diff.previousVersion ==>
      change.diff.previousVersion.parentId == old(change.diff.previousVersion.parentId)
  {
    change.Unapply();
  }
}
