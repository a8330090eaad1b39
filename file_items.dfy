/**
 * File items synced from Google Drive (FileItems::Base and its subclasses):
 * the kind of an item is chosen by its mime type, and its external link and
 * icon are built from fixed URL prefixes.
 */
module FileItems {
  import opened Wrappers

  /** The subclass a stored item is loaded as. */
  datatype Kind = Base | Folder | Document | Spreadsheet | Presentation | Drawing | Form

  const FolderMimeType: string := "application/vnd.google-apps.folder"
  const DocumentMimeType: string := "application/vnd.google-apps.document"
  const SpreadsheetMimeType: string := "application/vnd.google-apps.spreadsheet"
  const PresentationMimeType: string := "application/vnd.google-apps.presentation"
  const DrawingMimeType: string := "application/vnd.google-apps.drawing"
  const FormMimeType: string := "application/vnd.google-apps.form"

  /** The mime type that selects a kind; none selects the base kind. */
  function MimeTypeOf(kind: Kind): Option<string>
  {
    match kind
    case Base => None
    case Folder => Some(FolderMimeType)
    case Document => Some(DocumentMimeType)
    case Spreadsheet => Some(SpreadsheetMimeType)
    case Presentation => Some(PresentationMimeType)
    case Drawing => Some(DrawingMimeType)
    case Form => Some(FormMimeType)
  }

  /** The kind an item with this mime type is loaded as. */
  function KindFor(mimeType: string): (kind: Kind)
    // a specific kind is chosen exactly by its own mime type
    ensures kind != Base ==> MimeTypeOf(kind) == Some(mimeType)
    // and every other mime type, the empty one included, gives the base kind
    ensures kind == Base <==> forall k :: MimeTypeOf(k) != Some(mimeType)
  {
    if mimeType == FolderMimeType then Folder
    else if mimeType == DocumentMimeType then Document
    else if mimeType == SpreadsheetMimeType then Spreadsheet
    else if mimeType == PresentationMimeType then Presentation
    else if mimeType == DrawingMimeType then Drawing
    else if mimeType == FormMimeType then Form
    else Base
  }

  /** Each of the six mime types selects its own kind. */
  lemma KindForMimeTypeOf(kind: Kind)
    requires kind != Base
    ensures KindFor(MimeTypeOf(kind).value) == kind
  {
  }

  /** The placeholder for the Drive id in a link template. */
  const DriveIdPlaceholder: string := "GID"

  const BaseLinkTemplate: string := "https://drive.google.com/file/d/GID"
  const FormLinkTemplate: string := "https://docs.google.com/forms/d/GID"

  /** `external_link_template` of each kind: a URL prefix free of 'G', then the placeholder. */
  function ExternalLinkTemplate(kind: Kind): (t: string)
    ensures |t| >= |DriveIdPlaceholder| && t[|t| - |DriveIdPlaceholder|..] == DriveIdPlaceholder
    ensures 'G' !in t[..|t| - |DriveIdPlaceholder|]
    ensures kind == Form ==> t[..|t| - |DriveIdPlaceholder|] == "https://docs.google.com/forms/d/"
    ensures kind != Form ==> t[..|t| - |DriveIdPlaceholder|] == "https://drive.google.com/file/d/"
  {
    if kind == Form then FormLinkTemplate else BaseLinkTemplate
  }

  /** The template with every "GID" replaced by the Drive id. */
  function FillTemplate(template: string, driveId: string): string
    decreases |template|
  {
    if |template| >= 3 && template[..3] == DriveIdPlaceholder then
      driveId + FillTemplate(template[3..], driveId)
    else if template == [] then []
    else [template[0]] + FillTemplate(template[1..], driveId)
  }

  /** A template made of a 'G'-free prefix and the placeholder gives the prefix and then the id. */
  lemma {:induction false} FillTrailingPlaceholder(prefix: string, driveId: string)
    requires 'G' !in prefix
    ensures FillTemplate(prefix + DriveIdPlaceholder, driveId) == prefix + driveId
    decreases |prefix|
  {
    var t := prefix + DriveIdPlaceholder;
    if prefix == [] {
      assert t == DriveIdPlaceholder;
      assert t[3..] == [];
    } else {
      assert t[0] == prefix[0] && t[0] != 'G';
      assert t[1..] == prefix[1..] + DriveIdPlaceholder;
      FillTrailingPlaceholder(prefix[1..], driveId);
      assert [prefix[0]] + prefix[1..] == prefix;
    }
  }

  /**
   * `external_link`: the kind's template filled with the Drive id, or nil
   * without one; a form links to Google Forms, every other kind to the Drive file.
   */
  function ExternalLink(kind: Kind, driveId: Option<string>): (link: Option<string>)
    ensures link.None? <==> driveId.None?
    ensures link.Some? && kind == Form ==> link.value == "https://docs.google.com/forms/d/" + driveId.value
    ensures link.Some? && kind != Form ==> link.value == "https://drive.google.com/file/d/" + driveId.value
  {
    if driveId.None? then None
    else
      var template := ExternalLinkTemplate(kind);
      var prefix := template[..|template| - |DriveIdPlaceholder|];
      assert template == prefix + DriveIdPlaceholder;
      FillTrailingPlaceholder(prefix, driveId.value);
      Some(FillTemplate(template, driveId.value))
  }

  const IconPrefix: string := "https://drive-thirdparty.googleusercontent.com/128/type/"

  /** `icon`: the icon URL for the mime type, or nil without one. */
  function Icon(mimeType: Option<string>): (url: Option<string>)
    ensures url.None? <==> mimeType.None?
    // the prefix, then the mime type unchanged
    ensures url.Some? ==>
              |url.value| == |IconPrefix| + |mimeType.value| &&
              url.value[..|IconPrefix|] == IconPrefix &&
              url.value[|IconPrefix|..] == mimeType.value
  {
    if mimeType.None? then None else Some(IconPrefix + mimeType.value)
  }

  /** A stored file item: its kind follows from its mime type when it is loaded. */
  datatype FileItem = FileItem(kind: Kind, mimeType: Option<string>, googleDriveId: Option<string>)

  /** Loading a stored item (single table inheritance on the mime type); a nil mime type gives the base kind. */
  function Load(mimeType: Option<string>, googleDriveId: Option<string>): (item: FileItem)
    ensures item.mimeType == mimeType && item.googleDriveId == googleDriveId
    ensures item.kind != Base ==> MimeTypeOf(item.kind) == mimeType
    ensures mimeType.None? ==> item.kind == Base
    // and a known mime type selects its own kind
    ensures forall k :: k != Base && MimeTypeOf(k) == mimeType ==> item.kind == k
  {
    FileItem(if mimeType.Some? then KindFor(mimeType.value) else Base, mimeType, googleDriveId)
  }
}
