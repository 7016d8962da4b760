/** Resources attached to a lounge (app/db/models/lounge_resource.py). */
module LoungeResourceModel {
  import opened Common
  import opened FileModel

  datatype LoungeResource = LoungeResource(
    id: int,
    loungeId: int,
    fileId: int,
    title: String,
    description: Option<String>,
    uploadedByUserId: int,
    createdAt: Time,
    updatedAt: Time)

  /** `resource.file`: the file row the resource points to, if it still exists. */
  function FileOf(r: LoungeResource, files: seq<File>): (f: Option<File>)
    ensures f.Some? ==> f.value in files && f.value.id == r.fileId
    ensures f.None? ==> forall g :: g in files ==> g.id != r.fileId
  {
    match FindFile(files, r.fileId)
    case None => None
    case Some(i) => Some(files[i])
  }

  /** `file_url`: the storage path, or None without a file. */
  function FileUrl(r: LoungeResource, files: seq<File>): (u: Option<String>)
    ensures u.None? <==> FileOf(r, files).None?
    ensures u.Some? ==> u.value == FileOf(r, files).value.storagePath
  {
    match FileOf(r, files)
    case None => None
    case Some(f) => Some(f.storagePath)
  }

  /** `file_type`: the MIME type, or None without a file. */
  function FileType(r: LoungeResource, files: seq<File>): (t: Option<String>)
    ensures t.None? <==> FileOf(r, files).None?
    ensures t.Some? ==> t.value == FileOf(r, files).value.mimeType
  {
    match FileOf(r, files)
    case None => None
    case Some(f) => Some(f.mimeType)
  }

  /** `file_size`: the size in bytes, or 0 without a file. */
  function FileSize(r: LoungeResource, files: seq<File>): (n: int)
    ensures FileOf(r, files).None? ==> n == 0
    ensures FileOf(r, files).Some? ==> n == FileOf(r, files).value.sizeBytes
  {
    match FileOf(r, files)
    case None => 0
    case Some(f) => f.sizeBytes
  }

  /** ON DELETE CASCADE of `lounge_id`: deleting a lounge deletes its resources. */
  function CascadeDeleteLounge(rs: seq<LoungeResource>, loungeId: int): (out: seq<LoungeResource>)
    ensures forall r :: r in out <==> r in rs && r.loungeId != loungeId
  {
    Filter(rs, (r: LoungeResource) => r.loungeId != loungeId)
  }

  /** ON DELETE CASCADE of `file_id`: deleting a file deletes the resources that use it. */
  function CascadeDeleteFile(rs: seq<LoungeResource>, fileId: int): (out: seq<LoungeResource>)
    ensures forall r :: r in out <==> r in rs && r.fileId != fileId
  {
    Filter(rs, (r: LoungeResource) => r.fileId != fileId)
  }

}
