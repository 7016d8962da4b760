/** Uploaded file metadata (app/db/models/file.py). */
module FileModel {
  import opened Common

  datatype File = File(
    id: int,
    ownerUserId: int,
    storagePath: String,
    mimeType: String,
    sizeBytes: int,
    createdAt: Time)

  /** `db.query(File).filter(File.id == id).first()` */
  function FindFile(files: seq<File>, id: int): (r: Option<nat>)
    ensures r.Some? ==> r.value < |files| && files[r.value].id == id
    ensures r.None? ==> forall f :: f in files ==> f.id != id
  {
    FindFirst(files, (f: File) => f.id == id)
  }

  const BytesPerMb: int := 1024 * 1024

  /** `File.size_mb` */
  function SizeMb(f: File): (r: real)
    ensures r * (BytesPerMb as real) == f.sizeBytes as real
  {
    f.sizeBytes as real / BytesPerMb as real
  }

  predicate IsImage(f: File) { StartsWith(f.mimeType, "image/") }
  predicate IsVideo(f: File) { StartsWith(f.mimeType, "video/") }
  predicate IsAudio(f: File) { StartsWith(f.mimeType, "audio/") }

  /** The MIME types counted as documents, here and in the upload service's category map. */
  const DocumentTypes: seq<String> := [
    "application/pdf",
    "application/msword",
    WordDocumentType,
    "text/plain"
  ]

  /** The .docx MIME type (spelled in two parts only so that the verifier can read its first characters). */
  const WordDocumentType: String := "application/" + "vnd.openxmlformats-officedocument.wordprocessingml.document"

  predicate IsDocumentType(mime: String) { mime in DocumentTypes }

  predicate IsDocument(f: File) { IsDocumentType(f.mimeType) }

  /** A file falls in at most one of the four classes. */
  lemma ClassesDisjoint(f: File)
    ensures !(IsImage(f) && IsVideo(f)) && !(IsImage(f) && IsAudio(f)) && !(IsVideo(f) && IsAudio(f))
    ensures IsDocument(f) ==> !IsImage(f) && !IsVideo(f) && !IsAudio(f)
  {
    var m := f.mimeType;
    if IsImage(f) { assert m[..6] == "image/"; assert m[0] == 'i'; }
    if IsVideo(f) { assert m[..6] == "video/"; assert m[0] == 'v'; }
    if IsAudio(f) { assert m[..6] == "audio/"; assert m[0] == 'a' && m[1] == 'u'; }
    if IsDocument(f) {
      var k :| 0 <= k < |DocumentTypes| && DocumentTypes[k] == m;
      if k == 0 { assert m[0] == 'a' && m[1] == 'p'; }
      else if k == 1 { assert m[0] == 'a' && m[1] == 'p'; }
      else if k == 2 { assert m[0] == 'a' && m[1] == 'p'; }
      else { assert m[0] == 't'; }
    }
  }
}
