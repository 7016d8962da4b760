/** Upload, lookup and deletion of stored files (app/services/file_service.py).
    The object store (S3 or DigitalOcean Spaces) is a map from key to object
    size held beside the `files` table; its failures, the random uuid and the
    clock are parameters. */
module FileService {
  import opened Common
  import opened FileModel
  import Config

  const FileNotFound := "File not found"
  const UnauthorizedDelete := "Unauthorized to delete this file"
  const PresignFailed := "Failed to generate download URL"
  const StoragePrefix := "Failed to upload file to storage: "
  const DeletePrefix := "Failed to delete file from storage: "
  const OctetStream := "application/octet-stream"
  const DefaultFolder := "uploads"

  /** The methods the `FileService` class defines; calling any other name
      on `file_service` raises AttributeError. */
  const Methods: seq<String> :=
    ["upload_file", "get_file_url", "delete_file", "get_file_info", "validate_file_type", "get_file_category"]

  /** `filename.split('.')[-1].lower() if '.' in filename else ''` */
  function FileExtension(filename: String): String {
    if '.' in filename then Lower(AfterLast(filename, '.')) else []
  }

  /** The extension is the lower-cased text after the last dot. */
  lemma FileExtensionShape(base: String, ext: String)
    requires '.' !in ext
    ensures FileExtension(base + ['.'] + ext) == Lower(ext)
  {
    assert (base + ['.'] + ext)[|base|] == '.';
    AfterLastOfJoin(base, '.', ext);
  }

  /** A name without a dot has no extension at all (unlike the knowledge-base
      upload route, which tests the whole name). */
  lemma FileExtensionNoDot(filename: String)
    requires '.' !in filename
    ensures FileExtension(filename) == []
  {
  }

  /** The extension never contains a dot and is already lower case. */
  lemma FileExtensionFacts(filename: String)
    ensures '.' !in FileExtension(filename)
    ensures Lower(FileExtension(filename)) == FileExtension(filename)
  {
    var e := FileExtension(filename);
    if '.' in filename {
      var a := AfterLast(filename, '.');
      forall k | 0 <= k < |e| ensures e[k] != '.' {
        assert e[k] == LowerChar(a[k]);
        assert a[k] != '.';
      }
      LowerIsLowered(a);
    }
  }

  /** `validate_file_type`: the extension is one of the configured ones. */
  predicate ValidateFileType(filename: String, allowed: seq<String>) {
    FileExtension(filename) in allowed
  }

  /** Only a configuration listing the empty extension (an empty piece of
      ALLOWED_FILE_TYPES, as in "pdf,,txt") accepts a name without a dot; an
      upper-case extension is accepted when its lower case is listed. */
  lemma ValidateFileTypeCases(base: String, ext: String, allowed: seq<String>)
    requires '.' !in ext
    ensures ValidateFileType(base + ['.'] + ext, allowed) <==> Lower(ext) in allowed
    ensures '.' !in base ==> (ValidateFileType(base, allowed) <==> [] in allowed)
  {
    FileExtensionShape(base, ext);
  }

  /** `get_file_category` */
  function FileCategory(mime: String): String {
    if StartsWith(mime, "image/") then "image"
    else if StartsWith(mime, "video/") then "video"
    else if StartsWith(mime, "audio/") then "audio"
    else if mime in DocumentTypes then "document"
    else "other"
  }

  /** The service's category agrees with the model's `is_image`, `is_video`,
      `is_audio` and `is_document` properties, and "other" is what none of
      them claims. */
  lemma FileCategoryAgrees(f: File)
    ensures FileCategory(f.mimeType) == "image" <==> IsImage(f)
    ensures FileCategory(f.mimeType) == "video" <==> IsVideo(f)
    ensures FileCategory(f.mimeType) == "audio" <==> IsAudio(f)
    ensures FileCategory(f.mimeType) == "document" <==> IsDocument(f)
    ensures FileCategory(f.mimeType) == "other" <==> !IsImage(f) && !IsVideo(f) && !IsAudio(f) && !IsDocument(f)
  {
    ClassesDisjoint(f);
  }

  /** `f"{folder}/{date}/{uuid}_{filename}"`, `date` being `%Y/%m/%d`. */
  function StoragePath(folder: String, date: String, uuid: String, filename: String): String {
    folder + "/" + date + "/" + uuid + "_" + filename
  }

  /** The key lies under the folder, and its last segment gives back the
      uploaded name after the uuid when neither contains a slash. */
  lemma StoragePathParts(folder: String, date: String, uuid: String, filename: String)
    requires '/' !in uuid && '/' !in filename
    ensures StartsWith(StoragePath(folder, date, uuid, filename), folder + "/")
    ensures AfterLast(StoragePath(folder, date, uuid, filename), '/') == uuid + "_" + filename
    ensures EndsWith(StoragePath(folder, date, uuid, filename), filename)
  {
    var p := StoragePath(folder, date, uuid, filename);
    var tail := uuid + "_" + filename;
    assert p == (folder + "/" + date) + ['/'] + tail;
    assert '/' !in tail by {
      forall k | 0 <= k < |tail| ensures tail[k] != '/' {
        if k < |uuid| { assert tail[k] == uuid[k]; }
        else if k > |uuid| { assert tail[k] == filename[k - |uuid| - 1]; }
      }
    }
    AfterLastOfJoin(folder + "/" + date, '/', tail);
    assert p[..|folder + "/"|] == folder + "/";
    assert p[|p| - |filename|..] == filename;
  }

  /** The declared content type, else the guess from the name, else
      "application/octet-stream" (an empty string counts as absent). */
  function ContentType(declared: Option<String>, guessed: Option<String>): (r: String)
    ensures r != []
    ensures declared.Some? && declared.value != [] ==> r == declared.value
    ensures (declared.None? || declared.value == []) && guessed.Some? && guessed.value != [] ==> r == guessed.value
    ensures r == OctetStream <==>
              (if declared.Some? && declared.value != [] then declared.value == OctetStream
               else if guessed.Some? && guessed.value != [] then guessed.value == OctetStream
               else true)
  {
    if declared.Some? && declared.value != [] then declared.value
    else if guessed.Some? && guessed.value != [] then guessed.value
    else OctetStream
  }

  /** Why `upload_file` refuses before touching storage. */
  datatype UploadRefusal = TooLarge(size: nat, maxMb: int) | TypeNotAllowed(ext: String, allowed: seq<String>)

  /** The size check comes first, then the type check. */
  function UploadRefusalOf(size: nat, filename: String, maxMb: int, allowed: seq<String>): (r: Option<UploadRefusal>)
    ensures r.None? <==> size <= maxMb * 1048576 && ValidateFileType(filename, allowed)
    ensures r.Some? && r.value.TypeNotAllowed? ==> size <= maxMb * 1048576 && r.value.ext == FileExtension(filename)
    ensures size > maxMb * 1048576 ==> r == Some(TooLarge(size, maxMb))
  {
    if size > Config.MaxFileSizeBytes(maxMb) then Some(TooLarge(size, maxMb))
    else if !ValidateFileType(filename, allowed) then Some(TypeNotAllowed(FileExtension(filename), allowed))
    else None
  }

  /** The ValueError text of a refused type (the size message formats
      megabytes to two decimals and is not modelled). */
  function TypeNotAllowedMessage(ext: String, allowed: seq<String>): (m: String)
    ensures StartsWith(m, "File type '.") && EndsWith(m, Join(allowed, ", "))
  {
    var head := "File type '." + ext + "' not allowed. Allowed types: ";
    var m := head + Join(allowed, ", ");
    assert m[..|"File type '."|] == "File type '.";
    assert m[|m| - |Join(allowed, ", ")|..] == Join(allowed, ", ");
    m
  }

  /** `get_file_url` on the `files` table: "File not found" without a row,
      the presigning failure, or the link to the row's key. */
  function PresignedUrl(files: seq<File>, fileId: int, expiration: int, presign: (String, int) -> String,
                        s3Fails: bool): (r: Result<String>)
    ensures r == Failure(FileNotFound) <==> FindFile(files, fileId).None?
    ensures r == Failure(PresignFailed) <==> FindFile(files, fileId).Some? && s3Fails
    ensures r.Success? ==> FindFile(files, fileId).Some? &&
                           r.value == presign(files[FindFile(files, fileId).value].storagePath, expiration)
  {
    match FindFile(files, fileId)
    case None => Failure(FileNotFound)
    case Some(i) => if s3Fails then Failure(PresignFailed) else Success(presign(files[i].storagePath, expiration))
  }

  class FileStore {
    var files: seq<File>
    /** The bucket: object key to object size. */
    var objects: map<String, nat>
    var nextId: int

    /** Ids are below the counter and distinct, every row has its object,
        and no two rows share a key. */
    ghost predicate Valid()
      reads this
    {
      (forall f :: f in files ==> f.id < nextId) &&
      (forall i, j :: 0 <= i < j < |files| ==> files[i].id != files[j].id) &&
      (forall f :: f in files ==> f.storagePath in objects) &&
      (forall i, j :: 0 <= i < j < |files| ==> files[i].storagePath != files[j].storagePath)
    }

    constructor ()
      ensures Valid() && files == [] && objects == map[] && nextId == 1
    {
      files, objects, nextId := [], map[], 1;
    }

    /** `get_file_info`: the row with that id, if any. */
    function GetFileInfo(fileId: int): (r: Option<File>)
      reads this
      ensures r.Some? ==> r.value in files && r.value.id == fileId
      ensures r.None? <==> forall f :: f in files ==> f.id != fileId
    {
      match FindFile(files, fileId)
      case None => None
      case Some(i) => Some(files[i])
    }

    /** `upload_file`: refuse an oversized file or a disallowed type, else
        put the object under a fresh key and add the row. */
    method UploadFile(content: seq<bv8>, filename: String, declaredType: Option<String>,
                      guessedType: Option<String>, userId: int, folder: String, date: String,
                      uuid: String, maxMb: int, allowed: seq<String>, s3Error: Option<String>,
                      now: Time) returns (r: Result<File>)
      requires Valid()
      requires StoragePath(folder, date, uuid, filename) !in objects
      modifies this
      ensures Valid()
      ensures r.Success? <==> UploadRefusalOf(|content|, filename, maxMb, allowed).None? && s3Error.None?
      ensures r.Failure? ==> files == old(files) && objects == old(objects) && nextId == old(nextId)
      ensures r.Failure? && UploadRefusalOf(|content|, filename, maxMb, allowed).None? ==>
                r.error == StoragePrefix + s3Error.value
      ensures r.Failure? && UploadRefusalOf(|content|, filename, maxMb, allowed) == Some(TypeNotAllowed(FileExtension(filename), allowed)) ==>
                r.error == TypeNotAllowedMessage(FileExtension(filename), allowed)
      ensures r.Success? ==>
                r.value == File(old(nextId), userId, StoragePath(folder, date, uuid, filename),
                                ContentType(declaredType, guessedType), |content|, now)
      ensures r.Success? ==> files == old(files) + [r.value] && nextId == old(nextId) + 1
      ensures r.Success? ==> objects == old(objects)[r.value.storagePath := |content|]
      ensures r.Success? ==> GetFileInfo(r.value.id) == Some(r.value)
    {
      var refusal := UploadRefusalOf(|content|, filename, maxMb, allowed);
      if refusal.Some? {
        match refusal.value
        case TooLarge(_, _) =>
          return Failure("File size exceeds maximum allowed");
        case TypeNotAllowed(ext, kinds) =>
          return Failure(TypeNotAllowedMessage(ext, kinds));
      }
      var path := StoragePath(folder, date, uuid, filename);
      if s3Error.Some? {
        return Failure(StoragePrefix + s3Error.value);
      }
      var f := File(nextId, userId, path, ContentType(declaredType, guessedType), |content|, now);
      files := files + [f];
      objects := objects[path := |content|];
      nextId := nextId + 1;
      r := Success(f);
      assert files[|files| - 1] == f;
    }

    /** `get_file_url`: a presigned link to the row's key. */
    function GetFileUrl(fileId: int, expiration: int, presign: (String, int) -> String, s3Fails: bool): (r: Result<String>)
      reads this
      ensures r == Failure(FileNotFound) <==> GetFileInfo(fileId).None?
      ensures r == Failure(PresignFailed) <==> GetFileInfo(fileId).Some? && s3Fails
      ensures r.Success? ==> GetFileInfo(fileId).Some? && r.value == presign(GetFileInfo(fileId).value.storagePath, expiration)
    {
      PresignedUrl(files, fileId, expiration, presign, s3Fails)
    }

    /** Why `delete_file` refuses before touching storage. */
    function DeleteRefusal(fileId: int, userId: int): (r: Option<String>)
      reads this
      ensures r == Some(FileNotFound) <==> GetFileInfo(fileId).None?
      ensures r == Some(UnauthorizedDelete) <==> GetFileInfo(fileId).Some? && GetFileInfo(fileId).value.ownerUserId != userId
      ensures r.None? <==> GetFileInfo(fileId).Some? && GetFileInfo(fileId).value.ownerUserId == userId
    {
      match GetFileInfo(fileId)
      case None => Some(FileNotFound)
      case Some(f) => if f.ownerUserId != userId then Some(UnauthorizedDelete) else None
    }

    /** `delete_file`: only the owner may delete; the object goes first, then
        the row. */
    method DeleteFile(fileId: int, userId: int, s3Error: Option<String>) returns (r: Result<bool>)
      requires Valid()
      modifies this
      ensures Valid()
      ensures r.Success? <==> old(DeleteRefusal(fileId, userId)).None? && s3Error.None?
      ensures r.Failure? && old(DeleteRefusal(fileId, userId)).Some? ==> r.error == old(DeleteRefusal(fileId, userId)).value
      ensures r.Failure? && old(DeleteRefusal(fileId, userId)).None? ==> r.error == DeletePrefix + s3Error.value
      ensures r.Failure? ==> files == old(files) && objects == old(objects)
      ensures r.Success? ==> r.value && GetFileInfo(fileId).None?
      ensures r.Success? ==> objects == old(objects) - {old(GetFileInfo(fileId)).value.storagePath}
      ensures r.Success? ==> forall f :: f in old(files) && f.id != fileId ==> f in files
      ensures r.Success? ==> forall f :: f in files ==> f in old(files)
      ensures nextId == old(nextId)
    {
      var refusal := DeleteRefusal(fileId, userId);
      if refusal.Some? {
        return Failure(refusal.value);
      }
      if s3Error.Some? {
        return Failure(DeletePrefix + s3Error.value);
      }
      var i := FindFile(files, fileId).value;
      var old_files := files;
      var path := files[i].storagePath;
      files := RemoveAt(files, i);
      objects := objects - {path};
      RemoveKeepsRest(old_files, i);
      r := Success(true);
    }
  }

  /** Removing row `i` of a valid table keeps every other row, loses row `i`'s
      id and key, and keeps ids and keys distinct. */
  lemma RemoveKeepsRest(s: seq<File>, i: nat)
    requires i < |s|
    requires forall a, b :: 0 <= a < b < |s| ==> s[a].id != s[b].id
    requires forall a, b :: 0 <= a < b < |s| ==> s[a].storagePath != s[b].storagePath
    ensures forall f :: f in RemoveAt(s, i) ==> f.id != s[i].id && f.storagePath != s[i].storagePath
    ensures forall f :: f in s && f.id != s[i].id ==> f in RemoveAt(s, i)
    ensures forall a, b :: 0 <= a < b < |RemoveAt(s, i)| ==> RemoveAt(s, i)[a].id != RemoveAt(s, i)[b].id
    ensures forall a, b :: 0 <= a < b < |RemoveAt(s, i)| ==>
              RemoveAt(s, i)[a].storagePath != RemoveAt(s, i)[b].storagePath
  {
    var t := RemoveAt(s, i);
    forall f | f in t ensures f.id != s[i].id && f.storagePath != s[i].storagePath {
      var k :| 0 <= k < |t| && t[k] == f;
      var k' := if k < i then k else k + 1;
      assert f == s[k'] && k' != i;
    }
    forall f | f in s && f.id != s[i].id ensures f in t {
      var k :| 0 <= k < |s| && s[k] == f;
      assert k != i;
      if k < i { assert t[k] == f; } else { assert t[k - 1] == f; }
    }
    forall a, b | 0 <= a < b < |t| ensures t[a].id != t[b].id && t[a].storagePath != t[b].storagePath {
      var a' := if a < i then a else a + 1;
      var b' := if b < i then b else b + 1;
      assert t[a] == s[a'] && t[b] == s[b'];
    }
  }
}
