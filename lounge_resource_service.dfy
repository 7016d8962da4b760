// Documents attached to lounges: app/services/lounge_resource_service.py.
// The service keeps `lounge_resources` rows and hands the files themselves
// to the upload service (FileService.FileStore), which owns the `files`
// table and the bucket.

module LoungeResourceService {
  import opened Common
  import opened FileModel
  import opened LoungeResourceModel
  import FileService

  const LoungeNotFound: String := "Lounge not found"
  const ResourceNotFound: String := "Resource not found"

  /** The expiry `get_resource_file_url` asks for, the upload service's default. */
  const UrlExpiration: int := 3600

  /** The bucket folder of a lounge's documents. */
  function ResourceFolder(loungeId: int): (r: String)
    ensures |r| > |"lounge_resources/"| && r[..|"lounge_resources/"|] == "lounge_resources/"
  {
    "lounge_resources/" + IntToString(loungeId)
  }

  function FindResource(rs: seq<LoungeResource>, id: int): (r: Option<nat>)
    ensures r.Some? ==> r.value < |rs| && rs[r.value].id == id
    ensures r.None? ==> forall x :: x in rs ==> x.id != id
  {
    FindFirst(rs, (x: LoungeResource) => x.id == id)
  }

  /** Ids are the primary key: distinct, and below the next one handed out. */
  ghost predicate ResourceIdsValid(rs: seq<LoungeResource>, nextId: int) {
    (forall x :: x in rs ==> x.id < nextId) &&
    (forall i, j :: 0 <= i < j < |rs| ==> rs[i].id != rs[j].id)
  }

  // ----------------------------------------------------------------------
  // Listing
  // ----------------------------------------------------------------------

  function ByCreatedDesc(x: LoungeResource): Key { (x.createdAt, 0) }

  /** `get_lounge_resources`: the lounge's total, and the page at offset
      (page - 1) * page_size of its documents, newest first. */
  function LoungeResources(rs: seq<LoungeResource>, loungeId: int, page: int, pageSize: int)
    : (r: PageResult<LoungeResource>)
    requires page >= 1 && pageSize >= 1
    ensures r.total == Count(rs, (x: LoungeResource) => x.loungeId == loungeId)
    ensures |r.items| <= pageSize
    ensures forall k :: 0 <= k < |r.items| ==> r.items[k] in rs && r.items[k].loungeId == loungeId
    ensures forall i, j :: 0 <= i < j < |r.items| ==> r.items[i].createdAt >= r.items[j].createdAt
  {
    var r := ListPage(rs, (x: LoungeResource) => x.loungeId == loungeId, ByCreatedDesc, page, pageSize);
    assert forall i, j :: 0 <= i < j < |r.items| ==> KeyGe(ByCreatedDesc(r.items[i]), ByCreatedDesc(r.items[j]));
    r
  }

  /** The lounge filter of `get_all_lounges_resources`: applied only when
      the id is truthy, so lounge 0 means every lounge. */
  function InLoungeFilter(loungeId: Option<int>): LoungeResource -> bool {
    if loungeId.Some? && loungeId.value != 0 then (x: LoungeResource) => x.loungeId == loungeId.value
    else (x: LoungeResource) => true
  }

  /** `get_all_lounges_resources`: every document, or one lounge's, paged
      newest first. */
  function AllResources(rs: seq<LoungeResource>, page: int, pageSize: int, loungeId: Option<int>)
    : (r: PageResult<LoungeResource>)
    requires page >= 1 && pageSize >= 1
    ensures loungeId.Some? && loungeId.value != 0 ==> r == LoungeResources(rs, loungeId.value, page, pageSize)
    ensures !(loungeId.Some? && loungeId.value != 0) ==> r.total == |rs|
    ensures forall k :: 0 <= k < |r.items| ==> r.items[k] in rs
  {
    var p := InLoungeFilter(loungeId);
    if loungeId.Some? && loungeId.value != 0 then ListPage(rs, p, ByCreatedDesc, page, pageSize)
    else CountAll(rs, p); ListPage(rs, p, ByCreatedDesc, page, pageSize)
  }

  /** When one page holds the whole lounge, the first page lists every one
      of its documents. */
  lemma FirstPageListsLounge(rs: seq<LoungeResource>, loungeId: int, pageSize: int)
    requires pageSize >= Count(rs, (x: LoungeResource) => x.loungeId == loungeId) && pageSize >= 1
    ensures forall x :: x in rs && x.loungeId == loungeId ==> x in LoungeResources(rs, loungeId, 1, pageSize).items
  {
    var p := (x: LoungeResource) => x.loungeId == loungeId;
    FirstPageHasAll(rs, p, ByCreatedDesc, pageSize);
    forall x | x in rs && x.loungeId == loungeId ensures x in LoungeResources(rs, loungeId, 1, pageSize).items {
      assert x in Filter(rs, p);
      assert x in multiset(Filter(rs, p));
    }
  }

  // ----------------------------------------------------------------------
  // Editing
  // ----------------------------------------------------------------------

  /** The field updates of `update_resource`: a given title or description
      replaces the old one, and `updated_at` is refreshed either way. */
  function Patch(x: LoungeResource, title: Option<String>, description: Option<String>, now: Time)
    : (r: LoungeResource)
    ensures r.title == (if title.Some? then title.value else x.title)
    ensures r.description == (if description.Some? then description else x.description)
    ensures r.updatedAt == now
    ensures r.(title := x.title, description := x.description, updatedAt := x.updatedAt) == x
  {
    x.(title := if title.Some? then title.value else x.title,
       description := if description.Some? then description else x.description,
       updatedAt := now)
  }

  /** Two edits in a row are one edit whose fields are the later ones where
      given, else the earlier ones. */
  lemma PatchTwice(x: LoungeResource, t1: Option<String>, d1: Option<String>, n1: Time,
                   t2: Option<String>, d2: Option<String>, n2: Time)
    ensures Patch(Patch(x, t1, d1, n1), t2, d2, n2) ==
            Patch(x, if t2.Some? then t2 else t1, if d2.Some? then d2 else d1, n2)
  {
  }

  // ----------------------------------------------------------------------
  // The table
  // ----------------------------------------------------------------------

  class ResourceStore {
    var resources: seq<LoungeResource>
    /** The ids of the `lounges` table; this service only asks whether one exists. */
    var loungeIds: set<int>
    var nextId: int
    /** The `files` table and the bucket. */
    const files: FileService.FileStore

    ghost predicate Valid()
      reads this, files
    {
      ResourceIdsValid(resources, nextId) && files.Valid()
    }

    constructor(lounges: set<int>)
      ensures Valid() && resources == [] && loungeIds == lounges && fresh(files) && files.files == []
    {
      resources := [];
      loungeIds := lounges;
      nextId := 1;
      files := new FileService.FileStore();
    }

    /** `get_resource` */
    function GetResource(id: int): (r: Option<LoungeResource>)
      reads this
      ensures r.Some? ==> r.value in resources && r.value.id == id
      ensures r.None? <==> forall x :: x in resources ==> x.id != id
    {
      match FindResource(resources, id)
      case None => None
      case Some(i) => Some(resources[i])
    }

    /** `create_resource`: the lounge must exist; the upload's failure is
        the call's failure; otherwise a row pointing at the new file is
        added. */
    method CreateResource(loungeId: int, title: String, description: Option<String>, uploaderId: int,
                          content: seq<bv8>, filename: String, declaredType: Option<String>,
                          guessedType: Option<String>, date: String, uuid: String, maxMb: int,
                          allowed: seq<String>, s3Error: Option<String>, now: Time)
      returns (r: Result<LoungeResource>)
      requires Valid()
      requires FileService.StoragePath(ResourceFolder(loungeId), date, uuid, filename) !in files.objects
      modifies this, files
      ensures Valid()
      ensures loungeId !in loungeIds ==> r == Failure(LoungeNotFound)
      ensures r.Success? <==> loungeId in loungeIds &&
                              FileService.UploadRefusalOf(|content|, filename, maxMb, allowed).None? && s3Error.None?
      ensures r.Failure? ==> resources == old(resources) && nextId == old(nextId) &&
                             files.files == old(files.files) && files.objects == old(files.objects)
      ensures r.Success? ==>
                resources == old(resources) + [r.value] && nextId == old(nextId) + 1 &&
                r.value == LoungeResource(old(nextId), loungeId, r.value.fileId, title, description, uploaderId, now, now)
      ensures r.Success? ==>
                FileOf(r.value, files.files).Some? && FileOf(r.value, files.files).value.ownerUserId == uploaderId &&
                FileOf(r.value, files.files).value.sizeBytes == |content| &&
                FileOf(r.value, files.files).value.storagePath == FileService.StoragePath(ResourceFolder(loungeId), date, uuid, filename)
      ensures loungeIds == old(loungeIds)
    {
      if loungeId !in loungeIds {
        return Failure(LoungeNotFound);
      }
      var upload := files.UploadFile(content, filename, declaredType, guessedType, uploaderId,
                                     ResourceFolder(loungeId), date, uuid, maxMb, allowed, s3Error, now);
      if upload.Failure? {
        return Failure(upload.error);
      }
      var f := upload.value;
      var x := LoungeResource(nextId, loungeId, f.id, title, description, uploaderId, now, now);
      assert files.files[|files.files| - 1] == f;
      FileOfLast(x, old(files.files), f);
      resources := resources + [x];
      nextId := nextId + 1;
      r := Success(x);
    }

    /** `update_resource`: "Resource not found" for an unknown id, else the
        row is patched in place and nothing else changes. */
    method UpdateResource(id: int, title: Option<String>, description: Option<String>, now: Time)
      returns (r: Result<LoungeResource>)
      requires Valid()
      modifies this
      ensures Valid()
      ensures r.Failure? <==> FindResource(old(resources), id).None?
      ensures r.Failure? ==> r.error == ResourceNotFound && resources == old(resources)
      ensures r.Success? ==>
                var i := FindResource(old(resources), id).value;
                r.value == Patch(old(resources)[i], title, description, now) &&
                resources == old(resources)[i := r.value] && GetResource(id) == Some(r.value)
      ensures nextId == old(nextId) && loungeIds == old(loungeIds)
    {
      var i := FindResource(resources, id);
      if i.None? {
        return Failure(ResourceNotFound);
      }
      var x := Patch(resources[i.value], title, description, now);
      resources := resources[i.value := x];
      FindFirstAgree(old(resources), resources, (y: LoungeResource) => y.id == id);
      r := Success(x);
    }

    /** `get_resource_file_url`: None for an unknown resource, else the
        upload service's answer for its file. */
    function GetResourceFileUrl(id: int, presign: (String, int) -> String, s3Fails: bool): (r: Option<Result<String>>)
      reads this, files
      ensures r.None? <==> GetResource(id).None?
      ensures r.Some? ==> r.value == files.GetFileUrl(GetResource(id).value.fileId, UrlExpiration, presign, s3Fails)
    {
      match GetResource(id)
      case None => None
      case Some(x) => Some(FileService.PresignedUrl(files.files, x.fileId, UrlExpiration, presign, s3Fails))
    }

    /** `delete_resource` as written: the row goes, but the file clean-up
        calls `delete_file_by_path`, which the upload service does not
        define; the AttributeError is caught and logged, so the file's row
        and its object stay behind. */
    method DeleteResourceAsWritten(id: int) returns (r: Result<bool>)
      requires Valid()
      modifies this
      ensures Valid()
      ensures r.Failure? <==> FindResource(old(resources), id).None?
      ensures r.Failure? ==> r.error == ResourceNotFound && resources == old(resources)
      ensures r.Success? ==> r.value && resources == RemoveAt(old(resources), FindResource(old(resources), id).value)
      ensures files.files == old(files.files) && files.objects == old(files.objects)
      ensures nextId == old(nextId) && loungeIds == old(loungeIds)
    {
      var i := FindResource(resources, id);
      if i.None? {
        return Failure(ResourceNotFound);
      }
      RemoveResourceKeepsIds(resources, nextId, i.value);
      resources := RemoveAt(resources, i.value);
      r := Success(true);
    }

    /** `delete_resource` as intended: the row goes, and so do its file's
        row and object, unless the storage call fails, which is logged and
        leaves the file alone. */
    method DeleteResource(id: int, s3Error: Option<String>) returns (r: Result<bool>)
      requires Valid()
      modifies this, files
      ensures Valid()
      ensures r.Failure? <==> FindResource(old(resources), id).None?
      ensures r.Failure? ==> r.error == ResourceNotFound && resources == old(resources) &&
                             files.files == old(files.files) && files.objects == old(files.objects)
      ensures r.Success? ==> r.value && resources == RemoveAt(old(resources), FindResource(old(resources), id).value)
      ensures r.Success? ==> GetResource(id).None?
      ensures r.Success? && s3Error.None? ==>
                files.GetFileInfo(old(resources)[FindResource(old(resources), id).value].fileId).None?
      ensures r.Success? && s3Error.None? ==> forall f :: f in files.files ==> f in old(files.files)
      ensures s3Error.Some? ==> files.files == old(files.files) && files.objects == old(files.objects)
      ensures nextId == old(nextId) && loungeIds == old(loungeIds)
    {
      var i := FindResource(resources, id);
      if i.None? {
        return Failure(ResourceNotFound);
      }
      var fileId := resources[i.value].fileId;
      RemoveResourceKeepsIds(resources, nextId, i.value);
      resources := RemoveAt(resources, i.value);
      var record := files.GetFileInfo(fileId);
      if record.Some? {
        var _ := files.DeleteFile(fileId, record.value.ownerUserId, s3Error);
      }
      r := Success(true);
    }
  }

  /** The file just appended is the one a resource pointing at it finds. */
  lemma FileOfLast(x: LoungeResource, fs: seq<File>, f: File)
    requires x.fileId == f.id
    requires forall g :: g in fs ==> g.id != f.id
    ensures FileOf(x, fs + [f]) == Some(f)
  {
    var t := fs + [f];
    var i := FindFile(t, x.fileId);
    assert t[|fs|] == f;
    assert i.Some?;
  }

  /** Removing one row keeps the ids valid and drops exactly that id. */
  lemma RemoveResourceKeepsIds(rs: seq<LoungeResource>, nextId: int, i: nat)
    requires i < |rs| && ResourceIdsValid(rs, nextId)
    ensures ResourceIdsValid(RemoveAt(rs, i), nextId)
    ensures forall x :: x in RemoveAt(rs, i) ==> x.id != rs[i].id
  {
    var t := RemoveAt(rs, i);
    assert forall k :: 0 <= k < |t| ==> t[k] == (if k < i then rs[k] else rs[k + 1]);
  }
}
