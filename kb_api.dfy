/** The admin knowledge-base router (app/api/v1/knowledge_base.py): what the
    handlers add on top of the service — the upload check and its form
    fields, page counts, the embedding jobs started for prompts, the
    mentor/lounge display helpers and the order of the job routes. */
module KnowledgeBaseApi {
  import opened Common
  import opened KnowledgeBaseModel
  import opened FileModel
  import opened KnowledgeBaseService
  import opened BackgroundJobModel
  import opened BackgroundTaskService
  import LoungeModel
  import MentorModel
  import UserModel

  // ---------------------------------------------------------------------
  // Display helpers
  // ---------------------------------------------------------------------

  /** The user behind `item.lounge.mentor.user`, when every link exists. */
  function MentorUser(loungeId: Option<int>, lounges: seq<LoungeModel.Lounge>, mentors: seq<MentorModel.Mentor>,
                      users: seq<UserModel.User>): (r: Option<UserModel.User>)
    ensures r.Some? ==> loungeId.Some? && r.value in users
    ensures r.Some? ==> exists l, m :: (l in lounges && l.id == loungeId.value && m in mentors &&
                                        m.id == l.mentorId && r.value.id == m.userId)
  {
    if loungeId.None? then None
    else match LoungeModel.FindLounge(lounges, loungeId.value)
      case None => None
      case Some(i) =>
        match MentorModel.FindMentor(mentors, lounges[i].mentorId)
        case None => None
        case Some(j) =>
          assert lounges[i] in lounges && mentors[j] in mentors;
          UserModel.FindUser(users, mentors[j].userId)
  }

  /** `get_mentor_name`: the mentor's user name, or None when the item has no
      lounge, the lounge no mentor or the mentor no user. */
  function MentorName(loungeId: Option<int>, lounges: seq<LoungeModel.Lounge>, mentors: seq<MentorModel.Mentor>,
                      users: seq<UserModel.User>): (r: Option<String>)
  {
    match MentorUser(loungeId, lounges, mentors, users)
    case None => None
    case Some(u) => Some(u.name)
  }

  /** `get_mentor_image`: the same chain, ending at the avatar. */
  function MentorImage(loungeId: Option<int>, lounges: seq<LoungeModel.Lounge>, mentors: seq<MentorModel.Mentor>,
                       users: seq<UserModel.User>): (r: Option<String>)
  {
    match MentorUser(loungeId, lounges, mentors, users)
    case None => None
    case Some(u) => u.avatarUrl
  }

  /** A global item (no lounge) has neither mentor name nor mentor image, and
      an item whose chain is complete shows that user's name. */
  lemma MentorNameChain(loungeId: Option<int>, lounges: seq<LoungeModel.Lounge>, mentors: seq<MentorModel.Mentor>,
                        users: seq<UserModel.User>)
    ensures loungeId.None? ==> MentorName(loungeId, lounges, mentors, users).None?
    ensures loungeId.None? ==> MentorImage(loungeId, lounges, mentors, users).None?
    ensures MentorName(loungeId, lounges, mentors, users).Some? <==> MentorUser(loungeId, lounges, mentors, users).Some?
    ensures MentorImage(loungeId, lounges, mentors, users).Some? ==> MentorName(loungeId, lounges, mentors, users).Some?
  {
  }

  /** `get_lounge_image`: the lounge's profile image through the file
      service's URL lookup; a failing lookup gives None. */
  function LoungeImage(loungeId: Option<int>, lounges: seq<LoungeModel.Lounge>, fileUrl: int -> Option<String>)
    : (r: Option<String>)
    ensures r.Some? ==> loungeId.Some?
  {
    if loungeId.None? then None
    else match LoungeModel.FindLounge(lounges, loungeId.value)
      case None => None
      case Some(i) => if lounges[i].profileImageId.Some? then fileUrl(lounges[i].profileImageId.value) else None
  }

  // ---------------------------------------------------------------------
  // Uploads
  // ---------------------------------------------------------------------

  const AllowedUploadTypes: seq<String> := ["pdf", "txt", "docx"]

  /** `file.filename.split('.')[-1].lower() if file.filename else ''`. */
  function UploadExtension(filename: Option<String>): String {
    if filename.None? || filename.value == [] then [] else Lower(AfterLast(filename.value, '.'))
  }

  predicate UploadAllowed(filename: Option<String>) {
    UploadExtension(filename) in AllowedUploadTypes
  }

  /** The extension is what follows the last dot, lower-cased; a name with no
      dot is checked whole; an upload without a name is refused. */
  lemma UploadExtensionShape(base: String, ext: String)
    requires '.' !in ext
    ensures UploadExtension(Some(base + ['.'] + ext)) == Lower(ext)
  {
    AfterLastOfJoin(base, '.', ext);
  }

  lemma UploadExtensionNoDot(name: String)
    requires '.' !in name
    ensures UploadExtension(Some(name)) == Lower(name)
  {
    if name != [] {
      AfterLastNoSep(name, '.');
    }
  }

  lemma NamelessUploadRefused()
    ensures !UploadAllowed(None) && !UploadAllowed(Some(""))
  {
    assert UploadExtension(None) == [];
    assert UploadExtension(Some("")) == [];
    forall t | t in AllowedUploadTypes ensures |t| >= 3 { }
  }

  /** The stored `file_type` of an accepted upload is the extension the
      router checked. */
  lemma UploadedFileTypeIsChecked(filename: String)
    requires UploadAllowed(Some(filename))
    ensures DocumentFileType(filename) == UploadExtension(Some(filename))
    ensures DocumentFileType(filename) in AllowedUploadTypes
  {
  }

  /** `tags.split(',') if tags else None`: pieces are not stripped. */
  function UploadTags(tags: Option<String>): (r: Option<seq<String>>)
    ensures r.Some? ==> |r.value| >= 1 && forall k :: 0 <= k < |r.value| ==> ',' !in r.value[k]
  {
    if tags.None? || tags.value == [] then None else Some(Split(tags.value, ','))
  }

  /** Joining the tags back with commas gives the form field again, spaces
      included. */
  lemma UploadTagsRoundTrip(tags: String)
    requires tags != []
    ensures Join(UploadTags(Some(tags)).value, ",") == tags
  {
    SplitJoin(tags, ',');
    assert [','] == ",";
  }

  /** The form fields of `upload_document` as the service receives them. */
  function UploadData(title: String, description: Option<String>, categoryId: Option<int>,
                      loungeId: Option<int>, tags: Option<String>): (d: DocumentData)
    ensures d.title == Some(title) && d.loungeId == loungeId && d.tags == UploadTags(tags)
  {
    DocumentData(Some(title), description, categoryId, loungeId, UploadTags(tags))
  }

  /** `upload_document`: 400 for a type outside pdf/txt/docx, with nothing
      stored; otherwise the service's `create_document`. */
  method UploadDocument(kb: KnowledgeBase, upload: File, filename: Option<String>, title: String,
                        description: Option<String>, categoryId: Option<int>, loungeId: Option<int>,
                        tags: Option<String>, adminId: int, text: Option<String>, summarize: Summarizer,
                        embed: Embedder, embedBatch: BatchEmbedder, now: Time) returns (r: Outcome<KBDocument>)
    requires kb.Valid()
    modifies kb
    ensures kb.Valid()
    ensures r.HttpError? <==> !UploadAllowed(filename)
    ensures r.HttpError? ==> r.status == 400
    ensures r.HttpError? ==> kb.documents == old(kb.documents) && kb.chunks == old(kb.chunks) && kb.files == old(kb.files)
    ensures r.Ok? ==> filename.Some? && kb.files == old(kb.files) + [upload]
    ensures r.Ok? ==> kb.documents == old(kb.documents) + [r.value]
    ensures r.Ok? ==> r.value == ProcessedRow(NewDocument(old(kb.nextId), upload, filename.value,
                                              UploadData(title, description, categoryId, loungeId, tags), adminId, now),
                                              text, summarize, embed)
  {
    if !UploadAllowed(filename) {
      return HttpError(400, "File type not allowed. Allowed types: pdf, txt, docx");
    }
    var doc := kb.CreateDocument(upload, filename.value, UploadData(title, description, categoryId, loungeId, tags),
                                 adminId, text, summarize, embed, embedBatch, now);
    r := Ok(doc);
  }

  // ---------------------------------------------------------------------
  // Prompts and their embedding jobs
  // ---------------------------------------------------------------------

  /** Steps of a prompt-embedding job. */
  const PromptEmbeddingSteps: int := 3

  /** The job `create_job` was asked for: a prompt embedding of this prompt. */
  predicate IsPromptEmbeddingJob(job: BackgroundJob, promptId: int)
    reads job
  {
    job.jobType == PromptEmbedding && job.entityType == Some("prompt") && job.entityId == Some(promptId) &&
    job.totalSteps == PromptEmbeddingSteps && job.status == Pending
  }

  /** `create_prompt`: the row is stored without an embedding
      (`skip_embedding=True`); a job that will embed it is queued exactly when
      the prompt is part of RAG. */
  method CreatePrompt(kb: KnowledgeBase, js: JobService, d: PromptData, adminId: int, embed: Embedder, now: Time)
    returns (p: KBPrompt, jobId: Option<int>)
    requires kb.Valid()
    modifies kb, js
    ensures kb.Valid()
    ensures p == NewPrompt(old(kb.nextId), d, adminId, now) && p.embedding.None?
    ensures kb.prompts == old(kb.prompts) + [p]
    ensures jobId.Some? <==> d.isIncludedInRag
    ensures d.isIncludedInRag ==> jobId == Some(old(js.nextId)) && |js.jobs| == |old(js.jobs)| + 1
    ensures d.isIncludedInRag ==> js.jobs[..|old(js.jobs)|] == old(js.jobs) && IsPromptEmbeddingJob(js.jobs[|old(js.jobs)|], p.id)
    ensures !d.isIncludedInRag ==> js.jobs == old(js.jobs) && js.nextId == old(js.nextId)
  {
    p := kb.CreatePrompt(d, adminId, true, embed, now);
    jobId := None;
    if p.isIncludedInRag {
      var job := js.CreateJob(PromptEmbedding, Some("prompt"), Some(p.id), Some(adminId), PromptEmbeddingSteps, now);
      assert js.jobs[..|old(js.jobs)|] == old(js.jobs);
      jobId := Some(job.id);
    }
  }

  /** The router's test: did the title or the content really change? */
  predicate ApiContentChanged(before: KBPrompt, after: KBPrompt) {
    before.content != after.content || before.title != after.title
  }

  /** Whether `update_prompt` throws the embedding away and queues a job. */
  predicate NeedsReembedding(before: KBPrompt, after: KBPrompt) {
    after.isIncludedInRag && ApiContentChanged(before, after)
  }

  /** The router only sees a change the service also flagged; the service
      also flags a title or content sent unchanged, or a new description,
      which the router ignores. */
  lemma ApiChangeNeedsServiceFlag(p: KBPrompt, u: PromptPatch, embed: Embedder)
    ensures ApiContentChanged(p, UpdatedPrompt(p, u, embed)) ==> PromptContentChanged(u)
    ensures u.title == Some(p.title) && u.content.None? ==>
      PromptContentChanged(u) && !ApiContentChanged(p, UpdatedPrompt(p, u, embed))
  {
  }

  /** `update_prompt`: 404 for an unknown id; otherwise the service update,
      then — for a RAG prompt whose title or content changed — the embedding
      cleared and a prompt-embedding job queued. */
  method UpdatePrompt(kb: KnowledgeBase, js: JobService, id: int, u: PromptPatch, adminId: int,
                      embed: Embedder, now: Time) returns (r: Outcome<KBPrompt>, jobId: Option<int>)
    requires kb.Valid()
    modifies kb, js
    ensures kb.Valid()
    ensures r.HttpError? <==> old(kb.PromptIndex(id)).None?
    ensures r.HttpError? ==> r.status == 404 && kb.prompts == old(kb.prompts) && js.jobs == old(js.jobs)
    ensures r.Ok? ==> old(kb.PromptIndex(id)).Some?
    ensures r.Ok? ==>
      (var i := old(kb.PromptIndex(id)).value;
       var q := UpdatedPrompt(old(kb.prompts)[i], u, embed);
       r.value == (if NeedsReembedding(old(kb.prompts)[i], q) then q.(embedding := None) else q) &&
       kb.prompts == old(kb.prompts)[i := r.value] &&
       (jobId.Some? <==> NeedsReembedding(old(kb.prompts)[i], q)))
    ensures jobId.Some? ==> jobId == Some(old(js.nextId)) && |js.jobs| == |old(js.jobs)| + 1
    ensures jobId.Some? ==> js.jobs[..|old(js.jobs)|] == old(js.jobs) && IsPromptEmbeddingJob(js.jobs[|old(js.jobs)|], id)
    ensures jobId.None? ==> js.jobs == old(js.jobs) && js.nextId == old(js.nextId)
  {
    var found := kb.PromptIndex(id);
    if found.None? {
      return HttpError(404, "Prompt not found"), None;
    }
    var i := found.value;
    var before := kb.prompts[i];
    var updated := kb.UpdatePrompt(id, u, embed);
    var q := updated.value;
    jobId := None;
    if NeedsReembedding(before, q) {
      kb.ClearPromptEmbedding(i);
      var job := js.CreateJob(PromptEmbedding, Some("prompt"), Some(q.id), Some(adminId), PromptEmbeddingSteps, now);
      assert js.jobs[..|old(js.jobs)|] == old(js.jobs);
      jobId := Some(job.id);
      r := Ok(q.(embedding := None));
    } else {
      r := Ok(q);
    }
  }

  /** A RAG prompt whose content is rewritten ends the call with no
      embedding and one queued job, whatever the service computed. */
  lemma RewrittenPromptWaitsForJob(p: KBPrompt, u: PromptPatch, embed: Embedder)
    requires p.isIncludedInRag && u.isIncludedInRag.None?
    requires u.content.Some? && u.content.value != p.content
    ensures NeedsReembedding(p, UpdatedPrompt(p, u, embed))
  {
  }

  // ---------------------------------------------------------------------
  // The job routes
  // ---------------------------------------------------------------------

  /** The three `GET /jobs...` routes, in the order the module declares them. */
  datatype JobRoute = JobStatusRoute | ActiveJobsRoute | RecentJobsRoute

  /** What a request path below `/jobs` reaches: a route with its id, or the
      422 the path parameter's validation gives. */
  datatype JobDispatch = Dispatched(route: JobRoute, jobId: Option<int>) | Unprocessable | NoRoute

  /** A route's path: `{job_id}` matches any one segment, the others match
      literally. */
  predicate RouteMatches(route: JobRoute, segments: seq<String>) {
    match route
    case JobStatusRoute => |segments| == 1 && segments[0] != []
    case ActiveJobsRoute => segments == []
    case RecentJobsRoute => segments == ["recent"]
  }

  /** Starlette tries the routes in order; the first whose path matches
      handles the request, and a `{job_id}` that is not an integer is a 422. */
  function Dispatch(order: seq<JobRoute>, segments: seq<String>): JobDispatch {
    match FindFirst(order, (rt: JobRoute) => RouteMatches(rt, segments))
    case None => NoRoute
    case Some(i) =>
      if order[i] == JobStatusRoute then
        match ParseInt(segments[0])
        case None => Unprocessable
        case Some(n) => Dispatched(JobStatusRoute, Some(n))
      else Dispatched(order[i], None)
  }

  /** The declaration order of the module. */
  const RouteOrderAsWritten: seq<JobRoute> := [JobStatusRoute, ActiveJobsRoute, RecentJobsRoute]

  /** The literal route registered before the parameterised one. */
  const RouteOrder: seq<JobRoute> := [RecentJobsRoute, ActiveJobsRoute, JobStatusRoute]

  /** A segment that starts with a letter is no integer. */
  lemma LetterIsNoInt(s: String)
    requires s != [] && IsLowerLetter(s[0]) && IsLowerLetter(s[|s| - 1])
    ensures ParseInt(s) == None
  {
    StripUnchanged(s);
  }

  /** As written, `GET /jobs/recent` is taken by `/jobs/{job_id}` and fails
      its integer validation: the recent-jobs handler is unreachable. */
  lemma RecentJobsShadowed(segments: seq<String>)
    ensures Dispatch(RouteOrderAsWritten, ["recent"]) == Unprocessable
    ensures Dispatch(RouteOrderAsWritten, segments) != Dispatched(RecentJobsRoute, None)
  {
    LetterIsNoInt("recent");
    assert RouteMatches(RouteOrderAsWritten[0], ["recent"]);
    if |segments| == 1 && segments[0] != [] {
      assert RouteMatches(RouteOrderAsWritten[0], segments);
    }
  }

  /** With the literal route first, `/jobs/recent` lists the recent jobs,
      while numeric ids and the bare list reach the same handlers as before. */
  lemma RouteOrderFixed(n: nat)
    ensures Dispatch(RouteOrder, ["recent"]) == Dispatched(RecentJobsRoute, None)
    ensures Dispatch(RouteOrder, [NatToString(n)]) == Dispatched(JobStatusRoute, Some(n))
    ensures Dispatch(RouteOrderAsWritten, [NatToString(n)]) == Dispatched(JobStatusRoute, Some(n))
    ensures Dispatch(RouteOrder, []) == Dispatch(RouteOrderAsWritten, []) == Dispatched(ActiveJobsRoute, None)
  {
    var s := NatToString(n);
    ParseIntToString(n);
    assert IntToString(n) == s;
    assert s != "recent" by {
      assert IsDigit(s[0]);
    }
    assert RouteMatches(RouteOrder[0], ["recent"]);
    assert !RouteMatches(RouteOrder[0], [s]) && !RouteMatches(RouteOrder[1], [s]) && RouteMatches(RouteOrder[2], [s]);
    assert RouteMatches(RouteOrderAsWritten[0], [s]);
    assert !RouteMatches(RouteOrder[0], []) && RouteMatches(RouteOrder[1], []);
    assert !RouteMatches(RouteOrderAsWritten[0], []) && RouteMatches(RouteOrderAsWritten[1], []);
  }

  // ---------------------------------------------------------------------
  // Lookups, deletes and the job status route
  // ---------------------------------------------------------------------

  /** Every `if not x: raise HTTPException(404, ...)` of the router. */
  function Found<T>(o: Option<T>, detail: String): (r: Outcome<T>)
    ensures r.Ok? <==> o.Some?
    ensures r.Ok? ==> r.value == o.value
    ensures r.HttpError? ==> r.status == 404 && r.detail == detail
  {
    if o.Some? then Ok(o.value) else HttpError(404, detail)
  }

  /** A looked-up row comes back unchanged or as a 404, never as another row. */
  lemma FoundOrMissing<T>(o: Option<T>, detail: String, x: T)
    ensures Found(o, detail) == Ok(x) <==> o == Some(x)
    ensures Found(o, detail).HttpError? ==> Found(o, detail) == HttpError(404, detail)
  {
  }

  /** `GET /knowledge-base/prompts/{prompt_id}`. */
  function GetPromptRoute(kb: KnowledgeBase, id: int): (r: Outcome<KBPrompt>)
    reads kb
    ensures r.Ok? <==> kb.GetPrompt(id).Some?
    ensures r.Ok? ==> r.value.id == id && r.value in kb.prompts
    ensures r.HttpError? ==> r.status == 404 && r.detail == "Prompt not found"
  {
    Found(kb.GetPrompt(id), "Prompt not found")
  }

  /** `DELETE /knowledge-base/categories/{category_id}`: 204 when a category
      was removed, 404 otherwise. */
  method DeleteCategoryRoute(kb: KnowledgeBase, id: int) returns (status: int)
    requires kb.Valid()
    modifies kb
    ensures kb.Valid()
    ensures status == 204 <==> old(kb.GetCategory(id)).Some?
    ensures status == 204 || status == 404
    ensures status == 404 ==> kb.categories == old(kb.categories) && kb.prompts == old(kb.prompts)
  {
    var deleted := kb.DeleteCategory(id);
    status := if deleted then 204 else 404;
  }

  /** `DELETE /knowledge-base/prompts/{prompt_id}`. */
  method DeletePromptRoute(kb: KnowledgeBase, id: int) returns (status: int)
    requires kb.Valid()
    modifies kb
    ensures kb.Valid()
    ensures status == 204 <==> old(kb.GetPrompt(id)).Some?
    ensures status == 204 || status == 404
    ensures status == 404 ==> kb.prompts == old(kb.prompts)
  {
    var deleted := kb.DeletePrompt(id);
    status := if deleted then 204 else 404;
  }

  /** `DELETE /knowledge-base/documents/{document_id}`: the storage path of
      the removed file is what the route would hand to the file store. */
  method DeleteDocumentRoute(kb: KnowledgeBase, id: int) returns (status: int)
    requires kb.Valid()
    modifies kb
    ensures kb.Valid()
    ensures status == 204 <==> old(kb.GetDocument(id)).Some?
    ensures status == 204 || status == 404
    ensures status == 404 ==> kb.documents == old(kb.documents) && kb.chunks == old(kb.chunks)
  {
    var deleted, _ := kb.DeleteDocument(id);
    status := if deleted then 204 else 404;
  }

  /** `DELETE /knowledge-base/faqs/{faq_id}`. */
  method DeleteFaqRoute(kb: KnowledgeBase, id: int) returns (status: int)
    requires kb.Valid()
    modifies kb
    ensures kb.Valid()
    ensures status == 204 <==> old(kb.GetFaq(id)).Some?
    ensures status == 204 || status == 404
    ensures status == 404 ==> kb.faqs == old(kb.faqs)
  {
    var deleted := kb.DeleteFaq(id);
    status := if deleted then 204 else 404;
  }

  /** `GET /knowledge-base/jobs/{job_id}`: the job's dictionary, or 404. */
  method GetJobStatus(js: JobService, jobId: int) returns (r: Outcome<JobDict>)
    ensures r.Ok? ==> exists j :: j in js.jobs && j.id == jobId && r.value.id == jobId
    ensures r.HttpError? ==> r.status == 404 && r.detail == "Job not found" && forall j :: j in js.jobs ==> j.id != jobId
  {
    var job := js.GetJob(jobId);
    if job == null {
      r := HttpError(404, "Job not found");
    } else {
      r := Ok(job.ToDict());
    }
  }
}
