/** The knowledge-base service (app/services/knowledge_base_service.py):
    CRUD over categories, prompts, documents (with their chunks) and FAQs,
    the lounge-scope filter every listing applies, document processing,
    the search merge and the RAG context built from it. The database is a
    set of in-memory tables; the embedding, summary and similarity services
    are oracles passed in by the caller. */
module KnowledgeBaseService {
  import opened Common
  import opened KnowledgeBaseModel
  import opened FileModel
  import Chunker = KnowledgeBaseChunker
  import FileService

  // ---------------------------------------------------------------------
  // Lounge scope
  // ---------------------------------------------------------------------

  /** The `lounge_id` / `include_global` filter: with a lounge, its own items
      (plus the global ones when `include_global`); without one, everything,
      or only the global items when `include_global` is false. */
  predicate InScope(itemLounge: Option<int>, loungeId: Option<int>, includeGlobal: bool) {
    if loungeId.Some? then
      if includeGlobal then itemLounge == loungeId || itemLounge.None?
      else itemLounge == loungeId
    else if !includeGlobal then itemLounge.None?
    else true
  }

  /** Global items are hidden only when a lounge is asked for without
      `include_global`. */
  lemma GlobalItemsScope(loungeId: Option<int>, includeGlobal: bool)
    ensures InScope(None, loungeId, includeGlobal) <==> includeGlobal || loungeId.None?
  {
  }

  /** An item of some lounge is visible only when that lounge is asked for,
      or when nothing restricts the listing. */
  lemma LoungeItemsScope(item: int, loungeId: Option<int>, includeGlobal: bool)
    ensures InScope(Some(item), loungeId, includeGlobal) <==>
      loungeId == Some(item) || (loungeId.None? && includeGlobal)
  {
  }

  /** Turning `include_global` on never hides an item. */
  lemma IncludeGlobalWidens(itemLounge: Option<int>, loungeId: Option<int>)
    ensures InScope(itemLounge, loungeId, false) ==> InScope(itemLounge, loungeId, true)
  {
  }

  // ---------------------------------------------------------------------
  // Listing filters shared by prompts, documents and FAQs
  // ---------------------------------------------------------------------

  /** The query parameters of the paginated listings. */
  datatype ListFilter = ListFilter(
    categoryId: Option<int>,
    search: Option<String>,
    isActive: Option<bool>,
    loungeId: Option<int>,
    includeGlobal: bool)

  /** `if category_id:` — a category id of 0 is falsy and filters nothing. */
  predicate CategoryMatches(f: ListFilter, itemCategory: Option<int>) {
    !(f.categoryId.Some? && f.categoryId.value != 0) || itemCategory == f.categoryId
  }

  predicate ActiveMatches(f: ListFilter, isActive: bool) {
    f.isActive.None? || f.isActive.value == isActive
  }

  /** `if search:` — an empty search string is falsy and filters nothing. */
  predicate Searching(f: ListFilter) { f.search.Some? && f.search.value != "" }

  predicate PromptMatches(f: ListFilter, p: KBPrompt) {
    CategoryMatches(f, p.categoryId) && ActiveMatches(f, p.isActive) &&
    (Searching(f) ==> ILike(p.title, f.search.value) || ILike(p.content, f.search.value) ||
                      ILikeOpt(p.description, f.search.value)) &&
    InScope(p.loungeId, f.loungeId, f.includeGlobal)
  }

  predicate DocumentMatches(f: ListFilter, isProcessed: Option<bool>, d: KBDocument) {
    CategoryMatches(f, d.categoryId) && ActiveMatches(f, d.isActive) &&
    (isProcessed.None? || isProcessed.value == d.isProcessed) &&
    (Searching(f) ==> ILike(d.title, f.search.value) || ILike(d.originalFilename, f.search.value) ||
                      ILikeOpt(d.description, f.search.value)) &&
    InScope(d.loungeId, f.loungeId, f.includeGlobal)
  }

  predicate FaqMatches(f: ListFilter, q: KBFaq) {
    CategoryMatches(f, q.categoryId) && ActiveMatches(f, q.isActive) &&
    (Searching(f) ==> ILike(q.question, f.search.value) || ILike(q.answer, f.search.value)) &&
    InScope(q.loungeId, f.loungeId, f.includeGlobal)
  }

  /** A listing without any filter and without a lounge shows every row. */
  lemma EmptyFilterMatchesAll(p: KBPrompt, d: KBDocument, q: KBFaq)
    ensures PromptMatches(ListFilter(None, None, None, None, true), p)
    ensures DocumentMatches(ListFilter(None, None, None, None, true), None, d)
    ensures FaqMatches(ListFilter(None, None, None, None, true), q)
  {
  }

  /** ORDER BY created_at DESC */
  function NewestFirstPrompt(p: KBPrompt): Key { (p.createdAt, 0) }
  function NewestFirstDocument(d: KBDocument): Key { (d.createdAt, 0) }
  /** ORDER BY sort_order ASC, created_at DESC */
  function FaqOrder(q: KBFaq): Key { (-q.sortOrder, q.createdAt) }
  /** ORDER BY sort_order ASC (the name tie-break is not modelled) */
  function CategoryOrder(c: KBCategory): Key { (-c.sortOrder, 0) }

  // ---------------------------------------------------------------------
  // Partial updates: `for key, value in data.items(): if value is not None: setattr(...)`
  // ---------------------------------------------------------------------

  /** The new value of a column: the given one, or the current one when the
      key is absent or None. */
  function Pick<T>(given: Option<T>, current: T): T {
    if given.Some? then given.value else current
  }

  /** The same for a nullable column: a given value can set it, never clear it. */
  function PickOpt<T>(given: Option<T>, current: Option<T>): Option<T> {
    if given.Some? then given else current
  }

  datatype CategoryPatch = CategoryPatch(
    name: Option<String>, slug: Option<String>, description: Option<String>, icon: Option<String>,
    sortOrder: Option<int>, isActive: Option<bool>, loungeId: Option<int>)

  function ApplyCategoryPatch(c: KBCategory, p: CategoryPatch): (r: KBCategory)
    ensures r.id == c.id && r.createdAt == c.createdAt && r.updatedAt == c.updatedAt
  {
    c.(name := Pick(p.name, c.name), slug := Pick(p.slug, c.slug),
       description := PickOpt(p.description, c.description), icon := PickOpt(p.icon, c.icon),
       sortOrder := Pick(p.sortOrder, c.sortOrder), isActive := Pick(p.isActive, c.isActive),
       loungeId := PickOpt(p.loungeId, c.loungeId))
  }

  /** A later patch wins over an earlier one, key by key. */
  function MergeCategoryPatch(p: CategoryPatch, q: CategoryPatch): CategoryPatch {
    CategoryPatch(PickOpt(q.name, p.name), PickOpt(q.slug, p.slug), PickOpt(q.description, p.description),
                  PickOpt(q.icon, p.icon), PickOpt(q.sortOrder, p.sortOrder), PickOpt(q.isActive, p.isActive),
                  PickOpt(q.loungeId, p.loungeId))
  }

  /** An update with nothing (or only None values) leaves the row as it was;
      applying the same update twice is applying it once; two updates in a
      row are one merged update. */
  lemma CategoryPatchLaws(c: KBCategory, p: CategoryPatch, q: CategoryPatch)
    ensures ApplyCategoryPatch(c, CategoryPatch(None, None, None, None, None, None, None)) == c
    ensures ApplyCategoryPatch(ApplyCategoryPatch(c, p), p) == ApplyCategoryPatch(c, p)
    ensures ApplyCategoryPatch(ApplyCategoryPatch(c, p), q) == ApplyCategoryPatch(c, MergeCategoryPatch(p, q))
  {
  }

  datatype PromptPatch = PromptPatch(
    title: Option<String>, content: Option<String>, description: Option<String>,
    tags: Option<seq<String>>, isActive: Option<bool>, isIncludedInRag: Option<bool>,
    categoryId: Option<int>, loungeId: Option<int>)

  function ApplyPromptPatch(p: KBPrompt, u: PromptPatch): (r: KBPrompt)
    ensures r.id == p.id && r.embedding == p.embedding && r.usageCount == p.usageCount
    ensures r.createdAt == p.createdAt && r.createdById == p.createdById
  {
    p.(title := Pick(u.title, p.title), content := Pick(u.content, p.content),
       description := PickOpt(u.description, p.description), tags := PickOpt(u.tags, p.tags),
       isActive := Pick(u.isActive, p.isActive), isIncludedInRag := Pick(u.isIncludedInRag, p.isIncludedInRag),
       categoryId := PickOpt(u.categoryId, p.categoryId), loungeId := PickOpt(u.loungeId, p.loungeId))
  }

  /** `content_changed`: some non-None title, content or description was given. */
  predicate PromptContentChanged(u: PromptPatch) {
    u.title.Some? || u.content.Some? || u.description.Some?
  }

  datatype DocumentPatch = DocumentPatch(
    title: Option<String>, description: Option<String>, tags: Option<seq<String>>,
    isActive: Option<bool>, categoryId: Option<int>, loungeId: Option<int>)

  function ApplyDocumentPatch(d: KBDocument, u: DocumentPatch): (r: KBDocument)
    ensures r.id == d.id && r.fileId == d.fileId && r.originalFilename == d.originalFilename
    ensures r.extractedText == d.extractedText && r.embedding == d.embedding && r.isProcessed == d.isProcessed
  {
    d.(title := Pick(u.title, d.title), description := PickOpt(u.description, d.description),
       tags := PickOpt(u.tags, d.tags), isActive := Pick(u.isActive, d.isActive),
       categoryId := PickOpt(u.categoryId, d.categoryId), loungeId := PickOpt(u.loungeId, d.loungeId))
  }

  /** Document metadata updates obey the same laws as category updates. */
  lemma DocumentPatchLaws(d: KBDocument, u: DocumentPatch)
    ensures ApplyDocumentPatch(d, DocumentPatch(None, None, None, None, None, None)) == d
    ensures ApplyDocumentPatch(ApplyDocumentPatch(d, u), u) == ApplyDocumentPatch(d, u)
  {
  }

  datatype FaqPatch = FaqPatch(
    question: Option<String>, answer: Option<String>, tags: Option<seq<String>>, sortOrder: Option<int>,
    isActive: Option<bool>, isIncludedInRag: Option<bool>, categoryId: Option<int>, loungeId: Option<int>)

  function ApplyFaqPatch(q: KBFaq, u: FaqPatch): (r: KBFaq)
    ensures r.id == q.id && r.embedding == q.embedding && r.createdAt == q.createdAt
    ensures r.viewCount == q.viewCount && r.helpfulCount == q.helpfulCount && r.notHelpfulCount == q.notHelpfulCount
  {
    q.(question := Pick(u.question, q.question), answer := Pick(u.answer, q.answer),
       tags := PickOpt(u.tags, q.tags), sortOrder := Pick(u.sortOrder, q.sortOrder),
       isActive := Pick(u.isActive, q.isActive), isIncludedInRag := Pick(u.isIncludedInRag, q.isIncludedInRag),
       categoryId := PickOpt(u.categoryId, q.categoryId), loungeId := PickOpt(u.loungeId, q.loungeId))
  }

  /** `content_changed` for an FAQ: a non-None question or answer was given. */
  predicate FaqContentChanged(u: FaqPatch) { u.question.Some? || u.answer.Some? }

  // ---------------------------------------------------------------------
  // Embedding texts and the embedding oracle
  // ---------------------------------------------------------------------

  /** `ai_service.create_embedding`: an embedding, or None when it raises. */
  type Embedder = String -> Option<Embedding>

  /** `f"{title}\n{content}"`, plus `f"\n{description}"` when there is one. */
  function PromptEmbeddingText(p: KBPrompt): (t: String)
    ensures StartsWith(t, p.title + "\n" + p.content)
    ensures p.description.None? || p.description.value == "" ==> t == p.title + "\n" + p.content
  {
    var base := p.title + "\n" + p.content;
    if p.description.Some? && p.description.value != "" then
      assert (base + "\n" + p.description.value)[..|base|] == base;
      base + "\n" + p.description.value
    else base
  }

  /** `f"Question: {question}\nAnswer: {answer}"` */
  function FaqEmbeddingText(q: KBFaq): (t: String)
    ensures StartsWith(t, "Question: " + q.question)
    ensures EndsWith(t, "\nAnswer: " + q.answer)
  {
    var a := "Question: " + q.question;
    var b := "\nAnswer: " + q.answer;
    assert (a + b)[..|a|] == a && (a + b)[|a|..] == b;
    a + b
  }

  /** `f"{title}\n"`, then `f"{description}\n"` and the summary when they are non-empty. */
  function DocumentEmbeddingText(d: KBDocument): (t: String)
    ensures StartsWith(t, d.title + "\n")
  {
    var a := d.title + "\n";
    var b := if d.description.Some? && d.description.value != "" then d.description.value + "\n" else "";
    var c := if d.summary.Some? && d.summary.value != "" then d.summary.value else "";
    assert (a + b + c)[..|a|] == a;
    a + b + c
  }

  /** `_update_*_embedding`: store the new embedding; a failing call is
      caught and leaves the old one. */
  function Refresh(current: Option<Embedding>, text: String, embed: Embedder): (e: Option<Embedding>)
    ensures embed(text).Some? ==> e == embed(text)
    ensures embed(text).None? ==> e == current
  {
    if embed(text).Some? then embed(text) else current
  }

  function RefreshPrompt(p: KBPrompt, embed: Embedder): KBPrompt {
    p.(embedding := Refresh(p.embedding, PromptEmbeddingText(p), embed))
  }

  function RefreshFaq(q: KBFaq, embed: Embedder): KBFaq {
    q.(embedding := Refresh(q.embedding, FaqEmbeddingText(q), embed))
  }

  function RefreshDocument(d: KBDocument, embed: Embedder): KBDocument {
    d.(embedding := Refresh(d.embedding, DocumentEmbeddingText(d), embed))
  }

  /** `update_prompt` on one row: apply the patch, then re-embed when the
      content changed and the prompt is in RAG. */
  function UpdatedPrompt(p: KBPrompt, u: PromptPatch, embed: Embedder): (r: KBPrompt)
    ensures r.id == p.id
    ensures !PromptContentChanged(u) || !r.isIncludedInRag ==> r == ApplyPromptPatch(p, u)
    ensures PromptContentChanged(u) && r.isIncludedInRag && embed(PromptEmbeddingText(r)).Some? ==>
      r.embedding == embed(PromptEmbeddingText(r))
  {
    var q := ApplyPromptPatch(p, u);
    if PromptContentChanged(u) && q.isIncludedInRag then RefreshPrompt(q, embed) else q
  }

  /** An update that touches neither title, content nor description keeps
      the stored embedding. */
  lemma MetadataUpdateKeepsEmbedding(p: KBPrompt, u: PromptPatch, embed: Embedder)
    requires !PromptContentChanged(u)
    ensures UpdatedPrompt(p, u, embed).embedding == p.embedding
    ensures PromptEmbeddingText(UpdatedPrompt(p, u, embed)) == PromptEmbeddingText(p)
  {
  }

  function UpdatedFaq(q: KBFaq, u: FaqPatch, embed: Embedder): (r: KBFaq)
    ensures r.id == q.id
    ensures !FaqContentChanged(u) || !r.isIncludedInRag ==> r == ApplyFaqPatch(q, u)
    ensures FaqContentChanged(u) && r.isIncludedInRag && embed(FaqEmbeddingText(r)).Some? ==>
      r.embedding == embed(FaqEmbeddingText(r))
  {
    var n := ApplyFaqPatch(q, u);
    if FaqContentChanged(u) && n.isIncludedInRag then RefreshFaq(n, embed) else n
  }

  /** An FAQ update that leaves question and answer alone keeps the
      embedding and the text it was computed from. */
  lemma FaqMetadataUpdateKeepsEmbedding(q: KBFaq, u: FaqPatch, embed: Embedder)
    requires !FaqContentChanged(u)
    ensures UpdatedFaq(q, u, embed).embedding == q.embedding
    ensures FaqEmbeddingText(UpdatedFaq(q, u, embed)) == FaqEmbeddingText(q)
  {
  }

  // ---------------------------------------------------------------------
  // Counting
  // ---------------------------------------------------------------------

  lemma {:induction false} CountNoneAfterFilter<T>(s: seq<T>, keep: T -> bool, q: T -> bool)
    requires forall x :: keep(x) ==> !q(x)
    ensures Count(Filter(s, keep), q) == 0
  {
    if s != [] {
      CountNoneAfterFilter(s[1..], keep, q);
      var rest := Filter(s[1..], keep);
      if keep(s[0]) {
        assert Filter(s, keep) == [s[0]] + rest;
        assert ([s[0]] + rest)[1..] == rest;
      } else {
        assert Filter(s, keep) == rest;
      }
    }
  }

  /** `get_category_counts` */
  datatype CategoryCounts = CategoryCounts(promptCount: nat, documentCount: nat, faqCount: nat)

  function CountsFor(ps: seq<KBPrompt>, ds: seq<KBDocument>, fs: seq<KBFaq>, categoryId: int): CategoryCounts {
    CategoryCounts(Count(ps, (p: KBPrompt) => p.categoryId == Some(categoryId)),
                   Count(ds, (d: KBDocument) => d.categoryId == Some(categoryId)),
                   Count(fs, (f: KBFaq) => f.categoryId == Some(categoryId)))
  }

  /** After the ORM deletes a category, nothing is counted under it. */
  lemma DeletedCategoryCountsZero(ps: seq<KBPrompt>, ds: seq<KBDocument>, fs: seq<KBFaq>, categoryId: int)
    ensures CountsFor(OrmDeleteCategoryPrompts(ps, categoryId), OrmDeleteCategoryDocuments(ds, categoryId),
                      OrmDeleteCategoryFaqs(fs, categoryId), categoryId) == CategoryCounts(0, 0, 0)
  {
    CountNoneAfterFilter(ps, (p: KBPrompt) => p.categoryId != Some(categoryId),
                         (p: KBPrompt) => p.categoryId == Some(categoryId));
    CountNoneAfterFilter(ds, (d: KBDocument) => d.categoryId != Some(categoryId),
                         (d: KBDocument) => d.categoryId == Some(categoryId));
    CountNoneAfterFilter(fs, (f: KBFaq) => f.categoryId != Some(categoryId),
                         (f: KBFaq) => f.categoryId == Some(categoryId));
  }

  // ---------------------------------------------------------------------
  // Rows created from request data
  // ---------------------------------------------------------------------

  datatype CategoryData = CategoryData(
    loungeId: Option<int>, name: String, slug: String, description: Option<String>,
    icon: Option<String>, sortOrder: int, isActive: bool)

  datatype PromptData = PromptData(
    loungeId: Option<int>, categoryId: Option<int>, title: String, content: String,
    description: Option<String>, tags: Option<seq<String>>, isActive: bool, isIncludedInRag: bool)

  /** The form fields of an upload; `title` is None when the key is absent. */
  datatype DocumentData = DocumentData(
    title: Option<String>, description: Option<String>, categoryId: Option<int>,
    loungeId: Option<int>, tags: Option<seq<String>>)

  datatype FaqData = FaqData(
    loungeId: Option<int>, categoryId: Option<int>, question: String, answer: String,
    tags: Option<seq<String>>, sortOrder: int, isActive: bool, isIncludedInRag: bool)

  function NewCategory(id: int, d: CategoryData, now: Time): KBCategory {
    KBCategory(id, d.loungeId, d.name, d.slug, d.description, d.icon, d.sortOrder, d.isActive, now, now)
  }

  function NewPrompt(id: int, d: PromptData, adminId: int, now: Time): KBPrompt {
    KBPrompt(id, d.loungeId, d.categoryId, d.title, d.content, d.description, d.tags, d.isActive,
             d.isIncludedInRag, 0, None, now, now, Some(adminId))
  }

  function NewFaq(id: int, d: FaqData, adminId: int, now: Time): KBFaq {
    KBFaq(id, d.loungeId, d.categoryId, d.question, d.answer, d.tags, d.sortOrder, d.isActive,
          d.isIncludedInRag, 0, 0, 0, None, now, now, Some(adminId))
  }

  /** `file.filename.split('.')[-1].lower() if file.filename else 'unknown'` */
  function DocumentFileType(filename: String): String {
    if filename == [] then "unknown" else Lower(AfterLast(filename, '.'))
  }

  /** The type is the lower-cased text after the last dot: it holds no dot
      and is no longer than the name; a nameless upload is `unknown`. */
  lemma DocumentFileTypeShape(filename: String)
    ensures filename == [] ==> DocumentFileType(filename) == "unknown"
    ensures filename != [] ==> '.' !in DocumentFileType(filename) && |DocumentFileType(filename)| <= |filename|
  {
    if filename != [] {
      var r := AfterLast(filename, '.');
      forall i | 0 <= i < |r| ensures Lower(r)[i] != '.' {
        assert r[i] in r;
      }
    }
  }

  /** `"report.final.PDF"` is typed `pdf`. */
  lemma DocumentFileTypeOfName(stem: String, ext: String)
    requires '.' !in ext
    ensures DocumentFileType(stem + "." + ext) == Lower(ext)
  {
    AfterLastOfJoin(stem, '.', ext);
  }

  /** The document row `create_document` inserts, as written: the
      `lounge_id` of the upload is never copied, so the document is global. */
  function NewDocumentAsWritten(id: int, file: File, filename: String, d: DocumentData, adminId: int, now: Time): KBDocument {
    KBDocument(id, None, d.categoryId, file.id, Pick(d.title, filename), d.description, filename,
               DocumentFileType(filename), file.sizeBytes, None, None, d.tags, true, false, None, None,
               now, now, Some(adminId))
  }

  /** The row with the upload's `lounge_id` kept. */
  function NewDocument(id: int, file: File, filename: String, d: DocumentData, adminId: int, now: Time): KBDocument {
    NewDocumentAsWritten(id, file, filename, d, adminId, now).(loungeId := d.loungeId)
  }

  /** A document uploaded for a lounge ends up global as written; the
      corrected row belongs to the lounge and is listed there without
      `include_global`. */
  lemma UploadedDocumentLosesLounge(id: int, file: File, filename: String, d: DocumentData, adminId: int, now: Time)
    requires d.loungeId.Some?
    ensures NewDocumentAsWritten(id, file, filename, d, adminId, now).loungeId != d.loungeId
    ensures !InScope(NewDocumentAsWritten(id, file, filename, d, adminId, now).loungeId, d.loungeId, false)
    ensures InScope(NewDocument(id, file, filename, d, adminId, now).loungeId, d.loungeId, false)
  {
  }

  // ---------------------------------------------------------------------
  // Document processing
  // ---------------------------------------------------------------------

  /** `ai_service.summarize_text`, None when it raises. */
  type Summarizer = String -> Option<String>

  /** `ai_service.create_embeddings_batch`, None when it raises. */
  type BatchEmbedder = seq<String> -> Option<seq<Embedding>>

  const NoTextError: String := "Could not extract text from document"
  const SummaryMinLength: nat := 500
  const SummaryInputLength: nat := 10000

  /** The summary after processing: regenerated from the first 10000
      characters of a text longer than 500, kept when that fails. */
  function NewSummary(current: Option<String>, text: String, summarize: Summarizer): Option<String> {
    if |text| > SummaryMinLength && summarize(Take(text, SummaryInputLength)).Some? then
      summarize(Take(text, SummaryInputLength))
    else current
  }

  /** `_generate_chunk_embeddings`: one batch call over the chunk texts (none
      when there are no chunks); `zip` pairs as many as both lists have. */
  function ChunkEmbeddings(texts: seq<String>, embedBatch: BatchEmbedder): Option<seq<Embedding>> {
    if texts == [] then None else embedBatch(texts)
  }

  function ChunkEmbedding(es: Option<seq<Embedding>>, k: nat): Option<Embedding> {
    if es.Some? && k < |es.value| then Some(es.value[k]) else None
  }

  /** The chunk rows of a document: in order, numbered from 0, with
      `token_count = len(text.split())`. */
  function ChunkRows(documentId: int, firstId: int, texts: seq<String>, es: Option<seq<Embedding>>, now: Time)
    : (rs: seq<KBDocumentChunk>)
    ensures |rs| == |texts|
    ensures forall k :: 0 <= k < |rs| ==>
      rs[k].documentId == documentId && rs[k].content == texts[k] && rs[k].chunkIndex == k &&
      rs[k].id == firstId + k && rs[k].embedding == ChunkEmbedding(es, k) &&
      rs[k].tokenCount == |SplitWs(texts[k])| && rs[k].createdAt == now
  {
    seq(|texts|, k requires 0 <= k < |texts| =>
      KBDocumentChunk(firstId + k, documentId, texts[k], k, |SplitWs(texts[k])|, ChunkEmbedding(es, k), now))
  }


  /** The row of a document whose text was extracted: text and summary
      stored, embedding refreshed, marked processed without error. */
  function ProcessedDocument(d: KBDocument, t: String, summarize: Summarizer, embed: Embedder): KBDocument {
    RefreshDocument(d.(extractedText := Some(t), summary := NewSummary(d.summary, t, summarize)), embed)
      .(isProcessed := true, processingError := None)
  }

  /** What `_process_document` leaves in the document row. `text` is what
      `_extract_text_from_document` returned (None when the file could not
      be read or parsed). */
  function ProcessedRow(d: KBDocument, text: Option<String>, summarize: Summarizer, embed: Embedder): (r: KBDocument)
    ensures r.id == d.id
  {
    if text.None? || text.value == [] then d.(processingError := Some(NoTextError))
    else ProcessedDocument(d, text.value, summarize, embed)
  }

  /** The chunk rows `_process_document` adds for the document. */
  ghost function NewChunkRows(documentId: int, text: Option<String>, firstId: int, embedBatch: BatchEmbedder, now: Time)
    : seq<KBDocumentChunk>
  {
    if text.None? || text.value == [] then []
    else
      var texts := Chunker.ChunkText(text.value);
      ChunkRows(documentId, firstId, texts, ChunkEmbeddings(texts, embedBatch), now)
  }

  const GetFileContent: String := "get_file_content"
  const DeleteFileByPath: String := "delete_file_by_path"

  /** The text `_extract_text_from_document` yields when the file service
      defines the methods `methods` and the stored file decodes to
      `decoded`. Its first call is `file_service.get_file_content`; when that
      method is missing, the outer `except` catches the AttributeError and
      None comes back. */
  function ExtractedText(methods: seq<String>, decoded: Option<String>): (r: Option<String>)
    ensures GetFileContent !in methods ==> r.None?
    ensures GetFileContent in methods ==> r == decoded
  {
    if GetFileContent !in methods then None else decoded
  }

  /** The stored objects after `delete_document` has removed the document
      whose file lived at `path`. The removal calls
      `file_service.delete_file_by_path`; a missing method, like a failing
      store (`s3Error`), is caught and logged, and the object stays. */
  function ObjectsAfterDocumentDelete(methods: seq<String>, objects: map<String, nat>, path: Option<String>,
                                      s3Error: Option<String>): (r: map<String, nat>)
    ensures DeleteFileByPath in methods && path.Some? && s3Error.None? ==>
              r.Keys == objects.Keys - {path.value} && forall k :: k in r ==> r[k] == objects[k]
    ensures DeleteFileByPath !in methods || path.None? || s3Error.Some? ==> r == objects
  {
    if DeleteFileByPath in methods && path.Some? && s3Error.None? then objects - {path.value} else objects
  }

  /** As written, `get_file_content` is not a file-service method, so every
      upload and reprocess ends with the "could not extract" error, no chunk
      and no embedding; with the method defined, processing sees the file's
      text. */
  lemma ProcessingFailsAsWritten(d: KBDocument, decoded: Option<String>, firstId: int, summarize: Summarizer,
                                 embed: Embedder, embedBatch: BatchEmbedder, now: Time)
    ensures GetFileContent !in FileService.Methods
    ensures ProcessedRow(d, ExtractedText(FileService.Methods, decoded), summarize, embed)
            == d.(processingError := Some(NoTextError))
    ensures NewChunkRows(d.id, ExtractedText(FileService.Methods, decoded), firstId, embedBatch, now) == []
    ensures ExtractedText(FileService.Methods + [GetFileContent], decoded) == decoded
  {
  }

  /** As written, `delete_file_by_path` is not a file-service method, so a
      deleted document's object is never removed from storage; with the
      method defined, it is. */
  lemma ObjectKeptAsWritten(objects: map<String, nat>, path: String)
    requires path in objects
    ensures DeleteFileByPath !in FileService.Methods
    ensures path in ObjectsAfterDocumentDelete(FileService.Methods, objects, Some(path), None)
    ensures path !in ObjectsAfterDocumentDelete(FileService.Methods + [DeleteFileByPath], objects, Some(path), None)
  {
  }

  /** Without text the error is recorded and nothing else changes; with
      text the document is stored, summarised, ready and error-free, and its
      chunks are the chunks of the text in order, each non-empty and within
      the chunk size, numbered from 0 under fresh keys. */
  lemma ProcessOutcome(d: KBDocument, text: Option<String>, firstId: int, summarize: Summarizer,
                       embed: Embedder, embedBatch: BatchEmbedder, now: Time)
    ensures var r := ProcessedRow(d, text, summarize, embed);
      var cs := NewChunkRows(d.id, text, firstId, embedBatch, now);
      (text.None? || text.value == [] ==> r == d.(processingError := Some(NoTextError)) && cs == []) &&
      (text.Some? && text.value != [] ==>
        r.title == d.title && r.fileId == d.fileId && r.loungeId == d.loungeId &&
        r.extractedText == text && r.isProcessed && r.processingError.None? &&
        r.summary == NewSummary(d.summary, text.value, summarize) &&
        |cs| == |Chunker.ChunkText(text.value)| &&
        forall k :: 0 <= k < |cs| ==> cs[k].content == Chunker.ChunkText(text.value)[k]) &&
      forall k :: 0 <= k < |cs| ==>
        cs[k].documentId == d.id && cs[k].chunkIndex == k && cs[k].id == firstId + k &&
        0 < |cs[k].content| <= Chunker.ChunkSize
  {
    if text.Some? && text.value != [] {
      var cs := Chunker.ChunkText(text.value);
      assert Chunker.ChunksFit(cs);
    }
  }

  /** The chunks of every document in the category (deleted along with it). */
  function CategoryDocumentIds(ds: seq<KBDocument>, categoryId: int): set<int> {
    set d | d in ds && d.categoryId == Some(categoryId) :: d.id
  }

  /** The chunks left after the documents with the given ids are deleted. */
  function DeleteChunksOf(cs: seq<KBDocumentChunk>, ids: set<int>): (out: seq<KBDocumentChunk>)
    ensures forall c :: c in out <==> c in cs && c.documentId !in ids
  {
    Filter(cs, (c: KBDocumentChunk) => c.documentId !in ids)
  }

  /** The position of the file row with the id, if any. */
  function FileRow(fs: seq<File>, fileId: int): (r: Option<nat>)
    ensures r.Some? ==> r.value < |fs| && fs[r.value].id == fileId
    ensures r.None? ==> forall f :: f in fs ==> f.id != fileId
  {
    FindFirst(fs, (f: File) => f.id == fileId)
  }

  /** `get_stats` */
  datatype Stats = Stats(
    totalCategories: nat, totalPrompts: nat, totalDocuments: nat, totalFaqs: nat,
    promptsWithEmbeddings: nat, documentsWithEmbeddings: nat, faqsWithEmbeddings: nat,
    totalDocumentChunks: nat, unprocessedDocuments: nat)

  /** `regenerate_all_embeddings`' counters */
  datatype RegenerateCounts = RegenerateCounts(prompts: nat, documents: nat, faqs: nat)

  /** `if not entity_type or entity_type == kind` */
  predicate Selects(entityType: Option<String>, kind: String) {
    entityType.None? || entityType.value == "" || entityType.value == kind
  }

  predicate IsRagPrompt(p: KBPrompt) { p.isIncludedInRag }
  predicate IsRagFaq(q: KBFaq) { q.isIncludedInRag }
  predicate IsProcessedDocument(d: KBDocument) { d.isProcessed }

  // ---------------------------------------------------------------------
  // Re-embedding
  // ---------------------------------------------------------------------

  predicate OfDocument(c: KBDocumentChunk, documentId: int) { c.documentId == documentId }

  /** The contents of the document's chunks, in table order: the texts
      `_generate_chunk_embeddings` sends in one batch. */
  function DocumentChunkTexts(cs: seq<KBDocumentChunk>, documentId: int): (ts: seq<String>)
    ensures |ts| == Count(cs, (c: KBDocumentChunk) => OfDocument(c, documentId))
  {
    if cs == [] then []
    else (if OfDocument(cs[0], documentId) then [cs[0].content] else []) + DocumentChunkTexts(cs[1..], documentId)
  }

  /** How many of the document's chunks come before position `j`. */
  function Rank(cs: seq<KBDocumentChunk>, documentId: int, j: nat): nat
    requires j <= |cs|
  {
    Count(cs[..j], (c: KBDocumentChunk) => OfDocument(c, documentId))
  }

  /** The `zip(chunks, embeddings)` loop: the document's r-th chunk takes
      the r-th embedding when there is one; nothing else changes. */
  function EmbedDocumentChunks(cs: seq<KBDocumentChunk>, documentId: int, es: Option<seq<Embedding>>)
    : (out: seq<KBDocumentChunk>)
    ensures |out| == |cs|
    ensures forall j :: 0 <= j < |cs| ==> out[j] == cs[j].(embedding := out[j].embedding)
    ensures forall j :: 0 <= j < |cs| && !OfDocument(cs[j], documentId) ==> out[j] == cs[j]
    ensures forall j :: 0 <= j < |cs| && OfDocument(cs[j], documentId) ==>
      out[j].embedding == PickOpt(ChunkEmbedding(es, Rank(cs, documentId, j)), cs[j].embedding)
  {
    seq(|cs|, j requires 0 <= j < |cs| =>
      if OfDocument(cs[j], documentId) then
        cs[j].(embedding := PickOpt(ChunkEmbedding(es, Rank(cs, documentId, j)), cs[j].embedding))
      else cs[j])
  }

  /** A chunk of the document has fewer predecessors of the document than
      the document has chunks. */
  lemma {:induction false} RankBelowCount(cs: seq<KBDocumentChunk>, documentId: int, j: nat)
    requires j < |cs| && OfDocument(cs[j], documentId)
    ensures Rank(cs, documentId, j) < Count(cs, (c: KBDocumentChunk) => OfDocument(c, documentId))
  {
    var p := (c: KBDocumentChunk) => OfDocument(c, documentId);
    assert cs[..j + 1] == cs[..j] + [cs[j]];
    CountSnoc(cs[..j], cs[j], p);
    CountPrefix(cs, j + 1, p);
  }

  lemma {:induction false} CountPrefix<T>(s: seq<T>, n: nat, p: T -> bool)
    requires n <= |s|
    ensures Count(s[..n], p) <= Count(s, p)
    decreases |s| - n
  {
    if n == |s| {
      assert s[..n] == s;
    } else {
      CountPrefix(s, n + 1, p);
      assert s[..n + 1] == s[..n] + [s[n]];
      CountSnoc(s[..n], s[n], p);
    }
  }

  /** When the batch call returns one embedding per text, every chunk of
      the document ends up with an embedding. */
  lemma BatchEmbedsEveryChunk(cs: seq<KBDocumentChunk>, documentId: int, embedBatch: BatchEmbedder)
    requires var ts := DocumentChunkTexts(cs, documentId);
      ts != [] && embedBatch(ts).Some? && |embedBatch(ts).value| == |ts|
    ensures var out := EmbedDocumentChunks(cs, documentId, ChunkEmbeddings(DocumentChunkTexts(cs, documentId), embedBatch));
      forall j :: 0 <= j < |cs| && OfDocument(cs[j], documentId) ==> out[j].embedding.Some?
  {
    forall j | 0 <= j < |cs| && OfDocument(cs[j], documentId) {
      RankBelowCount(cs, documentId, j);
    }
  }

  /** Re-embedding one document's chunks keeps every chunk's text, so the
      texts of any document are what they were. */
  lemma EmbeddingKeepsTexts(cs: seq<KBDocumentChunk>, documentId: int, es: Option<seq<Embedding>>, other: int)
    ensures DocumentChunkTexts(EmbedDocumentChunks(cs, documentId, es), other) == DocumentChunkTexts(cs, other)
  {
    var out := EmbedDocumentChunks(cs, documentId, es);
    FilterContents(cs, out, other);
  }

  lemma {:induction false} FilterContents(cs: seq<KBDocumentChunk>, out: seq<KBDocumentChunk>, other: int)
    requires |out| == |cs|
    requires forall j :: 0 <= j < |cs| ==> out[j] == cs[j].(embedding := out[j].embedding)
    ensures DocumentChunkTexts(out, other) == DocumentChunkTexts(cs, other)
  {
    if cs != [] {
      assert out[0] == cs[0].(embedding := out[0].embedding);
      FilterContents(cs[1..], out[1..], other);
    }
  }

  /** Rows whose keys were each kept stay below a bound the old rows were below. */
  lemma KeysKept<T>(a: seq<T>, b: seq<T>, key: T -> int, n: int)
    requires |a| == |b| && forall j :: 0 <= j < |a| ==> key(b[j]) == key(a[j])
    requires forall x :: x in a ==> key(x) < n
    ensures forall x :: x in b ==> key(x) < n
  {
    forall x | x in b ensures key(x) < n {
      var t :| 0 <= t < |b| && b[t] == x;
      assert a[t] in a;
    }
  }

  /** `regenerate_all_embeddings` on prompts (and alike on FAQs): the RAG
      rows are re-embedded, the others left alone. */
  function RegeneratedPrompts(ps: seq<KBPrompt>, embed: Embedder): (out: seq<KBPrompt>)
    ensures |out| == |ps|
    ensures forall j :: 0 <= j < |ps| ==> out[j] == if IsRagPrompt(ps[j]) then RefreshPrompt(ps[j], embed) else ps[j]
  {
    seq(|ps|, j requires 0 <= j < |ps| => if IsRagPrompt(ps[j]) then RefreshPrompt(ps[j], embed) else ps[j])
  }

  function RegeneratedFaqs(qs: seq<KBFaq>, embed: Embedder): (out: seq<KBFaq>)
    ensures |out| == |qs|
    ensures forall j :: 0 <= j < |qs| ==> out[j] == if IsRagFaq(qs[j]) then RefreshFaq(qs[j], embed) else qs[j]
  {
    seq(|qs|, j requires 0 <= j < |qs| => if IsRagFaq(qs[j]) then RefreshFaq(qs[j], embed) else qs[j])
  }

  function RegeneratedDocuments(ds: seq<KBDocument>, embed: Embedder): (out: seq<KBDocument>)
    ensures |out| == |ds|
    ensures forall j :: 0 <= j < |ds| ==> out[j] == if IsProcessedDocument(ds[j]) then RefreshDocument(ds[j], embed) else ds[j]
  {
    seq(|ds|, j requires 0 <= j < |ds| => if IsProcessedDocument(ds[j]) then RefreshDocument(ds[j], embed) else ds[j])
  }

  /** The chunk table after the processed documents among `ds` have had
      their chunks re-embedded, one document after the other. */
  function RegeneratedChunks(cs: seq<KBDocumentChunk>, ds: seq<KBDocument>, embedBatch: BatchEmbedder)
    : seq<KBDocumentChunk>
  {
    if ds == [] then cs
    else
      var prev := RegeneratedChunks(cs, ds[..|ds| - 1], embedBatch);
      var d := ds[|ds| - 1];
      if IsProcessedDocument(d) then
        EmbedDocumentChunks(prev, d.id, ChunkEmbeddings(DocumentChunkTexts(prev, d.id), embedBatch))
      else prev
  }

  /** The loop body of `_process_document` that makes the chunk rows. */
  method BuildChunkRows(documentId: int, firstId: int, texts: seq<String>, es: Option<seq<Embedding>>, now: Time)
    returns (rows: seq<KBDocumentChunk>)
    ensures rows == ChunkRows(documentId, firstId, texts, es, now)
  {
    ghost var target := ChunkRows(documentId, firstId, texts, es, now);
    rows := [];
    var k := 0;
    while k < |texts|
      invariant 0 <= k <= |texts|
      invariant rows == target[..k]
    {
      assert target[..k + 1] == target[..k] + [target[k]];
      rows := rows + [KBDocumentChunk(firstId + k, documentId, texts[k], k, |SplitWs(texts[k])|, ChunkEmbedding(es, k), now)];
      k := k + 1;
    }
    assert target[..k] == target;
  }

  /** Re-embedding changes only the chunks' embeddings. */
  lemma {:induction false} RegeneratedChunksKeepRows(cs: seq<KBDocumentChunk>, ds: seq<KBDocument>, embedBatch: BatchEmbedder)
    ensures var out := RegeneratedChunks(cs, ds, embedBatch);
      |out| == |cs| && forall j :: 0 <= j < |cs| ==> out[j] == cs[j].(embedding := out[j].embedding)
  {
    if ds != [] {
      RegeneratedChunksKeepRows(cs, ds[..|ds| - 1], embedBatch);
    }
  }

  /** One more document in the fold. */
  lemma RegeneratedChunksStep(cs: seq<KBDocumentChunk>, ds: seq<KBDocument>, k: nat, embedBatch: BatchEmbedder)
    requires k < |ds|
    ensures var prev := RegeneratedChunks(cs, ds[..k], embedBatch);
      RegeneratedChunks(cs, ds[..k + 1], embedBatch) ==
        if IsProcessedDocument(ds[k]) then
          EmbedDocumentChunks(prev, ds[k].id, ChunkEmbeddings(DocumentChunkTexts(prev, ds[k].id), embedBatch))
        else prev
  {
    assert ds[..k + 1][..k] == ds[..k];
  }

  /** `_generate_chunk_embeddings`: one batch call over the document's
      chunk texts, then the `zip` loop over its chunks in table order. */
  method EmbedChunks(cs: seq<KBDocumentChunk>, documentId: int, embedBatch: BatchEmbedder)
    returns (out: seq<KBDocumentChunk>)
    ensures out == EmbedDocumentChunks(cs, documentId, ChunkEmbeddings(DocumentChunkTexts(cs, documentId), embedBatch))
  {
    var es := ChunkEmbeddings(DocumentChunkTexts(cs, documentId), embedBatch);
    ghost var target := EmbedDocumentChunks(cs, documentId, es);
    out := cs;
    var j := 0;
    var rank := 0;
    while j < |cs|
      invariant 0 <= j <= |cs| == |out|
      invariant rank == Rank(cs, documentId, j)
      invariant forall t :: 0 <= t < j ==> out[t] == target[t]
      invariant forall t :: j <= t < |cs| ==> out[t] == cs[t]
    {
      assert cs[..j + 1] == cs[..j] + [cs[j]];
      CountSnoc(cs[..j], cs[j], (c: KBDocumentChunk) => OfDocument(c, documentId));
      if cs[j].documentId == documentId {
        var e := ChunkEmbedding(es, rank);
        if e.Some? {
          out := out[j := cs[j].(embedding := e)];
        }
        rank := rank + 1;
      }
      j := j + 1;
    }
  }

  /** The `for prompt in prompts` loop of `regenerate_all_embeddings`. */
  method RegeneratePromptRows(ps: seq<KBPrompt>, embed: Embedder) returns (out: seq<KBPrompt>, n: nat)
    ensures out == RegeneratedPrompts(ps, embed)
    ensures n == Count(ps, IsRagPrompt)
  {
    ghost var target := RegeneratedPrompts(ps, embed);
    out := ps;
    var k := 0;
    n := 0;
    while k < |ps|
      invariant 0 <= k <= |ps| == |out|
      invariant n == Count(ps[..k], IsRagPrompt)
      invariant forall t :: 0 <= t < k ==> out[t] == target[t]
      invariant forall t :: k <= t < |ps| ==> out[t] == ps[t]
    {
      assert ps[..k + 1] == ps[..k] + [ps[k]];
      CountSnoc(ps[..k], ps[k], IsRagPrompt);
      if ps[k].isIncludedInRag {
        out := out[k := RefreshPrompt(ps[k], embed)];
        n := n + 1;
      }
      assert out[k] == target[k];
      k := k + 1;
    }
    assert ps[..k] == ps;
    assert |out| == |target|;
  }

  /** The `for faq in faqs` loop of `regenerate_all_embeddings`. */
  method RegenerateFaqRows(qs: seq<KBFaq>, embed: Embedder) returns (out: seq<KBFaq>, n: nat)
    ensures out == RegeneratedFaqs(qs, embed)
    ensures n == Count(qs, IsRagFaq)
  {
    ghost var target := RegeneratedFaqs(qs, embed);
    out := qs;
    var k := 0;
    n := 0;
    while k < |qs|
      invariant 0 <= k <= |qs| == |out|
      invariant n == Count(qs[..k], IsRagFaq)
      invariant forall t :: 0 <= t < k ==> out[t] == target[t]
      invariant forall t :: k <= t < |qs| ==> out[t] == qs[t]
    {
      assert qs[..k + 1] == qs[..k] + [qs[k]];
      CountSnoc(qs[..k], qs[k], IsRagFaq);
      if qs[k].isIncludedInRag {
        out := out[k := RefreshFaq(qs[k], embed)];
        n := n + 1;
      }
      assert out[k] == target[k];
      k := k + 1;
    }
    assert qs[..k] == qs;
    assert |out| == |target|;
  }

  /** The body of the `for doc in documents` loop: a processed document's
      chunks and then the document are re-embedded. */
  method RegenerateDocument(d: KBDocument, cs: seq<KBDocumentChunk>, embed: Embedder, embedBatch: BatchEmbedder)
    returns (d2: KBDocument, cs2: seq<KBDocumentChunk>)
    ensures d2 == if IsProcessedDocument(d) then RefreshDocument(d, embed) else d
    ensures cs2 == if IsProcessedDocument(d) then
      EmbedDocumentChunks(cs, d.id, ChunkEmbeddings(DocumentChunkTexts(cs, d.id), embedBatch)) else cs
  {
    d2, cs2 := d, cs;
    if d.isProcessed {
      cs2 := EmbedChunks(cs, d.id, embedBatch);
      d2 := RefreshDocument(d, embed);
    }
  }

  /** The `for doc in documents` loop of `regenerate_all_embeddings`. */
  method RegenerateDocumentRows(ds: seq<KBDocument>, cs: seq<KBDocumentChunk>, embed: Embedder, embedBatch: BatchEmbedder)
    returns (outDs: seq<KBDocument>, outCs: seq<KBDocumentChunk>, n: nat)
    ensures outDs == RegeneratedDocuments(ds, embed)
    ensures outCs == RegeneratedChunks(cs, ds, embedBatch)
    ensures n == Count(ds, IsProcessedDocument)
  {
    ghost var target := RegeneratedDocuments(ds, embed);
    outDs, outCs := ds, cs;
    var k := 0;
    n := 0;
    while k < |ds|
      invariant 0 <= k <= |ds| == |outDs|
      invariant n == Count(ds[..k], IsProcessedDocument)
      invariant outCs == RegeneratedChunks(cs, ds[..k], embedBatch)
      invariant forall t :: 0 <= t < k ==> outDs[t] == target[t]
      invariant forall t :: k <= t < |ds| ==> outDs[t] == ds[t]
    {
      assert ds[..k + 1] == ds[..k] + [ds[k]];
      CountSnoc(ds[..k], ds[k], IsProcessedDocument);
      RegeneratedChunksStep(cs, ds, k, embedBatch);
      var d2, cs2 := RegenerateDocument(ds[k], outCs, embed, embedBatch);
      outDs, outCs := outDs[k := d2], cs2;
      if ds[k].isProcessed {
        n := n + 1;
      }
      k := k + 1;
    }
    assert ds[..k] == ds;
  }

  // ---------------------------------------------------------------------
  // Semantic search and the RAG context
  // ---------------------------------------------------------------------

  /** One search result: the dict each `_search_*` helper appends. */
  datatype SearchHit = SearchHit(
    entityType: String,
    entityId: int,
    title: String,
    preview: String,
    score: real,
    categoryName: Option<String>)

  /** `ai_service.find_most_similar(query_embedding, candidates, top_k)`: a
      list of (id, similarity) pairs. Cosine similarity is floating point and
      is not part of this model, so the ranking is a parameter. */
  type Ranker = (Embedding, seq<(int, Embedding)>, nat) -> seq<(int, real)>

  /** The filters the three sub-searches share. */
  datatype SearchFilter = SearchFilter(categoryIds: seq<int>, loungeId: Option<int>, includeGlobal: bool)

  /** `category_id.in_(category_ids)`, applied only for a non-empty list; a
      NULL category is in no list. */
  predicate InCategories(categoryId: Option<int>, ids: seq<int>) {
    ids == [] || (categoryId.Some? && categoryId.value in ids)
  }

  predicate SearchablePrompt(f: SearchFilter, p: KBPrompt) {
    p.isActive && p.embedding.Some? && InCategories(p.categoryId, f.categoryIds) &&
    InScope(p.loungeId, f.loungeId, f.includeGlobal)
  }

  predicate SearchableFaq(f: SearchFilter, q: KBFaq) {
    q.isActive && q.embedding.Some? && InCategories(q.categoryId, f.categoryIds) &&
    InScope(q.loungeId, f.loungeId, f.includeGlobal)
  }

  /** The document side of the chunk search's join. */
  predicate SearchableDocument(f: SearchFilter, d: KBDocument) {
    d.isActive && InCategories(d.categoryId, f.categoryIds) && InScope(d.loungeId, f.loungeId, f.includeGlobal)
  }

  /** `x.category.name if x.category else None`. */
  function CategoryName(cats: seq<KBCategory>, categoryId: Option<int>): (r: Option<String>)
    ensures r.Some? ==> categoryId.Some? && exists c :: c in cats && c.id == categoryId.value && c.name == r.value
    ensures r.None? ==> categoryId.None? || forall c :: c in cats ==> c.id != categoryId.value
  {
    if categoryId.None? then None
    else match FindFirst(cats, (c: KBCategory) => c.id == categoryId.value)
      case None => None
      case Some(i) => assert cats[i] in cats; Some(cats[i].name)
  }

  /** `[(x.id, x.embedding) for x in rows if x.embedding]`: an empty vector is
      false in Python and is left out like a missing one. */
  function Candidates(keys: seq<(int, Option<Embedding>)>): (cs: seq<(int, Embedding)>)
    ensures |cs| <= |keys|
    ensures forall k :: 0 <= k < |cs| ==> cs[k].1 != [] && (cs[k].0, Some(cs[k].1)) in keys
    ensures cs == [] <==> forall k :: 0 <= k < |keys| ==> keys[k].1.None? || keys[k].1 == Some([])
  {
    if keys == [] then []
    else
      var rest := Candidates(keys[1..]);
      assert forall x :: x in keys[1..] ==> x in keys;
      assert forall k :: 1 <= k < |keys| ==> keys[k] == keys[1..][k - 1];
      if keys[0].1.Some? && keys[0].1.value != [] then [(keys[0].0, keys[0].1.value)] + rest
      else rest
  }

  function PromptKeys(ps: seq<KBPrompt>): (ks: seq<(int, Option<Embedding>)>)
    ensures |ks| == |ps| && forall k :: 0 <= k < |ps| ==> ks[k] == (ps[k].id, ps[k].embedding)
  {
    seq(|ps|, k requires 0 <= k < |ps| => (ps[k].id, ps[k].embedding))
  }

  function FaqKeys(qs: seq<KBFaq>): (ks: seq<(int, Option<Embedding>)>)
    ensures |ks| == |qs| && forall k :: 0 <= k < |qs| ==> ks[k] == (qs[k].id, qs[k].embedding)
  {
    seq(|qs|, k requires 0 <= k < |qs| => (qs[k].id, qs[k].embedding))
  }

  function ChunkKeys(js: seq<(KBDocumentChunk, KBDocument)>): (ks: seq<(int, Option<Embedding>)>)
    ensures |ks| == |js| && forall k :: 0 <= k < |js| ==> ks[k] == (js[k].0.id, js[k].0.embedding)
  {
    seq(|js|, k requires 0 <= k < |js| => (js[k].0.id, js[k].0.embedding))
  }

  /** The result dict of `_search_prompts`. */
  function PromptHit(cats: seq<KBCategory>, p: KBPrompt, score: real): SearchHit {
    SearchHit("prompt", p.id, p.title, Take(p.content, 200), score, CategoryName(cats, p.categoryId))
  }

  /** The result dict of `_search_faqs`: the title is the question cut to 100
      characters. */
  function FaqHit(cats: seq<KBCategory>, q: KBFaq, score: real): SearchHit {
    SearchHit("faq", q.id, Take(q.question, 100), Take(q.answer, 200), score, CategoryName(cats, q.categoryId))
  }

  /** The result dict of `_search_documents`: the document's title, the
      matching chunk's text. */
  function DocumentHit(cats: seq<KBCategory>, c: KBDocumentChunk, d: KBDocument, score: real): SearchHit {
    SearchHit("document", d.id, d.title, Take(c.content, 200), score, CategoryName(cats, d.categoryId))
  }

  /** The `for id, score in similar` loop of `_search_prompts` and
      `_search_faqs`, over `similar[..n]`: each pair becomes the hit of the
      first row with that id (`next(...)`); an id with no row is skipped. */
  function Hits<T>(rows: seq<T>, idOf: T -> int, toHit: (T, real) -> SearchHit, similar: seq<(int, real)>): (hs: seq<SearchHit>)
    ensures |hs| <= |similar|
    decreases |similar|
  {
    if similar == [] then []
    else
      var prev := Hits(rows, idOf, toHit, similar[..|similar| - 1]);
      var pair := similar[|similar| - 1];
      match FindFirst(rows, (x: T) => idOf(x) == pair.0)
      case None => prev
      case Some(i) => prev + [toHit(rows[i], pair.1)]
  }

  /** Every hit is the hit of a row whose id the ranking returned, with the
      score the ranking gave it. */
  lemma {:induction false} HitsFromRanking<T>(rows: seq<T>, idOf: T -> int, toHit: (T, real) -> SearchHit,
                                              similar: seq<(int, real)>, k: nat)
    requires k < |Hits(rows, idOf, toHit, similar)|
    ensures exists i, j :: (0 <= i < |rows| && 0 <= j < |similar| && idOf(rows[i]) == similar[j].0 &&
                            Hits(rows, idOf, toHit, similar)[k] == toHit(rows[i], similar[j].1))
    decreases |similar|
  {
    var pre := similar[..|similar| - 1];
    var prev := Hits(rows, idOf, toHit, pre);
    var pair := similar[|similar| - 1];
    if k < |prev| {
      HitsFromRanking(rows, idOf, toHit, pre, k);
      var i, j :| 0 <= i < |rows| && 0 <= j < |pre| && idOf(rows[i]) == pre[j].0 &&
        prev[k] == toHit(rows[i], pre[j].1);
      assert pre[j] == similar[j];
    } else {
      var i := FindFirst(rows, (x: T) => idOf(x) == pair.0).value;
      assert idOf(rows[i]) == similar[|similar| - 1].0;
    }
  }

  /** Some row has this id. */
  ghost predicate HasRow<T>(rows: seq<T>, idOf: T -> int, id: int) {
    exists i :: 0 <= i < |rows| && idOf(rows[i]) == id
  }

  /** When every ranked id has a row, nothing is skipped and the hits keep the
      ranking's order and scores. */
  lemma {:induction false} HitsComplete<T>(rows: seq<T>, idOf: T -> int, toHit: (T, real) -> SearchHit,
                                           similar: seq<(int, real)>)
    requires forall x, s :: toHit(x, s).score == s
    requires forall j :: 0 <= j < |similar| ==> HasRow(rows, idOf, similar[j].0)
    ensures |Hits(rows, idOf, toHit, similar)| == |similar|
    ensures forall k :: 0 <= k < |similar| ==> Hits(rows, idOf, toHit, similar)[k].score == similar[k].1
    decreases |similar|
  {
    if similar != [] {
      var pre := similar[..|similar| - 1];
      assert forall j :: 0 <= j < |pre| ==> pre[j] == similar[j];
      HitsComplete(rows, idOf, toHit, pre);
      var pair := similar[|similar| - 1];
      assert HasRow(rows, idOf, pair.0);
      var i :| 0 <= i < |rows| && idOf(rows[i]) == pair.0;
      var p := (x: T) => idOf(x) == pair.0;
      assert p(rows[i]);
      var prev := Hits(rows, idOf, toHit, pre);
      var j := FindFirst(rows, p).value;
      assert Hits(rows, idOf, toHit, similar) == prev + [toHit(rows[j], pair.1)];
    }
  }

  /** The loop of `_search_prompts` / `_search_faqs`. */
  method CollectHits<T>(rows: seq<T>, idOf: T -> int, toHit: (T, real) -> SearchHit, similar: seq<(int, real)>)
    returns (hs: seq<SearchHit>)
    ensures hs == Hits(rows, idOf, toHit, similar)
  {
    hs := [];
    var k := 0;
    while k < |similar|
      invariant 0 <= k <= |similar|
      invariant hs == Hits(rows, idOf, toHit, similar[..k])
    {
      assert similar[..k + 1][..k] == similar[..k];
      var pair := similar[k];
      var found := FindFirst(rows, (x: T) => idOf(x) == pair.0);
      if found.Some? {
        hs := hs + [toHit(rows[found.value], pair.1)];
      }
      k := k + 1;
    }
    assert similar[..k] == similar;
  }

  /** `query(KBDocumentChunk).join(KBDocument)` with the filters: the chunks
      that have an embedding, in table order, each with its document. */
  function JoinedChunks(cs: seq<KBDocumentChunk>, ds: seq<KBDocument>, f: SearchFilter)
    : (js: seq<(KBDocumentChunk, KBDocument)>)
    ensures |js| <= |cs|
    ensures forall k :: 0 <= k < |js| ==>
      js[k].0 in cs && js[k].1 in ds && js[k].0.embedding.Some? &&
      js[k].1.id == js[k].0.documentId && SearchableDocument(f, js[k].1)
  {
    if cs == [] then []
    else
      var rest := JoinedChunks(cs[1..], ds, f);
      assert forall x :: x in cs[1..] ==> x in cs;
      match FindFirst(ds, (d: KBDocument) => d.id == cs[0].documentId)
      case None => rest
      case Some(i) =>
        if cs[0].embedding.Some? && SearchableDocument(f, ds[i]) then [(cs[0], ds[i])] + rest else rest
  }

  /** The entity ids already in a result list (`seen_docs`). */
  function HitIds(hs: seq<SearchHit>): set<int> {
    set k | 0 <= k < |hs| :: hs[k].entityId
  }

  /** The loop of `_search_documents` over `similar`: a chunk whose document
      already has a hit adds nothing. */
  function DocumentHits(js: seq<(KBDocumentChunk, KBDocument)>, cats: seq<KBCategory>, similar: seq<(int, real)>)
    : (hs: seq<SearchHit>)
    ensures |hs| <= |similar|
    decreases |similar|
  {
    if similar == [] then []
    else
      var prev := DocumentHits(js, cats, similar[..|similar| - 1]);
      var pair := similar[|similar| - 1];
      match FindFirst(js, (x: (KBDocumentChunk, KBDocument)) => x.0.id == pair.0)
      case None => prev
      case Some(i) =>
        if js[i].0.documentId in HitIds(prev) then prev
        else prev + [DocumentHit(cats, js[i].0, js[i].1, pair.1)]
  }

  /** A document appears at most once in the results, however many of its
      chunks match. */
  lemma {:induction false} DocumentHitsDistinct(js: seq<(KBDocumentChunk, KBDocument)>, cats: seq<KBCategory>,
                                                similar: seq<(int, real)>)
    requires forall k :: 0 <= k < |js| ==> js[k].1.id == js[k].0.documentId
    ensures forall a, b :: 0 <= a < b < |DocumentHits(js, cats, similar)| ==>
      DocumentHits(js, cats, similar)[a].entityId != DocumentHits(js, cats, similar)[b].entityId
    decreases |similar|
  {
    if similar != [] {
      var pre := similar[..|similar| - 1];
      DocumentHitsDistinct(js, cats, pre);
      var prev := DocumentHits(js, cats, pre);
      var hs := DocumentHits(js, cats, similar);
      if |hs| > |prev| {
        forall a | 0 <= a < |prev| ensures prev[a].entityId in HitIds(prev) { }
      }
    }
  }

  /** Every document hit names a searchable document of the join, with its
      chunk's preview. */
  lemma {:induction false} DocumentHitsFromJoin(js: seq<(KBDocumentChunk, KBDocument)>, cats: seq<KBCategory>,
                                                similar: seq<(int, real)>, k: nat)
    requires k < |DocumentHits(js, cats, similar)|
    ensures exists i :: (0 <= i < |js| && DocumentHits(js, cats, similar)[k].entityId == js[i].1.id &&
                         DocumentHits(js, cats, similar)[k].preview == Take(js[i].0.content, 200))
    decreases |similar|
  {
    var pre := similar[..|similar| - 1];
    if k < |DocumentHits(js, cats, pre)| {
      DocumentHitsFromJoin(js, cats, pre, k);
    }
  }

  /** The loop of `_search_documents`, with its `seen_docs` set. */
  method CollectDocumentHits(js: seq<(KBDocumentChunk, KBDocument)>, cats: seq<KBCategory>, similar: seq<(int, real)>)
    returns (hs: seq<SearchHit>)
    ensures hs == DocumentHits(js, cats, similar)
  {
    hs := [];
    var seen: set<int> := {};
    var k := 0;
    while k < |similar|
      invariant 0 <= k <= |similar|
      invariant hs == DocumentHits(js, cats, similar[..k])
      invariant seen == HitIds(hs)
    {
      assert similar[..k + 1][..k] == similar[..k];
      var pair := similar[k];
      var found := FindFirst(js, (x: (KBDocumentChunk, KBDocument)) => x.0.id == pair.0);
      if found.Some? && js[found.value].0.documentId !in seen {
        var j := js[found.value];
        ghost var old_hs := hs;
        hs := hs + [DocumentHit(cats, j.0, j.1, pair.1)];
        assert HitIds(hs) == HitIds(old_hs) + {j.1.id} by {
          assert forall t :: 0 <= t < |old_hs| ==> hs[t] == old_hs[t];
          assert hs[|old_hs|].entityId == j.1.id;
        }
        seen := seen + {j.1.id};
      }
      k := k + 1;
    }
    assert similar[..k] == similar;
  }

  /** `_search_prompts`: the searchable prompts, their non-empty vectors as
      candidates (none means no results), then the ranked hits. */
  function PromptSearch(ps: seq<KBPrompt>, cats: seq<KBCategory>, f: SearchFilter, qe: Embedding,
                        rank: Ranker, limit: nat): seq<SearchHit>
  {
    var rows := Filter(ps, (p: KBPrompt) => SearchablePrompt(f, p));
    var cands := Candidates(PromptKeys(rows));
    if cands == [] then []
    else Hits(rows, (p: KBPrompt) => p.id, (p: KBPrompt, s: real) => PromptHit(cats, p, s), rank(qe, cands, limit))
  }

  /** `_search_faqs`, alike. */
  function FaqSearch(qs: seq<KBFaq>, cats: seq<KBCategory>, f: SearchFilter, qe: Embedding,
                     rank: Ranker, limit: nat): seq<SearchHit>
  {
    var rows := Filter(qs, (q: KBFaq) => SearchableFaq(f, q));
    var cands := Candidates(FaqKeys(rows));
    if cands == [] then []
    else Hits(rows, (q: KBFaq) => q.id, (q: KBFaq, s: real) => FaqHit(cats, q, s), rank(qe, cands, limit))
  }

  /** `_search_documents`: the ranking is over chunks, the hits are documents. */
  function DocumentSearch(ds: seq<KBDocument>, cs: seq<KBDocumentChunk>, cats: seq<KBCategory>, f: SearchFilter,
                          qe: Embedding, rank: Ranker, limit: nat): seq<SearchHit>
  {
    var js := JoinedChunks(cs, ds, f);
    var cands := Candidates(ChunkKeys(js));
    if cands == [] then [] else DocumentHits(js, cats, rank(qe, cands, limit))
  }

  /** A prompt hit names an active, in-scope prompt with a vector, by its id
      and title, with its category's name. */
  lemma PromptSearchSound(ps: seq<KBPrompt>, cats: seq<KBCategory>, f: SearchFilter, qe: Embedding,
                          rank: Ranker, limit: nat, k: nat)
    requires k < |PromptSearch(ps, cats, f, qe, rank, limit)|
    ensures PromptSearch(ps, cats, f, qe, rank, limit)[k].entityType == "prompt"
    ensures exists p :: (p in ps && SearchablePrompt(f, p) && p.id == PromptSearch(ps, cats, f, qe, rank, limit)[k].entityId &&
                         PromptSearch(ps, cats, f, qe, rank, limit)[k].title == p.title &&
                         PromptSearch(ps, cats, f, qe, rank, limit)[k].categoryName == CategoryName(cats, p.categoryId))
  {
    var rows := Filter(ps, (p: KBPrompt) => SearchablePrompt(f, p));
    var cands := Candidates(PromptKeys(rows));
    var similar := rank(qe, cands, limit);
    HitsFromRanking(rows, (p: KBPrompt) => p.id, (p: KBPrompt, s: real) => PromptHit(cats, p, s), similar, k);
    var i, j :| 0 <= i < |rows| && 0 <= j < |similar| &&
      Hits(rows, (p: KBPrompt) => p.id, (p: KBPrompt, s: real) => PromptHit(cats, p, s), similar)[k] == PromptHit(cats, rows[i], similar[j].1);
    assert rows[i] in ps;
  }

  /** A FAQ hit names an active, in-scope FAQ with a vector; its title is the
      question cut to 100 characters. */
  lemma FaqSearchSound(qs: seq<KBFaq>, cats: seq<KBCategory>, f: SearchFilter, qe: Embedding,
                       rank: Ranker, limit: nat, k: nat)
    requires k < |FaqSearch(qs, cats, f, qe, rank, limit)|
    ensures FaqSearch(qs, cats, f, qe, rank, limit)[k].entityType == "faq"
    ensures exists q :: (q in qs && SearchableFaq(f, q) && q.id == FaqSearch(qs, cats, f, qe, rank, limit)[k].entityId &&
                         FaqSearch(qs, cats, f, qe, rank, limit)[k].title == Take(q.question, 100))
  {
    var rows := Filter(qs, (q: KBFaq) => SearchableFaq(f, q));
    var cands := Candidates(FaqKeys(rows));
    var similar := rank(qe, cands, limit);
    HitsFromRanking(rows, (q: KBFaq) => q.id, (q: KBFaq, s: real) => FaqHit(cats, q, s), similar, k);
    var i, j :| 0 <= i < |rows| && 0 <= j < |similar| &&
      Hits(rows, (q: KBFaq) => q.id, (q: KBFaq, s: real) => FaqHit(cats, q, s), similar)[k] == FaqHit(cats, rows[i], similar[j].1);
    assert rows[i] in qs;
  }

  /** A document hit names an active, in-scope document, and no document is
      listed twice. */
  lemma DocumentSearchSound(ds: seq<KBDocument>, cs: seq<KBDocumentChunk>, cats: seq<KBCategory>, f: SearchFilter,
                            qe: Embedding, rank: Ranker, limit: nat)
    ensures forall k :: 0 <= k < |DocumentSearch(ds, cs, cats, f, qe, rank, limit)| ==>
      exists d :: d in ds && SearchableDocument(f, d) && d.id == DocumentSearch(ds, cs, cats, f, qe, rank, limit)[k].entityId
    ensures forall a, b :: 0 <= a < b < |DocumentSearch(ds, cs, cats, f, qe, rank, limit)| ==>
      DocumentSearch(ds, cs, cats, f, qe, rank, limit)[a].entityId != DocumentSearch(ds, cs, cats, f, qe, rank, limit)[b].entityId
  {
    var js := JoinedChunks(cs, ds, f);
    var cands := Candidates(ChunkKeys(js));
    if cands != [] {
      var similar := rank(qe, cands, limit);
      var hs := DocumentHits(js, cats, similar);
      assert DocumentSearch(ds, cs, cats, f, qe, rank, limit) == hs;
      DocumentHitsDistinct(js, cats, similar);
      forall k | 0 <= k < |hs|
        ensures exists d :: d in ds && SearchableDocument(f, d) && d.id == hs[k].entityId
      {
        DocumentHitsFromJoin(js, cats, similar, k);
        var i :| 0 <= i < |js| && hs[k].entityId == js[i].1.id;
        var d := js[i].1;
        assert d in ds && SearchableDocument(f, d) && d.id == hs[k].entityId;
      }
    }
  }

  method SearchPrompts(ps: seq<KBPrompt>, cats: seq<KBCategory>, f: SearchFilter, qe: Embedding,
                       rank: Ranker, limit: nat) returns (hs: seq<SearchHit>)
    ensures hs == PromptSearch(ps, cats, f, qe, rank, limit)
  {
    var rows := Filter(ps, (p: KBPrompt) => SearchablePrompt(f, p));
    var cands := Candidates(PromptKeys(rows));
    if cands == [] {
      return [];
    }
    hs := CollectHits(rows, (p: KBPrompt) => p.id, (p: KBPrompt, s: real) => PromptHit(cats, p, s), rank(qe, cands, limit));
  }

  method SearchFaqs(qs: seq<KBFaq>, cats: seq<KBCategory>, f: SearchFilter, qe: Embedding,
                    rank: Ranker, limit: nat) returns (hs: seq<SearchHit>)
    ensures hs == FaqSearch(qs, cats, f, qe, rank, limit)
  {
    var rows := Filter(qs, (q: KBFaq) => SearchableFaq(f, q));
    var cands := Candidates(FaqKeys(rows));
    if cands == [] {
      return [];
    }
    hs := CollectHits(rows, (q: KBFaq) => q.id, (q: KBFaq, s: real) => FaqHit(cats, q, s), rank(qe, cands, limit));
  }

  method SearchDocuments(ds: seq<KBDocument>, cs: seq<KBDocumentChunk>, cats: seq<KBCategory>, f: SearchFilter,
                         qe: Embedding, rank: Ranker, limit: nat) returns (hs: seq<SearchHit>)
    ensures hs == DocumentSearch(ds, cs, cats, f, qe, rank, limit)
  {
    var js := JoinedChunks(cs, ds, f);
    var cands := Candidates(ChunkKeys(js));
    if cands == [] {
      return [];
    }
    hs := CollectDocumentHits(js, cats, rank(qe, cands, limit));
  }

  /** Results in order of descending score. */
  ghost predicate ScoreSorted(hs: seq<SearchHit>) {
    forall a, b :: 0 <= a < b < |hs| ==> hs[a].score >= hs[b].score
  }

  /** A result that scores at least as high as every result of `hs` does so for
      any rearrangement of `hs` with one lower-scoring result added. */
  lemma HeadDominates(top: SearchHit, tail: seq<SearchHit>, rest: seq<SearchHit>)
    requires forall k :: 0 <= k < |tail| ==> top.score >= tail[k].score
    requires forall x :: x in multiset(rest) ==> x in multiset(tail) || top.score >= x.score
    ensures forall k :: 0 <= k < |rest| ==> top.score >= rest[k].score
  {
    forall k | 0 <= k < |rest| ensures top.score >= rest[k].score {
      assert rest[k] in multiset(rest);
      if rest[k] in multiset(tail) {
        var m :| 0 <= m < |tail| && tail[m] == rest[k];
      }
    }
  }

  /** Inserts `h` before the first result it does not score below. */
  function InsertByScore(h: SearchHit, hs: seq<SearchHit>): (r: seq<SearchHit>)
    requires ScoreSorted(hs)
    ensures ScoreSorted(r)
    ensures multiset(r) == multiset(hs) + multiset{h}
    ensures |r| == |hs| + 1
  {
    if hs == [] then [h]
    else if h.score >= hs[0].score then [h] + hs
    else
      var rest := InsertByScore(h, hs[1..]);
      assert hs == [hs[0]] + hs[1..];
      HeadDominates(hs[0], hs[1..], rest);
      [hs[0]] + rest
  }

  /** `results.sort(key=score, reverse=True)`: sorted and a permutation; an
      earlier result stays ahead of a later one with the same score. */
  function SortByScore(hs: seq<SearchHit>): (r: seq<SearchHit>)
    ensures ScoreSorted(r)
    ensures multiset(r) == multiset(hs)
    ensures |r| == |hs|
  {
    if hs == [] then []
    else
      assert hs == [hs[0]] + hs[1..];
      InsertByScore(hs[0], SortByScore(hs[1..]))
  }

  lemma ScoreSortedTail(hs: seq<SearchHit>)
    requires hs != [] && ScoreSorted(hs)
    ensures ScoreSorted(hs[1..])
  {
    var tail := hs[1..];
    forall a, b | 0 <= a < b < |tail| ensures tail[a].score >= tail[b].score {
      assert tail[a] == hs[a + 1] && tail[b] == hs[b + 1];
    }
  }

  /** The results scoring exactly `x`, in their order. */
  function WithScore(hs: seq<SearchHit>, x: real): (r: seq<SearchHit>)
    ensures |r| <= |hs|
  {
    if hs == [] then [] else (if hs[0].score == x then [hs[0]] else []) + WithScore(hs[1..], x)
  }

  lemma {:induction false} InsertWithScore(h: SearchHit, hs: seq<SearchHit>, x: real)
    requires ScoreSorted(hs)
    ensures WithScore(InsertByScore(h, hs), x) == (if h.score == x then [h] else []) + WithScore(hs, x)
    decreases |hs|
  {
    var r := InsertByScore(h, hs);
    if hs == [] {
    } else if h.score >= hs[0].score {
      assert r == [h] + hs;
      assert r[0] == h && r[1..] == hs;
    } else {
      ScoreSortedTail(hs);
      var rest := InsertByScore(h, hs[1..]);
      assert r == [hs[0]] + rest;
      InsertWithScore(h, hs[1..], x);
      InsertWithScoreStep(h, hs, x, rest);
    }
  }

  /** A result scoring above `h` goes ahead of it, whatever `x` is. */
  lemma InsertWithScoreStep(h: SearchHit, hs: seq<SearchHit>, x: real, rest: seq<SearchHit>)
    requires hs != [] && h.score < hs[0].score
    requires WithScore(rest, x) == (if h.score == x then [h] else []) + WithScore(hs[1..], x)
    ensures WithScore([hs[0]] + rest, x) == (if h.score == x then [h] else []) + WithScore(hs, x)
  {
    var mine: seq<SearchHit> := if h.score == x then [h] else [];
    var head: seq<SearchHit> := if hs[0].score == x then [hs[0]] else [];
    assert ([hs[0]] + rest)[1..] == rest;
    assert head == [] || mine == [];
    calc {
      WithScore([hs[0]] + rest, x);
      head + WithScore(rest, x);
      head + (mine + WithScore(hs[1..], x));
      mine + (head + WithScore(hs[1..], x));
      mine + WithScore(hs, x);
    }
  }

  /** The sort is stable: the results with any one score keep their input
      order, as Python's `list.sort` keeps it. */
  lemma {:induction false} SortByScoreStable(hs: seq<SearchHit>, x: real)
    ensures WithScore(SortByScore(hs), x) == WithScore(hs, x)
    decreases |hs|
  {
    if hs != [] {
      SortByScoreStable(hs[1..], x);
      InsertWithScore(hs[0], SortByScore(hs[1..]), x);
    }
  }

  /** `not entity_types or name in entity_types`. */
  predicate Wants(types: seq<String>, name: String) {
    types == [] || name in types
  }

  /** The sub-searches' results, extended in the order prompts, documents, FAQs. */
  function MergedHits(ps: seq<KBPrompt>, ds: seq<KBDocument>, cs: seq<KBDocumentChunk>, qs: seq<KBFaq>,
                      cats: seq<KBCategory>, types: seq<String>, f: SearchFilter, qe: Embedding,
                      rank: Ranker, limit: nat): seq<SearchHit>
  {
    (if Wants(types, "prompts") then PromptSearch(ps, cats, f, qe, rank, limit) else []) +
    (if Wants(types, "documents") then DocumentSearch(ds, cs, cats, f, qe, rank, limit) else []) +
    (if Wants(types, "faqs") then FaqSearch(qs, cats, f, qe, rank, limit) else [])
  }

  /** `semantic_search` after the query is embedded: the best `limit` merged
      results, best first. */
  function SearchResults(ps: seq<KBPrompt>, ds: seq<KBDocument>, cs: seq<KBDocumentChunk>, qs: seq<KBFaq>,
                         cats: seq<KBCategory>, types: seq<String>, f: SearchFilter, qe: Embedding,
                         rank: Ranker, limit: nat): seq<SearchHit>
  {
    Take(SortByScore(MergedHits(ps, ds, cs, qs, cats, types, f, qe, rank, limit)), limit)
  }

  /** The body of `semantic_search` once the query is embedded. */
  method Search(ps: seq<KBPrompt>, ds: seq<KBDocument>, cs: seq<KBDocumentChunk>, qs: seq<KBFaq>,
                cats: seq<KBCategory>, types: seq<String>, f: SearchFilter, qe: Embedding,
                rank: Ranker, limit: nat) returns (r: seq<SearchHit>)
    ensures r == SearchResults(ps, ds, cs, qs, cats, types, f, qe, rank, limit)
  {
    var fromPrompts: seq<SearchHit> := [];
    if Wants(types, "prompts") {
      fromPrompts := SearchPrompts(ps, cats, f, qe, rank, limit);
    }
    var fromDocuments: seq<SearchHit> := [];
    if Wants(types, "documents") {
      fromDocuments := SearchDocuments(ds, cs, cats, f, qe, rank, limit);
    }
    var fromFaqs: seq<SearchHit> := [];
    if Wants(types, "faqs") {
      fromFaqs := SearchFaqs(qs, cats, f, qe, rank, limit);
    }
    assert fromPrompts + fromDocuments + fromFaqs == MergedHits(ps, ds, cs, qs, cats, types, f, qe, rank, limit);
    r := Take(SortByScore(fromPrompts + fromDocuments + fromFaqs), limit);
  }

  /** The results are at most `limit`, best first, drawn from the merged hits,
      and no merged hit left out scores above the last one kept. */
  lemma SearchResultsTopK(ps: seq<KBPrompt>, ds: seq<KBDocument>, cs: seq<KBDocumentChunk>, qs: seq<KBFaq>,
                          cats: seq<KBCategory>, types: seq<String>, f: SearchFilter, qe: Embedding,
                          rank: Ranker, limit: nat)
    requires limit >= 1
    ensures |SearchResults(ps, ds, cs, qs, cats, types, f, qe, rank, limit)| ==
      Min(limit, |MergedHits(ps, ds, cs, qs, cats, types, f, qe, rank, limit)|)
    ensures ScoreSorted(SearchResults(ps, ds, cs, qs, cats, types, f, qe, rank, limit))
    ensures forall h :: h in SearchResults(ps, ds, cs, qs, cats, types, f, qe, rank, limit) ==>
      h in MergedHits(ps, ds, cs, qs, cats, types, f, qe, rank, limit)
    ensures forall h :: h in MergedHits(ps, ds, cs, qs, cats, types, f, qe, rank, limit) ==>
      h in SearchResults(ps, ds, cs, qs, cats, types, f, qe, rank, limit) ||
      (|SearchResults(ps, ds, cs, qs, cats, types, f, qe, rank, limit)| == limit &&
       h.score <= SearchResults(ps, ds, cs, qs, cats, types, f, qe, rank, limit)[limit - 1].score)
  {
    var merged := MergedHits(ps, ds, cs, qs, cats, types, f, qe, rank, limit);
    var sorted := SortByScore(merged);
    var r := SearchResults(ps, ds, cs, qs, cats, types, f, qe, rank, limit);
    forall h | h in r ensures h in merged {
      assert h in multiset(sorted);
    }
    forall h | h in merged
      ensures h in r || (|r| == limit && h.score <= r[limit - 1].score)
    {
      assert h in multiset(sorted);
      var m :| 0 <= m < |sorted| && sorted[m] == h;
      if m >= |r| {
        assert |r| == limit && limit >= 1;
        assert r[limit - 1] == sorted[limit - 1];
      }
    }
  }

  /** One entry of `sources` in `get_rag_context`. */
  datatype RagSource = RagSource(entityType: String, entityId: int, title: String)

  /** What `get_rag_context` returns: the context text and its sources. */
  datatype RagContext = RagContext(context: String, sources: seq<RagSource>)

  const RagSeparator: String := "\n\n---\n\n"
  const DefaultSimilarityThreshold: real := 0.7
  const DefaultRagItems: nat := 5

  /** `f"[{type.upper()}] {title}:\n{preview}"` */
  function RagPart(h: SearchHit): (s: String)
    ensures |s| > 0 && s[0] == '['
  {
    "[" + Upper(h.entityType) + "] " + h.title + ":\n" + h.preview
  }

  function RagSourceOf(h: SearchHit): RagSource {
    RagSource(h.entityType, h.entityId, h.title)
  }

  /** The results at or above the threshold, in result order. */
  function RagItems(results: seq<SearchHit>, threshold: real): seq<SearchHit> {
    Filter(results, (h: SearchHit) => h.score >= threshold)
  }

  function RagParts(hs: seq<SearchHit>): (ps: seq<String>)
    ensures |ps| == |hs| && forall k :: 0 <= k < |hs| ==> ps[k] == RagPart(hs[k])
  {
    seq(|hs|, k requires 0 <= k < |hs| => RagPart(hs[k]))
  }

  function RagSources(hs: seq<SearchHit>): (ss: seq<RagSource>)
    ensures |ss| == |hs| && forall k :: 0 <= k < |hs| ==> ss[k] == RagSourceOf(hs[k])
  {
    seq(|hs|, k requires 0 <= k < |hs| => RagSourceOf(hs[k]))
  }

  /** One more result adds its part and its source when it reaches the threshold. */
  lemma RagStep(results: seq<SearchHit>, threshold: real, k: nat)
    requires k < |results|
    ensures var before := RagItems(results[..k], threshold);
            RagItems(results[..k + 1], threshold) ==
              before + (if results[k].score >= threshold then [results[k]] else [])
    ensures RagParts(RagItems(results[..k + 1], threshold)) ==
              RagParts(RagItems(results[..k], threshold)) + (if results[k].score >= threshold then [RagPart(results[k])] else [])
    ensures RagSources(RagItems(results[..k + 1], threshold)) ==
              RagSources(RagItems(results[..k], threshold)) + (if results[k].score >= threshold then [RagSourceOf(results[k])] else [])
  {
    assert results[..k + 1] == results[..k] + [results[k]];
    FilterSnoc(results[..k], results[k], (h: SearchHit) => h.score >= threshold);
  }

  /** The loop of `get_rag_context` after the search. */
  method BuildRagContext(results: seq<SearchHit>, threshold: real) returns (rc: RagContext)
    ensures rc.context == Join(RagParts(RagItems(results, threshold)), RagSeparator)
    ensures rc.sources == RagSources(RagItems(results, threshold))
  {
    var parts: seq<String> := [];
    var sources: seq<RagSource> := [];
    var k := 0;
    while k < |results|
      invariant 0 <= k <= |results|
      invariant parts == RagParts(RagItems(results[..k], threshold))
      invariant sources == RagSources(RagItems(results[..k], threshold))
    {
      RagStep(results, threshold, k);
      if results[k].score >= threshold {
        parts := parts + [RagPart(results[k])];
        sources := sources + [RagSourceOf(results[k])];
      }
      k := k + 1;
    }
    assert results[..k] == results;
    rc := RagContext(Join(parts, RagSeparator), sources);
  }

  /** Every source is a result that reached the threshold, and every such
      result is a source. */
  lemma RagSourcesAreRelevant(results: seq<SearchHit>, threshold: real)
    ensures forall s :: s in RagSources(RagItems(results, threshold)) <==>
      exists h :: h in results && h.score >= threshold && s == RagSourceOf(h)
  {
    var items := RagItems(results, threshold);
    forall s | s in RagSources(items)
      ensures exists h :: h in results && h.score >= threshold && s == RagSourceOf(h)
    {
      var k :| 0 <= k < |items| && RagSources(items)[k] == s;
      assert items[k] in results;
    }
    forall s | exists h :: h in results && h.score >= threshold && s == RagSourceOf(h)
      ensures s in RagSources(items)
    {
      var h :| h in results && h.score >= threshold && s == RagSourceOf(h);
      var m :| 0 <= m < |items| && items[m] == h;
      assert RagSources(items)[m] == s;
    }
  }

  /** The context is empty exactly when no result reached the threshold (the
      chatbot then answers without knowledge-base context). */
  lemma RagContextEmptyIff(results: seq<SearchHit>, threshold: real)
    ensures Join(RagParts(RagItems(results, threshold)), RagSeparator) == [] <==>
      forall h :: h in results ==> h.score < threshold
  {
    var items := RagItems(results, threshold);
    if items != [] {
      var ps := RagParts(items);
      assert ps[0][0] == '[';
      if |ps| > 1 {
        assert Join(ps, RagSeparator) == ps[0] + RagSeparator + Join(ps[1..], RagSeparator);
      }
      assert items[0] in results;
    } else {
      forall h | h in results ensures h.score < threshold {
        var m :| 0 <= m < |results| && results[m] == h;
      }
    }
  }

  // ---------------------------------------------------------------------
  // The service over its tables
  // ---------------------------------------------------------------------

  class KnowledgeBase {
    var categories: seq<KBCategory>
    var prompts: seq<KBPrompt>
    var documents: seq<KBDocument>
    var chunks: seq<KBDocumentChunk>
    var faqs: seq<KBFaq>
    var files: seq<File>
    /** The next primary key (one sequence stands for the tables' own). */
    var nextId: int

    /** Every stored row has a key below `nextId`, and so does the document
        every chunk points at. */
    ghost predicate Valid()
      reads this
    {
      (forall c :: c in categories ==> c.id < nextId) &&
      (forall p :: p in prompts ==> p.id < nextId) &&
      (forall d :: d in documents ==> d.id < nextId) &&
      (forall c :: c in chunks ==> c.id < nextId && c.documentId < nextId) &&
      (forall q :: q in faqs ==> q.id < nextId)
    }

    constructor ()
      ensures Valid() && nextId == 1
      ensures categories == [] && prompts == [] && documents == [] && chunks == [] && faqs == [] && files == []
    {
      categories, prompts, documents, chunks, faqs, files := [], [], [], [], [], [];
      nextId := 1;
    }

    // -- categories ------------------------------------------------------

    /** `create_category` */
    method CreateCategory(d: CategoryData, now: Time) returns (c: KBCategory)
      requires Valid()
      modifies this
      ensures Valid()
      ensures c == NewCategory(old(nextId), d, now) && categories == old(categories) + [c]
      ensures forall x :: x in old(categories) ==> x.id != c.id
      ensures nextId == old(nextId) + 1
      ensures prompts == old(prompts) && documents == old(documents) && chunks == old(chunks)
      ensures faqs == old(faqs) && files == old(files)
    {
      c := NewCategory(nextId, d, now);
      categories := categories + [c];
      nextId := nextId + 1;
    }

    /** `get_categories`: the active (or all) categories in scope, by sort order. */
    function Categories(includeInactive: bool, loungeId: Option<int>, includeGlobal: bool): (r: seq<KBCategory>)
      reads this
      ensures forall c :: c in r <==>
        c in categories && (includeInactive || c.isActive) && InScope(c.loungeId, loungeId, includeGlobal)
      ensures SortedDesc(r, CategoryOrder)
    {
      var keep := (c: KBCategory) => (includeInactive || c.isActive) && InScope(c.loungeId, loungeId, includeGlobal);
      var m := Filter(categories, keep);
      var r := SortDesc(m, CategoryOrder);
      SortDescFacts(m, CategoryOrder);
      assert forall c :: c in r <==> c in m;
      r
    }

    /** `get_category`: the first row with the id. */
    function GetCategory(id: int): (r: Option<KBCategory>)
      reads this
      ensures r.Some? ==> r.value in categories && r.value.id == id
      ensures r.None? <==> forall c :: c in categories ==> c.id != id
    {
      match FindFirst(categories, (c: KBCategory) => c.id == id)
      case Some(i) => Some(categories[i])
      case None => None
    }

    /** `update_category`: None for a missing id; otherwise the row with the
        given keys set and nothing else changed. */
    method UpdateCategory(id: int, u: CategoryPatch) returns (r: Option<KBCategory>)
      requires Valid()
      modifies this
      ensures Valid()
      ensures r.None? <==> old(GetCategory(id)).None?
      ensures r.None? ==> categories == old(categories)
      ensures r.Some? ==> exists i :: (0 <= i < |old(categories)| && old(categories)[i].id == id &&
        r.value == ApplyCategoryPatch(old(categories)[i], u) && categories == old(categories)[i := r.value])
      ensures prompts == old(prompts) && documents == old(documents) && chunks == old(chunks)
      ensures faqs == old(faqs) && files == old(files) && nextId == old(nextId)
    {
      match FindFirst(categories, (c: KBCategory) => c.id == id)
      case None =>
        r := None;
      case Some(i) =>
        var c := ApplyCategoryPatch(categories[i], u);
        categories := categories[i := c];
        r := Some(c);
        assert forall x :: x in categories ==> x in old(categories) || x == c;
    }

    /** `delete_category`: False for a missing id; otherwise the category goes,
        and with it (ORM cascade) its prompts, documents, their chunks, and FAQs. */
    method DeleteCategory(id: int) returns (deleted: bool)
      requires Valid()
      modifies this
      ensures Valid()
      ensures deleted <==> old(GetCategory(id)).Some?
      ensures !deleted ==> (categories == old(categories) && prompts == old(prompts) &&
        documents == old(documents) && chunks == old(chunks) && faqs == old(faqs))
      ensures deleted ==> exists i :: (0 <= i < |old(categories)| && old(categories)[i].id == id &&
        categories == RemoveAt(old(categories), i))
      ensures deleted ==> prompts == OrmDeleteCategoryPrompts(old(prompts), id)
      ensures deleted ==> documents == OrmDeleteCategoryDocuments(old(documents), id)
      ensures deleted ==> faqs == OrmDeleteCategoryFaqs(old(faqs), id)
      ensures deleted ==> chunks == DeleteChunksOf(old(chunks), CategoryDocumentIds(old(documents), id))
      ensures files == old(files) && nextId == old(nextId)
    {
      match FindFirst(categories, (c: KBCategory) => c.id == id)
      case None =>
        deleted := false;
      case Some(i) =>
        DeleteCategoryContents(id);
        ghost var before := categories;
        categories := RemoveAt(categories, i);
        assert 0 <= i < |before| && before[i].id == id && categories == RemoveAt(before, i);
        deleted := true;
    }

    /** The ORM cascade of `delete_category`: the category's prompts, documents,
        their chunks and FAQs go. */
    method DeleteCategoryContents(id: int)
      requires Valid()
      modifies this
      ensures Valid()
      ensures prompts == OrmDeleteCategoryPrompts(old(prompts), id)
      ensures documents == OrmDeleteCategoryDocuments(old(documents), id)
      ensures faqs == OrmDeleteCategoryFaqs(old(faqs), id)
      ensures chunks == DeleteChunksOf(old(chunks), CategoryDocumentIds(old(documents), id))
      ensures categories == old(categories) && files == old(files) && nextId == old(nextId)
    {
      var gone := CategoryDocumentIds(documents, id);
      prompts := OrmDeleteCategoryPrompts(prompts, id);
      documents := OrmDeleteCategoryDocuments(documents, id);
      faqs := OrmDeleteCategoryFaqs(faqs, id);
      chunks := DeleteChunksOf(chunks, gone);
    }

    /** `get_category_counts` */
    function GetCategoryCounts(categoryId: int): (n: CategoryCounts)
      reads this
      ensures n.promptCount <= |prompts| && n.documentCount <= |documents| && n.faqCount <= |faqs|
      ensures n.promptCount == 0 <==> forall p :: p in prompts ==> p.categoryId != Some(categoryId)
      ensures n.documentCount == 0 <==> forall d :: d in documents ==> d.categoryId != Some(categoryId)
      ensures n.faqCount == 0 <==> forall f :: f in faqs ==> f.categoryId != Some(categoryId)
    {
      CountZeroIff(prompts, (p: KBPrompt) => p.categoryId == Some(categoryId));
      CountZeroIff(documents, (d: KBDocument) => d.categoryId == Some(categoryId));
      CountZeroIff(faqs, (f: KBFaq) => f.categoryId == Some(categoryId));
      CountsFor(prompts, documents, faqs, categoryId)
    }

    // -- prompts ---------------------------------------------------------

    /** Where `query(KBPrompt).filter(id == ...).first()` finds its row. */
    function PromptIndex(id: int): (r: Option<nat>)
      reads this
      ensures r.Some? ==> r.value < |prompts| && prompts[r.value].id == id
      ensures r.Some? ==> forall j :: 0 <= j < r.value ==> prompts[j].id != id
      ensures r.None? <==> forall p :: p in prompts ==> p.id != id
    {
      FindFirst(prompts, (p: KBPrompt) => p.id == id)
    }

    /** The router's own write `prompt.embedding = None` on the row at `i`. */
    method ClearPromptEmbedding(i: nat)
      requires Valid() && i < |prompts|
      modifies this
      ensures Valid()
      ensures prompts == old(prompts)[i := old(prompts)[i].(embedding := None)]
      ensures categories == old(categories) && documents == old(documents) && chunks == old(chunks)
      ensures faqs == old(faqs) && files == old(files) && nextId == old(nextId)
    {
      prompts := prompts[i := prompts[i].(embedding := None)];
      assert forall x :: x in prompts ==> x in old(prompts) || x.id == old(prompts)[i].id;
    }

    function GetPrompt(id: int): (r: Option<KBPrompt>)
      reads this
      ensures r.Some? ==> r.value in prompts && r.value.id == id
      ensures r.None? <==> forall p :: p in prompts ==> p.id != id
    {
      match FindFirst(prompts, (p: KBPrompt) => p.id == id)
      case Some(i) => Some(prompts[i])
      case None => None
    }

    /** `create_prompt`: the row is stored, then embedded when it is in RAG
        and the caller did not ask to skip; a failing embedding leaves None. */
    method CreatePrompt(d: PromptData, adminId: int, skipEmbedding: bool, embed: Embedder, now: Time)
      returns (p: KBPrompt)
      requires Valid()
      modifies this
      ensures Valid()
      ensures p.id == old(nextId) && prompts == old(prompts) + [p]
      ensures p.embedding == (if d.isIncludedInRag && !skipEmbedding then embed(PromptEmbeddingText(p)) else None)
      ensures p.(embedding := None) == NewPrompt(old(nextId), d, adminId, now)
      ensures GetPrompt(p.id) == Some(p)
      ensures categories == old(categories) && documents == old(documents) && chunks == old(chunks)
      ensures faqs == old(faqs) && files == old(files) && nextId == old(nextId) + 1
    {
      p := NewPrompt(nextId, d, adminId, now);
      if p.isIncludedInRag && !skipEmbedding {
        p := RefreshPrompt(p, embed);
      }
      FindFirstSnoc(prompts, p, (x: KBPrompt) => x.id == p.id);
      prompts := prompts + [p];
      nextId := nextId + 1;
    }

    /** `get_prompts_paginated` */
    function PromptsPage(page: int, limit: int, f: ListFilter): (r: PageResult<KBPrompt>)
      requires page >= 1 && limit >= 1
      reads this
      ensures r.total == Count(prompts, (p: KBPrompt) => PromptMatches(f, p))
      ensures |r.items| <= limit && SortedDesc(r.items, NewestFirstPrompt)
      ensures forall i :: 0 <= i < |r.items| ==> r.items[i] in prompts && PromptMatches(f, r.items[i])
    {
      ListPage(prompts, (p: KBPrompt) => PromptMatches(f, p), NewestFirstPrompt, page, limit)
    }

    /** `update_prompt` */
    method UpdatePrompt(id: int, u: PromptPatch, embed: Embedder) returns (r: Option<KBPrompt>)
      requires Valid()
      modifies this
      ensures Valid()
      ensures r.None? <==> old(GetPrompt(id)).None?
      ensures r.None? <==> old(PromptIndex(id)).None?
      ensures r.None? ==> prompts == old(prompts)
      ensures r.Some? ==> old(PromptIndex(id)).Some?
      ensures r.Some? ==> r.value == UpdatedPrompt(old(prompts)[old(PromptIndex(id)).value], u, embed)
      ensures r.Some? ==> prompts == old(prompts)[old(PromptIndex(id)).value := r.value]
      ensures categories == old(categories) && documents == old(documents) && chunks == old(chunks)
      ensures faqs == old(faqs) && files == old(files) && nextId == old(nextId)
    {
      match FindFirst(prompts, (p: KBPrompt) => p.id == id)
      case None =>
        r := None;
      case Some(i) =>
        var p := UpdatedPrompt(prompts[i], u, embed);
        prompts := prompts[i := p];
        r := Some(p);
        assert forall x :: x in prompts ==> x in old(prompts) || x == p;
    }

    /** `delete_prompt` */
    method DeletePrompt(id: int) returns (deleted: bool)
      requires Valid()
      modifies this
      ensures Valid()
      ensures deleted <==> old(GetPrompt(id)).Some?
      ensures !deleted ==> prompts == old(prompts)
      ensures deleted ==> exists i :: (0 <= i < |old(prompts)| && old(prompts)[i].id == id &&
        prompts == RemoveAt(old(prompts), i))
      ensures categories == old(categories) && documents == old(documents) && chunks == old(chunks)
      ensures faqs == old(faqs) && files == old(files) && nextId == old(nextId)
    {
      match FindFirst(prompts, (p: KBPrompt) => p.id == id)
      case None =>
        deleted := false;
      case Some(i) =>
        prompts := RemoveAt(prompts, i);
        deleted := true;
    }

    /** `regenerate_prompt_embedding` */
    method RegeneratePromptEmbedding(id: int, embed: Embedder) returns (r: Option<KBPrompt>)
      requires Valid()
      modifies this
      ensures Valid()
      ensures r.None? <==> old(GetPrompt(id)).None?
      ensures r.None? ==> prompts == old(prompts)
      ensures r.Some? ==> exists i :: (0 <= i < |old(prompts)| && old(prompts)[i].id == id &&
        r.value == RefreshPrompt(old(prompts)[i], embed) && prompts == old(prompts)[i := r.value])
      ensures categories == old(categories) && documents == old(documents) && chunks == old(chunks)
      ensures faqs == old(faqs) && files == old(files) && nextId == old(nextId)
    {
      match FindFirst(prompts, (p: KBPrompt) => p.id == id)
      case None =>
        r := None;
      case Some(i) =>
        var p := RefreshPrompt(prompts[i], embed);
        prompts := prompts[i := p];
        r := Some(p);
        assert forall x :: x in prompts ==> x in old(prompts) || x == p;
    }

    // -- documents -------------------------------------------------------

    function GetDocument(id: int): (r: Option<KBDocument>)
      reads this
      ensures r.Some? ==> r.value in documents && r.value.id == id
      ensures r.None? <==> forall d :: d in documents ==> d.id != id
    {
      match FindFirst(documents, (d: KBDocument) => d.id == id)
      case Some(i) => Some(documents[i])
      case None => None
    }

    /** `_process_document` on the row at `i`. The callers have removed the
        document's chunks first (a new document has none), so the batch
        embedding covers exactly the chunks added here. */
    method ProcessDocument(i: nat, text: Option<String>, summarize: Summarizer, embed: Embedder,
                           embedBatch: BatchEmbedder, now: Time)
      requires Valid() && i < |documents|
      requires forall c :: c in chunks ==> c.documentId != documents[i].id
      modifies this
      ensures Valid()
      ensures documents == old(documents)[i := ProcessedRow(old(documents[i]), text, summarize, embed)]
      ensures chunks == old(chunks) + NewChunkRows(old(documents[i]).id, text, old(nextId), embedBatch, now)
      ensures nextId == old(nextId) + |chunks| - |old(chunks)|
      ensures categories == old(categories) && prompts == old(prompts) && faqs == old(faqs) && files == old(files)
    {
      var d := documents[i];
      if text.None? || text.value == [] {
        documents := documents[i := d.(processingError := Some(NoTextError))];
        return;
      }
      var t := text.value;
      var summary := d.summary;
      if |t| > SummaryMinLength {
        var s := summarize(Take(t, SummaryInputLength));
        if s.Some? {
          summary := s;
        }
      }
      assert summary == NewSummary(d.summary, t, summarize);
      var texts := Chunker.ChunkTextFixed(t);
      AddChunkRows(d.id, texts, ChunkEmbeddings(texts, embedBatch), now);
      d := RefreshDocument(d.(extractedText := Some(t), summary := summary), embed);
      documents := documents[i := d.(isProcessed := true, processingError := None)];
      assert forall x :: x in documents ==> x in old(documents) || x == documents[i];
    }

    /** The `for i, chunk_text in enumerate(chunks)` loop of
        `_process_document`: one row per chunk, numbered from 0. */
    method AddChunkRows(documentId: int, texts: seq<String>, es: Option<seq<Embedding>>, now: Time)
      requires Valid() && documentId < nextId
      modifies this
      ensures Valid()
      ensures chunks == old(chunks) + ChunkRows(documentId, old(nextId), texts, es, now)
      ensures nextId == old(nextId) + |texts|
      ensures categories == old(categories) && prompts == old(prompts) && documents == old(documents)
      ensures faqs == old(faqs) && files == old(files)
    {
      var rows := BuildChunkRows(documentId, nextId, texts, es, now);
      chunks := chunks + rows;
      nextId := nextId + |texts|;
    }

    /** `create_document`: the uploaded file's row (made by the file
        service) is stored, the document row is inserted and processed. */
    method CreateDocument(upload: File, filename: String, data: DocumentData, adminId: int,
                          text: Option<String>, summarize: Summarizer, embed: Embedder,
                          embedBatch: BatchEmbedder, now: Time) returns (doc: KBDocument)
      requires Valid()
      modifies this
      ensures Valid()
      ensures doc == ProcessedRow(NewDocument(old(nextId), upload, filename, data, adminId, now), text, summarize, embed)
      ensures documents == old(documents) + [doc]
      ensures chunks == old(chunks) + NewChunkRows(old(nextId), text, old(nextId) + 1, embedBatch, now)
      ensures nextId == old(nextId) + 1 + |chunks| - |old(chunks)|
      ensures files == old(files) + [upload]
      ensures categories == old(categories) && prompts == old(prompts) && faqs == old(faqs)
    {
      var d := NewDocument(nextId, upload, filename, data, adminId, now);
      ghost var before := documents;
      var i := InsertDocument(d);
      ProcessDocument(i, text, summarize, embed, embedBatch, now);
      doc := documents[i];
      ReplaceLast(before, d, doc);
      files := files + [upload];
    }

    /** The insert of a new document row under the next key; no chunk
        points at it yet. */
    method InsertDocument(d: KBDocument) returns (i: nat)
      requires Valid() && d.id == nextId
      modifies this
      ensures Valid() && documents == old(documents) + [d] && i == |old(documents)| && nextId == old(nextId) + 1
      ensures forall c :: c in chunks ==> c.documentId != d.id
      ensures categories == old(categories) && prompts == old(prompts) && chunks == old(chunks)
      ensures faqs == old(faqs) && files == old(files)
    {
      documents := documents + [d];
      nextId := nextId + 1;
      i := |documents| - 1;
    }

    /** `get_documents_paginated` */
    function DocumentsPage(page: int, limit: int, f: ListFilter, isProcessed: Option<bool>): (r: PageResult<KBDocument>)
      requires page >= 1 && limit >= 1
      reads this
      ensures r.total == Count(documents, (d: KBDocument) => DocumentMatches(f, isProcessed, d))
      ensures |r.items| <= limit && SortedDesc(r.items, NewestFirstDocument)
      ensures forall i :: 0 <= i < |r.items| ==> r.items[i] in documents && DocumentMatches(f, isProcessed, r.items[i])
    {
      ListPage(documents, (d: KBDocument) => DocumentMatches(f, isProcessed, d), NewestFirstDocument, page, limit)
    }

    /** `update_document`: metadata only; the text, chunks and embedding stay. */
    method UpdateDocument(id: int, u: DocumentPatch) returns (r: Option<KBDocument>)
      requires Valid()
      modifies this
      ensures Valid()
      ensures r.None? <==> old(GetDocument(id)).None?
      ensures r.None? ==> documents == old(documents)
      ensures r.Some? ==> exists i :: (0 <= i < |old(documents)| && old(documents)[i].id == id &&
        r.value == ApplyDocumentPatch(old(documents)[i], u) && documents == old(documents)[i := r.value])
      ensures categories == old(categories) && prompts == old(prompts) && chunks == old(chunks)
      ensures faqs == old(faqs) && files == old(files) && nextId == old(nextId)
    {
      match FindFirst(documents, (d: KBDocument) => d.id == id)
      case None =>
        r := None;
      case Some(i) =>
        var d := ApplyDocumentPatch(documents[i], u);
        documents := documents[i := d];
        r := Some(d);
        assert forall x :: x in documents ==> x in old(documents) || x == d;
    }

    /** `delete_document`: the row and (cascade) its chunks, then the file's
        row. The returned storage path is the physical file to remove; that
        removal is I/O and its failure is only logged. */
    method DeleteDocument(id: int) returns (deleted: bool, storagePath: Option<String>)
      requires Valid()
      modifies this
      ensures Valid()
      ensures deleted <==> old(GetDocument(id)).Some?
      ensures !deleted ==> documents == old(documents) && chunks == old(chunks) && files == old(files) && storagePath.None?
      ensures deleted ==> exists i :: (0 <= i < |old(documents)| && old(documents)[i].id == id &&
        documents == RemoveAt(old(documents), i) &&
        match FileRow(old(files), old(documents)[i].fileId)
        case None => files == old(files) && storagePath.None?
        case Some(j) => files == RemoveAt(old(files), j) && storagePath == Some(old(files)[j].storagePath))
      ensures deleted ==> chunks == DeleteDocumentChunks(old(chunks), id)
      ensures categories == old(categories) && prompts == old(prompts) && faqs == old(faqs) && nextId == old(nextId)
    {
      storagePath := None;
      match FindFirst(documents, (d: KBDocument) => d.id == id)
      case None =>
        deleted := false;
      case Some(i) =>
        var fileId := documents[i].fileId;
        documents := RemoveAt(documents, i);
        chunks := DeleteDocumentChunks(chunks, id);
        var j := FileRow(files, fileId);
        if j.Some? {
          storagePath := Some(files[j.value].storagePath);
          files := RemoveAt(files, j.value);
        }
        deleted := true;
    }

    /** `reprocess_document`: the document's chunks are deleted and it is
        processed again. The flags are not reset first, so a failed
        extraction leaves `is_processed` as it was. */
    method ReprocessDocument(id: int, text: Option<String>, summarize: Summarizer, embed: Embedder,
                             embedBatch: BatchEmbedder, now: Time) returns (r: Option<KBDocument>)
      requires Valid()
      modifies this
      ensures Valid()
      ensures r.None? <==> old(GetDocument(id)).None?
      ensures r.None? ==> documents == old(documents) && chunks == old(chunks) && nextId == old(nextId)
      ensures r.Some? ==> exists i :: (0 <= i < |old(documents)| && old(documents)[i].id == id &&
        r.value == ProcessedRow(old(documents)[i], text, summarize, embed) && documents == old(documents)[i := r.value])
      ensures r.Some? ==> chunks == DeleteDocumentChunks(old(chunks), id) + NewChunkRows(id, text, old(nextId), embedBatch, now)
      ensures r.Some? ==> nextId == old(nextId) + |NewChunkRows(id, text, old(nextId), embedBatch, now)|
      ensures categories == old(categories) && prompts == old(prompts) && faqs == old(faqs) && files == old(files)
    {
      match FindFirst(documents, (d: KBDocument) => d.id == id)
      case None =>
        r := None;
      case Some(i) =>
        chunks := DeleteDocumentChunks(chunks, id);
        ProcessDocument(i, text, summarize, embed, embedBatch, now);
        r := Some(documents[i]);
    }

    /** `get_document_download_url`: the file whose URL the file service
        presigns, or None for a missing document. */
    function DocumentFileId(id: int): (r: Option<int>)
      reads this
      ensures r.None? <==> GetDocument(id).None?
      ensures r.Some? ==> exists d :: d in documents && d.id == id && d.fileId == r.value
    {
      match GetDocument(id)
      case None => None
      case Some(d) => Some(d.fileId)
    }

    // -- FAQs ------------------------------------------------------------

    function GetFaq(id: int): (r: Option<KBFaq>)
      reads this
      ensures r.Some? ==> r.value in faqs && r.value.id == id
      ensures r.None? <==> forall q :: q in faqs ==> q.id != id
    {
      match FindFirst(faqs, (q: KBFaq) => q.id == id)
      case Some(i) => Some(faqs[i])
      case None => None
    }

    /** `create_faq`: stored, then embedded when it is in RAG. */
    method CreateFaq(d: FaqData, adminId: int, embed: Embedder, now: Time) returns (q: KBFaq)
      requires Valid()
      modifies this
      ensures Valid()
      ensures q.id == old(nextId) && faqs == old(faqs) + [q]
      ensures q.embedding == (if d.isIncludedInRag then embed(FaqEmbeddingText(q)) else None)
      ensures q.(embedding := None) == NewFaq(old(nextId), d, adminId, now)
      ensures GetFaq(q.id) == Some(q)
      ensures categories == old(categories) && prompts == old(prompts) && documents == old(documents)
      ensures chunks == old(chunks) && files == old(files) && nextId == old(nextId) + 1
    {
      q := NewFaq(nextId, d, adminId, now);
      if q.isIncludedInRag {
        q := RefreshFaq(q, embed);
      }
      FindFirstSnoc(faqs, q, (x: KBFaq) => x.id == q.id);
      faqs := faqs + [q];
      nextId := nextId + 1;
    }

    /** `get_faqs_paginated`: by sort order, then newest first. */
    function FaqsPage(page: int, limit: int, f: ListFilter): (r: PageResult<KBFaq>)
      requires page >= 1 && limit >= 1
      reads this
      ensures r.total == Count(faqs, (q: KBFaq) => FaqMatches(f, q))
      ensures |r.items| <= limit && SortedDesc(r.items, FaqOrder)
      ensures forall i :: 0 <= i < |r.items| ==> r.items[i] in faqs && FaqMatches(f, r.items[i])
    {
      ListPage(faqs, (q: KBFaq) => FaqMatches(f, q), FaqOrder, page, limit)
    }

    /** `update_faq` */
    method UpdateFaq(id: int, u: FaqPatch, embed: Embedder) returns (r: Option<KBFaq>)
      requires Valid()
      modifies this
      ensures Valid()
      ensures r.None? <==> old(GetFaq(id)).None?
      ensures r.None? ==> faqs == old(faqs)
      ensures r.Some? ==> exists i :: (0 <= i < |old(faqs)| && old(faqs)[i].id == id &&
        r.value == UpdatedFaq(old(faqs)[i], u, embed) && faqs == old(faqs)[i := r.value])
      ensures categories == old(categories) && prompts == old(prompts) && documents == old(documents)
      ensures chunks == old(chunks) && files == old(files) && nextId == old(nextId)
    {
      match FindFirst(faqs, (q: KBFaq) => q.id == id)
      case None =>
        r := None;
      case Some(i) =>
        var q := UpdatedFaq(faqs[i], u, embed);
        faqs := faqs[i := q];
        r := Some(q);
        assert forall x :: x in faqs ==> x in old(faqs) || x == q;
    }

    /** `delete_faq` */
    method DeleteFaq(id: int) returns (deleted: bool)
      requires Valid()
      modifies this
      ensures Valid()
      ensures deleted <==> old(GetFaq(id)).Some?
      ensures !deleted ==> faqs == old(faqs)
      ensures deleted ==> exists i :: (0 <= i < |old(faqs)| && old(faqs)[i].id == id &&
        faqs == RemoveAt(old(faqs), i))
      ensures categories == old(categories) && prompts == old(prompts) && documents == old(documents)
      ensures chunks == old(chunks) && files == old(files) && nextId == old(nextId)
    {
      match FindFirst(faqs, (q: KBFaq) => q.id == id)
      case None =>
        deleted := false;
      case Some(i) =>
        faqs := RemoveAt(faqs, i);
        deleted := true;
    }

    // -- statistics ------------------------------------------------------

    /** `get_stats`: every count is scoped to the lounge except the number
        of chunks, which counts the whole table. */
    function GetStats(loungeId: Option<int>, includeGlobal: bool): (st: Stats)
      reads this
      ensures st.totalCategories <= |categories| && st.totalPrompts <= |prompts|
      ensures st.totalDocuments <= |documents| && st.totalFaqs <= |faqs|
      ensures st.promptsWithEmbeddings <= st.totalPrompts && st.faqsWithEmbeddings <= st.totalFaqs
      ensures st.documentsWithEmbeddings <= st.totalDocuments && st.unprocessedDocuments <= st.totalDocuments
      ensures st.totalDocumentChunks == |chunks|
    {
      var cs := (c: KBCategory) => InScope(c.loungeId, loungeId, includeGlobal);
      var ps := (p: KBPrompt) => InScope(p.loungeId, loungeId, includeGlobal);
      var ds := (d: KBDocument) => InScope(d.loungeId, loungeId, includeGlobal);
      var qs := (q: KBFaq) => InScope(q.loungeId, loungeId, includeGlobal);
      var pe := (p: KBPrompt) => ps(p) && p.embedding.Some?;
      var de := (d: KBDocument) => ds(d) && d.embedding.Some?;
      var du := (d: KBDocument) => ds(d) && !d.isProcessed;
      var qe := (q: KBFaq) => qs(q) && q.embedding.Some?;
      CountMono(prompts, pe, ps);
      CountMono(documents, de, ds);
      CountMono(documents, du, ds);
      CountMono(faqs, qe, qs);
      Stats(Count(categories, cs), Count(prompts, ps), Count(documents, ds), Count(faqs, qs),
            Count(prompts, pe), Count(documents, de), Count(faqs, qe), |chunks|, Count(documents, du))
    }

    /** Without a lounge and with global rows included, the totals are the
        sizes of the tables. */
    lemma UnscopedStatsCountAll()
      ensures var st := GetStats(None, true);
        st.totalCategories == |categories| && st.totalPrompts == |prompts| &&
        st.totalDocuments == |documents| && st.totalFaqs == |faqs|
    {
      CountAll(categories, (c: KBCategory) => InScope(c.loungeId, None, true));
      CountAll(prompts, (p: KBPrompt) => InScope(p.loungeId, None, true));
      CountAll(documents, (d: KBDocument) => InScope(d.loungeId, None, true));
      CountAll(faqs, (q: KBFaq) => InScope(q.loungeId, None, true));
    }

    // -- re-embedding ----------------------------------------------------

    /** The prompt part of `regenerate_all_embeddings`: every RAG prompt is
        re-embedded; the count is the number of RAG prompts. */
    method RegeneratePrompts(embed: Embedder) returns (n: nat)
      requires Valid()
      modifies this
      ensures Valid()
      ensures prompts == RegeneratedPrompts(old(prompts), embed)
      ensures n == Count(old(prompts), IsRagPrompt)
      ensures categories == old(categories) && documents == old(documents) && chunks == old(chunks)
      ensures faqs == old(faqs) && files == old(files) && nextId == old(nextId)
    {
      var ps;
      ps, n := RegeneratePromptRows(prompts, embed);
      KeysKept(prompts, ps, (p: KBPrompt) => p.id, nextId);
      prompts := ps;
    }

    /** The FAQ part of `regenerate_all_embeddings`. */
    method RegenerateFaqs(embed: Embedder) returns (n: nat)
      requires Valid()
      modifies this
      ensures Valid()
      ensures faqs == RegeneratedFaqs(old(faqs), embed)
      ensures n == Count(old(faqs), IsRagFaq)
      ensures categories == old(categories) && prompts == old(prompts) && documents == old(documents)
      ensures chunks == old(chunks) && files == old(files) && nextId == old(nextId)
    {
      var qs;
      qs, n := RegenerateFaqRows(faqs, embed);
      KeysKept(faqs, qs, (q: KBFaq) => q.id, nextId);
      faqs := qs;
    }

    /** The document part of `regenerate_all_embeddings`: each processed
        document's chunks, then the document itself, are re-embedded. */
    method RegenerateDocuments(embed: Embedder, embedBatch: BatchEmbedder) returns (n: nat)
      requires Valid()
      modifies this
      ensures Valid()
      ensures documents == RegeneratedDocuments(old(documents), embed)
      ensures chunks == RegeneratedChunks(old(chunks), old(documents), embedBatch)
      ensures n == Count(old(documents), IsProcessedDocument)
      ensures categories == old(categories) && prompts == old(prompts) && faqs == old(faqs)
      ensures files == old(files) && nextId == old(nextId)
    {
      var ds, cs;
      ds, cs, n := RegenerateDocumentRows(documents, chunks, embed, embedBatch);
      KeysKept(documents, ds, (d: KBDocument) => d.id, nextId);
      RegeneratedChunksKeepRows(chunks, documents, embedBatch);
      KeysKept(chunks, cs, (c: KBDocumentChunk) => c.id, nextId);
      KeysKept(chunks, cs, (c: KBDocumentChunk) => c.documentId, nextId);
      documents, chunks := ds, cs;
    }

    /** `regenerate_all_embeddings`: the parts `entity_type` selects (all of
        them when it is absent or empty), with the number of rows each
        re-embedded. */
    method RegenerateAllEmbeddings(entityType: Option<String>, embed: Embedder, embedBatch: BatchEmbedder)
      returns (counts: RegenerateCounts)
      requires Valid()
      modifies this
      ensures Valid()
      ensures prompts == if Selects(entityType, "prompts") then RegeneratedPrompts(old(prompts), embed) else old(prompts)
      ensures documents == if Selects(entityType, "documents") then RegeneratedDocuments(old(documents), embed) else old(documents)
      ensures chunks == if Selects(entityType, "documents") then RegeneratedChunks(old(chunks), old(documents), embedBatch) else old(chunks)
      ensures faqs == if Selects(entityType, "faqs") then RegeneratedFaqs(old(faqs), embed) else old(faqs)
      ensures counts.prompts == if Selects(entityType, "prompts") then Count(old(prompts), IsRagPrompt) else 0
      ensures counts.documents == if Selects(entityType, "documents") then Count(old(documents), IsProcessedDocument) else 0
      ensures counts.faqs == if Selects(entityType, "faqs") then Count(old(faqs), IsRagFaq) else 0
      ensures categories == old(categories) && files == old(files) && nextId == old(nextId)
    {
      counts := RegenerateCounts(0, 0, 0);
      if Selects(entityType, "prompts") {
        var n := RegeneratePrompts(embed);
        counts := counts.(prompts := n);
      }
      if Selects(entityType, "documents") {
        var n := RegenerateDocuments(embed, embedBatch);
        counts := counts.(documents := n);
      }
      if Selects(entityType, "faqs") {
        var n := RegenerateFaqs(embed);
        counts := counts.(faqs := n);
      }
    }

    /** `semantic_search`: a failing query embedding raises (None here);
        otherwise the sub-searches the entity types ask for, merged, sorted by
        score and cut to `limit`. Only reads the tables. */
    method SemanticSearch(query: String, embed: Embedder, rank: Ranker, types: seq<String>,
                          f: SearchFilter, limit: nat) returns (r: Option<seq<SearchHit>>)
      ensures embed(query).None? ==> r.None?
      ensures embed(query).Some? ==>
        r == Some(SearchResults(prompts, documents, chunks, faqs, categories, types, f, embed(query).value, rank, limit))
    {
      var qe := embed(query);
      if qe.None? {
        return None;
      }
      var results := Search(prompts, documents, chunks, faqs, categories, types, f, qe.value, rank, limit);
      r := Some(results);
    }

    /** `get_rag_context`: a search with `limit = max_items` and no category
        filter, then the results at or above the threshold as context. */
    method GetRagContext(query: String, embed: Embedder, rank: Ranker, maxItems: nat, types: seq<String>,
                         loungeId: Option<int>, includeGlobal: bool, threshold: real) returns (r: Option<RagContext>)
      ensures embed(query).None? ==> r.None?
      ensures embed(query).Some? ==> r.Some?
      ensures embed(query).Some? ==>
        (var results := SearchResults(prompts, documents, chunks, faqs, categories, types,
                                      SearchFilter([], loungeId, includeGlobal), embed(query).value, rank, maxItems);
         r.value.context == Join(RagParts(RagItems(results, threshold)), RagSeparator) &&
         r.value.sources == RagSources(RagItems(results, threshold)))
    {
      var results := SemanticSearch(query, embed, rank, types, SearchFilter([], loungeId, includeGlobal), maxItems);
      if results.None? {
        return None;
      }
      var rc := BuildRagContext(results.value, threshold);
      r := Some(rc);
    }
  }
}
