/** Knowledge-base rows (app/db/models/knowledge_base.py): categories, prompts,
    uploaded documents with their chunks, and FAQs. Embeddings are opaque
    vectors produced elsewhere. */
module KnowledgeBaseModel {
  import opened Common

  /** A JSON-stored embedding vector; its numbers are never inspected here. */
  type Embedding = seq<int>

  datatype KBCategory = KBCategory(
    id: int,
    loungeId: Option<int>,
    name: String,
    slug: String,
    description: Option<String>,
    icon: Option<String>,
    sortOrder: int,
    isActive: bool,
    createdAt: Time,
    updatedAt: Time)

  datatype KBPrompt = KBPrompt(
    id: int,
    loungeId: Option<int>,
    categoryId: Option<int>,
    title: String,
    content: String,
    description: Option<String>,
    tags: Option<seq<String>>,
    isActive: bool,
    isIncludedInRag: bool,
    usageCount: int,
    embedding: Option<Embedding>,
    createdAt: Time,
    updatedAt: Time,
    createdById: Option<int>)

  datatype KBDocument = KBDocument(
    id: int,
    loungeId: Option<int>,
    categoryId: Option<int>,
    fileId: int,
    title: String,
    description: Option<String>,
    originalFilename: String,
    fileType: String,
    fileSizeBytes: int,
    extractedText: Option<String>,
    summary: Option<String>,
    tags: Option<seq<String>>,
    isActive: bool,
    isProcessed: bool,
    processingError: Option<String>,
    embedding: Option<Embedding>,
    createdAt: Time,
    updatedAt: Time,
    createdById: Option<int>)

  datatype KBDocumentChunk = KBDocumentChunk(
    id: int,
    documentId: int,
    content: String,
    chunkIndex: int,
    tokenCount: int,
    embedding: Option<Embedding>,
    createdAt: Time)

  datatype KBFaq = KBFaq(
    id: int,
    loungeId: Option<int>,
    categoryId: Option<int>,
    question: String,
    answer: String,
    tags: Option<seq<String>>,
    sortOrder: int,
    isActive: bool,
    isIncludedInRag: bool,
    viewCount: nat,
    helpfulCount: nat,
    notHelpfulCount: nat,
    embedding: Option<Embedding>,
    createdAt: Time,
    updatedAt: Time,
    createdById: Option<int>)

  /** `has_embedding`, which the four entities define alike. */
  predicate HasEmbedding(e: Option<Embedding>) { e.Some? }

  predicate PromptHasEmbedding(p: KBPrompt) { HasEmbedding(p.embedding) }
  predicate DocumentHasEmbedding(d: KBDocument) { HasEmbedding(d.embedding) }
  predicate ChunkHasEmbedding(c: KBDocumentChunk) { HasEmbedding(c.embedding) }
  predicate FaqHasEmbedding(f: KBFaq) { HasEmbedding(f.embedding) }

  /** `chunk_count`: how many chunk rows point at the document. */
  function ChunkCount(d: KBDocument, chunks: seq<KBDocumentChunk>): (n: nat)
    ensures n <= |chunks|
    ensures n == 0 <==> forall c :: c in chunks ==> c.documentId != d.id
  {
    CountZeroIffNone(chunks, d.id);
    Count(chunks, (c: KBDocumentChunk) => c.documentId == d.id)
  }

  lemma {:induction false} CountZeroIffNone(chunks: seq<KBDocumentChunk>, docId: int)
    ensures Count(chunks, (c: KBDocumentChunk) => c.documentId == docId) == 0
        <==> forall c :: c in chunks ==> c.documentId != docId
  {
    if chunks != [] {
      CountZeroIffNone(chunks[1..], docId);
      assert forall c :: c in chunks <==> c == chunks[0] || c in chunks[1..];
    }
  }

  /** `helpfulness_ratio`: 0 with no votes, otherwise the helpful share. */
  function HelpfulnessRatio(f: KBFaq): (r: real)
    ensures 0.0 <= r <= 1.0
    ensures f.helpfulCount + f.notHelpfulCount == 0 ==> r == 0.0
    ensures f.helpfulCount + f.notHelpfulCount > 0 ==>
      r * (f.helpfulCount + f.notHelpfulCount) as real == f.helpfulCount as real
  {
    var total := f.helpfulCount + f.notHelpfulCount;
    if total == 0 then 0.0 else f.helpfulCount as real / total as real
  }

  /** With only helpful votes the ratio is 1, with only unhelpful votes 0. */
  lemma HelpfulnessExtremes(f: KBFaq)
    ensures f.helpfulCount > 0 && f.notHelpfulCount == 0 ==> HelpfulnessRatio(f) == 1.0
    ensures f.notHelpfulCount > 0 && f.helpfulCount == 0 ==> HelpfulnessRatio(f) == 0.0
  {
  }

  /** The ORM delete of a category (`cascade="all, delete-orphan"` on
      `prompts`, `documents` and `faqs`) removes every row of the category. */
  function OrmDeleteCategoryPrompts(ps: seq<KBPrompt>, categoryId: int): (out: seq<KBPrompt>)
    ensures forall p :: p in out <==> p in ps && p.categoryId != Some(categoryId)
  {
    Filter(ps, (p: KBPrompt) => p.categoryId != Some(categoryId))
  }

  function OrmDeleteCategoryDocuments(ds: seq<KBDocument>, categoryId: int): (out: seq<KBDocument>)
    ensures forall d :: d in out <==> d in ds && d.categoryId != Some(categoryId)
  {
    Filter(ds, (d: KBDocument) => d.categoryId != Some(categoryId))
  }

  function OrmDeleteCategoryFaqs(fs: seq<KBFaq>, categoryId: int): (out: seq<KBFaq>)
    ensures forall f :: f in out <==> f in fs && f.categoryId != Some(categoryId)
  {
    Filter(fs, (f: KBFaq) => f.categoryId != Some(categoryId))
  }

  /** What the `ON DELETE SET NULL` foreign key alone would do to the prompts. */
  function FkDeleteCategoryPrompts(ps: seq<KBPrompt>, categoryId: int): (out: seq<KBPrompt>)
    ensures |out| == |ps|
    ensures forall i :: 0 <= i < |ps| ==>
      out[i] == (if ps[i].categoryId == Some(categoryId) then ps[i].(categoryId := None) else ps[i])
  {
    seq(|ps|, i requires 0 <= i < |ps| =>
      if ps[i].categoryId == Some(categoryId) then ps[i].(categoryId := None) else ps[i])
  }

  /** The two delete paths disagree: the foreign key keeps every prompt (and so
      the number of rows), the ORM cascade loses the category's prompts. */
  lemma {:induction false} CategoryCascadeDisagreesWithForeignKey(ps: seq<KBPrompt>, categoryId: int, i: nat)
    requires i < |ps| && ps[i].categoryId == Some(categoryId)
    ensures |OrmDeleteCategoryPrompts(ps, categoryId)| < |FkDeleteCategoryPrompts(ps, categoryId)|
  {
    var p := (x: KBPrompt) => x.categoryId != Some(categoryId);
    FilterCount(ps, p);
    CountMissesOne(ps, p, i);
  }

  lemma {:induction false} CountMissesOne<T>(s: seq<T>, p: T -> bool, i: nat)
    requires i < |s| && !p(s[i])
    ensures Count(s, p) < |s|
  {
    if i > 0 { CountMissesOne(s[1..], p, i - 1); }
  }

  /** Deleting a document deletes its chunks (`cascade="all, delete-orphan"`
      and `ON DELETE CASCADE` agree here). */
  function DeleteDocumentChunks(cs: seq<KBDocumentChunk>, documentId: int): (out: seq<KBDocumentChunk>)
    ensures forall c :: c in out <==> c in cs && c.documentId != documentId
  {
    Filter(cs, (c: KBDocumentChunk) => c.documentId != documentId)
  }

  /** After the delete the document has no chunks left. */
  lemma DeletedDocumentHasNoChunks(d: KBDocument, cs: seq<KBDocumentChunk>)
    ensures ChunkCount(d, DeleteDocumentChunks(cs, d.id)) == 0
  {
  }
}
