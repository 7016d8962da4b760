// Static pages and FAQs of app/api/v1/cms.py.

module CmsApi {
  import opened Common
  import opened MiscModel
  import Schemas

  const PageNotFound: String := "Page not found"
  const PageSlugTaken: String := "Page with this slug already exists"
  const FaqNotFound: String := "FAQ not found"

  /** The UNIQUE constraint on `static_pages.slug`. */
  ghost predicate UniquePageSlugs(pages: seq<StaticPage>) {
    forall i, j :: 0 <= i < j < |pages| ==> pages[i].slug != pages[j].slug
  }

  // ----------------------------------------------------------------------
  // GET /cms/pages and GET /cms/pages/{slug}
  // ----------------------------------------------------------------------

  /** `order_by(StaticPage.updated_at.desc())` */
  function ByUpdatedDesc(p: StaticPage): Key { (p.updatedAt, 0) }

  predicate PageListed(p: StaticPage, publishedOnly: bool) { !publishedOnly || p.isPublished }

  /** `list_pages` */
  function ListPages(pages: seq<StaticPage>, publishedOnly: bool): seq<StaticPage>
  {
    SortDesc(Filter(pages, (p: StaticPage) => PageListed(p, publishedOnly)), ByUpdatedDesc)
  }

  /** The listing holds exactly the pages that pass the filter, most
      recently updated first; by default drafts are hidden. */
  lemma ListPagesSound(pages: seq<StaticPage>, publishedOnly: bool)
    ensures var r := ListPages(pages, publishedOnly);
            (forall p :: p in r <==> p in pages && PageListed(p, publishedOnly)) &&
            (forall i, j :: 0 <= i < j < |r| ==> r[i].updatedAt >= r[j].updatedAt)
  {
    var matching := Filter(pages, (p: StaticPage) => PageListed(p, publishedOnly));
    SortDescFacts(matching, ByUpdatedDesc);
    var r := ListPages(pages, publishedOnly);
    forall p ensures p in r <==> p in pages && PageListed(p, publishedOnly) {
      assert p in r <==> p in multiset(r);
      assert p in matching <==> p in multiset(matching);
    }
    forall i, j | 0 <= i < j < |r| ensures r[i].updatedAt >= r[j].updatedAt {
      assert KeyGe(ByUpdatedDesc(r[i]), ByUpdatedDesc(r[j]));
    }
  }

  /** `get_page`: only a published page is served by slug. */
  function GetPage(pages: seq<StaticPage>, slug: String): (r: Outcome<StaticPage>)
    ensures r.HttpError? <==> forall p :: p in pages ==> !(p.slug == slug && p.isPublished)
    ensures r.HttpError? ==> r == HttpError(404, PageNotFound)
    ensures r.Ok? ==> r.value in pages && r.value.slug == slug && r.value.isPublished
  {
    match FindFirst(pages, (p: StaticPage) => p.slug == slug && p.isPublished)
    case None => HttpError(404, PageNotFound)
    case Some(i) => assert pages[i] in pages; Ok(pages[i])
  }

  // ----------------------------------------------------------------------
  // Page administration
  // ----------------------------------------------------------------------

  /** `create_page` on the table: the slug is already lower-cased by the
      body's validator; a taken slug is refused with 400. */
  function CreatePage(pages: seq<StaticPage>, body: Schemas.PageCreate, id: int, now: Time): (r: Outcome<seq<StaticPage>>)
    ensures r.HttpError? <==> exists p :: p in pages && p.slug == body.slug
    ensures r.HttpError? ==> r == HttpError(400, PageSlugTaken)
    ensures r.Ok? ==> r.value == pages + [StaticPage(id, body.slug, body.title, body.content, body.isPublished, now)]
  {
    match FindFirst(pages, (p: StaticPage) => p.slug == body.slug)
    case Some(i) => assert pages[i] in pages; HttpError(400, PageSlugTaken)
    case None => Ok(pages + [StaticPage(id, body.slug, body.title, body.content, body.isPublished, now)])
  }

  /** Creating keeps slugs unique, and a page created published is the one
      its slug serves. */
  lemma {:induction false} CreatePageServed(pages: seq<StaticPage>, body: Schemas.PageCreate, id: int, now: Time)
    requires UniquePageSlugs(pages)
    requires CreatePage(pages, body, id, now).Ok?
    ensures UniquePageSlugs(CreatePage(pages, body, id, now).value)
    ensures body.isPublished ==>
              GetPage(CreatePage(pages, body, id, now).value, body.slug) ==
                Ok(StaticPage(id, body.slug, body.title, body.content, body.isPublished, now))
  {
    var t := CreatePage(pages, body, id, now).value;
    forall i, j | 0 <= i < j < |t| ensures t[i].slug != t[j].slug {
      if j == |pages| { assert t[i] in pages; }
    }
    if body.isPublished {
      assert forall k :: 0 <= k < |pages| ==> !(t[k].slug == body.slug && t[k].isPublished) by {
        forall k | 0 <= k < |pages| ensures !(t[k].slug == body.slug && t[k].isPublished) {
          assert t[k] == pages[k] && pages[k] in pages;
        }
      }
      FindFirstLast(t, (p: StaticPage) => p.slug == body.slug && p.isPublished);
    }
  }

  /** The first match of a table whose only match is its last row is that row. */
  lemma {:induction false} FindFirstLast<T>(s: seq<T>, p: T -> bool)
    requires |s| > 0 && p(s[|s| - 1])
    requires forall k :: 0 <= k < |s| - 1 ==> !p(s[k])
    ensures FindFirst(s, p) == Some(|s| - 1)
  {
    if |s| > 1 {
      FindFirstLast(s[1..], p);
    }
  }

  function FindPage(pages: seq<StaticPage>, id: int): (r: Option<nat>)
    ensures r.Some? ==> r.value < |pages| && pages[r.value].id == id
    ensures r.None? ==> forall p :: p in pages ==> p.id != id
  {
    FindFirst(pages, (p: StaticPage) => p.id == id)
  }

  /** The given fields overwrite the page; `updated_at` is set in every case. */
  function PatchPage(p: StaticPage, u: Schemas.PageUpdate, now: Time): (r: StaticPage)
    ensures r.id == p.id && r.slug == p.slug && r.updatedAt == now
    ensures r.title == (if u.title.Some? then u.title.value else p.title)
    ensures r.content == (if u.content.Some? then u.content.value else p.content)
    ensures r.isPublished == (if u.isPublished.Some? then u.isPublished.value else p.isPublished)
  {
    p.(title := if u.title.Some? then u.title.value else p.title,
       content := if u.content.Some? then u.content.value else p.content,
       isPublished := if u.isPublished.Some? then u.isPublished.value else p.isPublished,
       updatedAt := now)
  }

  /** `update_page` on the table: 404 for an unknown id. */
  function UpdatePage(pages: seq<StaticPage>, id: int, u: Schemas.PageUpdate, now: Time): (r: Outcome<seq<StaticPage>>)
    ensures r.HttpError? <==> FindPage(pages, id).None?
    ensures r.HttpError? ==> r == HttpError(404, PageNotFound)
    ensures r.Ok? ==> var i := FindPage(pages, id).value;
                      r.value == pages[i := PatchPage(pages[i], u, now)]
  {
    match FindPage(pages, id)
    case None => HttpError(404, PageNotFound)
    case Some(i) => Ok(pages[i := PatchPage(pages[i], u, now)])
  }

  /** Unpublishing takes a page off the air: its slug no longer serves it
      and the default listing no longer shows it; slugs stay unique. */
  lemma UnpublishHides(pages: seq<StaticPage>, id: int, now: Time)
    requires UniquePageSlugs(pages)
    requires FindPage(pages, id).Some?
    ensures var t := UpdatePage(pages, id, Schemas.PageUpdate(None, None, Some(false)), now).value;
            var slug := pages[FindPage(pages, id).value].slug;
            UniquePageSlugs(t) && GetPage(t, slug) == HttpError(404, PageNotFound) &&
            forall p :: p in ListPages(t, true) ==> p.slug != slug
  {
    var i := FindPage(pages, id).value;
    var t := UpdatePage(pages, id, Schemas.PageUpdate(None, None, Some(false)), now).value;
    var slug := pages[i].slug;
    forall p | p in t ensures !(p.slug == slug && p.isPublished) {
      var k :| 0 <= k < |t| && t[k] == p;
      if k != i {
        if k < i { assert pages[k].slug != pages[i].slug; } else { assert pages[i].slug != pages[k].slug; }
      }
    }
    ListPagesSound(t, true);
  }

  /** `delete_page` on the table: 404 for an unknown id. */
  function DeletePage(pages: seq<StaticPage>, id: int): (r: Outcome<seq<StaticPage>>)
    ensures r.HttpError? <==> FindPage(pages, id).None?
    ensures r.HttpError? ==> r == HttpError(404, PageNotFound)
    ensures r.Ok? ==> |r.value| == |pages| - 1 && (forall p :: p in r.value ==> p in pages) &&
                      forall p :: p in pages && p.id != id ==> p in r.value
  {
    match FindPage(pages, id)
    case None => HttpError(404, PageNotFound)
    case Some(i) =>
      var r := RemoveAt(pages, i);
      RemoveAtKeepsOthers(pages, i);
      Ok(r)
  }

  /** Removing a row keeps every row that differs from it. */
  lemma RemoveAtKeepsOthers<T>(s: seq<T>, i: nat)
    requires i < |s|
    ensures forall x :: x in s && x != s[i] ==> x in RemoveAt(s, i)
  {
    var r := RemoveAt(s, i);
    forall x | x in s && x != s[i] ensures x in r {
      var j :| 0 <= j < |s| && s[j] == x;
      if j < i { assert r[j] == x; } else { assert r[j - 1] == x; }
    }
  }

  // ----------------------------------------------------------------------
  // FAQs
  // ----------------------------------------------------------------------

  /** `order_by(FAQ.sort_order.asc())`, as a descending key. */
  function BySortOrderAsc(f: Faq): Key { (-f.sortOrder, 0) }

  predicate FaqListed(f: Faq, category: Option<String>) { !TruthyStr(category) || f.category == category.value }

  /** `list_faqs` */
  function ListFaqs(faqs: seq<Faq>, category: Option<String>): seq<Faq>
  {
    SortDesc(Filter(faqs, (f: Faq) => FaqListed(f, category)), BySortOrderAsc)
  }

  /** The FAQ listing holds exactly the entries of the asked category (all
      of them without one), in ascending sort order. */
  lemma ListFaqsSound(faqs: seq<Faq>, category: Option<String>)
    ensures var r := ListFaqs(faqs, category);
            (forall f :: f in r <==> f in faqs && FaqListed(f, category)) &&
            (forall i, j :: 0 <= i < j < |r| ==> r[i].sortOrder <= r[j].sortOrder)
  {
    var matching := Filter(faqs, (f: Faq) => FaqListed(f, category));
    SortDescFacts(matching, BySortOrderAsc);
    var r := ListFaqs(faqs, category);
    forall f ensures f in r <==> f in faqs && FaqListed(f, category) {
      assert f in r <==> f in multiset(r);
      assert f in matching <==> f in multiset(matching);
    }
    forall i, j | 0 <= i < j < |r| ensures r[i].sortOrder <= r[j].sortOrder {
      assert KeyGe(BySortOrderAsc(r[i]), BySortOrderAsc(r[j]));
    }
  }

  /** The distinct values of a column, each at its first occurrence. */
  function Distinct(s: seq<String>): (r: seq<String>)
    ensures forall x :: x in r <==> x in s
    ensures forall i, j :: 0 <= i < j < |r| ==> r[i] != r[j]
  {
    if s == [] then []
    else
      var front := Distinct(s[..|s| - 1]);
      assert forall x :: x in s <==> x in s[..|s| - 1] || x == s[|s| - 1] by {
        assert s == s[..|s| - 1] + [s[|s| - 1]];
      }
      if s[|s| - 1] in front then front else front + [s[|s| - 1]]
  }

  /** `list_faq_categories`: every category that has an entry, once. */
  function FaqCategories(faqs: seq<Faq>): (r: seq<String>)
    ensures forall c :: c in r <==> exists f :: f in faqs && f.category == c
    ensures forall i, j :: 0 <= i < j < |r| ==> r[i] != r[j]
  {
    var cats := seq(|faqs|, k requires 0 <= k < |faqs| => faqs[k].category);
    assert forall c :: c in cats <==> exists f :: f in faqs && f.category == c by {
      forall c ensures c in cats <==> exists f :: f in faqs && f.category == c {
        if c in cats {
          var k :| 0 <= k < |cats| && cats[k] == c;
          assert faqs[k] in faqs;
        }
        if exists f :: f in faqs && f.category == c {
          var f :| f in faqs && f.category == c;
          var k :| 0 <= k < |faqs| && faqs[k] == f;
          assert cats[k] == c;
        }
      }
    }
    Distinct(cats)
  }

  function FindFaq(faqs: seq<Faq>, id: int): (r: Option<nat>)
    ensures r.Some? ==> r.value < |faqs| && faqs[r.value].id == id
    ensures r.None? ==> forall f :: f in faqs ==> f.id != id
  {
    FindFirst(faqs, (f: Faq) => f.id == id)
  }

  /** The given fields overwrite the entry; nothing else changes. */
  function PatchFaq(f: Faq, b: Schemas.FaqBody): (r: Faq)
    ensures r.id == f.id
    ensures r.category == (if b.category.Some? then b.category.value else f.category)
    ensures r.question == (if b.question.Some? then b.question.value else f.question)
    ensures r.answer == (if b.answer.Some? then b.answer.value else f.answer)
    ensures r.sortOrder == (if b.sortOrder.Some? then b.sortOrder.value else f.sortOrder)
  {
    f.(category := if b.category.Some? then b.category.value else f.category,
       question := if b.question.Some? then b.question.value else f.question,
       answer := if b.answer.Some? then b.answer.value else f.answer,
       sortOrder := if b.sortOrder.Some? then b.sortOrder.value else f.sortOrder)
  }

  /** `update_faq` on the table: 404 for an unknown id. */
  function UpdateFaq(faqs: seq<Faq>, id: int, b: Schemas.FaqBody): (r: Outcome<seq<Faq>>)
    ensures r.HttpError? <==> FindFaq(faqs, id).None?
    ensures r.HttpError? ==> r == HttpError(404, FaqNotFound)
    ensures r.Ok? ==> var i := FindFaq(faqs, id).value; r.value == faqs[i := PatchFaq(faqs[i], b)]
  {
    match FindFaq(faqs, id)
    case None => HttpError(404, FaqNotFound)
    case Some(i) => Ok(faqs[i := PatchFaq(faqs[i], b)])
  }

  /** An empty update body changes nothing, and an update is idempotent. */
  lemma UpdateFaqIdempotent(faqs: seq<Faq>, id: int, b: Schemas.FaqBody)
    requires UpdateFaq(faqs, id, b).Ok?
    ensures UpdateFaq(faqs, id, Schemas.FaqBody(None, None, None, None)) == Ok(faqs)
    ensures UpdateFaq(UpdateFaq(faqs, id, b).value, id, b) == UpdateFaq(faqs, id, b)
  {
    var i := FindFaq(faqs, id).value;
    var t := UpdateFaq(faqs, id, b).value;
    FindFirstAgree(faqs, t, (f: Faq) => f.id == id);
    assert faqs[i := PatchFaq(faqs[i], Schemas.FaqBody(None, None, None, None))] == faqs;
    assert PatchFaq(t[i], b) == t[i];
    assert t[i := PatchFaq(t[i], b)] == t;
  }

  /** `delete_faq` on the table: 404 for an unknown id. */
  function DeleteFaq(faqs: seq<Faq>, id: int): (r: Outcome<seq<Faq>>)
    ensures r.HttpError? <==> FindFaq(faqs, id).None?
    ensures r.HttpError? ==> r == HttpError(404, FaqNotFound)
    ensures r.Ok? ==> |r.value| == |faqs| - 1 && (forall f :: f in r.value ==> f in faqs) &&
                      forall f :: f in faqs && f.id != id ==> f in r.value
  {
    match FindFaq(faqs, id)
    case None => HttpError(404, FaqNotFound)
    case Some(i) =>
      RemoveAtKeepsOthers(faqs, i);
      Ok(RemoveAt(faqs, i))
  }

  // ----------------------------------------------------------------------
  // The two tables
  // ----------------------------------------------------------------------

  class CmsStore {
    var pages: seq<StaticPage>
    var faqs: seq<Faq>
    var nextPageId: int
    var nextFaqId: int

    ghost predicate Valid()
      reads this
    {
      UniquePageSlugs(pages)
    }

    constructor()
      ensures Valid() && pages == [] && faqs == []
    {
      pages := [];
      faqs := [];
      nextPageId := 1;
      nextFaqId := 1;
    }

    /** `POST /cms/pages` */
    method CreatePageRoute(body: Schemas.PageCreate, now: Time) returns (r: Outcome<StaticPage>)
      requires Valid()
      modifies this
      ensures Valid()
      ensures var out := CreatePage(old(pages), body, old(nextPageId), now);
              (out.HttpError? ==> r == HttpError(out.status, out.detail) && pages == old(pages) &&
                                  nextPageId == old(nextPageId)) &&
              (out.Ok? ==> pages == out.value && nextPageId == old(nextPageId) + 1 &&
                           r == Ok(StaticPage(old(nextPageId), body.slug, body.title, body.content, body.isPublished, now)))
      ensures faqs == old(faqs) && nextFaqId == old(nextFaqId)
    {
      var out := CreatePage(pages, body, nextPageId, now);
      if out.HttpError? {
        return HttpError(out.status, out.detail);
      }
      CreatePageServed(pages, body, nextPageId, now);
      r := Ok(StaticPage(nextPageId, body.slug, body.title, body.content, body.isPublished, now));
      pages := out.value;
      nextPageId := nextPageId + 1;
    }

    /** `PUT /cms/pages/{page_id}` */
    method UpdatePageRoute(id: int, u: Schemas.PageUpdate, now: Time) returns (r: Outcome<StaticPage>)
      requires Valid()
      modifies this
      ensures Valid()
      ensures var out := UpdatePage(old(pages), id, u, now);
              (out.HttpError? ==> r == HttpError(out.status, out.detail) && pages == old(pages)) &&
              (out.Ok? ==> pages == out.value && r == Ok(pages[FindPage(old(pages), id).value]))
      ensures faqs == old(faqs) && nextPageId == old(nextPageId) && nextFaqId == old(nextFaqId)
    {
      var out := UpdatePage(pages, id, u, now);
      if out.HttpError? {
        return HttpError(out.status, out.detail);
      }
      var i := FindPage(pages, id).value;
      assert UniquePageSlugs(out.value) by {
        forall a, b | 0 <= a < b < |out.value| ensures out.value[a].slug != out.value[b].slug {
          assert out.value[a].slug == pages[a].slug && out.value[b].slug == pages[b].slug;
        }
      }
      pages := out.value;
      r := Ok(pages[i]);
    }

    /** `DELETE /cms/pages/{page_id}` */
    method DeletePageRoute(id: int) returns (r: Outcome<()>)
      requires Valid()
      modifies this
      ensures Valid()
      ensures var out := DeletePage(old(pages), id);
              (out.HttpError? ==> r == HttpError(out.status, out.detail) && pages == old(pages)) &&
              (out.Ok? ==> r == Ok(()) && pages == out.value)
      ensures faqs == old(faqs) && nextPageId == old(nextPageId) && nextFaqId == old(nextFaqId)
    {
      var out := DeletePage(pages, id);
      if out.HttpError? {
        return HttpError(out.status, out.detail);
      }
      var i := FindPage(pages, id).value;
      assert UniquePageSlugs(out.value) by {
        forall a, b | 0 <= a < b < |out.value| ensures out.value[a].slug != out.value[b].slug {
          var a' := if a < i then a else a + 1;
          var b' := if b < i then b else b + 1;
          assert out.value[a] == pages[a'] && out.value[b] == pages[b'] && a' < b';
        }
      }
      pages := out.value;
      r := Ok(());
    }

    /** `POST /cms/faqs` */
    method CreateFaqRoute(category: String, question: String, answer: String, sortOrder: int) returns (r: Faq)
      modifies this
      ensures r == Faq(old(nextFaqId), category, question, answer, sortOrder)
      ensures faqs == old(faqs) + [r] && nextFaqId == old(nextFaqId) + 1
      ensures pages == old(pages) && nextPageId == old(nextPageId)
    {
      r := Faq(nextFaqId, category, question, answer, sortOrder);
      faqs := faqs + [r];
      nextFaqId := nextFaqId + 1;
    }

    /** `PUT /cms/faqs/{faq_id}` */
    method UpdateFaqRoute(id: int, b: Schemas.FaqBody) returns (r: Outcome<Faq>)
      modifies this
      ensures var out := UpdateFaq(old(faqs), id, b);
              (out.HttpError? ==> r == HttpError(out.status, out.detail) && faqs == old(faqs)) &&
              (out.Ok? ==> faqs == out.value && r == Ok(faqs[FindFaq(old(faqs), id).value]))
      ensures pages == old(pages) && nextPageId == old(nextPageId) && nextFaqId == old(nextFaqId)
    {
      var out := UpdateFaq(faqs, id, b);
      if out.HttpError? {
        return HttpError(out.status, out.detail);
      }
      var i := FindFaq(faqs, id).value;
      faqs := out.value;
      r := Ok(faqs[i]);
    }

    /** `DELETE /cms/faqs/{faq_id}` */
    method DeleteFaqRoute(id: int) returns (r: Outcome<()>)
      modifies this
      ensures var out := DeleteFaq(old(faqs), id);
              (out.HttpError? ==> r == HttpError(out.status, out.detail) && faqs == old(faqs)) &&
              (out.Ok? ==> r == Ok(()) && faqs == out.value)
      ensures pages == old(pages) && nextPageId == old(nextPageId) && nextFaqId == old(nextFaqId)
    {
      var out := DeleteFaq(faqs, id);
      if out.HttpError? {
        return HttpError(out.status, out.detail);
      }
      faqs := out.value;
      r := Ok(());
    }
  }
}
