/** app/services/background_task_service.py: the HTML-to-text extractor used
    to clean prompt and FAQ text before embedding, the regex fallback, and the
    job table operations (`create_job`, `get_job`, `get_active_jobs`,
    `get_recent_jobs`). The tokenizer of Python's `html.parser` is not
    modelled: the extractor is driven by the events it would report. */
module BackgroundTaskService {
  import opened Common
  import opened BackgroundJobModel

  // ---------------------------------------------------------------------
  // HTMLTextExtractor
  // ---------------------------------------------------------------------

  /** What `HTMLParser.feed` reports: a start tag, an end tag or character data. */
  datatype HtmlEvent = StartTag(tag: String) | EndTag(tag: String) | Data(text: String)

  /** Tags that open a new line when they start. */
  predicate OpensLine(tag: String) {
    tag in ["p", "div", "br", "h1", "h2", "h3", "h4", "h5", "h6", "li", "tr"]
  }

  /** Tags that add a line break again when they end. */
  predicate ClosesLine(tag: String) {
    tag in ["p", "h1", "h2", "h3", "h4", "h5", "h6"]
  }

  /** Tags whose content is dropped. */
  predicate IsSkipTag(tag: String) { tag == "script" || tag == "style" }

  /** The extractor's state: the collected text parts and the skip flag. */
  datatype ExtractorState = ExtractorState(parts: seq<String>, skip: bool)

  /** One handler call: `handle_starttag`, `handle_endtag` or `handle_data`. */
  function Step(st: ExtractorState, e: HtmlEvent): ExtractorState {
    match e
    case StartTag(t) =>
      ExtractorState(st.parts + (if OpensLine(t) then ["\n"] else []), if IsSkipTag(t) then true else st.skip)
    case EndTag(t) =>
      ExtractorState(st.parts + (if ClosesLine(t) then ["\n"] else []), if IsSkipTag(t) then false else st.skip)
    case Data(d) =>
      if st.skip then st else ExtractorState(st.parts + [d], st.skip)
  }

  /** The state after the handlers have seen `events` in order. */
  function Run(st: ExtractorState, events: seq<HtmlEvent>): ExtractorState
    decreases |events|
  {
    if events == [] then st
    else Step(Run(st, events[..|events| - 1]), events[|events| - 1])
  }

  /** Reference rendering with the skip flag never set: tags become their
      line breaks and every piece of data is kept. */
  function RenderOne(e: HtmlEvent): seq<String> {
    match e
    case StartTag(t) => if OpensLine(t) then ["\n"] else []
    case EndTag(t) => if ClosesLine(t) then ["\n"] else []
    case Data(d) => [d]
  }

  function Render(events: seq<HtmlEvent>): seq<String>
    decreases |events|
  {
    if events == [] then [] else Render(events[..|events| - 1]) + RenderOne(events[|events| - 1])
  }

  predicate OpensSkip(e: HtmlEvent) { e.StartTag? && IsSkipTag(e.tag) }
  predicate ClosesSkip(e: HtmlEvent) { e.EndTag? && IsSkipTag(e.tag) }

  /** Running the handlers over two batches is running them over the whole. */
  lemma {:induction false} RunAppend(st: ExtractorState, a: seq<HtmlEvent>, b: seq<HtmlEvent>)
    ensures Run(st, a + b) == Run(Run(st, a), b)
    decreases |b|
  {
    if b == [] {
      assert a + b == a;
    } else {
      assert (a + b)[..|a + b| - 1] == a + b[..|b| - 1];
      RunAppend(st, a, b[..|b| - 1]);
    }
  }

  /** Without script or style tags nothing is skipped: the parts are exactly
      the reference rendering, data kept in order. */
  lemma {:induction false} NoSkipTagsKeepsAllData(parts: seq<String>, events: seq<HtmlEvent>)
    requires forall i :: 0 <= i < |events| ==> !OpensSkip(events[i])
    ensures Run(ExtractorState(parts, false), events) == ExtractorState(parts + Render(events), false)
    decreases |events|
  {
    if events != [] {
      var pre, e := events[..|events| - 1], events[|events| - 1];
      NoSkipTagsKeepsAllData(parts, pre);
      assert !OpensSkip(e);
      assert Render(events) == Render(pre) + RenderOne(e);
      assert parts + Render(events) == (parts + Render(pre)) + RenderOne(e);
    }
  }

  /** Between an opening script/style tag and the next closing one, data is
      dropped: only line breaks of block tags can be added. */
  lemma {:induction false} SkippedDataDropped(parts: seq<String>, middle: seq<HtmlEvent>)
    requires forall i :: 0 <= i < |middle| ==> !ClosesSkip(middle[i])
    ensures Run(ExtractorState(parts, true), middle).skip
    ensures |Run(ExtractorState(parts, true), middle).parts| >= |parts|
    ensures Run(ExtractorState(parts, true), middle).parts[..|parts|] == parts
    ensures forall i :: |parts| <= i < |Run(ExtractorState(parts, true), middle).parts| ==>
              Run(ExtractorState(parts, true), middle).parts[i] == "\n"
    decreases |middle|
  {
    if middle != [] {
      SkippedDataDropped(parts, middle[..|middle| - 1]);
    }
  }

  /** So a script element's text never reaches the output. */
  lemma ScriptElementDropped(parts: seq<String>, before: seq<HtmlEvent>, middle: seq<HtmlEvent>)
    requires !Run(ExtractorState(parts, false), before).skip
    requires forall i :: 0 <= i < |middle| ==> !ClosesSkip(middle[i])
    ensures var mid := Run(ExtractorState(parts, false), before + [StartTag("script")]);
            var st := Run(ExtractorState(parts, false), before + [StartTag("script")] + middle);
            mid.skip && |st.parts| >= |mid.parts| && st.parts[..|mid.parts|] == mid.parts &&
            forall i :: |mid.parts| <= i < |st.parts| ==> st.parts[i] == "\n"
  {
    var start := ExtractorState(parts, false);
    RunAppend(start, before + [StartTag("script")], middle);
    var mid := Run(start, before + [StartTag("script")]);
    assert (before + [StartTag("script")])[..|before|] == before;
    assert mid.skip;
    SkippedDataDropped(mid.parts, middle);
  }

  /** `''.join(parts)` */
  function Concat(parts: seq<String>): String
    decreases |parts|
  {
    if parts == [] then [] else Concat(parts[..|parts| - 1]) + parts[|parts| - 1]
  }

  // ---------------------------------------------------------------------
  // get_text: the three clean-up passes
  // ---------------------------------------------------------------------

  /** The non-whitespace characters of `s`, in order. */
  function NonWs(s: String): String
    decreases |s|
  {
    if s == [] then [] else (if IsSpace(s[0]) then [] else [s[0]]) + NonWs(s[1..])
  }

  lemma {:induction false} NonWsAppend(a: String, b: String)
    ensures NonWs(a + b) == NonWs(a) + NonWs(b)
    decreases |a|
  {
    if a != [] {
      var h: String := if IsSpace(a[0]) then [] else [a[0]];
      assert (a + b)[0] == a[0];
      assert (a + b)[1..] == a[1..] + b;
      NonWsAppend(a[1..], b);
      calc {
        NonWs(a + b);
        h + NonWs(a[1..] + b);
        h + (NonWs(a[1..]) + NonWs(b));
        (h + NonWs(a[1..])) + NonWs(b);
        NonWs(a) + NonWs(b);
      }
    } else {
      assert a + b == b;
    }
  }

  lemma {:induction false} NonWsOfSpaces(s: String)
    requires AllSpace(s)
    ensures NonWs(s) == []
    decreases |s|
  {
    if s != [] { NonWsOfSpaces(s[1..]); }
  }

  /** Length of the leading whitespace run. */
  function SpaceRunLen(s: String): (n: nat)
    ensures n <= |s|
    ensures forall j :: 0 <= j < n ==> IsSpace(s[j])
    ensures n < |s| ==> !IsSpace(s[n])
  {
    if s == [] || !IsSpace(s[0]) then 0 else 1 + SpaceRunLen(s[1..])
  }

  /** Index of the last newline in `s`. */
  function LastNewline(s: String): (r: Option<nat>)
    ensures r.Some? ==> r.value < |s| && s[r.value] == '\n' && '\n' !in s[r.value + 1..]
    ensures r.None? ==> '\n' !in s
    decreases |s|
  {
    if s == [] then None
    else if s[|s| - 1] == '\n' then Some(|s| - 1)
    else LastNewline(s[..|s| - 1])
  }

  /** `re.sub(r'\n\s*\n', '\n\n', s)`: scanning left to right, a newline
      followed by whitespace that holds another newline is replaced, up to the
      last newline of that whitespace run, by two newlines. */
  function CollapseBlankLines(s: String): (r: String)
    decreases |s|
  {
    if s == [] then []
    else if s[0] != '\n' then [s[0]] + CollapseBlankLines(s[1..])
    else
      var run := s[1..1 + SpaceRunLen(s[1..])];
      match LastNewline(run)
      case None => ['\n'] + CollapseBlankLines(s[1..])
      case Some(j) => "\n\n" + CollapseBlankLines(s[j + 2..])
  }

  /** A newline, any whitespace, a newline: two newlines. */
  lemma BlankLinesBecomeTwo(w: String)
    requires AllSpace(w)
    ensures CollapseBlankLines("\n" + w + "\n") == "\n\n"
  {
    var s := "\n" + w + "\n";
    assert s[1..] == w + "\n";
    assert SpaceRunLen(s[1..]) == |w| + 1 by {
      SpaceRunAll(w + "\n");
    }
    var run := s[1..1 + |w| + 1];
    assert run == w + "\n";
    assert LastNewline(run) == Some(|w|);
    assert s[|w| + 2..] == [];
  }

  lemma {:induction false} SpaceRunAll(s: String)
    requires AllSpace(s)
    ensures SpaceRunLen(s) == |s|
    decreases |s|
  {
    if s != [] { SpaceRunAll(s[1..]); }
  }

  /** Text without newlines passes the first pass unchanged. */
  lemma {:induction false} NoNewlineUnchanged(s: String)
    requires '\n' !in s
    ensures CollapseBlankLines(s) == s
    decreases |s|
  {
    if s != [] {
      NoNewlineUnchanged(s[1..]);
    }
  }

  /** The first pass replaces whitespace by whitespace only. */
  lemma {:induction false} CollapseBlankLinesKeepsText(s: String)
    ensures NonWs(CollapseBlankLines(s)) == NonWs(s)
    decreases |s|
  {
    if s != [] {
      if s[0] != '\n' {
        CollapseBlankLinesKeepsText(s[1..]);
        NonWsAppend([s[0]], CollapseBlankLines(s[1..]));
      } else {
        var run := s[1..1 + SpaceRunLen(s[1..])];
        match LastNewline(run)
        case None =>
          assert CollapseBlankLines(s) == ['\n'] + CollapseBlankLines(s[1..]);
          CollapseBlankLinesKeepsText(s[1..]);
          NonWsAppend(['\n'], CollapseBlankLines(s[1..]));
        case Some(j) =>
          assert CollapseBlankLines(s) == "\n\n" + CollapseBlankLines(s[j + 2..]);
          CollapseBlankLinesKeepsText(s[j + 2..]);
          NonWsAppend("\n\n", CollapseBlankLines(s[j + 2..]));
          NonWsOfSpaces("\n\n");
          BlankRunHasNoText(s, j);
      }
    }
  }

  /** The newline and the whitespace after it, up to index `j + 1`, carry no text. */
  lemma BlankRunHasNoText(s: String, j: nat)
    requires s != [] && s[0] == '\n' && j < SpaceRunLen(s[1..])
    ensures NonWs(s) == NonWs(s[j + 2..])
  {
    var p := s[..j + 2];
    assert s == p + s[j + 2..];
    assert AllSpace(p) by {
      forall i | 0 <= i < |p| ensures IsSpace(p[i]) {
        if i > 0 { assert p[i] == s[1..][i - 1]; }
      }
    }
    NonWsAppend(p, s[j + 2..]);
    NonWsOfSpaces(p);
  }

  /** Drops the leading characters that satisfy `isRun`. */
  function DropRun(s: String, isRun: char -> bool): (r: String)
    ensures |r| <= |s| && r == s[|s| - |r|..]
    ensures r != [] ==> !isRun(r[0])
    ensures forall i :: 0 <= i < |s| - |r| ==> isRun(s[i])
    decreases |s|
  {
    if s != [] && isRun(s[0]) then DropRun(s[1..], isRun) else s
  }

  /** Replaces every maximal run of `isRun` characters by one space:
      `re.sub(r' +', ' ', s)` with `isRun` the space, `re.sub(r'\s+', ' ', s)`
      with `isRun` any whitespace. No two run characters stay adjacent. */
  function CollapseRuns(s: String, isRun: char -> bool): (r: String)
    requires isRun(' ')
    ensures forall i :: 0 <= i < |r| - 1 ==> !(isRun(r[i]) && isRun(r[i + 1]))
    ensures s == [] <==> r == []
    ensures s != [] ==> (isRun(r[0]) <==> isRun(s[0]))
    decreases |s|
  {
    if s == [] then []
    else if isRun(s[0]) then [' '] + CollapseRuns(DropRun(s, isRun), isRun)
    else [s[0]] + CollapseRuns(s[1..], isRun)
  }

  lemma {:induction false} CollapseRunsKeepsText(s: String, isRun: char -> bool)
    requires isRun(' ')
    requires forall c :: isRun(c) ==> IsSpace(c)
    ensures NonWs(CollapseRuns(s, isRun)) == NonWs(s)
    decreases |s|
  {
    if s != [] {
      if isRun(s[0]) {
        var t := DropRun(s, isRun);
        CollapseRunsKeepsText(t, isRun);
        NonWsAppend([' '], CollapseRuns(t, isRun));
        assert s == s[..|s| - |t|] + t;
        NonWsAppend(s[..|s| - |t|], t);
        NonWsOfSpaces(s[..|s| - |t|]);
      } else {
        CollapseRunsKeepsText(s[1..], isRun);
        NonWsAppend([s[0]], CollapseRuns(s[1..], isRun));
      }
    }
  }

  predicate IsBlank(c: char) { c == ' ' }

  /** No two spaces in a row. */
  predicate NoDoubleSpace(s: String) {
    forall i :: 0 <= i < |s| - 1 ==> !(s[i] == ' ' && s[i + 1] == ' ')
  }

  /** `str.strip()` is a slice of its input and keeps its text. */
  lemma StripIsSlice(s: String) returns (a: nat, b: nat)
    ensures a <= b <= |s| && Strip(s) == s[a..b]
    ensures AllSpace(s[..a]) && AllSpace(s[b..])
  {
    var t := RStrip(s);
    RStripSlice(s);
    LStripSlice(t);
    b := |t|;
    a := |t| - |LStrip(t)|;
    assert t == s[..b];
    assert Strip(s) == t[a..];
    var pre, suf := s[..a], s[b..];
    forall i | 0 <= i < |pre| ensures IsSpace(pre[i]) {
      assert pre[i] == t[i];
    }
    forall i | 0 <= i < |suf| ensures IsSpace(suf[i]) {
      assert suf[i] == s[b + i];
    }
  }

  lemma StripKeepsText(s: String)
    ensures NonWs(Strip(s)) == NonWs(s)
  {
    var a, b := StripIsSlice(s);
    var p, m, q := s[..a], s[a..b], s[b..];
    assert s == p + m + q;
    NonWsAppend(p + m, q);
    NonWsAppend(p, m);
    NonWsOfSpaces(p);
    NonWsOfSpaces(q);
  }

  /** `get_text` on the joined parts. */
  function CleanText(joined: String): (r: String)
    ensures r != [] ==> !IsSpace(r[0]) && !IsSpace(r[|r| - 1])
    ensures NoDoubleSpace(r)
  {
    var t := CollapseRuns(CollapseBlankLines(joined), IsBlank);
    StripNoDoubleSpace(t);
    Strip(t)
  }

  lemma StripNoDoubleSpace(t: String)
    requires NoDoubleSpace(t)
    ensures NoDoubleSpace(Strip(t))
  {
    var a, b := StripIsSlice(t);
    assert forall i :: 0 <= i < |t[a..b]| ==> t[a..b][i] == t[a + i];
  }

  /** The clean-up never loses or reorders visible text. */
  lemma CleanTextKeepsText(joined: String)
    ensures NonWs(CleanText(joined)) == NonWs(joined)
  {
    var t1 := CollapseBlankLines(joined);
    CollapseBlankLinesKeepsText(joined);
    CollapseRunsKeepsText(t1, IsBlank);
    StripKeepsText(CollapseRuns(t1, IsBlank));
  }

  class HtmlTextExtractor {
    var textParts: seq<String>
    var skipData: bool

    function State(): ExtractorState
      reads this
    {
      ExtractorState(textParts, skipData)
    }

    constructor ()
      ensures textParts == [] && !skipData
    {
      textParts := [];
      skipData := false;
    }

    /** `handle_starttag` */
    method HandleStartTag(tag: String)
      modifies this
      ensures State() == Step(old(State()), StartTag(tag))
    {
      if OpensLine(tag) {
        textParts := textParts + ["\n"];
      }
      if IsSkipTag(tag) {
        skipData := true;
      }
    }

    /** `handle_endtag` */
    method HandleEndTag(tag: String)
      modifies this
      ensures State() == Step(old(State()), EndTag(tag))
    {
      if IsSkipTag(tag) {
        skipData := false;
      }
      if ClosesLine(tag) {
        textParts := textParts + ["\n"];
      }
    }

    /** `handle_data` */
    method HandleData(data: String)
      modifies this
      ensures State() == Step(old(State()), Data(data))
    {
      if !skipData {
        textParts := textParts + [data];
      }
    }

    /** `feed`: the handlers run once per event, in order. */
    method Feed(events: seq<HtmlEvent>)
      modifies this
      ensures State() == Run(old(State()), events)
    {
      var i := 0;
      while i < |events|
        invariant 0 <= i <= |events|
        invariant State() == Run(old(State()), events[..i])
      {
        assert events[..i + 1][..i] == events[..i];
        match events[i] {
          case StartTag(t) => HandleStartTag(t);
          case EndTag(t) => HandleEndTag(t);
          case Data(d) => HandleData(d);
        }
        i := i + 1;
      }
      assert events[..i] == events;
    }

    /** `get_text`: no edge whitespace, no double spaces, and the visible
        text of the collected parts, in order. */
    function GetText(): (r: String)
      reads this
      ensures r != [] ==> !IsSpace(r[0]) && !IsSpace(r[|r| - 1])
      ensures NoDoubleSpace(r)
      ensures NonWs(r) == NonWs(Concat(textParts))
    {
      CleanTextKeepsText(Concat(textParts));
      CleanText(Concat(textParts))
    }
  }

  // ---------------------------------------------------------------------
  // strip_html_tags
  // ---------------------------------------------------------------------

  /** `re.sub(r'<[^>]+>', ' ', s)`: a `<`, at least one other character and
      the next `>` become one space. */
  function RemoveTags(s: String): (r: String)
    ensures '<' !in s ==> r == s
    decreases |s|
  {
    if s == [] then []
    else if s[0] == '<' then
      match FindChar(s[1..], '>')
      case Some(k) =>
        if k > 0 then [' '] + RemoveTags(s[k + 2..]) else ['<'] + RemoveTags(s[1..])
      case None => ['<'] + RemoveTags(s[1..])
    else
      assert '<' !in s ==> '<' !in s[1..];
      assert s == [s[0]] + s[1..];
      [s[0]] + RemoveTags(s[1..])
  }

  /** `strip_html_tags(html)`, where `parsed` is what the HTML parser
      reports for `html`, or None when it raises (then the regex fallback
      runs). */
  method StripHtmlTags(html: String, parsed: Option<seq<HtmlEvent>>) returns (r: String)
    ensures html == [] ==> r == []
    ensures '<' !in html ==> r == html
    ensures '<' in html && parsed.Some? ==> r == CleanText(Concat(Run(ExtractorState([], false), parsed.value).parts))
    ensures '<' in html && parsed.None? ==> r == Strip(CollapseRuns(RemoveTags(html), IsSpace))
    ensures '<' in html ==> r == [] || (!IsSpace(r[0]) && !IsSpace(r[|r| - 1]))
  {
    if html == [] {
      return [];
    }
    if '<' !in html {
      return html;
    }
    match parsed
    case Some(events) =>
      var parser := new HtmlTextExtractor();
      parser.Feed(events);
      r := parser.GetText();
    case None =>
      r := Strip(CollapseRuns(RemoveTags(html), IsSpace));
  }

  /** The fallback leaves no two whitespace characters side by side. */
  lemma FallbackCollapsesWhitespace(html: String)
    ensures var t := CollapseRuns(RemoveTags(html), IsSpace);
            forall i :: 0 <= i < |t| - 1 ==> !(IsSpace(t[i]) && IsSpace(t[i + 1]))
  {
  }

  // ---------------------------------------------------------------------
  // The job table
  // ---------------------------------------------------------------------

  /** The `to_dict()` views of a list of jobs. */
  function Views(js: seq<BackgroundJob>): (vs: seq<JobDict>)
    reads js
    ensures |vs| == |js|
    ensures forall i :: 0 <= i < |js| ==> vs[i] == js[i].ToDict()
    decreases |js|
  {
    if js == [] then [] else [js[0].ToDict()] + Views(js[1..])
  }

  predicate ActiveView(v: JobDict) {
    v.status == JobStatusValue(Pending) || v.status == JobStatusValue(Processing)
  }

  function ByCreatedDesc(v: JobDict): Key { (v.createdAt, 0) }

  /** `get_active_jobs`: PENDING or PROCESSING jobs, newest first, narrowed by
      a non-empty entity type and a non-zero entity id. */
  function ActiveJobs(views: seq<JobDict>, entityType: Option<String>, entityId: Option<int>): (r: seq<JobDict>)
    ensures SortedDesc(r, ByCreatedDesc)
    ensures forall v :: v in r ==> v in views && ActiveView(v)
    ensures forall v :: v in r && entityType.Some? && entityType.value != "" ==> v.entityType == entityType
    ensures forall v :: v in r && entityId.Some? && entityId.value != 0 ==> v.entityId == entityId
    ensures forall v :: (v in views && ActiveView(v)
                         && (entityType.Some? && entityType.value != "" ==> v.entityType == entityType)
                         && (entityId.Some? && entityId.value != 0 ==> v.entityId == entityId)) ==> v in r
  {
    var sel := Filter(views, (v: JobDict) =>
      ActiveView(v)
      && (entityType.Some? && entityType.value != "" ==> v.entityType == entityType)
      && (entityId.Some? && entityId.value != 0 ==> v.entityId == entityId));
    var r := SortDesc(sel, ByCreatedDesc);
    SortDescFacts(sel, ByCreatedDesc);
    assert forall v :: v in r <==> v in sel by {
      forall v ensures v in r <==> v in sel {
        assert v in r <==> v in multiset(r);
        assert v in sel <==> v in multiset(sel);
      }
    }
    r
  }

  /** The `job_type` filter of `get_recent_jobs`; no type keeps every job. */
  predicate OfType(v: JobDict, jobType: Option<JobType>) {
    jobType.Some? ==> v.jobType == JobTypeValue(jobType.value)
  }

  /** `get_recent_jobs`: at most `limit` jobs, newest first, optionally of one
      type; when no more than `limit` jobs match, every one of them is listed. */
  function RecentJobs(views: seq<JobDict>, limit: nat, jobType: Option<JobType>): (r: seq<JobDict>)
    ensures |r| <= limit
    ensures SortedDesc(r, ByCreatedDesc)
    ensures forall v :: v in r ==> v in views && OfType(v, jobType)
    ensures Count(views, (v: JobDict) => OfType(v, jobType)) <= limit ==>
              forall v :: v in views && OfType(v, jobType) ==> v in r
  {
    var sel := Filter(views, (v: JobDict) => OfType(v, jobType));
    var sorted := SortDesc(sel, ByCreatedDesc);
    SortDescFacts(sel, ByCreatedDesc);
    FilterCount(views, (v: JobDict) => OfType(v, jobType));
    assert forall v :: v in sorted <==> v in sel by {
      forall v ensures v in sorted <==> v in sel {
        assert v in sorted <==> v in multiset(sorted);
        assert v in sel <==> v in multiset(sel);
      }
    }
    var r := Take(sorted, limit);
    assert forall v :: v in r ==> v in sorted;
    r
  }

  class JobService {
    var jobs: seq<BackgroundJob>
    var nextId: int

    constructor ()
      ensures jobs == [] && nextId == 1
    {
      jobs := [];
      nextId := 1;
    }

    /** `create_job`: one new PENDING job with the given step count, added
        to the table. */
    method CreateJob(jobType: JobType, entityType: Option<String>, entityId: Option<int>,
                     createdById: Option<int>, totalSteps: int, now: Time) returns (job: BackgroundJob)
      modifies this
      ensures fresh(job)
      ensures jobs == old(jobs) + [job] && nextId == old(nextId) + 1
      ensures job.id == old(nextId) && job.status == Pending && job.totalSteps == totalSteps
      ensures job.progress == 0.0 && job.completedSteps == 0
      ensures job.jobType == jobType && job.entityType == entityType && job.entityId == entityId
    {
      job := new BackgroundJob(nextId, jobType, entityType, entityId, createdById, Some(totalSteps), now);
      jobs := jobs + [job];
      nextId := nextId + 1;
    }

    /** `get_job`: the first job with that id. */
    method GetJob(jobId: int) returns (job: BackgroundJob?)
      ensures job != null ==> job in jobs && job.id == jobId
      ensures job == null ==> forall j :: j in jobs ==> j.id != jobId
    {
      var i := 0;
      while i < |jobs|
        invariant 0 <= i <= |jobs|
        invariant forall k :: 0 <= k < i ==> jobs[k].id != jobId
      {
        if jobs[i].id == jobId {
          return jobs[i];
        }
        i := i + 1;
      }
      return null;
    }

    /** `get_active_jobs`, returned as the views the API sends. */
    method GetActiveJobs(entityType: Option<String>, entityId: Option<int>) returns (r: seq<JobDict>)
      ensures r == ActiveJobs(Views(jobs), entityType, entityId)
    {
      r := ActiveJobs(Views(jobs), entityType, entityId);
    }
  }
}
