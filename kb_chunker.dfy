/** `_chunk_text` of app/services/knowledge_base_service.py (lines 386-418):
    the overlapping splitter that cuts an extracted document into chunks of
    at most 1000 characters, preferring to end a chunk after a sentence
    break, and starting the next chunk 200 characters before the cut.

    Python's slicing and `str.rfind` accept negative bounds (counted from the
    end of the string); both are modelled, because the loop can drive
    `start` below zero. The loop as written is run with a fuel bound:
    `ChunkLoop` answers None when the fuel runs out, and
    `NonTerminatingInput` exhibits a text on which it never finishes.
    `ChunkText` is the corrected splitter, which always advances. */
module KnowledgeBaseChunker {
  import opened Common

  const ChunkSize: int := 1000
  const Overlap: int := 200

  /** The sentence breaks, in the order they are tried. */
  const SentenceBreaks: seq<String> := [". ", "! ", "? ", "\n\n"]

  // ---------------------------------------------------------------------
  // Python slicing and rfind
  // ---------------------------------------------------------------------

  /** A slice bound as Python normalises it against a length `n`. */
  function SliceIndex(i: int, n: nat): (r: nat)
    ensures r <= n
    ensures 0 <= i <= n ==> r == i
    ensures i > n ==> r == n
    ensures i < 0 ==> r == Max(0, n + i)
  {
    if i < 0 then (if n + i < 0 then 0 else n + i) else if i > n then n else i
  }

  /** `s[a:b]` */
  function PySlice(s: String, a: int, b: int): (r: String)
    ensures SliceIndex(a, |s|) < SliceIndex(b, |s|) ==> r == s[SliceIndex(a, |s|)..SliceIndex(b, |s|)]
    ensures SliceIndex(a, |s|) >= SliceIndex(b, |s|) ==> r == []
  {
    var i, j := SliceIndex(a, |s|), SliceIndex(b, |s|);
    if i < j then s[i..j] else []
  }

  /** With a non-negative end, a slice is never longer than `b - a`. */
  lemma PySliceLength(s: String, a: int, b: int)
    requires b >= 0
    ensures |PySlice(s, a, b)| <= Max(0, b - a)
  {
  }

  predicate OccursAt(s: String, sub: String, k: int) {
    0 <= k && k + |sub| <= |s| && s[k..k + |sub|] == sub
  }

  /** `r` is the last `k` with `lo <= k` and `k + |sub| <= hi` where `sub`
      occurs, or -1 when there is none. */
  predicate IsLast(s: String, sub: String, lo: nat, hi: nat, r: int) {
    (r == -1 && forall k :: lo <= k && k + |sub| <= hi ==> !OccursAt(s, sub, k)) ||
    (lo <= r && r + |sub| <= hi && OccursAt(s, sub, r) &&
     forall k :: r < k && k + |sub| <= hi ==> !OccursAt(s, sub, k))
  }

  /** There is only one such `r`. */
  lemma IsLastUnique(s: String, sub: String, lo: nat, hi: nat, r1: int, r2: int)
    requires IsLast(s, sub, lo, hi, r1) && IsLast(s, sub, lo, hi, r2)
    ensures r1 == r2
  {
  }

  /** A miss at the top position leaves the last occurrence where it was. */
  lemma IsLastWiden(s: String, sub: String, lo: nat, hi: nat, r: int)
    requires lo + |sub| <= hi <= |s| && s[hi - |sub|..hi] != sub
    requires IsLast(s, sub, lo, hi - 1, r)
    ensures IsLast(s, sub, lo, hi, r)
  {
    assert !OccursAt(s, sub, hi - |sub|);
  }

  /** The search from the right that `str.rfind` performs. */
  function LastIndexIn(s: String, sub: String, lo: nat, hi: nat): (r: int)
    requires hi <= |s|
    ensures IsLast(s, sub, lo, hi, r)
    decreases hi
  {
    if hi < lo + |sub| then -1
    else if s[hi - |sub|..hi] == sub then hi - |sub|
    else
      var r := LastIndexIn(s, sub, lo, hi - 1);
      IsLastWiden(s, sub, lo, hi, r);
      r
  }

  /** Where `rfind` starts looking: the start is normalised as for slices,
      except that a start past the end is not clamped. */
  function RFindLo(s: String, start: int): nat {
    if start < 0 then Max(0, |s| + start) else start
  }

  /** `s.rfind(sub, start, end)`, by what it answers. */
  ghost function RFind(s: String, sub: String, start: int, end: int): (r: int)
    ensures IsLast(s, sub, RFindLo(s, start), SliceIndex(end, |s|), r)
    ensures r >= -1
    ensures r != -1 ==> OccursAt(s, sub, r) && r + |sub| <= SliceIndex(end, |s|)
    ensures r != -1 && start >= 0 ==> start <= r
  {
    var lo, hi := RFindLo(s, start), SliceIndex(end, |s|);
    assert IsLast(s, sub, lo, hi, LastIndexIn(s, sub, lo, hi));
    var r :| IsLast(s, sub, lo, hi, r);
    r
  }

  /** `s.rfind(sub, start, end)`, computed. */
  function PyRFind(s: String, sub: String, start: int, end: int): (r: int)
    ensures r == RFind(s, sub, start, end)
  {
    var lo, hi := RFindLo(s, start), SliceIndex(end, |s|);
    var r := LastIndexIn(s, sub, lo, hi);
    IsLastUnique(s, sub, lo, hi, r, RFind(s, sub, start, end));
    r
  }

  // ---------------------------------------------------------------------
  // One step of the loop
  // ---------------------------------------------------------------------

  /** The `for punct in [...]` search: the first break, from the `k`-th on
      in priority order, whose last occurrence in `[start, end)` lies
      strictly after `start`. */
  ghost function FirstHit(text: String, start: int, end: int, breaks: seq<String>, k: nat): (h: Option<nat>)
    requires k <= |breaks|
    ensures h.Some? ==> k <= h.value < |breaks| && RFind(text, breaks[h.value], start, end) > start
    decreases |breaks| - k
  {
    if k == |breaks| then None
    else if RFind(text, breaks[k], start, end) > start then Some(k)
    else FirstHit(text, start, end, breaks, k + 1)
  }

  /** The breaks passed over before the hit, or all of them when there is
      none, have no occurrence after `start`. */
  lemma {:induction false} FirstHitMisses(text: String, start: int, end: int, breaks: seq<String>, k: nat)
    requires k <= |breaks|
    ensures FirstHit(text, start, end, breaks, k).Some? ==>
      forall i :: k <= i < FirstHit(text, start, end, breaks, k).value ==> RFind(text, breaks[i], start, end) <= start
    ensures FirstHit(text, start, end, breaks, k).None? ==>
      forall i :: k <= i < |breaks| ==> RFind(text, breaks[i], start, end) <= start
    decreases |breaks| - k
  {
    if k < |breaks| && RFind(text, breaks[k], start, end) <= start {
      FirstHitMisses(text, start, end, breaks, k + 1);
    }
  }

  /** The cut: just after the first hit, or `end` when there is none. */
  ghost function CutAt(text: String, start: int, end: int, breaks: seq<String>): int {
    match FirstHit(text, start, end, breaks, 0)
    case None => end
    case Some(j) => RFind(text, breaks[j], start, end) + |breaks[j]|
  }

  /** With two-character breaks, the cut lies after `start`, no later than
      `end`, and at 1 at least, even when `start` is negative. */
  lemma CutAtBounds(text: String, start: int, end: int, breaks: seq<String>)
    requires start < end
    requires forall j :: 0 <= j < |breaks| ==> |breaks[j]| == 2
    ensures 0 < end ==> start < CutAt(text, start, end, breaks) <= end
    ensures 0 < end ==> 1 <= CutAt(text, start, end, breaks)
  {
    var h := FirstHit(text, start, end, breaks, 0);
    if h.Some? {
      assert RFind(text, breaks[h.value], start, end) > start;
    }
  }

  /** The search loop as the source writes it, returning the moved `end`. */
  method FindCut(text: String, start: int, end: int) returns (cut: int)
    ensures cut == CutAt(text, start, end, SentenceBreaks)
  {
    var j := 0;
    while j < |SentenceBreaks|
      invariant 0 <= j <= |SentenceBreaks|
      invariant FirstHit(text, start, end, SentenceBreaks, 0) == FirstHit(text, start, end, SentenceBreaks, j)
    {
      var lastPunct := PyRFind(text, SentenceBreaks[j], start, end);
      if lastPunct > start {
        return lastPunct + |SentenceBreaks[j]|;
      }
      j := j + 1;
    }
    cut := end;
  }

  /** Where a chunk that starts at `start` ends: `start + chunk_size`, moved
      back to a sentence break when that is inside the text. */
  ghost function StepEnd(text: String, start: int): (e: int)
    ensures start >= 0 ==> start < e <= start + ChunkSize
    ensures start > -ChunkSize ==> 1 <= e <= start + ChunkSize
  {
    var end := start + ChunkSize;
    if end < |text| then
      assert forall j :: 0 <= j < |SentenceBreaks| ==> |SentenceBreaks[j]| == 2;
      CutAtBounds(text, start, end, SentenceBreaks);
      CutAt(text, start, end, SentenceBreaks)
    else end
  }

  /** The text the step slices out, `text[start:end]`, before stripping. */
  ghost function StepSlice(text: String, start: int): String {
    PySlice(text, start, StepEnd(text, start))
  }

  /** Every slice a step takes fits in `chunk_size`. */
  lemma StepSliceFits(text: String, start: int)
    requires start > -ChunkSize
    ensures |StepSlice(text, start)| <= ChunkSize
  {
    PySliceLength(text, start, StepEnd(text, start));
  }

  /** `chunk = ...strip(); if chunk: chunks.append(chunk)` */
  function Emit(c: String): seq<String> {
    if c != [] then [c] else []
  }

  /** The chunk list a slice contributes: stripped, and dropped when empty. */
  function Keep(raw: String): (cs: seq<String>)
    ensures |cs| <= 1
    ensures |cs| == 1 ==> cs[0] != [] && |cs[0]| <= |raw|
  {
    Emit(Strip(raw))
  }

  /** `f` applied to every element, the results concatenated. */
  function ConcatMap<T, U>(xs: seq<T>, f: T -> seq<U>): seq<U> {
    if xs == [] then [] else f(xs[0]) + ConcatMap(xs[1..], f)
  }

  lemma {:induction false} ConcatMapSnoc<T, U>(xs: seq<T>, x: T, f: T -> seq<U>)
    ensures ConcatMap(xs + [x], f) == ConcatMap(xs, f) + f(x)
  {
    if xs == [] {
      assert ConcatMap([x], f) == f(x) + ConcatMap([], f);
    } else {
      assert (xs + [x])[1..] == xs[1..] + [x];
      ConcatMapSnoc(xs[1..], x, f);
      assert ConcatMap(xs + [x], f) == f(xs[0]) + (ConcatMap(xs[1..], f) + f(x));
    }
  }

  /** The chunks kept from a run of slices. */
  function Finish(raws: seq<String>): seq<String> {
    ConcatMap(raws, Keep)
  }

  predicate RawsFit(raws: seq<String>) {
    forall i :: 0 <= i < |raws| ==> |raws[i]| <= ChunkSize
  }

  predicate ChunksFit(cs: seq<String>) {
    forall i :: 0 <= i < |cs| ==> cs[i] != [] && |cs[i]| <= ChunkSize
  }

  /** Kept chunks are non-empty and no longer than the slices they come from. */
  lemma {:induction false} FinishFits(raws: seq<String>)
    requires RawsFit(raws)
    ensures ChunksFit(Finish(raws))
  {
    if raws != [] {
      assert RawsFit(raws[1..]) by {
        forall i | 0 <= i < |raws[1..]| ensures |raws[1..][i]| <= ChunkSize {
          assert raws[1..][i] == raws[i + 1];
        }
      }
      FinishFits(raws[1..]);
      var e, f := Keep(raws[0]), Finish(raws[1..]);
      assert Finish(raws) == e + f;
      forall i | 0 <= i < |e + f| ensures (e + f)[i] != [] && |(e + f)[i]| <= ChunkSize {
        if i < |e| { assert (e + f)[i] == e[0]; } else { assert (e + f)[i] == f[i - |e|]; }
      }
    }
  }

  // ---------------------------------------------------------------------
  // The loop as written
  // ---------------------------------------------------------------------

  /** The slices taken by `while start < text_length: ...; start = end -
      overlap`, with fuel: one unit per iteration, None when it runs out. */
  ghost function ChunkLoop(text: String, start: int, fuel: nat): Option<seq<String>>
    decreases fuel
  {
    if start >= |text| then Some([])
    else if fuel == 0 then None
    else
      match ChunkLoop(text, StepEnd(text, start) - Overlap, fuel - 1)
      case None => None
      case Some(rest) => Some([StepSlice(text, start)] + rest)
  }

  /** `_chunk_text(text)` as written, given `fuel` iterations. */
  ghost function ChunkTextAsWritten(text: String, fuel: nat): Option<seq<String>> {
    if text == [] then Some([])
    else
      match ChunkLoop(text, 0, fuel)
      case None => None
      case Some(raws) => Some(Finish(raws))
  }

  /** Empty text gives no chunks. */
  lemma EmptyTextNoChunks(fuel: nat)
    ensures ChunkTextAsWritten([], fuel) == Some([])
  {
  }

  /** `prefix` put in front of a finished run's slices. */
  function Prepend<T>(prefix: seq<T>, o: Option<seq<T>>): Option<seq<T>> {
    match o
    case None => None
    case Some(rest) => Some(prefix + rest)
  }

  /** One iteration of the loop. */
  lemma LoopUnfold(text: String, start: int, fuel: nat)
    requires start < |text| && fuel > 0
    ensures ChunkLoop(text, start, fuel)
         == Prepend([StepSlice(text, start)], ChunkLoop(text, StepEnd(text, start) - Overlap, fuel - 1))
  {
  }

  /** Every slice the loop takes fits in `chunk_size`, even after `start`
      has gone negative. */
  lemma {:induction false} AsWrittenRawsFit(text: String, start: int, fuel: nat)
    requires start > -ChunkSize
    ensures ChunkLoop(text, start, fuel).Some? ==> RawsFit(ChunkLoop(text, start, fuel).value)
    decreases fuel
  {
    if start < |text| && fuel > 0 {
      var next := StepEnd(text, start) - Overlap;
      AsWrittenRawsFit(text, next, fuel - 1);
      StepSliceFits(text, start);
      LoopUnfold(text, start, fuel);
      var rest := ChunkLoop(text, next, fuel - 1);
      if rest.Some? {
        var all := [StepSlice(text, start)] + rest.value;
        forall i | 0 <= i < |all| ensures |all[i]| <= ChunkSize {
          if i > 0 { assert all[i] == rest.value[i - 1]; }
        }
      }
    }
  }

  /** Whatever chunks the loop returns are non-empty and at most
      `chunk_size` characters long. */
  lemma AsWrittenChunksFit(text: String, fuel: nat)
    ensures ChunkTextAsWritten(text, fuel).Some? ==> ChunksFit(ChunkTextAsWritten(text, fuel).value)
  {
    if text != [] {
      AsWrittenRawsFit(text, 0, fuel);
      if ChunkLoop(text, 0, fuel).Some? {
        FinishFits(ChunkLoop(text, 0, fuel).value);
      }
    }
  }

  /** A text no longer than `chunk_size - overlap` is one chunk: the whole
      text, stripped (or nothing when it is blank). */
  lemma ShortTextOneChunk(text: String, fuel: nat)
    requires 0 < |text| <= ChunkSize - Overlap && fuel >= 1
    ensures ChunkTextAsWritten(text, fuel) == Some(Emit(Strip(text)))
  {
    assert StepEnd(text, 0) == ChunkSize;
    assert StepSlice(text, 0) == text[0..|text|] == text;
    LoopUnfold(text, 0, fuel);
    assert ChunkLoop(text, ChunkSize - Overlap, fuel - 1) == Some([]);
    assert [text] + [] == [text];
    assert ChunkLoop(text, 0, fuel) == Some([text]);
    assert Finish([text]) == Keep(text) + ConcatMap([], Keep);
    assert Keep(text) + [] == Keep(text);
  }

  /** `if chunk: chunks.append(chunk)` adds what `Keep` keeps. */
  lemma AppendKept(chunks: seq<String>, raw: String)
    ensures (if Strip(raw) != [] then chunks + [Strip(raw)] else chunks) == chunks + Keep(raw)
  {
    if Strip(raw) == [] {
      assert chunks + [] == chunks;
    }
  }

  lemma PrependNil<T>(o: Option<seq<T>>)
    ensures Prepend([], o) == o
  {
    if o.Some? {
      assert [] + o.value == o.value;
    }
  }

  lemma PrependTwice<T>(a: seq<T>, b: seq<T>, o: Option<seq<T>>)
    ensures Prepend(a, Prepend(b, o)) == Prepend(a + b, o)
  {
    if o.Some? {
      assert a + (b + o.value) == a + b + o.value;
    }
  }

  /** One turn of the loop keeps its invariant: the slices taken so far,
      followed by what the rest of the loop takes, are what the whole loop
      takes; the chunks are the kept part of the slices. */
  lemma LoopAdvance(text: String, start0: int, fuel: nat, raws: seq<String>, start: int, left: nat,
                    slice: String, next: int, rem: nat)
    requires start < |text| && left == rem + 1
    requires next == StepEnd(text, start) - Overlap && slice == PySlice(text, start, StepEnd(text, start))
    requires ChunkLoop(text, start0, fuel) == Prepend(raws, ChunkLoop(text, start, left))
    ensures ChunkLoop(text, start0, fuel) == Prepend(raws + [slice], ChunkLoop(text, next, rem))
  {
    var rest := ChunkLoop(text, next, rem);
    LoopUnfold(text, start, left);
    assert ChunkLoop(text, start, left) == Prepend([slice], rest);
    PrependTwice(raws, [slice], rest);
  }

  /** `end = start + chunk_size`, moved back to a sentence break when it is
      inside the text, and the slice `text[start:end]`. */
  method TakeSlice(text: String, start: int) returns (end: int, slice: String)
    ensures end == StepEnd(text, start) && slice == PySlice(text, start, end)
  {
    end := start + ChunkSize;
    if end < |text| {
      end := FindCut(text, start, end);
    }
    slice := PySlice(text, start, end);
  }

  /** The `while start < text_length` loop from a given `start`, with the
      chunks collected so far; it stops after `fuel` iterations at the latest. */
  method LoopFrom(text: String, start0: int, fuel: nat) returns (chunks: seq<String>, finished: bool)
    ensures finished <==> ChunkLoop(text, start0, fuel).Some?
    ensures finished ==> chunks == Finish(ChunkLoop(text, start0, fuel).value)
  {
    chunks := [];
    ghost var raws: seq<String> := [];
    var start := start0;
    var left := fuel;
    PrependNil(ChunkLoop(text, start0, fuel));
    while start < |text| && left > 0
      invariant ChunkLoop(text, start0, fuel) == Prepend(raws, ChunkLoop(text, start, left))
      invariant chunks == Finish(raws)
      decreases left
    {
      var end, slice := TakeSlice(text, start);
      var next, rem := end - Overlap, left - 1;
      LoopAdvance(text, start0, fuel, raws, start, left, slice, next, rem);
      ConcatMapSnoc(raws, slice, Keep);
      AppendKept(chunks, slice);
      raws := raws + [slice];
      var chunk := Strip(slice);
      if chunk != [] {
        chunks := chunks + [chunk];
      }
      start, left := next, rem;
    }
    finished := start >= |text|;
    if finished {
      assert raws + [] == raws;
    }
  }

  /** `_chunk_text` as the source writes it, run for at most `fuel`
      iterations: nothing for empty text, else the loop from 0. */
  method ChunkTextLoop(text: String, fuel: nat) returns (chunks: seq<String>, finished: bool)
    ensures finished <==> ChunkTextAsWritten(text, fuel).Some?
    ensures finished ==> chunks == ChunkTextAsWritten(text, fuel).value
  {
    if text == [] {
      return [], true;
    }
    chunks, finished := LoopFrom(text, 0, fuel);
  }

  /** The input that shows the loop need not end: a sentence break near the
      start of a text longer than `chunk_size` pulls `start` below zero; from
      there `rfind` finds nothing, which `-1 > start` takes for a hit, the
      cut lands at 1, and `start` settles at -199 for ever. */
  function StuckText(): (t: String)
    ensures |t| == 1500
  {
    "A. " + seq(1497, _ => 'x')
  }

  /** From a negative start whose normalised value lies past the search
      end, `rfind` gives -1, which passes `-1 > start`: the cut is at 1. */
  lemma NegativeStartCutsAtOne(start: int)
    requires -ChunkSize + 500 < start < -1
    ensures StepEnd(StuckText(), start) == 1
  {
    var t := StuckText();
    assert RFind(t, ". ", start, start + ChunkSize) == -1;
    assert FirstHit(t, start, start + ChunkSize, SentenceBreaks, 0) == Some(0);
  }

  lemma FirstCut()
    ensures StepEnd(StuckText(), 0) == 3
  {
    var t := StuckText();
    assert OccursAt(t, ". ", 1) by { assert t[1..3] == ". "; }
    forall k | 2 <= k ensures !OccursAt(t, ". ", k) {
      if k + 2 <= |t| {
        assert t[k] != '.' by {
          if k > 2 { assert t[k] == seq(1497, _ => 'x')[k - 3]; }
        }
        assert t[k..k + 2][0] == t[k];
      }
    }
    var r := RFind(t, ". ", 0, ChunkSize);
    assert r == LastIndexIn(t, ". ", 0, ChunkSize);
    assert r != -1;
    assert r >= 1;
    assert r == 1;
    assert FirstHit(t, 0, ChunkSize, SentenceBreaks, 0) == Some(0);
  }

  lemma {:induction false} StuckAtMinus199(fuel: nat)
    ensures ChunkLoop(StuckText(), -199, fuel) == None
    decreases fuel
  {
    if fuel > 0 {
      NegativeStartCutsAtOne(-199);
      LoopUnfold(StuckText(), -199, fuel);
      StuckAtMinus199(fuel - 1);
    }
  }

  /** However much fuel it is given, the loop never finishes on `StuckText()`. */
  lemma NonTerminatingInput(fuel: nat)
    ensures ChunkTextAsWritten(StuckText(), fuel) == None
  {
    StuckFromZero(fuel);
  }

  lemma StuckFromZero(fuel: nat)
    ensures ChunkLoop(StuckText(), 0, fuel) == None
  {
    var t := StuckText();
    if fuel > 0 {
      FirstCut();
      LoopUnfold(t, 0, fuel);
      if fuel > 1 {
        NegativeStartCutsAtOne(-197);
        LoopUnfold(t, -197, fuel - 1);
        StuckAtMinus199(fuel - 2);
      }
    }
  }

  // ---------------------------------------------------------------------
  // The corrected splitter
  // ---------------------------------------------------------------------

  /** The next start: `end - overlap` when that moves forward, else `end`. */
  ghost function NextStart(text: String, start: nat): (n: nat)
    ensures n > start
  {
    var end := StepEnd(text, start);
    if end - Overlap > start then end - Overlap else end
  }

  /** The slices the corrected loop takes from `start` on. */
  ghost function SlicesFrom(text: String, start: nat): (raws: seq<String>)
    ensures RawsFit(raws)
    decreases |text| - start
  {
    if start >= |text| then []
    else
      StepSliceFits(text, start);
      var rest := SlicesFrom(text, NextStart(text, start));
      var all := [StepSlice(text, start)] + rest;
      assert forall i :: 1 <= i < |all| ==> all[i] == rest[i - 1];
      all
  }

  /** The corrected `_chunk_text`: always terminates; chunks are non-empty
      and fit in `chunk_size`; empty text has none. */
  ghost function ChunkText(text: String): (cs: seq<String>)
    ensures text == [] ==> cs == []
    ensures ChunksFit(cs)
  {
    FinishFits(SlicesFrom(text, 0));
    Finish(SlicesFrom(text, 0))
  }

  /** One turn of the corrected loop keeps its invariant. */
  lemma FixedAdvance(text: String, start0: nat, raws: seq<String>, start: nat, slice: String, next: nat)
    requires start < |text|
    requires slice == StepSlice(text, start) && next == NextStart(text, start)
    requires SlicesFrom(text, start0) == raws + SlicesFrom(text, start)
    ensures SlicesFrom(text, start0) == (raws + [slice]) + SlicesFrom(text, next)
  {
    assert SlicesFrom(text, start) == [slice] + SlicesFrom(text, next);
    assert raws + ([slice] + SlicesFrom(text, next)) == (raws + [slice]) + SlicesFrom(text, next);
  }

  /** The corrected loop from `start0`: the steps of the source, except that
      a step whose `end - overlap` would not move forward continues at `end`. */
  method FixedFrom(text: String, start0: nat) returns (chunks: seq<String>)
    ensures chunks == Finish(SlicesFrom(text, start0))
  {
    chunks := [];
    ghost var raws: seq<String> := [];
    var start: nat := start0;
    assert [] + SlicesFrom(text, start0) == SlicesFrom(text, start0);
    while start < |text|
      invariant SlicesFrom(text, start0) == raws + SlicesFrom(text, start)
      invariant chunks == Finish(raws)
      decreases |text| - start
    {
      var end, slice := TakeSlice(text, start);
      var next: nat := if end - Overlap > start then end - Overlap else end;
      FixedAdvance(text, start0, raws, start, slice, next);
      ConcatMapSnoc(raws, slice, Keep);
      AppendKept(chunks, slice);
      raws := raws + [slice];
      var chunk := Strip(slice);
      if chunk != [] {
        chunks := chunks + [chunk];
      }
      start := next;
    }
    assert raws + [] == raws;
  }

  /** The corrected `_chunk_text`, computed. */
  method ChunkTextFixed(text: String) returns (chunks: seq<String>)
    ensures chunks == ChunkText(text)
  {
    chunks := FixedFrom(text, 0);
  }

  /** Does every step from `start` on move forward by `end - overlap`? */
  ghost predicate Progresses(text: String, start: nat)
    decreases |text| - start
  {
    start >= |text| ||
    (StepEnd(text, start) - Overlap > start && Progresses(text, StepEnd(text, start) - Overlap))
  }

  lemma {:induction false} LoopAgreesWhenProgressing(text: String, start: nat, fuel: nat)
    requires Progresses(text, start)
    requires fuel >= |text| - start
    ensures ChunkLoop(text, start, fuel) == Some(SlicesFrom(text, start))
    decreases |text| - start
  {
    if start < |text| {
      var next := StepEnd(text, start) - Overlap;
      assert NextStart(text, start) == next;
      LoopAgreesWhenProgressing(text, next, fuel - 1);
      LoopUnfold(text, start, fuel);
    }
  }

  /** Wherever the source's loop moves forward at every step, it finishes
      within `|text|` iterations with the corrected splitter's chunks. */
  lemma AgreesWhenProgressing(text: String)
    requires Progresses(text, 0)
    ensures ChunkTextAsWritten(text, |text|) == Some(ChunkText(text))
  {
    LoopAgreesWhenProgressing(text, 0, |text|);
  }

  /** A text without any sentence break is cut every `chunk_size`
      characters and always progresses. */
  lemma {:induction false} NoBreaksProgresses(text: String, start: nat)
    requires forall j, k :: 0 <= j < |SentenceBreaks| ==> !OccursAt(text, SentenceBreaks[j], k)
    ensures Progresses(text, start)
    decreases |text| - start
  {
    if start < |text| {
      var end := start + ChunkSize;
      if end < |text| {
        assert forall j :: 0 <= j < |SentenceBreaks| ==> RFind(text, SentenceBreaks[j], start, end) == -1;
      }
      assert StepEnd(text, start) == end;
      NoBreaksProgresses(text, end - Overlap);
    }
  }
}
