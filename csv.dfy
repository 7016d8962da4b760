/** Comma-separated text: the plain `,`-joined lines the user export
    writes, and a quote-every-field encoding (`csv.QUOTE_ALL`: each field
    in double quotes, an inner quote doubled, records ended by "\n") with
    its reader. */
module Csv {
  import opened Common

  // ---------------------------------------------------------------------
  // Counting separators
  // ---------------------------------------------------------------------

  /** How many times `c` occurs in `s`. */
  function Occurrences(s: String, c: char): nat {
    if s == [] then 0 else (if s[0] == c then 1 else 0) + Occurrences(s[1..], c)
  }

  lemma {:induction false} OccurrencesConcat(a: String, b: String, c: char)
    ensures Occurrences(a + b, c) == Occurrences(a, c) + Occurrences(b, c)
  {
    if a == [] {
      assert a + b == b;
    } else {
      assert (a + b)[0] == a[0];
      assert (a + b)[1..] == a[1..] + b;
      OccurrencesConcat(a[1..], b, c);
    }
  }

  lemma {:induction false} OccurrencesNone(s: String, c: char)
    requires c !in s
    ensures Occurrences(s, c) == 0
  {
    if s != [] {
      OccurrencesNone(s[1..], c);
    }
  }

  lemma {:induction false} OccurrencesSome(s: String, c: char)
    requires c in s
    ensures Occurrences(s, c) >= 1
  {
    if s[0] != c {
      OccurrencesSome(s[1..], c);
    }
  }

  /** `s.split(sep)` has one piece more than `s` has separators. */
  lemma {:induction false} SplitPieces(s: String, sep: char)
    ensures |Split(s, sep)| == Occurrences(s, sep) + 1
    decreases |s|
  {
    match FindChar(s, sep)
    case None =>
      OccurrencesNone(s, sep);
    case Some(k) =>
      SplitPieces(s[k + 1..], sep);
      assert s == s[..k] + [sep] + s[k + 1..];
      OccurrencesConcat(s[..k] + [sep], s[k + 1..], sep);
      OccurrencesConcat(s[..k], [sep], sep);
      OccurrencesNone(s[..k], sep);
  }

  // ---------------------------------------------------------------------
  // Quote-all encoding
  // ---------------------------------------------------------------------

  /** Doubles every double quote. */
  function Escape(f: String): (r: String)
    ensures |r| == |f| + Occurrences(f, '"')
  {
    if f == [] then []
    else if f[0] == '"' then "\"\"" + Escape(f[1..])
    else [f[0]] + Escape(f[1..])
  }

  function Quoted(f: String): String {
    "\"" + Escape(f) + "\""
  }

  /** The fields of one record, quoted and joined by commas, then "\n". */
  function EncodeRecord(fields: seq<String>): (r: String)
    requires |fields| >= 1
    ensures |r| >= 3 && r[0] == '"' && r[|r| - 1] == '\n'
  {
    if |fields| == 1 then Quoted(fields[0]) + "\n"
    else Quoted(fields[0]) + "," + EncodeRecord(fields[1..])
  }

  function EncodeDocument(records: seq<seq<String>>): String
    requires forall i :: 0 <= i < |records| ==> |records[i]| >= 1
  {
    if records == [] then [] else EncodeRecord(records[0]) + EncodeDocument(records[1..])
  }

  /** Reads the rest of a quoted field, after its opening quote: a doubled
      quote stands for one quote, a single quote closes the field. Gives
      the field and the text after the closing quote. */
  function ReadQuoted(s: String): (r: Option<(String, String)>)
    ensures r.Some? ==> |r.value.1| < |s|
  {
    if s == [] then None
    else if s[0] == '"' then
      if |s| >= 2 && s[1] == '"' then
        match ReadQuoted(s[2..])
        case None => None
        case Some(p) => Some(("\"" + p.0, p.1))
      else Some(([], s[1..]))
    else
      match ReadQuoted(s[1..])
      case None => None
      case Some(p) => Some(([s[0]] + p.0, p.1))
  }

  /** Reads one record: quoted fields separated by commas, up to and
      including its "\n". Gives the fields and the text after the record. */
  function ParseRecord(s: String): (r: Option<(seq<String>, String)>)
    ensures r.Some? ==> |r.value.1| < |s| && |r.value.0| >= 1
    decreases |s|
  {
    if s == [] || s[0] != '"' then None
    else
      match ReadQuoted(s[1..])
      case None => None
      case Some(p) =>
        if p.1 == [] then None
        else if p.1[0] == '\n' then Some(([p.0], p.1[1..]))
        else if p.1[0] == ',' then
          match ParseRecord(p.1[1..])
          case None => None
          case Some(q) => Some(([p.0] + q.0, q.1))
        else None
  }

  function ParseDocument(s: String): Option<seq<seq<String>>>
    decreases |s|
  {
    if s == [] then Some([])
    else
      match ParseRecord(s)
      case None => None
      case Some(p) =>
        match ParseDocument(p.1)
        case None => None
        case Some(rest) => Some([p.0] + rest)
  }

  // ---------------------------------------------------------------------
  // Round trip
  // ---------------------------------------------------------------------

  /** An escaped field followed by the closing quote reads back whole. */
  lemma {:induction false} ReadQuotedEscape(f: String, rest: String)
    requires rest == [] || rest[0] != '"'
    ensures ReadQuoted(Escape(f) + "\"" + rest) == Some((f, rest))
  {
    var s := Escape(f) + "\"" + rest;
    if f == [] {
      assert s == ['"'] + rest;
      assert s[0] == '"' && s[1..] == rest;
      assert !(|s| >= 2 && s[1] == '"');
    } else if f[0] == '"' {
      var t := Escape(f[1..]) + "\"" + rest;
      assert s == "\"\"" + t;
      assert s[0] == '"' && s[1] == '"' && s[2..] == t;
      ReadQuotedEscape(f[1..], rest);
      assert "\"" + f[1..] == f;
    } else {
      var t := Escape(f[1..]) + "\"" + rest;
      assert s == [f[0]] + t;
      assert s[0] == f[0] && s[1..] == t;
      ReadQuotedEscape(f[1..], rest);
      assert [f[0]] + f[1..] == f;
    }
  }

  /** Any record, followed by anything, reads back as its fields. */
  lemma {:induction false} RecordRoundTrip(fields: seq<String>, rest: String)
    requires |fields| >= 1
    ensures ParseRecord(EncodeRecord(fields) + rest) == Some((fields, rest))
  {
    var s := EncodeRecord(fields) + rest;
    if |fields| == 1 {
      assert s == "\"" + (Escape(fields[0]) + "\"" + ("\n" + rest));
      ReadQuotedEscape(fields[0], "\n" + rest);
      assert s[1..] == Escape(fields[0]) + "\"" + ("\n" + rest);
      assert ("\n" + rest)[1..] == rest;
      assert [fields[0]] == fields;
    } else {
      var tail := EncodeRecord(fields[1..]) + rest;
      assert s == "\"" + (Escape(fields[0]) + "\"" + ("," + tail));
      ReadQuotedEscape(fields[0], "," + tail);
      assert s[1..] == Escape(fields[0]) + "\"" + ("," + tail);
      assert ("," + tail)[1..] == tail;
      RecordRoundTrip(fields[1..], rest);
      assert [fields[0]] + fields[1..] == fields;
    }
  }

  /** Reading an encoded document gives back its records, whatever the
      fields hold: commas, quotes and line breaks included. */
  lemma {:induction false} DocumentRoundTrip(records: seq<seq<String>>)
    requires forall i :: 0 <= i < |records| ==> |records[i]| >= 1
    ensures ParseDocument(EncodeDocument(records)) == Some(records)
  {
    if records != [] {
      var rest := EncodeDocument(records[1..]);
      RecordRoundTrip(records[0], rest);
      DocumentRoundTrip(records[1..]);
      assert [records[0]] + records[1..] == records;
    }
  }

  lemma {:induction false} EncodeDocumentSnoc(records: seq<seq<String>>, x: seq<String>)
    requires forall i :: 0 <= i < |records| ==> |records[i]| >= 1
    requires |x| >= 1
    ensures EncodeDocument(records + [x]) == EncodeDocument(records) + EncodeRecord(x)
  {
    if records != [] {
      assert (records + [x])[1..] == records[1..] + [x];
      EncodeDocumentSnoc(records[1..], x);
    }
  }
}
