/** Settings derived from the environment (app/core/config.py): the CORS
    origin list, the upload limits and the boolean parser of the mail flags. */
module Config {
  import opened Common

  const DefaultCorsOrigins: String :=
    "https://prompterly.bitsclan.us,http://localhost:3000,http://localhost:5173,http://localhost:5174," +
    "http://127.0.0.1:3000,http://127.0.0.1:5173,http://127.0.0.1:5174"

  /** `[origin.strip() for origin in s.split(",") if origin.strip()]` */
  function CorsOrigins(s: String): (r: seq<String>)
    ensures |r| <= |Split(s, ',')|
  {
    StrippedNonBlank(Split(s, ','))
  }

  function StrippedNonBlank(parts: seq<String>): (r: seq<String>)
    ensures |r| <= |parts|
    decreases |parts|
  {
    if parts == [] then []
    else
      var rest := StrippedNonBlank(parts[..|parts| - 1]);
      var o := Strip(parts[|parts| - 1]);
      if o != [] then rest + [o] else rest
  }

  /** An origin in the list is the non-empty, already stripped form of a piece. */
  lemma {:induction false} StrippedNonBlankSound(parts: seq<String>, o: String)
    requires o in StrippedNonBlank(parts)
    ensures o != [] && Strip(o) == o
    ensures PieceGives(parts, o)
    decreases |parts|
  {
    var init := parts[..|parts| - 1];
    var last := parts[|parts| - 1];
    var rest := StrippedNonBlank(init);
    if o in rest {
      StrippedNonBlankSound(init, o);
      var i :| 0 <= i < |init| && Strip(init[i]) == o;
      assert parts[i] == init[i];
      assert 0 <= i < |parts| && Strip(parts[i]) == o;
    } else {
      assert StrippedNonBlank(parts) == rest + [Strip(last)];
      assert o == Strip(last);
      StripIdempotent(last);
      assert Strip(parts[|parts| - 1]) == o;
    }
  }

  /** Some piece strips to `o`. */
  ghost predicate PieceGives(parts: seq<String>, o: String) {
    exists i :: 0 <= i < |parts| && Strip(parts[i]) == o
  }

  /** Every piece that is not blank gives its stripped form. */
  lemma {:induction false} StrippedNonBlankComplete(parts: seq<String>, i: int)
    requires 0 <= i < |parts| && Strip(parts[i]) != []
    ensures Strip(parts[i]) in StrippedNonBlank(parts)
    decreases |parts|
  {
    var init := parts[..|parts| - 1];
    if i < |parts| - 1 {
      assert init[i] == parts[i];
      StrippedNonBlankComplete(init, i);
    }
  }

  /** One origin at a time: it is in the list exactly when it is the
      non-empty stripped form of some piece, and it is then already stripped. */
  lemma StrippedNonBlankMember(parts: seq<String>, o: String)
    ensures o in StrippedNonBlank(parts) <==> o != [] && PieceGives(parts, o)
    ensures o in StrippedNonBlank(parts) ==> Strip(o) == o
  {
    if o in StrippedNonBlank(parts) {
      StrippedNonBlankSound(parts, o);
    }
    if o != [] && PieceGives(parts, o) {
      var i :| 0 <= i < |parts| && Strip(parts[i]) == o;
      StrippedNonBlankComplete(parts, i);
    }
  }

  /** Every origin is non-empty, has no surrounding whitespace, and is the
      stripped form of one of the comma-separated pieces; every piece that is
      not blank gives one. */
  lemma CorsOriginsExact(s: String)
    ensures forall o :: o in CorsOrigins(s) ==> o != [] && Strip(o) == o
    ensures forall o :: o in CorsOrigins(s) <==> o != [] && PieceGives(Split(s, ','), o)
  {
    var parts := Split(s, ',');
    forall o ensures (o in CorsOrigins(s) ==> o != [] && Strip(o) == o) &&
                     (o in CorsOrigins(s) <==> o != [] && PieceGives(parts, o)) {
      StrippedNonBlankMember(parts, o);
    }
  }

  /** No origin contains the separator. */
  lemma CorsOriginsHaveNoComma(s: String)
    ensures forall o :: o in CorsOrigins(s) ==> ',' !in o
  {
    var parts := Split(s, ',');
    forall o | o in CorsOrigins(s) ensures ',' !in o {
      StrippedNonBlankMember(parts, o);
      var i :| 0 <= i < |parts| && Strip(parts[i]) == o;
      StripSubseq(parts[i]);
    }
  }

  /** The OpenAI settings the class declares (config.py:72-74). With
      `extra = "ignore"` an undeclared name never becomes an attribute, so
      reading one raises AttributeError. */
  const OpenAiSettingNames: seq<String> := ["OPENAI_API_KEY", "OPENAI_MODEL", "OPENAI_EMBEDDING_MODEL"]

  const DefaultEmbeddingModel: String := "text-embedding-3-small"

  const DefaultAllowedFileTypes: String := "pdf,doc,docx,txt,png,jpg,jpeg,mp3,mp4,wav"

  /** `ALLOWED_FILE_TYPES.split(",")`, without stripping: the list joined back
      with commas is the setting itself. */
  function AllowedFileExtensions(s: String): (r: seq<String>)
    ensures |r| >= 1 && forall i :: 0 <= i < |r| ==> ',' !in r[i]
  {
    Split(s, ',')
  }

  lemma AllowedFileExtensionsRoundTrip(s: String)
    ensures Join(AllowedFileExtensions(s), ",") == s
  {
    SplitJoin(s, ',');
  }

  const DefaultMaxFileSizeMb: int := 50

  /** `MAX_FILE_SIZE_MB * 1024 * 1024` */
  function MaxFileSizeBytes(mb: int): (b: int)
    ensures b == mb * 1048576
  {
    mb * 1024 * 1024
  }

  lemma MaxFileSizeFacts(a: int, b: int)
    ensures MaxFileSizeBytes(DefaultMaxFileSizeMb) == 52428800
    ensures a <= b ==> MaxFileSizeBytes(a) <= MaxFileSizeBytes(b)
    ensures a >= 0 ==> MaxFileSizeBytes(a) >= 0
  {
  }

  /** A raw value of MAIL_TLS / MAIL_SSL before validation. */
  datatype RawValue = BoolRaw(b: bool) | StrRaw(s: String) | IntRaw(i: int) | NoneRaw

  const TrueWords: seq<String> := ["true", "1", "yes"]

  /** `parse_bool`: booleans pass through, strings are true when their lower
      case is one of "true", "1", "yes", anything else by Python truthiness. */
  function ParseBool(v: RawValue): bool {
    match v
    case BoolRaw(b) => b
    case StrRaw(s) => Lower(s) in TrueWords
    case IntRaw(i) => i != 0
    case NoneRaw => false
  }

  /** Case does not matter for strings, and a string that reads as false in
      Python ("") or as a number other than 1 is not true. */
  lemma ParseBoolFacts(s: String, b: bool)
    ensures ParseBool(BoolRaw(b)) == b
    ensures ParseBool(StrRaw(Lower(s))) == ParseBool(StrRaw(s))
    ensures ParseBool(StrRaw("TRUE")) && ParseBool(StrRaw("Yes")) && ParseBool(StrRaw("1"))
    ensures !ParseBool(StrRaw("")) && !ParseBool(StrRaw("false")) && !ParseBool(StrRaw("0"))
  {
    LowerIsLowered(s);
    assert Lower("TRUE") == "true";
    assert Lower("Yes") == "yes";
    assert Lower("1") == "1";
    assert Lower("") == "";
    assert Lower("false") == "false";
    assert Lower("0") == "0";
  }
}
