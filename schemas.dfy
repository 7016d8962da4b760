/** Request bodies and their validators (the modules under app/schemas).

    A body is checked field by field in declaration order: a field's length
    or range constraint is checked first and its validator runs only when the
    constraint holds; every failing field contributes one error, and the
    body is accepted only when no field fails. A validator on an optional
    field does not run when the field is omitted. */
module Schemas {
  import opened Common
  import LoungeModel
  import BillingModel

  // ---------------------------------------------------------------------
  // Errors
  // ---------------------------------------------------------------------

  datatype ErrorKind =
    | TooShort(min: nat)
    | TooLong(max: nat)
    | BelowMin(lo: int)
    | AboveMax(hi: int)
    | PatternMismatch
    | ValueError(message: String)

  datatype FieldError = FieldError(field: String, kind: ErrorKind)

  /** The outcome of validating a body: the normalised body or its errors. */
  datatype Checked<T> = Valid(value: T) | Invalid(errors: seq<FieldError>)

  function ErrorsOf(field: String, e: Option<ErrorKind>): (r: seq<FieldError>)
    ensures |r| <= 1 && (r == [] <==> e.None?)
  {
    if e.None? then [] else [FieldError(field, e.value)]
  }

  /** `Field(min_length=lo, max_length=hi)` on a string */
  function LengthError(s: String, lo: nat, hi: Option<nat>): (r: Option<ErrorKind>)
    ensures r.None? <==> lo <= |s| && (hi.Some? ==> |s| <= hi.value)
  {
    if |s| < lo then Some(TooShort(lo))
    else if hi.Some? && |s| > hi.value then Some(TooLong(hi.value))
    else None
  }

  /** `Field(ge=lo, le=hi)` on an int */
  function RangeError(x: int, lo: Option<int>, hi: Option<int>): (r: Option<ErrorKind>)
    ensures r.None? <==> (lo.Some? ==> lo.value <= x) && (hi.Some? ==> x <= hi.value)
  {
    if lo.Some? && x < lo.value then Some(BelowMin(lo.value))
    else if hi.Some? && x > hi.value then Some(AboveMax(hi.value))
    else None
  }

  /** The same constraint on an optional field: an omitted value passes. */
  function OptLengthError(s: Option<String>, lo: nat, hi: Option<nat>): Option<ErrorKind> {
    if s.None? then None else LengthError(s.value, lo, hi)
  }

  function OptRangeError(x: Option<int>, lo: Option<int>, hi: Option<int>): Option<ErrorKind> {
    if x.None? then None else RangeError(x.value, lo, hi)
  }

  // ---------------------------------------------------------------------
  // Tags (note and knowledge-base prompt bodies)
  // ---------------------------------------------------------------------

  const MaxTags: nat := 20
  const TooManyTags: String := "Maximum 20 tags allowed"

  /** One kept tag: `tag.lower().strip()`. */
  function CleanTag(u: String): String {
    Strip(Lower(u))
  }

  /** A non-blank tag cleans to a non-empty, lower-case, stripped tag. */
  lemma CleanTagShape(u: String)
    requires Strip(u) != []
    ensures CleanTag(u) == Lower(Strip(u))
    ensures IsCleanTag(CleanTag(u))
  {
    StripLower(u);
    LowerIsLowered(Strip(u));
    StripIdempotent(Lower(u));
  }

  /** Non-empty, lower-case and stripped. */
  predicate IsCleanTag(t: String) {
    t != [] && IsLowered(t) && Strip(t) == t
  }

  /** `[tag.lower().strip() for tag in v if tag.strip()]` */
  function CleanTags(v: seq<String>): (r: seq<String>)
    ensures |r| <= |v|
  {
    if v == [] then []
    else if Strip(v[0]) == [] then CleanTags(v[1..])
    else [CleanTag(v[0])] + CleanTags(v[1..])
  }

  /** Every cleaned tag is non-empty, lower-case and stripped. */
  lemma {:induction false} CleanTagsClean(v: seq<String>)
    ensures forall k :: 0 <= k < |CleanTags(v)| ==> IsCleanTag(CleanTags(v)[k])
  {
    if v != [] {
      CleanTagsClean(v[1..]);
      var rest := CleanTags(v[1..]);
      if Strip(v[0]) != [] {
        CleanTagShape(v[0]);
        var r := [CleanTag(v[0])] + rest;
        assert CleanTags(v) == r;
        forall k | 0 <= k < |r| ensures IsCleanTag(r[k]) {
          if k > 0 {
            assert r[k] == rest[k - 1];
          }
        }
      }
    }
  }

  /** Every cleaned tag comes from a tag of the input. */
  lemma {:induction false} CleanTagsFromInput(v: seq<String>, t: String)
    requires t in CleanTags(v)
    ensures exists u :: u in v && Strip(u) != [] && t == Lower(Strip(u))
  {
    if Strip(v[0]) != [] && t == CleanTag(v[0]) {
      CleanTagShape(v[0]);
      assert v[0] in v;
    } else {
      CleanTagsFromInput(v[1..], t);
      var u :| u in v[1..] && Strip(u) != [] && t == Lower(Strip(u));
      assert u in v;
    }
  }

  /** Every non-blank tag survives, lower-cased and stripped. */
  lemma {:induction false} CleanTagsKeepsNonBlank(v: seq<String>, u: String)
    requires u in v && Strip(u) != []
    ensures Lower(Strip(u)) in CleanTags(v)
  {
    if v[0] == u {
      CleanTagShape(u);
    } else {
      CleanTagsKeepsNonBlank(v[1..], u);
    }
  }

  /** A cleaned tag list cleans to itself. */
  lemma {:induction false} CleanTagsIdempotent(v: seq<String>)
    ensures CleanTags(CleanTags(v)) == CleanTags(v)
  {
    if v != [] {
      CleanTagsIdempotent(v[1..]);
      CleanTagsClean(v);
      var r := CleanTags(v);
      if Strip(v[0]) != [] {
        var t := r[0];
        assert Strip(t) == t && t != [] && IsLowered(t);
        assert Lower(t) == t;
        assert r[1..] == CleanTags(v[1..]);
      }
    }
  }

  /** The tag validator of `NoteCreate` and `KBPromptBase`. */
  function ValidateTags(v: seq<String>): (r: Result<seq<String>>)
    ensures r.Failure? <==> |v| > MaxTags
    ensures r.Failure? ==> r.error == TooManyTags
    ensures r.Success? ==> r.value == CleanTags(v) && |r.value| <= MaxTags
  {
    if |v| > MaxTags then Failure(TooManyTags) else Success(CleanTags(v))
  }

  /** Validated tags pass the validator again unchanged. */
  lemma ValidateTagsIdempotent(v: seq<String>)
    requires ValidateTags(v).Success?
    ensures ValidateTags(ValidateTags(v).value) == ValidateTags(v)
  {
    CleanTagsIdempotent(v);
  }

  // ---------------------------------------------------------------------
  // Slugs (lounges, mentor categories, static pages)
  // ---------------------------------------------------------------------

  const BadSlug: String := "Slug must contain only letters, numbers, hyphens, and underscores"

  /** `v.replace('-', '').replace('_', '').isalnum()` on the ASCII range:
      `isalnum` of the empty string is false. */
  predicate SlugChars(v: String) {
    var core := RemoveChar(RemoveChar(v, '-'), '_');
    core != [] && forall i :: 0 <= i < |core| ==> IsAlnum(core[i])
  }

  /** The slug validator: the slug is returned lower-cased. */
  function ValidateSlug(v: String): (r: Result<String>)
    ensures r.Failure? <==> !SlugChars(v)
    ensures r.Failure? ==> r.error == BadSlug
    ensures r.Success? ==> r.value == Lower(v)
  {
    if SlugChars(v) then Success(Lower(v)) else Failure(BadSlug)
  }

  lemma SlugCharsExact(v: String)
    ensures SlugChars(v) <==> (exists i :: 0 <= i < |v| && IsAlnum(v[i])) &&
                              forall i :: 0 <= i < |v| ==> IsAlnum(v[i]) || v[i] == '-' || v[i] == '_'
  {
    var core := RemoveChar(RemoveChar(v, '-'), '_');
    if SlugChars(v) {
      forall i | 0 <= i < |v| ensures IsAlnum(v[i]) || v[i] == '-' || v[i] == '_' {
        if v[i] != '-' && v[i] != '_' {
          assert v[i] in core;
        }
      }
      assert core[0] in core;
    }
    if (exists i :: 0 <= i < |v| && IsAlnum(v[i])) && forall i :: 0 <= i < |v| ==> IsAlnum(v[i]) || v[i] == '-' || v[i] == '_' {
      var i :| 0 <= i < |v| && IsAlnum(v[i]);
      assert v[i] in core;
      forall j | 0 <= j < |core| ensures IsAlnum(core[j]) {
        assert core[j] in v;
      }
    }
  }

  /** A validated slug is lower-case, made of letters, digits, `-` and `_`,
      and passes the validator again unchanged. */
  lemma SlugNormalised(v: String)
    requires ValidateSlug(v).Success?
    ensures var s := ValidateSlug(v).value;
      |s| == |v| && IsLowered(s) &&
      (forall i :: 0 <= i < |s| ==> IsAlnum(s[i]) || s[i] == '-' || s[i] == '_') &&
      ValidateSlug(s) == Success(s)
  {
    var s := Lower(v);
    SlugCharsExact(v);
    LowerIsLowered(v);
    forall i | 0 <= i < |s| ensures IsAlnum(s[i]) || s[i] == '-' || s[i] == '_' {
      assert IsAlnum(v[i]) || v[i] == '-' || v[i] == '_';
    }
    var i :| 0 <= i < |v| && IsAlnum(v[i]);
    assert IsAlnum(s[i]);
    SlugCharsExact(s);
  }

  // ---------------------------------------------------------------------
  // Passwords (app/schemas/auth.py)
  // ---------------------------------------------------------------------

  const PasswordTooLong: String := "Password cannot be longer than 72 bytes"
  const PasswordNeedsDigit: String := "Password must contain at least one digit"
  const PasswordNeedsUpper: String := "Password must contain at least one uppercase letter"
  const MaxPasswordBytes: nat := 72

  /** Bytes of one character in UTF-8. */
  function Utf8Width(c: char): (w: nat)
    ensures 1 <= w <= 4
  {
    if c as int < 0x80 then 1 else if c as int < 0x800 then 2 else if c as int < 0x10000 then 3 else 4
  }

  /** `len(v.encode('utf-8'))` */
  function Utf8Len(s: String): (n: nat)
    ensures |s| <= n
  {
    if s == [] then 0 else Utf8Width(s[0]) + Utf8Len(s[1..])
  }

  predicate HasDigit(v: String) { exists i :: 0 <= i < |v| && IsDigit(v[i]) }
  predicate HasUpper(v: String) { exists i :: 0 <= i < |v| && IsUpper(v[i]) }

  /** The validator of `PasswordReset` and `PasswordChange`. */
  function CheckPasswordStrength(v: String): (r: Option<ErrorKind>)
    ensures r.None? <==> HasDigit(v) && HasUpper(v)
  {
    if !HasDigit(v) then Some(ValueError(PasswordNeedsDigit))
    else if !HasUpper(v) then Some(ValueError(PasswordNeedsUpper))
    else None
  }

  /** The validator of `UserRegister`: the byte cap, then the same strength rules. */
  function CheckRegistrationPassword(v: String): (r: Option<ErrorKind>)
    ensures r.None? <==> Utf8Len(v) <= MaxPasswordBytes && HasDigit(v) && HasUpper(v)
  {
    if Utf8Len(v) > MaxPasswordBytes then Some(ValueError(PasswordTooLong))
    else CheckPasswordStrength(v)
  }

  /** A password field: 8..100 characters, then its validator. */
  function PasswordError(v: String, registration: bool): Option<ErrorKind> {
    var e := LengthError(v, 8, Some(100));
    if e.Some? then e
    else if registration then CheckRegistrationPassword(v)
    else CheckPasswordStrength(v)
  }

  datatype Registration = Registration(email: String, password: String, name: String)

  /** `UserRegister` */
  function ValidateRegistration(email: String, password: String, name: String): (r: Checked<Registration>)
    ensures r.Valid? <==> PasswordError(password, true).None? && LengthError(name, 2, Some(255)).None?
    ensures r.Valid? ==> r.value == Registration(email, password, name)
  {
    var errs := ErrorsOf("password", PasswordError(password, true)) + ErrorsOf("name", LengthError(name, 2, Some(255)));
    if errs == [] then Valid(Registration(email, password, name)) else Invalid(errs)
  }

  /** `PasswordReset` (token plus new password) and `PasswordChange`
      (current plus new password) check the new password alike. */
  function ValidateNewPassword(newPassword: String): Checked<String> {
    var errs := ErrorsOf("new_password", PasswordError(newPassword, false));
    if errs == [] then Valid(newPassword) else Invalid(errs)
  }

  /** An accepted registration password is at most 72 bytes, hence at most
      72 characters, has a digit and an upper-case letter; its name is 2..255. */
  lemma {:induction false} RegistrationAccepted(email: String, password: String, name: String)
    requires ValidateRegistration(email, password, name).Valid?
    ensures 8 <= |password| <= 72 && Utf8Len(password) <= 72
    ensures HasDigit(password) && HasUpper(password)
    ensures 2 <= |name| <= 255
  {
    RegistrationPasswordOk(password);
  }

  lemma RegistrationPasswordOk(password: String)
    requires PasswordError(password, true).None?
    ensures 8 <= |password| && Utf8Len(password) <= 72
    ensures HasDigit(password) && HasUpper(password)
  {
    assert LengthError(password, 8, Some(100)).None? by { PasswordLengthFirst(password); }
    assert CheckRegistrationPassword(password).None? by { PasswordLengthFirst(password); }
  }

  lemma PasswordLengthFirst(password: String)
    requires PasswordError(password, true).None?
    ensures LengthError(password, 8, Some(100)).None? && CheckRegistrationPassword(password).None?
  {
  }

  /** The reset and change bodies apply every rule of registration except
      the byte cap: a password of more than 72 bytes that registration
      refuses is still accepted there. */
  lemma {:induction false} ByteCapOnlyAtRegistration(email: String, password: String, name: String)
    requires 2 <= |name| <= 255 && 8 <= |password| <= 100
    requires HasDigit(password) && HasUpper(password)
    ensures ValidateNewPassword(password).Valid?
    ensures ValidateRegistration(email, password, name).Valid? <==> Utf8Len(password) <= 72
  {
    assert LengthError(password, 8, Some(100)).None? && LengthError(name, 2, Some(255)).None?;
    assert PasswordError(password, false).None?;
    assert PasswordError(password, true).None? <==> Utf8Len(password) <= 72;
  }

  /** `UserUpdate`: an optional name of 2..255 characters. */
  function ValidateUserUpdate(name: Option<String>, avatarUrl: Option<String>): Checked<(Option<String>, Option<String>)> {
    var errs := ErrorsOf("name", OptLengthError(name, 2, Some(255)));
    if errs == [] then Valid((name, avatarUrl)) else Invalid(errs)
  }

  // ---------------------------------------------------------------------
  // Lounges (app/schemas/lounge.py)
  // ---------------------------------------------------------------------

  const PlanRequired: String := "plan_id is required for paid lounges"
  const BadBrandColor: String := "Brand color must be a valid hex color code starting with #"

  /** `if v and not v.startswith('#')` after `max_length=7` */
  function BrandColorError(v: Option<String>): (r: Option<ErrorKind>)
    ensures r.None? <==> v.None? || (|v.value| <= 7 && (v.value == [] || v.value[0] == '#'))
  {
    if v.None? then None
    else if |v.value| > 7 then Some(TooLong(7))
    else if v.value != [] && v.value[0] != '#' then Some(ValueError(BadBrandColor))
    else None
  }

  /** A field the client may omit, give as null or give a value for. */
  datatype Supplied<T> = Omitted | Given(value: Option<T>)

  function SuppliedValue<T>(s: Supplied<T>): Option<T> {
    if s.Omitted? then None else s.value
  }

  /** The `plan_id` validator: it runs only on a supplied `plan_id`, and
      `not v` rejects null and 0 alike. */
  function PlanError(accessType: LoungeModel.AccessType, planId: Supplied<int>): (r: Option<ErrorKind>)
    ensures r.Some? <==> accessType == LoungeModel.Paid && planId.Given? && (planId.value.None? || planId.value.value == 0)
  {
    if planId.Given? && accessType == LoungeModel.Paid && (planId.value.None? || planId.value.value == 0)
    then Some(ValueError(PlanRequired)) else None
  }

  datatype LoungeCreate = LoungeCreate(
    title: String,
    slug: String,
    description: Option<String>,
    categoryId: Option<int>,
    accessType: LoungeModel.AccessType,
    planId: Option<int>,
    maxMembers: Option<int>,
    isPublicListing: bool,
    about: Option<String>,
    brandColor: Option<String>)

  function SlugFieldError(slug: String, lo: nat): Option<ErrorKind> {
    var e := LengthError(slug, lo, Some(255));
    if e.Some? then e
    else if !SlugChars(slug) then Some(ValueError(BadSlug))
    else None
  }

  /** `LoungeCreate`: omitted fields take their defaults (FREE access,
      public listing). */
  function ValidateLoungeCreate(title: String, slug: String, description: Option<String>, categoryId: Option<int>,
                                accessType: Option<LoungeModel.AccessType>, planId: Supplied<int>,
                                maxMembers: Option<int>, isPublicListing: Option<bool>,
                                about: Option<String>, brandColor: Option<String>): (r: Checked<LoungeCreate>)
  {
    var access := if accessType.Some? then accessType.value else LoungeModel.Free;
    var errs := ErrorsOf("title", LengthError(title, 3, Some(255))) +
                ErrorsOf("slug", SlugFieldError(slug, 3)) +
                ErrorsOf("plan_id", PlanError(access, planId)) +
                ErrorsOf("max_members", OptRangeError(maxMembers, Some(1), Some(10000))) +
                ErrorsOf("brand_color", BrandColorError(brandColor));
    if errs == [] then
      Valid(LoungeCreate(title, Lower(slug), description, categoryId, access, SuppliedValue(planId), maxMembers,
                         if isPublicListing.Some? then isPublicListing.value else true, about, brandColor))
    else Invalid(errs)
  }

  /** What an accepted `LoungeCreate` guarantees. */
  lemma LoungeCreateAccepted(title: String, slug: String, description: Option<String>, categoryId: Option<int>,
                             accessType: Option<LoungeModel.AccessType>, planId: Supplied<int>,
                             maxMembers: Option<int>, isPublicListing: Option<bool>,
                             about: Option<String>, brandColor: Option<String>)
    requires ValidateLoungeCreate(title, slug, description, categoryId, accessType, planId, maxMembers,
                                  isPublicListing, about, brandColor).Valid?
    ensures var l := ValidateLoungeCreate(title, slug, description, categoryId, accessType, planId, maxMembers,
                                          isPublicListing, about, brandColor).value;
      3 <= |l.title| <= 255 && 3 <= |l.slug| <= 255 && ValidateSlug(l.slug) == Success(l.slug) &&
      (l.maxMembers.Some? ==> 1 <= l.maxMembers.value <= 10000) &&
      (l.brandColor.Some? && l.brandColor.value != [] ==> l.brandColor.value[0] == '#') &&
      (accessType.None? ==> l.accessType == LoungeModel.Free) &&
      (isPublicListing.None? ==> l.isPublicListing) &&
      (l.accessType == LoungeModel.Paid && planId.Given? ==> l.planId.Some? && l.planId.value != 0)
  {
    SlugNormalised(slug);
  }

  /** The `plan_id` check is skipped when the field is omitted: a PAID
      lounge without a plan is accepted that way, while the same body with
      an explicit null is refused. */
  lemma PaidLoungeWithoutPlan(title: String, slug: String)
    requires 3 <= |title| <= 255 && 3 <= |slug| <= 255 && SlugChars(slug)
    ensures ValidateLoungeCreate(title, slug, None, None, Some(LoungeModel.Paid), Omitted, None, None, None, None).Valid?
    ensures ValidateLoungeCreate(title, slug, None, None, Some(LoungeModel.Paid), Omitted, None, None, None, None).value.planId.None?
    ensures ValidateLoungeCreate(title, slug, None, None, Some(LoungeModel.Paid), Given(None), None, None, None, None).Invalid?
  {
  }

  datatype LoungeUpdate = LoungeUpdate(
    title: Option<String>,
    description: Option<String>,
    categoryId: Option<int>,
    accessType: Option<LoungeModel.AccessType>,
    planId: Option<int>,
    maxMembers: Option<int>,
    isPublicListing: Option<bool>,
    about: Option<String>,
    brandColor: Option<String>)

  /** `LoungeUpdate`: no slug and no plan check. */
  function ValidateLoungeUpdate(u: LoungeUpdate): (r: Checked<LoungeUpdate>)
    ensures r.Valid? ==> r.value == u
    ensures r.Valid? <==> (u.title.Some? ==> 3 <= |u.title.value| <= 255) &&
                          (u.maxMembers.Some? ==> 1 <= u.maxMembers.value <= 10000) &&
                          BrandColorError(u.brandColor).None?
  {
    var errs := ErrorsOf("title", OptLengthError(u.title, 3, Some(255))) +
                ErrorsOf("max_members", OptRangeError(u.maxMembers, Some(1), Some(10000))) +
                ErrorsOf("brand_color", BrandColorError(u.brandColor));
    if errs == [] then Valid(u) else Invalid(errs)
  }

  /** An update can make a lounge PAID with no plan: the update body has
      no plan check. */
  lemma PaidUpdateWithoutPlan()
    ensures ValidateLoungeUpdate(LoungeUpdate(None, None, None, Some(LoungeModel.Paid), None, None, None, None, None)).Valid?
  {
  }

  // ---------------------------------------------------------------------
  // Mentors and categories (app/schemas/mentor.py)
  // ---------------------------------------------------------------------

  const BadVideoUrl: String := "Video URL must be a valid HTTP(S) URL"

  /** `if v and not (v.startswith('http://') or v.startswith('https://'))` */
  function VideoUrlError(v: Option<String>): (r: Option<ErrorKind>)
    ensures r.None? <==> v.None? || v.value == [] || StartsWith(v.value, "http://") || StartsWith(v.value, "https://")
  {
    if v.Some? && v.value != [] && !(StartsWith(v.value, "http://") || StartsWith(v.value, "https://"))
    then Some(ValueError(BadVideoUrl)) else None
  }

  datatype MentorApplication = MentorApplication(headline: String, bio: String, introVideoUrl: Option<String>, experienceYears: int)

  function ValidateMentorApplication(a: MentorApplication): (r: Checked<MentorApplication>)
    ensures r.Valid? ==> r.value == a
    ensures r.Valid? <==> 10 <= |a.headline| <= 255 && 50 <= |a.bio| <= 5000 &&
                          VideoUrlError(a.introVideoUrl).None? && 0 <= a.experienceYears <= 100
  {
    var errs := ErrorsOf("headline", LengthError(a.headline, 10, Some(255))) +
                ErrorsOf("bio", LengthError(a.bio, 50, Some(5000))) +
                ErrorsOf("intro_video_url", VideoUrlError(a.introVideoUrl)) +
                ErrorsOf("experience_years", RangeError(a.experienceYears, Some(0), Some(100)));
    if errs == [] then Valid(a) else Invalid(errs)
  }

  datatype MentorUpdate = MentorUpdate(headline: Option<String>, bio: Option<String>, introVideoUrl: Option<String>,
                                       experienceYears: Option<int>)

  /** `MentorUpdate`: the same bounds, but no URL validator. */
  function ValidateMentorUpdate(u: MentorUpdate): (r: Checked<MentorUpdate>)
    ensures r.Valid? ==> r.value == u
    ensures r.Valid? <==> (u.headline.Some? ==> 10 <= |u.headline.value| <= 255) &&
                          (u.bio.Some? ==> 50 <= |u.bio.value| <= 5000) &&
                          (u.experienceYears.Some? ==> 0 <= u.experienceYears.value <= 100)
  {
    var errs := ErrorsOf("headline", OptLengthError(u.headline, 10, Some(255))) +
                ErrorsOf("bio", OptLengthError(u.bio, 50, Some(5000))) +
                ErrorsOf("experience_years", OptRangeError(u.experienceYears, Some(0), Some(100)));
    if errs == [] then Valid(u) else Invalid(errs)
  }

  /** Any URL the application accepts, the update accepts too; the update
      also accepts URLs that are not HTTP(S). */
  lemma MentorUpdateSkipsUrlCheck(a: MentorApplication, url: String)
    requires ValidateMentorApplication(a).Valid?
    requires url != [] && url[0] == 'f'
    ensures ValidateMentorUpdate(MentorUpdate(Some(a.headline), Some(a.bio), a.introVideoUrl, Some(a.experienceYears))).Valid?
    ensures ValidateMentorApplication(a.(introVideoUrl := Some(url))).Invalid?
    ensures ValidateMentorUpdate(MentorUpdate(None, None, Some(url), None)).Valid?
  {
    assert !StartsWith(url, "http://") by { assert url[0] != "http://"[0]; }
    assert !StartsWith(url, "https://") by { assert url[0] != "https://"[0]; }
  }

  /** `CategoryCreate`: name and slug of 2..255 characters, slug validated. */
  function ValidateCategoryCreate(name: String, slug: String): (r: Checked<(String, String)>)
    ensures r.Valid? <==> 2 <= |name| <= 255 && 2 <= |slug| <= 255 && SlugChars(slug)
    ensures r.Valid? ==> r.value == (name, Lower(slug))
  {
    var errs := ErrorsOf("name", LengthError(name, 2, Some(255))) + ErrorsOf("slug", SlugFieldError(slug, 2));
    if errs == [] then Valid((name, Lower(slug))) else Invalid(errs)
  }

  /** `CategoryUpdate`: a null slug passes unchanged. */
  function ValidateCategoryUpdate(name: Option<String>, slug: Option<String>): (r: Checked<(Option<String>, Option<String>)>)
    ensures r.Valid? ==> r.value.0 == name
    ensures r.Valid? && slug.None? ==> r.value.1.None?
    ensures r.Valid? && slug.Some? ==> r.value.1 == Some(Lower(slug.value)) && SlugChars(slug.value)
    ensures r.Valid? <==> (name.Some? ==> 2 <= |name.value| <= 255) &&
                          (slug.Some? ==> 2 <= |slug.value| <= 255 && SlugChars(slug.value))
  {
    var slugErr := if slug.None? then None else SlugFieldError(slug.value, 2);
    var errs := ErrorsOf("name", OptLengthError(name, 2, Some(255))) + ErrorsOf("slug", slugErr);
    if errs == [] then Valid((name, if slug.None? then None else Some(Lower(slug.value)))) else Invalid(errs)
  }

  // ---------------------------------------------------------------------
  // Notifications, static pages and FAQs (app/schemas/notification.py)
  // ---------------------------------------------------------------------

  const DefaultChannel: String := "in_app"

  /** `NotificationCreate`: the channel defaults to "in_app". */
  function ValidateNotificationCreate(kind: String, channel: Option<String>): (r: Checked<(String, String)>)
    ensures r.Valid? <==> 1 <= |kind| <= 100
    ensures r.Valid? ==> r.value.0 == kind && (channel.None? ==> r.value.1 == DefaultChannel)
  {
    var errs := ErrorsOf("type", LengthError(kind, 1, Some(100)));
    if errs == [] then Valid((kind, if channel.Some? then channel.value else DefaultChannel)) else Invalid(errs)
  }

  datatype PageCreate = PageCreate(slug: String, title: String, content: String, isPublished: bool)

  /** `StaticPageCreate`: a new page is published unless told otherwise. */
  function ValidatePageCreate(slug: String, title: String, content: String, isPublished: Option<bool>): (r: Checked<PageCreate>)
    ensures r.Valid? <==> 1 <= |slug| <= 255 && SlugChars(slug) && 1 <= |title| <= 255 && 1 <= |content|
    ensures r.Valid? ==> r.value.slug == Lower(slug) && r.value.title == title && r.value.content == content
    ensures r.Valid? && isPublished.None? ==> r.value.isPublished
  {
    var errs := ErrorsOf("slug", SlugFieldError(slug, 1)) + ErrorsOf("title", LengthError(title, 1, Some(255))) +
                ErrorsOf("content", LengthError(content, 1, None));
    if errs == [] then Valid(PageCreate(Lower(slug), title, content, if isPublished.Some? then isPublished.value else true))
    else Invalid(errs)
  }

  datatype PageUpdate = PageUpdate(title: Option<String>, content: Option<String>, isPublished: Option<bool>)

  /** `StaticPageUpdate`: the create bounds on whichever fields are given. */
  function ValidatePageUpdate(u: PageUpdate): (r: Checked<PageUpdate>)
    ensures r.Valid? <==> (u.title.Some? ==> 1 <= |u.title.value| <= 255) && (u.content.Some? ==> 1 <= |u.content.value|)
    ensures r.Valid? ==> r.value == u
  {
    var errs := ErrorsOf("title", OptLengthError(u.title, 1, Some(255))) +
                ErrorsOf("content", OptLengthError(u.content, 1, None));
    if errs == [] then Valid(u) else Invalid(errs)
  }

  datatype FaqBody = FaqBody(category: Option<String>, question: Option<String>, answer: Option<String>, sortOrder: Option<int>)

  function FaqErrors(b: FaqBody): seq<FieldError> {
    ErrorsOf("category", OptLengthError(b.category, 1, Some(100))) +
    ErrorsOf("question", OptLengthError(b.question, 1, Some(500))) +
    ErrorsOf("answer", OptLengthError(b.answer, 1, Some(5000))) +
    ErrorsOf("sort_order", OptRangeError(b.sortOrder, Some(0), None))
  }

  /** `FAQCreate`: category, question and answer are required; sort_order
      defaults to 0. */
  function ValidateFaqCreate(b: FaqBody): (r: Checked<FaqBody>)
  {
    var missing := (if b.category.None? then [FieldError("category", TooShort(1))] else []) +
                   (if b.question.None? then [FieldError("question", TooShort(1))] else []) +
                   (if b.answer.None? then [FieldError("answer", TooShort(1))] else []);
    var errs := missing + FaqErrors(b);
    if errs == [] then Valid(b.(sortOrder := Some(if b.sortOrder.Some? then b.sortOrder.value else 0))) else Invalid(errs)
  }

  /** `FAQUpdate`: the same bounds on whichever fields are given. */
  function ValidateFaqUpdate(b: FaqBody): (r: Checked<FaqBody>)
    ensures r.Valid? ==> r.value == b
    ensures r.Valid? <==> (b.category.Some? ==> 1 <= |b.category.value| <= 100) &&
                          (b.question.Some? ==> 1 <= |b.question.value| <= 500) &&
                          (b.answer.Some? ==> 1 <= |b.answer.value| <= 5000) &&
                          (b.sortOrder.Some? ==> b.sortOrder.value >= 0)
  {
    var errs := FaqErrors(b);
    if errs == [] then Valid(b) else Invalid(errs)
  }

  /** Create and update agree on every bound; an accepted body has a
      non-negative sort order and bounded texts. */
  lemma FaqBounds(b: FaqBody)
    ensures ValidateFaqCreate(b).Valid? ==> ValidateFaqUpdate(b).Valid?
    ensures ValidateFaqCreate(b).Valid? ==> var v := ValidateFaqCreate(b).value;
      v.sortOrder.Some? && v.sortOrder.value >= 0 &&
      v.question.Some? && 1 <= |v.question.value| <= 500 && v.answer.Some? && 1 <= |v.answer.value| <= 5000 &&
      (b.sortOrder.None? ==> v.sortOrder == Some(0))
    ensures ValidateFaqUpdate(b).Valid? ==> b.sortOrder.None? || b.sortOrder.value >= 0
  {
  }

  // ---------------------------------------------------------------------
  // Notes (app/schemas/note.py)
  // ---------------------------------------------------------------------

  datatype NoteCreate = NoteCreate(title: String, content: String, isPinned: bool, isIncludedInRag: bool, tags: seq<String>)

  /** `NoteCreate`: pinned defaults to false, RAG inclusion to true, tags to []. */
  function ValidateNoteCreate(title: String, content: String, isPinned: Option<bool>, isIncludedInRag: Option<bool>,
                              tags: Option<seq<String>>): (r: Checked<NoteCreate>)
    ensures r.Valid? <==> 1 <= |title| <= 255 && 1 <= |content| <= 50000 && (tags.Some? ==> |tags.value| <= MaxTags)
    ensures r.Valid? ==> r.value.title == title && r.value.content == content
    ensures r.Valid? ==> r.value.tags == (if tags.Some? then CleanTags(tags.value) else [])
    ensures r.Valid? ==> r.value.isPinned == (isPinned == Some(true))
    ensures r.Valid? ==> r.value.isIncludedInRag == (isIncludedInRag != Some(false))
  {
    var tagResult := if tags.None? then Success([]) else ValidateTags(tags.value);
    var errs := ErrorsOf("title", LengthError(title, 1, Some(255))) +
                ErrorsOf("content", LengthError(content, 1, Some(50000))) +
                (if tagResult.Failure? then [FieldError("tags", ValueError(tagResult.error))] else []);
    if errs == [] then
      Valid(NoteCreate(title, content, isPinned == Some(true), isIncludedInRag != Some(false), tagResult.value))
    else Invalid(errs)
  }

  /** An accepted note body validates again to itself. */
  lemma NoteCreateFixpoint(title: String, content: String, isPinned: Option<bool>, isIncludedInRag: Option<bool>,
                           tags: Option<seq<String>>)
    requires ValidateNoteCreate(title, content, isPinned, isIncludedInRag, tags).Valid?
    ensures var n := ValidateNoteCreate(title, content, isPinned, isIncludedInRag, tags).value;
      ValidateNoteCreate(n.title, n.content, Some(n.isPinned), Some(n.isIncludedInRag), Some(n.tags)) == Valid(n)
  {
    if tags.Some? { CleanTagsIdempotent(tags.value); }
  }

  const UnlockMustBeFuture: String := "Unlock date must be in the future"

  /** `TimeCapsuleCreate` at time `now`. */
  function ValidateCapsuleCreate(title: String, content: String, unlockAt: Time, now: Time): (r: Checked<(String, String, Time)>)
    ensures r.Valid? <==> 1 <= |title| <= 255 && 1 <= |content| <= 10000 && unlockAt > now
    ensures r.Valid? ==> r.value == (title, content, unlockAt)
  {
    var errs := ErrorsOf("title", LengthError(title, 1, Some(255))) +
                ErrorsOf("content", LengthError(content, 1, Some(10000))) +
                (if unlockAt <= now then [FieldError("unlock_at", ValueError(UnlockMustBeFuture))] else []);
    if errs == [] then Valid((title, content, unlockAt)) else Invalid(errs)
  }

  datatype NoteSearch = NoteSearch(query: String, tags: Option<seq<String>>, includeContent: bool, limit: int)

  /** `NoteSearchRequest`: content included and 20 results by default. */
  function ValidateNoteSearch(query: String, tags: Option<seq<String>>, includeContent: Option<bool>, limit: Option<int>): (r: Checked<NoteSearch>)
    ensures r.Valid? ==> 1 <= |r.value.query| && 1 <= r.value.limit <= 100
    ensures r.Valid? && limit.None? ==> r.value.limit == 20
    ensures r.Valid? && includeContent.None? ==> r.value.includeContent
    ensures r.Valid? <==> 1 <= |query| && (limit.Some? ==> 1 <= limit.value <= 100)
  {
    var errs := ErrorsOf("query", LengthError(query, 1, None)) + ErrorsOf("limit", OptRangeError(limit, Some(1), Some(100)));
    if errs == [] then
      Valid(NoteSearch(query, tags, includeContent != Some(false), if limit.Some? then limit.value else 20))
    else Invalid(errs)
  }

  // ---------------------------------------------------------------------
  // Knowledge base (app/schemas/knowledge_base.py)
  // ---------------------------------------------------------------------

  datatype PromptBody = PromptBody(title: String, content: String, description: Option<String>, tags: Option<seq<String>>)

  /** `KBPromptCreate`: tags pass through the tag validator when given. */
  function ValidatePromptCreate(b: PromptBody): (r: Checked<PromptBody>)
    ensures r.Valid? <==> 1 <= |b.title| <= 255 && 1 <= |b.content| && (b.tags.Some? ==> |b.tags.value| <= MaxTags)
    ensures r.Valid? ==> r.value == b.(tags := if b.tags.Some? then Some(CleanTags(b.tags.value)) else None)
  {
    var tagResult := if b.tags.None? then Success([]) else ValidateTags(b.tags.value);
    var errs := ErrorsOf("title", LengthError(b.title, 1, Some(255))) +
                ErrorsOf("content", LengthError(b.content, 1, None)) +
                (if tagResult.Failure? then [FieldError("tags", ValueError(tagResult.error))] else []);
    if errs == [] then Valid(b.(tags := if b.tags.Some? then Some(tagResult.value) else None)) else Invalid(errs)
  }

  datatype PromptPatchBody = PromptPatchBody(title: Option<String>, content: Option<String>, tags: Option<seq<String>>)

  /** `KBPromptUpdate`: bounds on title and content only; tags are stored
      as sent. */
  function ValidatePromptUpdate(b: PromptPatchBody): (r: Checked<PromptPatchBody>)
    ensures r.Valid? ==> r.value == b
    ensures r.Valid? <==> (b.title.Some? ==> 1 <= |b.title.value| <= 255) && (b.content.Some? ==> 1 <= |b.content.value|)
  {
    var errs := ErrorsOf("title", OptLengthError(b.title, 1, Some(255))) + ErrorsOf("content", OptLengthError(b.content, 1, None));
    if errs == [] then Valid(b) else Invalid(errs)
  }

  /** Tags the create body refuses or rewrites reach the table unchanged
      through the update body. */
  lemma PromptUpdateSkipsTagValidator(tags: seq<String>)
    ensures ValidatePromptUpdate(PromptPatchBody(None, None, Some(tags))) == Valid(PromptPatchBody(None, None, Some(tags)))
    ensures |tags| > MaxTags ==> ValidatePromptCreate(PromptBody("t", "c", None, Some(tags))).Invalid?
  {
  }

  const EntityTypes: set<String> := {"prompts", "documents", "faqs"}

  datatype SearchBody = SearchBody(query: String, entityTypes: Option<seq<String>>, loungeId: Option<int>,
                                   includeGlobal: bool, limit: int)

  /** `KBSearchRequest`: entity types restricted to prompts, documents and
      faqs; limit 1..50, 10 by default; global items included by default. */
  function ValidateSearch(query: String, entityTypes: Option<seq<String>>, loungeId: Option<int>,
                          includeGlobal: Option<bool>, limit: Option<int>): (r: Checked<SearchBody>)
    ensures r.Valid? <==> 1 <= |query| && (entityTypes.Some? ==> forall t :: t in entityTypes.value ==> t in EntityTypes) &&
                          (limit.Some? ==> 1 <= limit.value <= 50)
    ensures r.Valid? ==> 1 <= r.value.limit <= 50 && (limit.None? ==> r.value.limit == 10)
    ensures r.Valid? ==> r.value.entityTypes == entityTypes && (includeGlobal.None? ==> r.value.includeGlobal)
  {
    var typesOk := entityTypes.None? || forall t :: t in entityTypes.value ==> t in EntityTypes;
    var errs := ErrorsOf("query", LengthError(query, 1, None)) +
                (if typesOk then [] else [FieldError("entity_types", ValueError("Invalid entity type"))]) +
                ErrorsOf("limit", OptRangeError(limit, Some(1), Some(50)));
    if errs == [] then
      Valid(SearchBody(query, entityTypes, loungeId, includeGlobal != Some(false), if limit.Some? then limit.value else 10))
    else Invalid(errs)
  }

  /** `KBRAGContextRequest`: max_items 1..20, 5 by default; its entity types
      are not checked. */
  function ValidateRagRequest(query: String, maxItems: Option<int>, entityTypes: Option<seq<String>>): (r: Checked<(String, int, Option<seq<String>>)>)
    ensures r.Valid? <==> 1 <= |query| && (maxItems.Some? ==> 1 <= maxItems.value <= 20)
    ensures r.Valid? ==> r.value.2 == entityTypes && 1 <= r.value.1 <= 20 && (maxItems.None? ==> r.value.1 == 5)
  {
    var errs := ErrorsOf("query", LengthError(query, 1, None)) + ErrorsOf("max_items", OptRangeError(maxItems, Some(1), Some(20)));
    if errs == [] then Valid((query, if maxItems.Some? then maxItems.value else 5, entityTypes)) else Invalid(errs)
  }

  /** An entity type the search body refuses is accepted by the RAG body. */
  lemma RagRequestSkipsEntityCheck(query: String, t: String)
    requires 1 <= |query| && t !in EntityTypes
    ensures ValidateSearch(query, Some([t]), None, None, None).Invalid?
    ensures ValidateRagRequest(query, None, Some([t])).Valid?
  {
    assert t in [t];
  }

  // ---------------------------------------------------------------------
  // Billing (app/schemas/billing.py)
  // ---------------------------------------------------------------------

  /** `Field(pattern="^(monthly|yearly)$")` */
  predicate PlanTypePattern(v: String) { v == "monthly" || v == "yearly" }

  function ValidateLoungeCheckout(loungeId: int, planType: String): (r: Checked<(int, String)>)
    ensures r.Valid? <==> PlanTypePattern(planType)
    ensures r.Valid? ==> r.value == (loungeId, planType)
  {
    if PlanTypePattern(planType) then Valid((loungeId, planType)) else Invalid([FieldError("plan_type", PatternMismatch)])
  }

  /** `LoungePricing` */
  datatype LoungePricing = LoungePricing(monthlyCents: int, yearlyCents: int, monthlyDisplay: String,
                                         yearlyDisplay: String, yearlySavingsPercent: int)

  const DefaultPricing: LoungePricing := LoungePricing(2500, 24000, "$25/month", "$240/year", 20)

  /** The advertised prices are the ones subscriptions are charged at; the
      yearly price is the advertised saving off twelve monthly payments, and
      the display strings spell the cent amounts in dollars. */
  lemma PricingConsistent()
    ensures DefaultPricing.monthlyCents == BillingModel.PriceCents(BillingModel.Monthly)
    ensures DefaultPricing.yearlyCents == BillingModel.PriceCents(BillingModel.Yearly)
    ensures DefaultPricing.yearlyCents * 100 == 12 * DefaultPricing.monthlyCents * (100 - DefaultPricing.yearlySavingsPercent)
    ensures DefaultPricing.monthlyDisplay == "$" + NatToString(DefaultPricing.monthlyCents / 100) + "/month"
    ensures DefaultPricing.yearlyDisplay == "$" + NatToString(DefaultPricing.yearlyCents / 100) + "/year"
  {
    assert NatToString(25) == "25" by {
      assert NatToString(2) == "2";
    }
    assert NatToString(240) == "240" by {
      assert NatToString(2) == "2";
      assert NatToString(24) == "24";
    }
  }
}
