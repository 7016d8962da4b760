// Pagination and the header-parsing optional user of app/core/dependencies.py.

module Dependencies {
  import opened Common
  import opened UserModel
  import Jwt

  /** `Pagination(page, page_size, max_page_size)` after its constructor ran. */
  datatype Pagination = Pagination(page: int, pageSize: int)

  const DefaultPage: int := 1
  const DefaultPageSize: int := 20
  const DefaultMaxPageSize: int := 100

  /** The constructor clamps the page to at least 1 and caps the page size;
      a page size below 1 is kept as given. */
  function MakePagination(page: int, pageSize: int, maxPageSize: int): (p: Pagination)
    ensures p.page >= 1 && p.pageSize <= maxPageSize
    ensures page >= 1 ==> p.page == page
    ensures page < 1 ==> p.page == 1
    ensures pageSize <= maxPageSize ==> p.pageSize == pageSize
    ensures pageSize > maxPageSize ==> p.pageSize == maxPageSize
  {
    Pagination(Max(1, page), Min(pageSize, maxPageSize))
  }

  function Offset(p: Pagination): int { (p.page - 1) * p.pageSize }

  function Limit(p: Pagination): int { p.pageSize }

  /** Consecutive pages tile the rows: page n+1 starts where page n ends,
      and the first page starts at row 0. */
  lemma PagesTile(page: int, pageSize: int, maxPageSize: int)
    requires page >= 1
    ensures Offset(MakePagination(page + 1, pageSize, maxPageSize)) ==
              Offset(MakePagination(page, pageSize, maxPageSize)) + Limit(MakePagination(page, pageSize, maxPageSize))
    ensures Offset(MakePagination(1, pageSize, maxPageSize)) == 0
    ensures Limit(MakePagination(page, pageSize, maxPageSize)) == Min(pageSize, maxPageSize)
  {
  }

  /** Every page at or below 1 is the first page. */
  lemma LowPagesAreFirst(page: int, pageSize: int, maxPageSize: int)
    requires page <= 1
    ensures MakePagination(page, pageSize, maxPageSize) == MakePagination(1, pageSize, maxPageSize)
  {
  }

  /** With no lower bound on the page size, a negative size gives negative
      offsets from the second page on. */
  lemma NegativeSizeNegativeOffset(page: int, pageSize: int, maxPageSize: int)
    requires page >= 2 && pageSize < 0 && pageSize <= maxPageSize
    ensures Offset(MakePagination(page, pageSize, maxPageSize)) < 0
  {
    var p := MakePagination(page, pageSize, maxPageSize);
    assert p.page - 1 >= 1;
    assert (p.page - 1) * pageSize <= pageSize by {
      MulAtLeastOne(p.page - 1, pageSize);
    }
  }

  lemma MulAtLeastOne(k: int, x: int)
    requires k >= 1 && x < 0
    ensures k * x <= x
  {
    var m := k - 1;
    assert k * x == m * x + x;
    assert m * x <= 0 by {
      assert m >= 0;
    }
  }

  /** `get_optional_user`. The header must split into exactly a scheme
      and a token; the scheme is compared case-insensitively with "bearer".
      `decode` stands for `security.decode_token`; decoding None, like
      every other exception inside the try block, ends in None. The
      subject is bound as text into `User.id == sub`; the database reads
      it as an integer, and text that is not one raises and ends in None.
      The token type is not looked at. */
  function OptionalUser(authorization: Option<String>, decode: String -> Option<Jwt.Payload>,
                        users: seq<User>): (r: Option<User>)
    ensures r.Some? ==> r.value in users && IsActive(r.value)
    ensures r.Some? ==> authorization.Some? && var parts := SplitWs(authorization.value);
              |parts| == 2 && Lower(parts[0]) == "bearer" && decode(parts[1]).Some? &&
              Jwt.SubjectId(decode(parts[1]).value) == Some(r.value.id)
  {
    if authorization.None? || authorization.value == [] then None
    else
      var parts := SplitWs(authorization.value);
      if |parts| != 2 then None
      else if Lower(parts[0]) != "bearer" then None
      else match decode(parts[1])
        case None => None
        case Some(payload) =>
          if payload.sub.None? then None
          else match Jwt.SubjectId(payload)
            case None => None
            case Some(id) =>
              match FindUser(users, id)
              case None => None
              case Some(u) => if IsActive(u) then Some(u) else None
  }

  /** Every refusal of the header: missing, not two tokens, another scheme,
      an undecodable token or a missing subject all give None. */
  lemma OptionalUserRefusals(authorization: Option<String>, decode: String -> Option<Jwt.Payload>, users: seq<User>)
    ensures authorization.None? ==> OptionalUser(authorization, decode, users).None?
    ensures authorization.Some? && |SplitWs(authorization.value)| != 2 ==> OptionalUser(authorization, decode, users).None?
    ensures authorization.Some? && |SplitWs(authorization.value)| == 2 && Lower(SplitWs(authorization.value)[0]) != "bearer" ==>
              OptionalUser(authorization, decode, users).None?
    ensures authorization.Some? && |SplitWs(authorization.value)| == 2 &&
            (decode(SplitWs(authorization.value)[1]).None? || decode(SplitWs(authorization.value)[1]).value.sub.None?) ==>
              OptionalUser(authorization, decode, users).None?
  {
    if authorization.Some? && authorization.value == [] {
      SplitWsOfSpaces(authorization.value);
    }
  }

  /** Unlike `get_optional_current_user` of app/core/jwt.py, this dependency
      admits a refresh token: for a verified user, a header
      "Bearer <token>" yields the user here and None there. */
  lemma RefreshTokenAdmittedHere(header: String, token: String, decode: String -> Option<Jwt.Payload>,
                                 users: seq<User>, u: User)
    requires |SplitWs(header)| == 2 && Lower(SplitWs(header)[0]) == "bearer" && SplitWs(header)[1] == token
    requires decode(token).Some? && decode(token).value.tokenType == Some("refresh")
    requires Jwt.SubjectId(decode(token).value) == Some(u.id) && FindUser(users, u.id) == Some(u) && IsActive(u)
    ensures OptionalUser(Some(header), decode, users) == Some(u)
    ensures Jwt.OptionalCurrentUser(Some(decode(token)), users).None?
  {
    if header == [] {
      SplitWsOfSpaces(header);
    }
  }
}
