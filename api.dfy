/**
 * The HTTP client's credential handling (src/utils/api.ts): the request
 * interceptor that reads the `token` cookie into an `Authorization: Bearer`
 * header and drops `Content-Type` for multipart bodies, and `setAuthToken`,
 * which writes or clears the cookie and the client's default header.
 */
module Api {
  import opened Wrappers
  import opened JsString

  const ContentType: string := "Content-Type"
  const Authorization: string := "Authorization"

  /** The instance defaults given to `axios.create`. */
  const DefaultHeaders: map<string, string> := map[ContentType := "application/json"]

  /** `document.cookie` lists its entries joined by this separator. */
  const CookieSeparator: string := "; "
  const TokenCookiePrefix: string := "token="

  // The attributes of the cookies `setAuthToken` writes.
  const PathAttribute: string := "path=/"
  const MaxAgeAttribute: string := "max-age=604800"
  const SecureAttribute: string := "secure"
  const SameSiteAttribute: string := "samesite=strict"
  const ExpiresAttribute: string := "expires=Thu, 01 Jan 1970 00:00:00 GMT"

  /** `; path=/; max-age=604800; secure; samesite=strict` */
  const SessionAttributes: string :=
    CookieSeparator + PathAttribute + CookieSeparator + MaxAgeAttribute
    + CookieSeparator + SecureAttribute + CookieSeparator + SameSiteAttribute

  /** `token=; path=/; expires=Thu, 01 Jan 1970 00:00:00 GMT`, which clears the session. */
  const ExpiredCookie: string :=
    TokenCookiePrefix + CookieSeparator + PathAttribute + CookieSeparator + ExpiresAttribute

  /**
   * `rows.find(row => row.startsWith('token='))`, as the index of the row
   * found.
   */
  function FindTokenRow(rows: seq<string>): (r: Option<nat>)
    ensures r.None? <==> forall k :: 0 <= k < |rows| ==> !StartsWith(rows[k], TokenCookiePrefix)
    ensures r.Some? ==> r.value < |rows| && StartsWith(rows[r.value], TokenCookiePrefix)
    ensures r.Some? ==> forall k :: 0 <= k < r.value ==> !StartsWith(rows[k], TokenCookiePrefix)
  {
    if |rows| == 0 then None
    else if StartsWith(rows[0], TokenCookiePrefix) then Some(0)
    else
      match FindTokenRow(rows[1..])
      case None => None
      case Some(k) => Some(k + 1)
  }

  /**
   * `row.split('=')[1]` for a row that starts with `token=`: the text after
   * the first `=` up to the next `=`, or to the end of the row.
   */
  function TokenValue(row: string): (v: string)
    requires StartsWith(row, TokenCookiePrefix)
    ensures '=' !in v
    ensures StartsWith(row[|TokenCookiePrefix|..], v)
    ensures |TokenCookiePrefix| + |v| < |row| ==> row[|TokenCookiePrefix| + |v|] == '='
  {
    TokenRowSplit(row);
    Split(row, "=")[1]
  }

  /** The row splits at the `=` of `token=` first. */
  lemma TokenRowSplit(row: string)
    requires StartsWith(row, TokenCookiePrefix)
    ensures |Split(row, "=")| >= 2
    ensures var v := Split(row, "=")[1];
      && '=' !in v
      && StartsWith(row[|TokenCookiePrefix|..], v)
      && (|TokenCookiePrefix| + |v| < |row| ==> row[|TokenCookiePrefix| + |v|] == '=')
  {
    var value := row[|TokenCookiePrefix|..];
    assert row == "token" + "=" + value;
    FreeOfChar("token", '=');
    SplitAfterPiece("token", "=", value);
    var v := Split(value, "=")[0];
    FirstPiece(value, "=");
    FreeOfChar(v, '=');
    if |v| < |value| {
      assert MatchAt(value, "=", |v|);
      assert value[|v|..|v| + 1] == "=";
    }
  }

  /**
   * The token the interceptor reads from `document.cookie`: the value of the
   * first entry that starts with `token=`, or None when there is no such
   * entry. `decodeURIComponent` is the identity here (see README).
   */
  function ExtractToken(cookie: string): (token: Option<string>)
    ensures token.Some? ==> '=' !in token.value
  {
    var rows := Split(cookie, CookieSeparator);
    match FindTokenRow(rows)
    case None => None
    case Some(k) => Some(TokenValue(rows[k]))
  }

  /** The header value `Bearer <token>`, present only for a truthy token. */
  function BearerHeader(token: Option<string>): (h: Option<string>)
    ensures h.Some? <==> token.Some? && token.value != ""
    ensures h.Some? ==> h.value == "Bearer " + token.value
  {
    if token.Some? && token.value != "" then Some("Bearer " + token.value) else None
  }

  /** The headers of a request after the interceptor has run on it. */
  function InterceptHeaders(headers: map<string, string>, isFormData: bool, cookie: string): (r: map<string, string>)
    ensures isFormData ==> ContentType !in r
    ensures !isFormData ==> (ContentType in r <==> ContentType in headers)
    ensures !isFormData && ContentType in headers ==> r[ContentType] == headers[ContentType]
    ensures BearerHeader(ExtractToken(cookie)).Some? ==>
      Authorization in r && r[Authorization] == BearerHeader(ExtractToken(cookie)).value
    ensures BearerHeader(ExtractToken(cookie)).None? ==>
      (Authorization in r <==> Authorization in headers) &&
      (Authorization in r ==> r[Authorization] == headers[Authorization])
    ensures forall key :: key != ContentType && key != Authorization ==>
      (key in r <==> key in headers) && (key in r ==> r[key] == headers[key])
  {
    var h := if isFormData then headers - {ContentType} else headers;
    match BearerHeader(ExtractToken(cookie))
    case None => h
    case Some(bearer) => h[Authorization := bearer]
  }

  /** The cookie `setAuthToken` writes for a session token. */
  function SessionCookie(token: string): string
  {
    TokenCookiePrefix + token + SessionAttributes
  }

  /** The per-request configuration the interceptor receives and returns. */
  class RequestConfig {
    var headers: map<string, string>
    const isFormData: bool

    constructor (headers: map<string, string>, isFormData: bool)
      ensures this.headers == headers && this.isFormData == isFormData
    {
      this.headers := headers;
      this.isFormData := isFormData;
    }
  }

  /** The request interceptor: edits the request's headers in place. */
  method Intercept(config: RequestConfig, documentCookie: string) returns (result: RequestConfig)
    modifies config
    ensures result == config
    ensures config.headers == InterceptHeaders(old(config.headers), config.isFormData, documentCookie)
  {
    var token := ExtractToken(documentCookie);
    if config.isFormData {
      config.headers := config.headers - {ContentType};
    }
    if token.Some? && token.value != "" {
      config.headers := config.headers[Authorization := "Bearer " + token.value];
    }
    result := config;
  }

  /** The browser cookie last written and the client's common default headers. */
  class Session {
    var documentCookie: string
    var commonHeaders: map<string, string>

    constructor (documentCookie: string)
      ensures this.documentCookie == documentCookie && commonHeaders == map[]
    {
      this.documentCookie := documentCookie;
      commonHeaders := map[];
    }

    /** `setAuthToken(token)`; `null` and `''` both clear the session. */
    method SetAuthToken(token: Option<string>)
      modifies this
      ensures token.Some? && token.value != "" ==>
        && documentCookie == SessionCookie(token.value)
        && commonHeaders == old(commonHeaders)[Authorization := "Bearer " + token.value]
      ensures !(token.Some? && token.value != "") ==>
        && documentCookie == ExpiredCookie
        && commonHeaders == old(commonHeaders) - {Authorization}
    {
      if token.Some? && token.value != "" {
        documentCookie := TokenCookiePrefix + token.value + SessionAttributes;
        commonHeaders := commonHeaders[Authorization := "Bearer " + token.value];
      } else {
        documentCookie := ExpiredCookie;
        commonHeaders := commonHeaders - {Authorization};
      }
    }
  }

  /**
   * Round trip: in a cookie string whose first `token=` entry is
   * `token=<t>`, the interceptor finds `t`, provided `t` holds no `=`
   * (which would cut it short), no `;` (which would end the entry) and no
   * `%` (which `decodeURIComponent` would rewrite).
   */
  lemma {:induction false} ExtractTokenRoundTrip(entries: seq<string>, k: nat, t: string)
    requires k < |entries|
    requires forall j :: 0 <= j < |entries| ==> Free(entries[j], CookieSeparator)
    requires forall j :: 0 <= j < k ==> !StartsWith(entries[j], TokenCookiePrefix)
    requires entries[k] == TokenCookiePrefix + t
    requires '=' !in t && ';' !in t && '%' !in t
    ensures ExtractToken(Join(entries, CookieSeparator)) == Some(t)
  {
    SplitJoin(entries, CookieSeparator);
    assert StartsWith(entries[k], TokenCookiePrefix);
    assert FindTokenRow(entries) == Some(k);
    var v := TokenValue(entries[k]);
    assert entries[k][|TokenCookiePrefix|..] == t;
    assert forall i :: 0 <= i < |t| ==> t[i] != '=';
    assert |v| == |t|;
    assert v == t;
  }

  /**
   * With no `token=` entry, as after the clearing cookie has expired the
   * pair, the interceptor finds no token and makes no header...
   */
  lemma NoTokenEntry(entries: seq<string>)
    requires |entries| >= 1
    requires forall j :: 0 <= j < |entries| ==> Free(entries[j], CookieSeparator)
    requires forall j :: 0 <= j < |entries| ==> !StartsWith(entries[j], TokenCookiePrefix)
    ensures ExtractToken(Join(entries, CookieSeparator)) == None
    ensures BearerHeader(ExtractToken(Join(entries, CookieSeparator))) == None
  {
    SplitJoin(entries, CookieSeparator);
  }

  /**
   * ...and without a non-empty token the interceptor leaves `Authorization`
   * as the request had it.
   */
  lemma NoTokenNoHeader(headers: map<string, string>, isFormData: bool, cookie: string)
    requires BearerHeader(ExtractToken(cookie)).None?
    ensures Authorization in InterceptHeaders(headers, isFormData, cookie) <==> Authorization in headers
    ensures Authorization in headers ==>
      InterceptHeaders(headers, isFormData, cookie)[Authorization] == headers[Authorization]
  {
  }

  /** A JSON request keeps the default `Content-Type: application/json`. */
  lemma DefaultContentTypeKept(cookie: string)
    ensures InterceptHeaders(DefaultHeaders, false, cookie)[ContentType] == "application/json"
    ensures ContentType !in InterceptHeaders(DefaultHeaders, true, cookie)
  {
  }

  /**
   * The cookie `setAuthToken(t)` writes, for a token without `;`, consists
   * of the `token=<t>` pair followed by its four attributes.
   */
  lemma SessionCookieFields(t: string)
    requires ';' !in t
    ensures Split(SessionCookie(t), CookieSeparator)
      == [TokenCookiePrefix + t, PathAttribute, MaxAgeAttribute, SecureAttribute, SameSiteAttribute]
  {
    var entries := [TokenCookiePrefix + t, PathAttribute, MaxAgeAttribute, SecureAttribute, SameSiteAttribute];
    SessionCookieEntries(t, entries);
    SessionEntriesFree(t, entries);
    SplitJoin(entries, CookieSeparator);
  }

  /**
   * After `setAuthToken(t)` the browser lists the pair `token=<t>` the
   * cookie named among its entries; if that is the first `token=` entry,
   * the interceptor sends the same `Bearer <t>` that `setAuthToken`
   * installs as the default header.
   */
  lemma SessionReadBack(t: string, jar: seq<string>, k: nat)
    requires t != "" && '=' !in t && ';' !in t && '%' !in t
    requires k < |jar|
    requires jar[k] == Split(SessionCookie(t), CookieSeparator)[0]
    requires forall j :: 0 <= j < |jar| ==> Free(jar[j], CookieSeparator)
    requires forall j :: 0 <= j < k ==> !StartsWith(jar[j], TokenCookiePrefix)
    ensures BearerHeader(ExtractToken(Join(jar, CookieSeparator))) == Some("Bearer " + t)
  {
    SessionCookieFields(t);
    ExtractTokenRoundTrip(jar, k, t);
  }

  lemma SessionCookieEntries(t: string, entries: seq<string>)
    requires entries == [TokenCookiePrefix + t, PathAttribute, MaxAgeAttribute, SecureAttribute, SameSiteAttribute]
    ensures Join(entries, CookieSeparator) == SessionCookie(t)
  {
    var sep := CookieSeparator;
    assert Join(entries[3..], sep) == SecureAttribute + sep + SameSiteAttribute;
    assert Join(entries[2..], sep) == MaxAgeAttribute + sep + SecureAttribute + sep + SameSiteAttribute;
    assert Join(entries[1..], sep)
        == PathAttribute + sep + MaxAgeAttribute + sep + SecureAttribute + sep + SameSiteAttribute;
  }

  lemma SessionEntriesFree(t: string, entries: seq<string>)
    requires ';' !in t
    requires entries == [TokenCookiePrefix + t, PathAttribute, MaxAgeAttribute, SecureAttribute, SameSiteAttribute]
    ensures forall j :: 0 <= j < |entries| ==> Free(entries[j], CookieSeparator)
  {
    FreeOfSemicolon(TokenCookiePrefix + t);
    FreeOfSemicolon(PathAttribute);
    FreeOfSemicolon(MaxAgeAttribute);
    FreeOfSemicolon(SecureAttribute);
    FreeOfSemicolon(SameSiteAttribute);
  }

  /**
   * The clearing cookie names the `token` pair with an empty value and an
   * expiry in the past, so the browser drops the entry.
   */
  lemma ExpiredCookieFields()
    ensures Split(ExpiredCookie, CookieSeparator) == [TokenCookiePrefix, PathAttribute, ExpiresAttribute]
  {
    var entries := [TokenCookiePrefix, PathAttribute, ExpiresAttribute];
    assert Join(entries[1..], CookieSeparator) == PathAttribute + CookieSeparator + ExpiresAttribute;
    assert Join(entries, CookieSeparator) == ExpiredCookie;
    forall j | 0 <= j < |entries|
      ensures Free(entries[j], CookieSeparator)
    {
      FreeOfSemicolon(entries[j]);
    }
    SplitJoin(entries, CookieSeparator);
  }

  lemma FreeOfSemicolon(s: string)
    requires ';' !in s
    ensures Free(s, CookieSeparator)
  {
    forall i | 0 <= i <= |s|
      ensures !MatchAt(s, CookieSeparator, i)
    {
      if i < |s| {
        assert s[i] != ';';
      }
    }
  }
}
