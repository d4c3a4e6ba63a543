/** The session bookkeeping of `AuthController`: finding the JSESSIONID after login, building and
    caching the `Cookie` header, and the checks on the RSA key answer and the login answer. */
module Auth {
  import opened Wrappers
  import opened Strings

  /** A cookie of a jar, as its name and value. */
  datatype Cookie = Cookie(name: string, value: string)

  /** What the model needs of a `requests.Response`: the body text, the cookie jar, and the
      `Set-Cookie` header ("" when it is absent). */
  datatype Response = Response(text: string, cookies: seq<Cookie>, setCookie: string)

  /** `KeyError` for the RSA key, `PermissionError` for the login, `KeyError` for the session id. */
  datatype AuthError = RsaKeyMissing | LoginRejected | SessionIdMissing

  // ---------------------------------------------------------------- headers

  const REQ_HEADERS: map<string, string> := map[
    "User-Agent" := "Mozilla/5.0 (Macintosh; Intel Mac OS X 10_15_7) AppleWebKit/537.36 (KHTML, like Gecko) Chrome/91.0.4472.77 Safari/537.36",
    "Connection" := "keep-alive",
    "Cache-Control" := "max-age=0",
    "sec-ch-ua" := "\" Not;A Brand\";v=\"99\", \"Google Chrome\";v=\"91\", \"Chromium\";v=\"91\"",
    "sec-ch-ua-mobile" := "?0",
    "Upgrade-Insecure-Requests" := "1",
    "Origin" := "https://www.dhlottery.co.kr",
    "Content-Type" := "application/x-www-form-urlencoded",
    "Accept" := "text/html,application/xhtml+xml,application/xml;q=0.9,image/avif,image/webp,image/apng,*/*;q=0.8,application/signed-exchange;v=b3;q=0.9",
    "Referer" := "https://www.dhlottery.co.kr/",
    "Sec-Fetch-Site" := "same-site",
    "Sec-Fetch-Mode" := "navigate",
    "Sec-Fetch-User" := "?1",
    "Sec-Fetch-Dest" := "document",
    "Accept-Language" := "ko,en-US;q=0.9,en;q=0.8,ko-KR;q=0.7"
  ]

  const LOGIN_REFERER := "https://www.dhlottery.co.kr/login"
  const LOGIN_ORIGIN := "https://www.dhlottery.co.kr"
  const LOGIN_ACCEPT := "text/html,application/xhtml+xml,application/xml;q=0.9,*/*;q=0.8"

  // ---------------------------------------------------------------- RSA key and login answer

  /** The `data` object of the RSA key answer; a `None` field is a missing key. */
  datatype RsaData = RsaData(rsaModulus: Option<string>, publicExponent: Option<string>)

  /** The RSA key answer; a missing `data` is read as `{}`. */
  datatype RsaPayload = RsaPayload(data: Option<RsaData>)

  /** Python's truthiness of an optional string. */
  predicate Truthy(s: Option<string>) {
    s.Some? && s.value != []
  }

  /** `_fetch_rsa_key` after the request: both key fields must be present and non-empty. */
  function FetchRsaKey(payload: RsaPayload): (r: Result<(string, string), AuthError>)
    ensures r.Success? <==> payload.data.Some? && Truthy(payload.data.value.rsaModulus) && Truthy(payload.data.value.publicExponent)
    ensures r.Success? ==> r.value == (payload.data.value.rsaModulus.value, payload.data.value.publicExponent.value)
    ensures r.Failure? ==> r.error == RsaKeyMissing
  {
    var data := payload.data.GetOr(RsaData(None, None));
    if !Truthy(data.rsaModulus) || !Truthy(data.publicExponent) then Failure(RsaKeyMissing)
    else Success((data.rsaModulus.value, data.publicExponent.value))
  }

  const LOGIN_FAILURE_PHRASES: seq<string> := ["아이디 또는 비밀번호를 확인해주세요", "로그인에 실패", "loginFail"]

  /** `_try_login` after the request: the answer is refused when its body holds a failure phrase. */
  function TryLogin(res: Response): (r: Result<Response, AuthError>)
    ensures r.Failure? <==> exists k :: 0 <= k < |LOGIN_FAILURE_PHRASES| && Contains(res.text, LOGIN_FAILURE_PHRASES[k])
    ensures r.Failure? ==> r.error == LoginRejected
    ensures r.Success? ==> r.value == res
  {
    if exists k :: 0 <= k < |LOGIN_FAILURE_PHRASES| && Contains(res.text, LOGIN_FAILURE_PHRASES[k])
    then Failure(LoginRejected)
    else Success(res)
  }

  /** A body with a failure phrase anywhere in it is refused, whatever surrounds it. */
  lemma LoginRefusedWithPhrase(a: string, k: nat, b: string, cookies: seq<Cookie>, setCookie: string)
    requires k < |LOGIN_FAILURE_PHRASES|
    ensures TryLogin(Response(a + LOGIN_FAILURE_PHRASES[k] + b, cookies, setCookie)) == Failure(LoginRejected)
  {
    ContainsInside(a, LOGIN_FAILURE_PHRASES[k], b);
  }

  // ---------------------------------------------------------------- finding the session id

  /** What `_get_j_session_id_from_session` accepts: a value, and an upper-cased name starting with JSESSIONID. */
  predicate SessionCookie(c: Cookie) {
    c.value != [] && StartsWith(Upper(c.name), "JSESSIONID")
  }

  /** The value of the first session cookie of the jar. */
  function SessionIdFromJar(jar: seq<Cookie>): (r: Option<string>)
    ensures r.Some? ==> exists i :: 0 <= i < |jar| && SessionCookie(jar[i]) && r.value == jar[i].value &&
                                    forall j :: 0 <= j < i ==> !SessionCookie(jar[j])
    ensures r.None? ==> forall i :: 0 <= i < |jar| ==> !SessionCookie(jar[i])
  {
    if jar == [] then None
    else if SessionCookie(jar[0]) then Some(jar[0].value)
    else
      var r := SessionIdFromJar(jar[1..]);
      assert forall i :: 1 <= i < |jar| ==> jar[i] == jar[1..][i - 1];
      r
  }

  /** The response jar is searched by name alone: an empty value is returned too. */
  predicate NamedSession(c: Cookie) {
    StartsWith(Upper(c.name), "JSESSIONID")
  }

  function NamedSessionId(cookies: seq<Cookie>): (r: Option<string>)
    ensures r.Some? ==> exists i :: 0 <= i < |cookies| && NamedSession(cookies[i]) && r.value == cookies[i].value &&
                                    forall j :: 0 <= j < i ==> !NamedSession(cookies[j])
    ensures r.None? ==> forall i :: 0 <= i < |cookies| ==> !NamedSession(cookies[i])
  {
    if cookies == [] then None
    else if NamedSession(cookies[0]) then Some(cookies[0].value)
    else
      var r := NamedSessionId(cookies[1..]);
      assert forall i :: 1 <= i < |cookies| ==> cookies[i] == cookies[1..][i - 1];
      r
  }

  /** A character of the text matches a letter of the pattern `JSESSIONID` under `re.IGNORECASE`:
      its simple lower case is the letter's, or it is one of the extra forms Python's `re` treats as
      equal (dotless i for I, long s for S). */
  predicate MatchesLetter(c: char, p: char)
    requires p in "JSEIOND"
  {
    c == p || c as int == p as int + 32 ||
    (p == 'I' && (c == '\U{130}' || c == '\U{131}')) ||
    (p == 'S' && c == '\U{17F}')
  }

  /** Ten characters that match `JSESSIONID`, ignoring case. */
  predicate NameIs(w: string)
    requires |w| == 10
  {
    MatchesLetter(w[0], 'J') && MatchesLetter(w[1], 'S') && MatchesLetter(w[2], 'E') && MatchesLetter(w[3], 'S') &&
    MatchesLetter(w[4], 'S') && MatchesLetter(w[5], 'I') && MatchesLetter(w[6], 'O') && MatchesLetter(w[7], 'N') &&
    MatchesLetter(w[8], 'I') && MatchesLetter(w[9], 'D')
  }

  /** `JSESSIONID` matches at position `k`, ignoring case. */
  predicate NameAt(s: string, k: nat) {
    k + 10 <= |s| && NameIs(s[k..k + 10])
  }

  /** The first position at or after `from` holding `c`. */
  function IndexFrom(s: string, c: char, from: nat): (r: Option<nat>)
    ensures r.Some? ==> from <= r.value < |s| && s[r.value] == c && forall i :: from <= i < r.value ==> s[i] != c
    ensures r.None? ==> forall i :: from <= i < |s| ==> s[i] != c
    decreases |s| - from
  {
    if from >= |s| then None else if s[from] == c then Some(from) else IndexFrom(s, c, from + 1)
  }

  /** A character of the class `[^;\s]`. */
  predicate ValueChar(c: char) {
    c != ';' && !IsSpace(c)
  }

  /** The longest run of `[^;\s]` at the front of `s`. */
  function ValueRun(s: string): (v: string)
    ensures |v| <= |s| && v == s[..|v|]
    ensures forall i :: 0 <= i < |v| ==> ValueChar(v[i])
    ensures |v| < |s| ==> !ValueChar(s[|v|])
  {
    if s == [] || !ValueChar(s[0]) then [] else [s[0]] + ValueRun(s[1..])
  }

  /** The match of `JSESSIONID[^=]*=([^;\s]+)` starting at `k`, as its group: `[^=]*` runs to the
      first `=` after the name, and the group is the `[^;\s]` run after it, which must not be empty. */
  function MatchAt(s: string, k: nat): Option<string> {
    if !NameAt(s, k) then None else GroupAfter(s, k + 10)
  }

  /** `[^=]*=([^;\s]+)` from `from`: the run after the first `=`, when it is not empty. */
  function GroupAfter(s: string, from: nat): Option<string> {
    match IndexFrom(s, '=', from)
    case None => None
    case Some(e) =>
      var v := ValueRun(s[e + 1..]);
      if v == [] then None else Some(v)
  }

  /** `re.search`: the leftmost position where the pattern matches. */
  function SearchFrom(s: string, k: nat): Option<string>
    decreases |s| + 1 - k
  {
    if k > |s| then None
    else match MatchAt(s, k)
      case Some(v) => Some(v)
      case None => SearchFrom(s, k + 1)
  }

  /** The group of `re.search(r"JSESSIONID[^=]*=([^;\s]+)", set_cookie, re.IGNORECASE)`. */
  function SetCookieSessionId(setCookie: string): Option<string> {
    SearchFrom(setCookie, 0)
  }

  /** A found id is a non-empty run without `;` or whitespace. */
  lemma {:induction false} SearchFromShape(s: string, k: nat)
    ensures var r := SearchFrom(s, k);
      r.Some? ==> r.value != [] && forall i :: 0 <= i < |r.value| ==> ValueChar(r.value[i])
    decreases |s| + 1 - k
  {
    if k <= |s| && MatchAt(s, k).None? {
      SearchFromShape(s, k + 1);
    }
  }

  lemma SetCookieSessionIdShape(setCookie: string)
    ensures var r := SetCookieSessionId(setCookie);
      r.Some? ==> r.value != [] && forall i :: 0 <= i < |r.value| ==> ValueChar(r.value[i])
  {
    SearchFromShape(setCookie, 0);
  }

  /** Where the name (in any case) first occurs, the id is the value after the `=` that follows
      it, up to `;` or whitespace, whatever text (cookies with their own `=`) comes before. */
  lemma SetCookieSessionIdOf(pre: string, name: string, v: string, rest: string)
    requires forall j :: 0 <= j < |pre| ==> !NameAt(pre + name + "=" + v + rest, j)
    requires |name| == 10 && NameIs(name)
    requires v != [] && forall i :: 0 <= i < |v| ==> ValueChar(v[i])
    requires rest == [] || !ValueChar(rest[0])
    ensures SetCookieSessionId(pre + name + "=" + v + rest) == Some(v)
  {
    var s := pre + name + "=" + v + rest;
    var e := |pre| + |name|;
    assert s[e] == '=';
    assert s[e + 1..] == v + rest;
    ValueRunOf(v, rest);
    assert s[|pre|..|pre| + 10] == name;
    GroupReached(s, e, e, v);
    assert NameAt(s, |pre|);
    SearchReaches(s, |pre|, v, 0);
  }

  /** `re.search` finds nothing exactly when the pattern matches at no position. */
  lemma {:induction false} SearchFromNone(s: string, k: nat)
    ensures SearchFrom(s, k).None? <==> forall j :: k <= j <= |s| ==> MatchAt(s, j).None?
    decreases |s| + 1 - k
  {
    if k <= |s| {
      var m := MatchAt(s, k);
      if m.None? {
        assert SearchFrom(s, k) == SearchFrom(s, k + 1);
        SearchFromNone(s, k + 1);
      } else {
        assert SearchFrom(s, k) == m;
      }
    }
  }

  /** A group `re.search` finds is that of the leftmost position where the pattern matches. */
  lemma {:induction false} SearchFromSome(s: string, k: nat) returns (p: nat)
    requires SearchFrom(s, k).Some?
    ensures k <= p <= |s| && MatchAt(s, p) == SearchFrom(s, k)
    ensures forall j :: k <= j < p ==> MatchAt(s, j).None?
    decreases |s| + 1 - k
  {
    var m := MatchAt(s, k);
    if m.None? {
      assert SearchFrom(s, k) == SearchFrom(s, k + 1);
      p := SearchFromSome(s, k + 1);
    } else {
      assert SearchFrom(s, k) == m;
      p := k;
    }
  }

  /** The header search fails exactly when no position holds the name followed, after the next
      `=`, by a non-empty value run; a found id is the group of the leftmost such position. */
  lemma SetCookieSessionIdLeftmost(setCookie: string) returns (p: nat)
    ensures SetCookieSessionId(setCookie).None? <==> forall j :: 0 <= j <= |setCookie| ==> MatchAt(setCookie, j).None?
    ensures SetCookieSessionId(setCookie).Some? ==>
      p <= |setCookie| && NameAt(setCookie, p) && GroupAfter(setCookie, p + 10) == SetCookieSessionId(setCookie) &&
      forall j :: 0 <= j < p ==> MatchAt(setCookie, j).None?
  {
    SearchFromNone(setCookie, 0);
    p := 0;
    if SetCookieSessionId(setCookie).Some? {
      p := SearchFromSome(setCookie, 0);
    }
  }

  /** A session cookie after other cookies whose text has no `J`: its value is the id. */
  lemma SessionIdAfterOtherCookies(pre: string, v: string, rest: string)
    requires 'J' !in pre && 'j' !in pre
    requires v != [] && forall i :: 0 <= i < |v| ==> ValueChar(v[i])
    requires rest == [] || !ValueChar(rest[0])
    ensures SetCookieSessionId(pre + "JSESSIONID" + "=" + v + rest) == Some(v)
  {
    var s := pre + "JSESSIONID" + "=" + v + rest;
    assert s[..|pre|] == pre;
    NoNameBefore(s, |pre|);
    SetCookieSessionIdOf(pre, "JSESSIONID", v, rest);
  }

  /** Several `Set-Cookie` lines merged with `, `: the session id is found after another cookie. */
  lemma MergedHeaderSessionId(header: string)
    requires header == "WMONID=abc; Path=/, JSESSIONID=xyz; Path=/"
    ensures SetCookieSessionId(header) == Some("xyz")
  {
    var pre, v, rest := MergedHeaderParts(header);
    SessionIdAfterOtherCookies(pre, v, rest);
  }

  /** The example header cut into the cookie before the session cookie, its value and the rest. */
  lemma MergedHeaderParts(header: string) returns (pre: string, v: string, rest: string)
    requires header == "WMONID=abc; Path=/, JSESSIONID=xyz; Path=/"
    ensures header == pre + "JSESSIONID" + "=" + v + rest && v == "xyz"
    ensures 'J' !in pre && 'j' !in pre
    ensures v != [] && forall i :: 0 <= i < |v| ==> ValueChar(v[i])
    ensures rest == [] || !ValueChar(rest[0])
  {
    pre, v, rest := "WMONID=abc; Path=/, ", "xyz", "; Path=/";
    assert header == pre + "JSESSIONID" + "=" + v + rest;
  }

  /** No name starts inside a prefix without `J` or `j`. */
  lemma NoNameBefore(s: string, n: nat)
    requires n <= |s| && 'J' !in s[..n] && 'j' !in s[..n]
    ensures forall j :: 0 <= j < n ==> !NameAt(s, j)
  {
    forall j | 0 <= j < n
      ensures !NameAt(s, j)
    {
      assert s[j] == s[..n][j];
      if j + 10 <= |s| {
        assert s[j..j + 10][0] == s[j];
      }
    }
  }

  /** The name is matched in any case, and the id stops at `;`. */
  lemma LowerCaseSessionHeader()
    ensures SetCookieSessionId("jsessionid=abc123; Path=/") == Some("abc123")
  {
    assert "jsessionid=abc123; Path=/" == "" + "jsessionid" + "=" + "abc123" + "; Path=/";
    SetCookieSessionIdOf("", "jsessionid", "abc123", "; Path=/");
  }

  lemma {:induction false} ValueRunOf(v: string, rest: string)
    requires forall i :: 0 <= i < |v| ==> ValueChar(v[i])
    requires rest == [] || !ValueChar(rest[0])
    ensures ValueRun(v + rest) == v
  {
    if v != [] {
      assert (v + rest)[1..] == v[1..] + rest;
      ValueRunOf(v[1..], rest);
    }
  }

  /** A search that meets only failures or the same group before `p` finds the group at `p`. */
  lemma {:induction false} SearchReaches(s: string, p: nat, v: string, k: nat)
    requires p <= |s| && MatchAt(s, p) == Some(v)
    requires forall j :: k <= j < p ==> MatchAt(s, j).None? || MatchAt(s, j) == Some(v)
    requires k <= p
    ensures SearchFrom(s, k) == Some(v)
    decreases p - k
  {
    if k < p && MatchAt(s, k).None? {
      SearchReaches(s, p, v, k + 1);
    }
  }

  lemma GroupReached(s: string, from: nat, e: nat, v: string)
    requires from <= e < |s| && s[e] == '=' && forall i :: from <= i < e ==> s[i] != '='
    requires v != [] && ValueRun(s[e + 1..]) == v
    ensures GroupAfter(s, from) == Some(v)
  {
    IndexFromFirst(s, '=', from, e);
  }

  lemma IndexFromFirst(s: string, c: char, from: nat, e: nat)
    requires from <= e < |s| && s[e] == c && forall i :: from <= i < e ==> s[i] != c
    ensures IndexFrom(s, c, from) == Some(e)
  {
  }

  /** Where `_get_j_session_id_from_response` finds the id: the response jar by name first, then
      the header. */
  function ResponseSessionId(res: Response): (r: Option<string>)
    ensures NamedSessionId(res.cookies).Some? ==> r == NamedSessionId(res.cookies)
    ensures NamedSessionId(res.cookies).None? ==> r == (if res.setCookie == [] then None else SetCookieSessionId(res.setCookie))
  {
    match NamedSessionId(res.cookies)
    case Some(v) => Some(v)
    case None => if res.setCookie == [] then None else SetCookieSessionId(res.setCookie)
  }

  // ---------------------------------------------------------------- the Cookie header

  /** `f"{cookie.name}={cookie.value}"` for every cookie of the jar that has a value, in jar order. */
  function JarEntries(jar: seq<Cookie>): seq<string> {
    if jar == [] then []
    else
      var c := jar[|jar| - 1];
      JarEntries(jar[..|jar| - 1]) + (if c.value != [] then [c.name + "=" + c.value] else [])
  }

  /** Every entry comes from a cookie of the jar that has a value. */
  lemma {:induction false} JarEntriesFromJar(jar: seq<Cookie>, e: string)
    requires e in JarEntries(jar)
    ensures exists c :: c in jar && c.value != [] && e == c.name + "=" + c.value
  {
    var init := jar[..|jar| - 1];
    var c := jar[|jar| - 1];
    if e in JarEntries(init) {
      JarEntriesFromJar(init, e);
      var c' :| c' in init && c'.value != [] && e == c'.name + "=" + c'.value;
      assert c' in jar;
    }
  }

  lemma {:induction false} JarEntriesConcat(a: seq<Cookie>, b: seq<Cookie>)
    ensures JarEntries(a + b) == JarEntries(a) + JarEntries(b)
    decreases |b|
  {
    if b == [] {
      assert a + b == a;
    } else {
      var b' := b[..|b| - 1];
      assert (a + b)[..|a + b| - 1] == a + b';
      JarEntriesConcat(a, b');
    }
  }

  /** The text before the first `c`, as `s.split(c, 1)[0]`. */
  function BeforeChar(s: string, c: char): (r: string)
    ensures |r| <= |s| && c !in r && r == s[..|r|]
  {
    match IndexFrom(s, c, 0)
    case None => s
    case Some(i) => s[..i]
  }

  /** One comma-piece of the `Set-Cookie` header: split at the first `=`, the value cut at the
      first `;`, both stripped; nothing when there is no `=` or the value is empty. */
  function SetCookieEntry(part: string): Option<string> {
    match IndexFrom(part, '=', 0)
    case None => None
    case Some(e) =>
      var value := Strip(BeforeChar(part[e + 1..], ';'));
      var name := Strip(part[..e]);
      if value == [] then None else Some(name + "=" + value)
  }

  /** The entries of the comma-pieces, in order. */
  function PartEntries(parts: seq<string>): seq<string> {
    if parts == [] then []
    else
      var e := SetCookieEntry(parts[|parts| - 1]);
      PartEntries(parts[..|parts| - 1]) + (if e.Some? then [e.value] else [])
  }

  lemma PartEntriesStep(parts: seq<string>, k: nat)
    requires k < |parts|
    ensures var e := SetCookieEntry(parts[k]);
      PartEntries(parts[..k + 1]) == PartEntries(parts[..k]) + (if e.Some? then [e.value] else [])
  {
    assert parts[..k + 1][..k] == parts[..k];
  }

  /** The entries of the whole header, split literally at every comma. */
  function SetCookieEntries(setCookie: string): seq<string> {
    if setCookie == [] then [] else PartEntries(Split(setCookie, ','))
  }

  /** Some entry already carries the session cookie, by the case-blind `upper().startswith`
      test of `_build_cookie_header`. */
  predicate HasSessionEntry(entries: seq<string>) {
    exists e :: e in entries && IsSessionEntry(e)
  }

  /** The entries of the session jar, then of the response jar and its `Set-Cookie` header. */
  function BaseEntries(jar: seq<Cookie>, res: Option<Response>): seq<string> {
    JarEntries(jar) +
      (if res.Some? then JarEntries(res.value.cookies) + SetCookieEntries(res.value.setCookie) else [])
  }

  const SESSION_PREFIX := "JSESSIONID="

  /** `c.upper().startswith("JSESSIONID=")`. */
  predicate IsSessionEntry(e: string) {
    StartsWith(Upper(e), SESSION_PREFIX)
  }

  /** The entry added for a known session id. */
  function SessionEntry(cred: string): string {
    SESSION_PREFIX + cred
  }

  lemma SessionPrefixUpper()
    ensures Upper(SESSION_PREFIX) == SESSION_PREFIX
  {
    assert forall i :: 0 <= i < |SESSION_PREFIX| ==> 'A' <= SESSION_PREFIX[i] <= 'Z' || SESSION_PREFIX[i] == '=';
    assert forall i :: 0 <= i < |SESSION_PREFIX| ==> UpperFixed(SESSION_PREFIX[i]);
    UpperOfFixed(SESSION_PREFIX);
  }

  lemma SessionEntryCounts(cred: string)
    ensures IsSessionEntry(SessionEntry(cred))
  {
    UpperConcat(SESSION_PREFIX, cred);
    SessionPrefixUpper();
    assert Upper(SessionEntry(cred)) == SESSION_PREFIX + Upper(cred);
  }

  /** The entries `_build_cookie_header` collects: the base entries, then the session id when it
      is known and no entry carries it. */
  function CookieEntries(cred: string, jar: seq<Cookie>, res: Option<Response>): seq<string> {
    var base := BaseEntries(jar, res);
    if cred != [] && !HasSessionEntry(base) then base + [SessionEntry(cred)] else base
  }

  /** `dict.fromkeys(xs)`: the first occurrence of every element, in order. */
  function Dedup(xs: seq<string>): seq<string> {
    if xs == [] then []
    else
      var d := Dedup(xs[..|xs| - 1]);
      if xs[|xs| - 1] in d then d else d + [xs[|xs| - 1]]
  }

  /** The deduplicated list holds exactly the elements of the list. */
  lemma {:induction false} DedupElements(xs: seq<string>)
    ensures forall x :: x in Dedup(xs) <==> x in xs
  {
    if xs != [] {
      var init := xs[..|xs| - 1];
      DedupElements(init);
      assert xs == init + [xs[|xs| - 1]];
    }
  }

  /** The deduplicated list holds no element twice. */
  lemma {:induction false} DedupDistinct(xs: seq<string>)
    ensures forall i, j :: 0 <= i < j < |Dedup(xs)| ==> Dedup(xs)[i] != Dedup(xs)[j]
  {
    if xs != [] {
      DedupDistinct(xs[..|xs| - 1]);
    }
  }

  /** The header `_build_cookie_header` returns. */
  function CookieHeader(cred: string, jar: seq<Cookie>, res: Option<Response>): string {
    Join(Dedup(CookieEntries(cred, jar, res)), "; ")
  }

  /** What the deduplicated list starts with is the deduplicated first part: earlier sources keep their order. */
  lemma {:induction false} DedupPrefix(xs: seq<string>, ys: seq<string>)
    ensures |Dedup(xs)| <= |Dedup(xs + ys)| && Dedup(xs + ys)[..|Dedup(xs)|] == Dedup(xs)
    decreases |ys|
  {
    if ys == [] {
      assert xs + ys == xs;
    } else {
      var ys' := ys[..|ys| - 1];
      assert (xs + ys)[..|xs + ys| - 1] == xs + ys';
      DedupPrefix(xs, ys');
    }
  }

  /** A list without repetitions is its own deduplication. */
  lemma {:induction false} DedupOfDistinct(xs: seq<string>)
    requires forall i, j :: 0 <= i < j < |xs| ==> xs[i] != xs[j]
    ensures Dedup(xs) == xs
  {
    if xs != [] {
      var init := xs[..|xs| - 1];
      DedupOfDistinct(init);
      assert xs[|xs| - 1] !in init;
      assert init + [xs[|xs| - 1]] == xs;
    }
  }

  lemma DedupIdempotent(xs: seq<string>)
    ensures Dedup(Dedup(xs)) == Dedup(xs)
  {
    DedupDistinct(xs);
    DedupOfDistinct(Dedup(xs));
  }

  /** Elements that were all seen before change nothing, wherever they are inserted. */
  lemma {:induction false} DedupSeenInserted(xs: seq<string>, ys: seq<string>, zs: seq<string>)
    requires forall y :: y in ys ==> y in xs
    ensures Dedup(xs + ys + zs) == Dedup(xs + zs)
    decreases |zs|
  {
    if zs == [] {
      assert xs + ys + zs == xs + ys && xs + zs == xs;
      DedupSeenAtEnd(xs, ys);
    } else {
      var zs' := zs[..|zs| - 1];
      DedupSeenInserted(xs, ys, zs');
      assert (xs + ys + zs)[..|xs + ys + zs| - 1] == xs + ys + zs';
      assert (xs + zs)[..|xs + zs| - 1] == xs + zs';
      assert (xs + ys + zs)[|xs + ys + zs| - 1] == (xs + zs)[|xs + zs| - 1];
      DedupElements(xs + ys + zs');
      DedupElements(xs + zs');
    }
  }

  lemma {:induction false} DedupSeenAtEnd(xs: seq<string>, ys: seq<string>)
    requires forall y :: y in ys ==> y in xs
    ensures Dedup(xs + ys) == Dedup(xs)
    decreases |ys|
  {
    if ys == [] {
      assert xs + ys == xs;
    } else {
      var ys' := ys[..|ys| - 1];
      assert (xs + ys)[..|xs + ys| - 1] == xs + ys';
      DedupSeenAtEnd(xs, ys');
      assert ys[|ys| - 1] in ys;
      DedupElements(xs);
    }
  }

  /** With a known session id the header always carries a `JSESSIONID=` entry. */
  lemma SessionIdAlwaysSent(cred: string, jar: seq<Cookie>, res: Option<Response>)
    requires cred != []
    ensures HasSessionEntry(Dedup(CookieEntries(cred, jar, res)))
  {
    var entries := CookieEntries(cred, jar, res);
    var base := BaseEntries(jar, res);
    DedupElements(entries);
    if HasSessionEntry(base) {
      var e :| e in base && IsSessionEntry(e);
      assert e in entries;
    } else {
      assert SessionEntry(cred) in entries;
      SessionEntryCounts(cred);
    }
  }

  /** The session jar's entries lead the header, in jar order. */
  lemma JarEntriesLead(cred: string, jar: seq<Cookie>, res: Option<Response>)
    ensures var d := Dedup(CookieEntries(cred, jar, res));
      |Dedup(JarEntries(jar))| <= |d| && d[..|Dedup(JarEntries(jar))|] == Dedup(JarEntries(jar))
  {
    var entries := CookieEntries(cred, jar, res);
    var a := JarEntries(jar);
    assert entries == a + entries[|a|..];
    DedupPrefix(a, entries[|a|..]);
  }

  /** Response cookies that the session jar already holds add nothing to the header:
      listing a source twice changes nothing. */
  lemma RepeatedJarChangesNothing(cred: string, jar: seq<Cookie>, res: Response)
    requires forall c :: c in res.cookies && c.value != [] ==> c in jar
    ensures CookieHeader(cred, jar, Some(res)) == CookieHeader(cred, jar, Some(res.(cookies := [])))
  {
    var a, b, c := JarEntries(jar), JarEntries(res.cookies), SetCookieEntries(res.setCookie);
    assert JarEntries([]) == [];
    forall y | y in b
      ensures y in a
    {
      JarEntriesFromJar(res.cookies, y);
      var c :| c in res.cookies && c.value != [] && y == c.name + "=" + c.value;
      JarHasEntry(jar, c);
    }
    assert a + (b + c) == a + b + c;
    assert a + ([] + c) == a + c;
    DedupSeenInserted(a, b, c);
    HasSessionInserted(a, b, c);
    if cred != [] && !HasSessionEntry(a + b + c) {
      var t := [SessionEntry(cred)];
      assert a + b + c + t == a + b + (c + t);
      assert a + c + t == a + (c + t);
      DedupSeenInserted(a, b, c + t);
    }
  }

  lemma {:induction false} JarHasEntry(jar: seq<Cookie>, c: Cookie)
    requires c in jar && c.value != []
    ensures c.name + "=" + c.value in JarEntries(jar)
    decreases |jar|
  {
    var init := jar[..|jar| - 1];
    if jar[|jar| - 1] != c {
      assert c in init;
      JarHasEntry(init, c);
    }
  }

  lemma HasSessionInserted(a: seq<string>, b: seq<string>, c: seq<string>)
    requires forall y :: y in b ==> y in a
    ensures HasSessionEntry(a + b + c) <==> HasSessionEntry(a + c)
  {
    assert forall x :: x in a + b + c <==> x in a || x in b || x in c;
    assert forall x :: x in a + c <==> x in a || x in c;
  }

  // ---------------------------------------------------------------- the controller

  class AuthController {
    /** `_AUTH_CRED`: the JSESSIONID found after login. */
    var authCred: string
    /** `_cached_cookie_header`: the whole `Cookie` header built after login. */
    var cachedCookieHeader: string

    constructor ()
      ensures authCred == [] && cachedCookieHeader == []
    {
      authCred := [];
      cachedCookieHeader := [];
    }

    /** The `Cookie` value every later request carries. */
    function CookieValue(): string
      reads this
    {
      if cachedCookieHeader != [] then cachedCookieHeader else SessionEntry(authCred)
    }

    /** `add_auth_cred_to_headers`: a copy of the headers that differs only in `Cookie`. The
        caller's dict is a value here, so it cannot change. */
    function AddAuthCredToHeaders(headers: map<string, string>): (r: map<string, string>)
      reads this
      ensures r.Keys == headers.Keys + {"Cookie"}
      ensures r["Cookie"] == CookieValue() && r["Cookie"] != []
      ensures cachedCookieHeader != [] ==> r["Cookie"] == cachedCookieHeader
      ensures cachedCookieHeader == [] ==> r["Cookie"] == "JSESSIONID=" + authCred
      ensures forall k :: k in headers && k != "Cookie" ==> r[k] == headers[k]
    {
      headers["Cookie" := CookieValue()]
    }

    /** `_generate_login_headers`: the base headers with the login page's Referer, Origin and
        Accept, and without `Content-Type` when it is not wanted. */
    static function GenerateLoginHeaders(includeContentType: bool): (r: map<string, string>)
      ensures "Content-Type" in r <==> includeContentType
      ensures includeContentType ==> r["Content-Type"] == REQ_HEADERS["Content-Type"]
      ensures "Referer" in r && r["Referer"] == LOGIN_REFERER
      ensures "Origin" in r && r["Origin"] == LOGIN_ORIGIN
      ensures "Accept" in r && r["Accept"] == LOGIN_ACCEPT
      ensures forall k :: k in REQ_HEADERS && k != "Content-Type" && k != "Referer" && k != "Origin" && k != "Accept"
                ==> k in r && r[k] == REQ_HEADERS[k]
      ensures r.Keys <= REQ_HEADERS.Keys
    {
      var h := REQ_HEADERS["Referer" := LOGIN_REFERER]["Origin" := LOGIN_ORIGIN]["Accept" := LOGIN_ACCEPT];
      if includeContentType then h else h - {"Content-Type"}
    }

    /** `_generate_req_headers`: the base headers with the given session id as the only cookie. */
    static function GenerateReqHeaders(jSessionId: string): (r: map<string, string>)
      ensures r.Keys == REQ_HEADERS.Keys + {"Cookie"}
      ensures r["Cookie"] == SessionEntry(jSessionId)
      ensures forall k :: k in REQ_HEADERS ==> r[k] == REQ_HEADERS[k]
    {
      REQ_HEADERS["Cookie" := SessionEntry(jSessionId)]
    }

    /** `_get_j_session_id_from_session`, over the session jar. */
    method GetJSessionIdFromSession(jar: seq<Cookie>) returns (r: Result<string, AuthError>)
      ensures SessionIdFromJar(jar).Some? ==> r == Success(SessionIdFromJar(jar).value)
      ensures SessionIdFromJar(jar).None? ==> r == Failure(SessionIdMissing)
    {
      for i := 0 to |jar|
        invariant SessionIdFromJar(jar) == SessionIdFromJar(jar[i..])
      {
        assert jar[i..][1..] == jar[i + 1..];
        if jar[i].value != [] && StartsWith(Upper(jar[i].name), "JSESSIONID") {
          return Success(jar[i].value);
        }
      }
      return Failure(SessionIdMissing);
    }

    /** `_get_j_session_id_from_response`: the response jar by name, then the `Set-Cookie` header. */
    method GetJSessionIdFromResponse(res: Response) returns (r: Result<string, AuthError>)
      ensures ResponseSessionId(res).Some? ==> r == Success(ResponseSessionId(res).value)
      ensures ResponseSessionId(res).None? ==> r == Failure(SessionIdMissing)
    {
      var jar := res.cookies;
      for i := 0 to |jar|
        invariant NamedSessionId(jar) == NamedSessionId(jar[i..])
      {
        assert jar[i..][1..] == jar[i + 1..];
        if StartsWith(Upper(jar[i].name), "JSESSIONID") {
          return Success(jar[i].value);
        }
      }
      if res.setCookie != [] {
        var m := SetCookieSessionId(res.setCookie);
        if m.Some? {
          return Success(m.value);
        }
      }
      return Failure(SessionIdMissing);
    }

    /** `_append_from_jar`. */
    static method AppendFromJar(cookies: seq<string>, jar: seq<Cookie>) returns (out: seq<string>)
      ensures out == cookies + JarEntries(jar)
    {
      out := cookies;
      for i := 0 to |jar|
        invariant out == cookies + JarEntries(jar[..i])
      {
        assert jar[..i + 1][..i] == jar[..i];
        if jar[i].value != [] {
          out := out + [jar[i].name + "=" + jar[i].value];
        }
      }
      assert jar[..|jar|] == jar;
    }

    /** The `Set-Cookie` loop of `_build_cookie_header`. */
    static method AppendFromSetCookie(cookies: seq<string>, setCookie: string) returns (out: seq<string>)
      ensures out == cookies + SetCookieEntries(setCookie)
    {
      var found: seq<string> := [];
      if setCookie != [] {
        var parts := Split(setCookie, ',');
        for k := 0 to |parts|
          invariant found == PartEntries(parts[..k])
        {
          var entry := SetCookieEntry(parts[k]);
          PartEntriesStep(parts, k);
          if entry.Some? {
            found := found + [entry.value];
          }
        }
        assert parts[..|parts|] == parts;
      }
      out := cookies + found;
    }

    /** `_build_cookie_header`, with `jar` for the session's cookies. */
    method BuildCookieHeader(jar: seq<Cookie>, res: Option<Response>) returns (header: string)
      ensures header == CookieHeader(authCred, jar, res)
    {
      var cookies := AppendFromJar([], jar);
      if res.Some? {
        cookies := AppendFromJar(cookies, res.value.cookies);
        cookies := AppendFromSetCookie(cookies, res.value.setCookie);
      }
      assert cookies == BaseEntries(jar, res);
      if authCred != [] && !HasSessionEntry(cookies) {
        cookies := cookies + [SessionEntry(authCred)];
      }
      header := Join(Dedup(cookies), "; ");
    }

    /** `_update_auth_cred`: the session jar first; only when it has no session cookie, the login
        answer, which then also feeds the header. A `Failure` is the `KeyError` that escapes, and
        then nothing changes. */
    method UpdateAuthCred(jar: seq<Cookie>, loginResponse: Response) returns (r: Result<(), AuthError>)
      modifies this
      ensures SessionIdFromJar(jar).Some? ==>
        r.Success? && authCred == SessionIdFromJar(jar).value &&
        cachedCookieHeader == CookieHeader(authCred, jar, None)
      ensures SessionIdFromJar(jar).None? && ResponseSessionId(loginResponse).Some? ==>
        r.Success? && authCred == ResponseSessionId(loginResponse).value &&
        cachedCookieHeader == CookieHeader(authCred, jar, Some(loginResponse))
      ensures SessionIdFromJar(jar).None? && ResponseSessionId(loginResponse).None? ==>
        r == Failure(SessionIdMissing) && authCred == old(authCred) && cachedCookieHeader == old(cachedCookieHeader)
    {
      var fromSession := GetJSessionIdFromSession(jar);
      if fromSession.Success? {
        authCred := fromSession.value;
        cachedCookieHeader := BuildCookieHeader(jar, None);
        return Success(());
      }
      var fromResponse := GetJSessionIdFromResponse(loginResponse);
      if fromResponse.Failure? {
        return Failure(fromResponse.error);
      }
      authCred := fromResponse.value;
      cachedCookieHeader := BuildCookieHeader(jar, Some(loginResponse));
      return Success(());
    }
  }

  /** With a known session id the header text carries `JSESSIONID=`, in whatever case the
      cookie's name was spelt. */
  lemma SessionIdInHeader(cred: string, jar: seq<Cookie>, res: Option<Response>)
    requires cred != []
    ensures Contains(Upper(CookieHeader(cred, jar, res)), SESSION_PREFIX)
  {
    SessionIdAlwaysSent(cred, jar, res);
    JoinedSessionEntry(Dedup(CookieEntries(cred, jar, res)));
  }

  lemma JoinedSessionEntry(d: seq<string>)
    requires HasSessionEntry(d)
    ensures Contains(Upper(Join(d, "; ")), SESSION_PREFIX)
  {
    var e :| e in d && IsSessionEntry(e);
    var k :| 0 <= k < |d| && d[k] == e;
    var a, b := JoinHasPart(d, "; ", k);
    UpperOfPieces(a, e, b);
  }

  lemma UpperOfPieces(a: string, e: string, b: string)
    requires IsSessionEntry(e)
    ensures Contains(Upper(a + e + b), SESSION_PREFIX)
  {
    UpperConcat(a + e, b);
    UpperConcat(a, e);
    assert Upper(a + e + b) == Upper(a) + Upper(e) + Upper(b);
    ContainsPrefixed(Upper(a), Upper(e), Upper(b), SESSION_PREFIX);
  }

  lemma ContainsPrefixed(a: string, e: string, b: string, p: string)
    requires StartsWith(e, p)
    ensures Contains(a + e + b, p)
  {
    var tail := e[|p|..];
    assert e == p + tail;
    assert a + e + b == a + p + (tail + b);
    ContainsInside(a, p, tail + b);
  }

  /** Each part of a joined list sits inside the joined text. */
  lemma {:induction false} JoinHasPart(parts: seq<string>, sep: string, k: nat) returns (a: string, b: string)
    requires k < |parts|
    ensures Join(parts, sep) == a + parts[k] + b
  {
    if |parts| == 1 {
      a, b := [], [];
    } else if k == 0 {
      a, b := [], sep + Join(parts[1..], sep);
    } else {
      var a', b' := JoinHasPart(parts[1..], sep, k - 1);
      a, b := parts[0] + sep + a', b';
    }
  }
}
