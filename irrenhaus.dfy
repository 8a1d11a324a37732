/** The connection helpers of Irrenhaus.go: URL building, the cookies a request
    carries, the cookies a login absorbs, and the debug line limiter. */
module Irrenhaus {
  import opened Wrappers
  import opened GoStrings
  import opened GoStrconv
  import opened Library

  /** The session cookies the site hands out at login. Uid is an int64 in Go. */
  datatype Cookies = Cookies(uid: int, pass: string, passhash: string)

  const NoCookies := Cookies(0, "", "")

  /** An HTTP cookie as net/http reports it. */
  datatype HttpCookie = HttpCookie(name: string, value: string)

  predicate InInt64(x: int)
  {
    -(Cutoff64 as int) <= x < Cutoff64
  }

  /** The path with a leading '/' ensured. */
  function Rooted(path: string): (r: string)
    requires |path| > 0
    ensures |r| > 0 && r[0] == '/'
    ensures path[0] == '/' ==> r == path
    ensures path[0] != '/' ==> r == "/" + path
  {
    if path[0] != '/' then "/" + path else path
  }

  /** buildUrl: the site url, the rooted path, and the encoded query when there is one.
      Go indexes url[0], so the path must not be empty. */
  function BuildUrl(base: string, path: string, values: Values, encode: Values -> string): (r: string)
    requires |path| > 0
  {
    if |values| > 0 then base + Rooted(path) + "?" + encode(values)
    else base + Rooted(path)
  }

  /** The url starts with the site url followed by '/', and carries a query exactly
      when there are values. */
  lemma BuildUrlShape(base: string, path: string, values: Values, encode: Values -> string)
    requires |path| > 0
    ensures HasPrefix(BuildUrl(base, path, values, encode), base + Rooted(path))
    ensures BuildUrl(base, path, values, encode)[|base|] == '/'
    ensures |values| == 0 ==> BuildUrl(base, path, values, encode) == base + Rooted(path)
    ensures |values| > 0 ==> HasSuffix(BuildUrl(base, path, values, encode), "?" + encode(values))
  {
    var r := BuildUrl(base, path, values, encode);
    assert r[..|base + Rooted(path)|] == base + Rooted(path);
    assert r[|base|] == Rooted(path)[0];
    if |values| > 0 {
      assert r == (base + Rooted(path)) + ("?" + encode(values));
      assert r[|r| - |"?" + encode(values)|..] == "?" + encode(values);
    }
  }

  /** A path without its leading '/' gives the same url as with it. */
  lemma BuildUrlSlash(base: string, path: string, values: Values, encode: Values -> string)
    requires |path| > 0 && path[0] != '/'
    ensures BuildUrl(base, path, values, encode) == BuildUrl(base, "/" + path, values, encode)
  {
  }

  /** The cookies newRequest attaches: uid (formatted with %d) and pass once a uid is
      known, and passhash too when it is not empty. */
  function RequestCookies(c: Cookies): (r: seq<HttpCookie>)
    ensures c.uid == 0 <==> r == []
    ensures c.uid != 0 ==> 2 <= |r| <= 3 && r[0] == HttpCookie("uid", Itoa(c.uid)) && r[1] == HttpCookie("pass", c.pass)
    ensures c.uid != 0 ==> (|r| == 3 <==> c.passhash != "")
    ensures |r| == 3 ==> r[2] == HttpCookie("passhash", c.passhash)
  {
    if c.uid == 0 then []
    else
      [HttpCookie("uid", Itoa(c.uid)), HttpCookie("pass", c.pass)]
      + (if c.passhash != "" then [HttpCookie("passhash", c.passhash)] else [])
  }

  /** One step of Login's cookie loop. strconv.ParseInt's value is stored even when it
      reports an error (0 for bad syntax, the int64 bound when out of range). */
  function Absorb(c: Cookies, k: HttpCookie): Cookies
  {
    if k.name == "uid" then c.(uid := ParseInt64(k.value).value)
    else if k.name == "pass" then c.(pass := k.value)
    else if k.name == "passhash" then c.(passhash := k.value)
    else c
  }

  /** The whole loop, over the cookies in the order the response lists them. */
  function AbsorbAll(c: Cookies, ks: seq<HttpCookie>): Cookies
  {
    if |ks| == 0 then c else Absorb(AbsorbAll(c, ks[..|ks| - 1]), ks[|ks| - 1])
  }

  /** The value of the last cookie with that name. */
  function LastValue(ks: seq<HttpCookie>, name: string): Option<string>
  {
    if |ks| == 0 then None
    else if ks[|ks| - 1].name == name then Some(ks[|ks| - 1].value)
    else LastValue(ks[..|ks| - 1], name)
  }

  /** Each field ends up with the value of the last cookie of its name; a field with
      no such cookie keeps its old value; cookies of other names change nothing. */
  lemma {:induction false} AbsorbLastWins(c: Cookies, ks: seq<HttpCookie>)
    ensures AbsorbAll(c, ks).pass == LastValue(ks, "pass").GetOr(c.pass)
    ensures AbsorbAll(c, ks).passhash == LastValue(ks, "passhash").GetOr(c.passhash)
    ensures AbsorbAll(c, ks).uid
      == (if LastValue(ks, "uid").Some? then ParseInt64(LastValue(ks, "uid").value).value else c.uid)
  {
    if |ks| > 0 {
      AbsorbLastWins(c, ks[..|ks| - 1]);
    }
  }

  /** A cookie whose name is none of the three can be removed without effect. */
  lemma AbsorbIgnores(c: Cookies, a: seq<HttpCookie>, k: HttpCookie, b: seq<HttpCookie>)
    requires k.name != "uid" && k.name != "pass" && k.name != "passhash"
    ensures AbsorbAll(c, a + [k] + b) == AbsorbAll(c, a + b)
  {
    LastValueIgnores(a, k, b, "uid");
    LastValueIgnores(a, k, b, "pass");
    LastValueIgnores(a, k, b, "passhash");
    AbsorbLastWins(c, a + [k] + b);
    AbsorbLastWins(c, a + b);
  }

  lemma {:induction false} LastValueIgnores(a: seq<HttpCookie>, k: HttpCookie, b: seq<HttpCookie>, name: string)
    requires k.name != name
    ensures LastValue(a + [k] + b, name) == LastValue(a + b, name)
  {
    if |b| == 0 {
      assert a + [k] + b == a + [k];
      assert (a + [k])[..|a|] == a;
      assert a + b == a;
    } else {
      var b' := b[..|b| - 1];
      assert (a + [k] + b)[..|a + [k] + b| - 1] == a + [k] + b';
      assert (a + b)[..|a + b| - 1] == a + b';
      LastValueIgnores(a, k, b', name);
    }
  }

  /** The cookies a request carries, absorbed by a login, give the session back:
      the passhash cookie is only sent when it is set, so an empty one leaves the
      absorbing side's passhash as it was. */
  lemma CookieRoundTrip(c: Cookies, start: Cookies)
    requires c.uid != 0 && InInt64(c.uid)
    ensures AbsorbAll(start, RequestCookies(c))
      == Cookies(c.uid, c.pass, if c.passhash != "" then c.passhash else start.passhash)
  {
    var r := RequestCookies(c);
    ParseIntItoa(c.uid, Cutoff64);
    var two := [HttpCookie("uid", Itoa(c.uid)), HttpCookie("pass", c.pass)];
    assert two[..1] == [HttpCookie("uid", Itoa(c.uid))];
    assert [HttpCookie("uid", Itoa(c.uid))][..0] == [];
    var afterUid := start.(uid := c.uid);
    assert AbsorbAll(start, two[..1]) == afterUid;
    assert AbsorbAll(start, two) == afterUid.(pass := c.pass);
    if c.passhash != "" {
      assert r[..2] == two;
    } else {
      assert r == two;
    }
  }

  /** keepLines: text with fewer than three newlines is returned as it is; otherwise
      its first n lines are joined again and every '\r' is removed. Go slices the
      split result with [:n], so for longer text n must not exceed the line count. */
  function KeepLines(s: string, n: int): (r: string)
    requires Count(s, '\n') >= 3 ==> 0 <= n <= Count(s, '\n') + 1
    ensures Count(s, '\n') < 3 ==> r == s
    ensures Count(s, '\n') >= 3 && n == 0 ==> r == []
    ensures Count(s, '\n') >= 3 && n >= 1 ==> Count(r, '\n') == n - 1 && '\r' !in r
    ensures Count(s, '\n') >= 3 && n >= 1 ==> |r| <= |s|
    ensures Count(s, '\n') >= 3 && n >= 1 ==>
      exists p :: 0 <= p <= |s| && r == ReplaceAll(s[..p], "\r", "") && Count(s[..p], '\n') == n - 1
        && (p == |s| || s[p] == '\n')
  {
    if Count(s, '\n') < 3 then s
    else
      KeptLines(s, n);
      ReplaceAll(Join(Split(s, '\n')[..n], '\n'), "\r", "")
  }

  lemma KeptLines(s: string, n: int)
    requires 0 <= n <= Count(s, '\n') + 1
    ensures n == 0 ==> ReplaceAll(Join(Split(s, '\n')[..n], '\n'), "\r", "") == []
    ensures n >= 1 ==> Count(ReplaceAll(Join(Split(s, '\n')[..n], '\n'), "\r", ""), '\n') == n - 1
    ensures n >= 1 ==> '\r' !in ReplaceAll(Join(Split(s, '\n')[..n], '\n'), "\r", "")
    ensures n >= 1 ==> |ReplaceAll(Join(Split(s, '\n')[..n], '\n'), "\r", "")| <= |s|
    ensures n >= 1 ==>
      exists p :: 0 <= p <= |s| && ReplaceAll(Join(Split(s, '\n')[..n], '\n'), "\r", "") == ReplaceAll(s[..p], "\r", "")
        && Count(s[..p], '\n') == n - 1 && (p == |s| || s[p] == '\n')
  {
    var kept := Join(Split(s, '\n')[..n], '\n');
    if n >= 1 {
      SplitPrefix(s, '\n', n);
      assert |kept| <= |s|;
      CarriageReturnsRemoved(kept);
      var p := |kept|;
      assert s[..p] == kept;
      if n == |Split(s, '\n')| {
        JoinSplit(s, '\n');
        assert Split(s, '\n')[..n] == Split(s, '\n');
        assert p == |s|;
      }
      assert 0 <= p <= |s| && ReplaceAll(kept, "\r", "") == ReplaceAll(s[..p], "\r", "")
        && Count(s[..p], '\n') == n - 1 && (p == |s| || s[p] == '\n');
    } else {
      assert Split(s, '\n')[..n] == [];
    }
  }

  /** Removing every '\r' keeps the newlines, leaves no '\r' and never lengthens. */
  lemma CarriageReturnsRemoved(t: string)
    ensures Count(ReplaceAll(t, "\r", ""), '\n') == Count(t, '\n')
    ensures '\r' !in ReplaceAll(t, "\r", "")
    ensures |ReplaceAll(t, "\r", "")| <= |t|
  {
    assert "\r" == ['\r'];
    ReplaceOneCount(t, '\r', "", '\n');
    ReplaceOneGone(t, '\r', "");
    ReplaceOneLength(t, '\r', "");
    assert Count("", '\n') == 0;
  }

  /** The client's session: the site url, the credentials, the cookies and the user agent. */
  class Connection {
    var url: string
    var cookies: Cookies
    var username: string
    var password: string
    var pin: string
    var userAgent: string

    /** NewConnection. */
    constructor(url: string, username: string, password: string, pin: string)
      ensures this.url == url && this.username == username && this.password == password && this.pin == pin
      ensures cookies == NoCookies && userAgent == "irrenhaus-api client"
    {
      this.url := url;
      this.username := username;
      this.password := password;
      this.pin := pin;
      cookies := NoCookies;
      userAgent := "irrenhaus-api client";
    }

    method SetUserAgent(userAgent: string)
      modifies this
      ensures this.userAgent == userAgent
      ensures url == old(url) && cookies == old(cookies) && username == old(username)
      ensures password == old(password) && pin == old(pin)
    {
      this.userAgent := userAgent;
    }

    function GetCookies(): Cookies
      reads this
    {
      cookies
    }

    method SetCookies(cookies: Cookies)
      modifies this
      ensures this.cookies == cookies
      ensures url == old(url) && userAgent == old(userAgent) && username == old(username)
      ensures password == old(password) && pin == old(pin)
    {
      this.cookies := cookies;
    }

    /** Login posts the credentials to this url, which carries no query. */
    function LoginUrl(encode: Values -> string): (r: string)
      reads this
      ensures r == url + "/takelogin.php"
    {
      BuildUrl(url, "takelogin.php", map[], encode)
    }

    function LoginForm(): Values
      reads this
    {
      map["username" := [username], "password" := [password], "pin" := [pin]]
    }

    /** Login, given what the transport returned: an error, or the response body and
        cookies. A failed transport or the failure notice in the body leaves the
        cookies alone; otherwise the response cookies are absorbed in order. */
    method Login(transportError: Option<string>, body: string, responseCookies: seq<HttpCookie>)
      returns (err: Option<string>)
      modifies this
      ensures url == old(url) && userAgent == old(userAgent) && username == old(username)
      ensures password == old(password) && pin == old(pin)
      ensures transportError.Some? ==> err == transportError && cookies == old(cookies)
      ensures transportError.None? && Contains(body, "Anmeldung Gescheitert!") ==>
        err == Some("invalid credentials") && cookies == old(cookies)
      ensures transportError.None? && !Contains(body, "Anmeldung Gescheitert!") ==>
        err == None && cookies == AbsorbAll(old(cookies), responseCookies)
    {
      if transportError.Some? {
        return transportError;
      }
      if Contains(body, "Anmeldung Gescheitert!") {
        return Some("invalid credentials");
      }
      var i := 0;
      while i < |responseCookies|
        invariant 0 <= i <= |responseCookies|
        invariant cookies == AbsorbAll(old(cookies), responseCookies[..i])
        invariant url == old(url) && userAgent == old(userAgent) && username == old(username)
        invariant password == old(password) && pin == old(pin)
      {
        var k := responseCookies[i];
        assert responseCookies[..i + 1][..i] == responseCookies[..i];
        if k.name == "uid" {
          cookies := cookies.(uid := ParseInt64(k.value).value);
        } else if k.name == "pass" {
          cookies := cookies.(pass := k.value);
        } else if k.name == "passhash" {
          cookies := cookies.(passhash := k.value);
        }
        i := i + 1;
      }
      assert responseCookies[..i] == responseCookies;
      return None;
    }
  }
}
