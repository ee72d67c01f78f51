/** The adapter for the Huawei EG8141A5 (modem/huawei/eg8141A5/modem.go): the token is
    read from the `GetRandCnt` function of the home page, the session cookie is every
    cookie of the login response joined with `"; "`, only the redirect script asks for a
    new login, and each `LANStats("...")` call has five quoted fields. */
module Eg8141A5 {
  import opened Errors
  import opened Text
  import opened Base64
  import opened Http
  import opened Metrics
  import opened Pages
  import opened LanStats

  const LoginPath := "/login.cgi"
  const StatPath := "/html/amp/ethinfo/ethinfo.asp"
  /** The `cookie` header of the login request. */
  const AnonymousCookie := "Cookie=body:Language:english:id=-1"
  const FormContentType := "application/x-www-form-urlencoded"
  /** What `Info` reports. */
  const ModemInfo := Info("Huawei", "EG8141A5", [])

  /** The home page, fetched without any header. */
  function TokenRequest(url: string): Request
  {
    Request(Get, url, "", "", map[])
  }

  /** `getToken`'s reading of the home page. */
  function TokenOf(reply: Reply): Result<string>
  {
    match reply
    case Failed => Err(TransportFailed)
    case Replied(res) =>
      if res.status != 200 then Err(BadStatus(res.status))
      else ScanTokenLines(Lines(res.body))
  }

  /** A status other than 200 is an error before any line is read, and a token that is
      returned is non-empty and has no quote. */
  lemma TokenOfStatus(reply: Reply)
    ensures reply.Failed? ==> TokenOf(reply) == Err(TransportFailed)
    ensures reply.Replied? && reply.response.status != 200 ==>
      TokenOf(reply) == Err(BadStatus(reply.response.status))
    ensures TokenOf(reply).Ok? ==> TokenOf(reply).value != [] && '\'' !in TokenOf(reply).value
  {
  }

  /** On a 200 reply the token is the capture of the first line that has the token
      function and a match, and a page without such a line is an invalid body. */
  lemma TokenOfScan(reply: Reply)
    requires reply.Replied? && reply.response.status == 200
    ensures TokenOf(reply) == Err(InvalidBody) ==>
      forall k :: 0 <= k < |Lines(reply.response.body)| ==> !TokenStop(Lines(reply.response.body)[k])
    ensures (forall k :: 0 <= k < |Lines(reply.response.body)| ==> !TokenStop(Lines(reply.response.body)[k])) ==>
      TokenOf(reply) == Err(InvalidBody)
    ensures TokenOf(reply).Ok? ==>
      exists k :: IsFirst(Lines(reply.response.body), k, TokenStop)
        && Some(TokenOf(reply).value) == TokenCapture(Lines(reply.response.body)[k])
  {
    var lines := Lines(reply.response.body);
    var r := ScanTokenLines(lines);
    assert TokenOf(reply) == r;
    assert r.Ok? || r == Err(InvalidBody);
    assert r.Err? <==> forall k :: 0 <= k < |lines| ==> !TokenStop(lines[k]);
  }

  /** `getToken`: one request; the cookie is not touched. */
  function TokenRun(url: string, cookie: string, script: seq<Reply>): Run<string>
  {
    Run(TokenOf(Next(script)), cookie, [TokenRequest(url)], Rest(script))
  }

  /** The login form: user name, base64url password and token. */
  function LoginForm(user: string, password: string, token: string): map<string, string>
  {
    map["UserName" := user, "PassWord" := Encode(Octets(password)), "x.X_HW_Token" := token]
  }

  /** The form has exactly three fields, no language among them, and its password field
      decodes to the bytes of the password. */
  lemma LoginFormFields(user: string, password: string, token: string)
    ensures var form := LoginForm(user, password, token);
      form.Keys == {"UserName", "PassWord", "x.X_HW_Token"}
      && form["UserName"] == user && form["x.X_HW_Token"] == token
      && Decode(form["PassWord"]) == Some(Octets(password))
  {
    DecodeEncode(Octets(password));
  }

  function LoginRequest(url: string, user: string, password: string, token: string): Request
  {
    Request(Post, url + LoginPath, AnonymousCookie, FormContentType, LoginForm(user, password, token))
  }

  /** `auth`: the token request, then the login; the cookie changes only after a login
      answered with 200, to the pairs of every cookie of that response. */
  function AuthRun(url: string, user: string, password: string, cookie: string, script: seq<Reply>): Run<()>
  {
    var t := TokenRun(url, cookie, script);
    if t.result.Err? then Run(Err(TokenError(t.result.error)), cookie, t.sent, t.rest)
    else
      var sent := t.sent + [LoginRequest(url, user, password, t.result.value)];
      match Next(t.rest)
      case Failed => Run(Err(TransportFailed), cookie, sent, Rest(t.rest))
      case Replied(res) =>
        if res.status != 200 then Run(Err(BadStatus(res.status)), cookie, sent, Rest(t.rest))
        else Run(Ok(()), CookieHeader(res.cookies), sent, Rest(t.rest))
  }

  /** A failed token fetch or login leaves the cookie as it was; a successful login sets
      it from the cookies of the second reply, which answered the login with 200. */
  lemma AuthCookie(url: string, user: string, password: string, cookie: string, script: seq<Reply>)
    ensures var run := AuthRun(url, user, password, cookie, script);
      (run.result.Err? ==> run.cookie == cookie)
      && (run.result.Ok? ==>
            |script| >= 2 && script[1].Replied? && script[1].response.status == 200
            && run.cookie == CookieHeader(script[1].response.cookies))
    ensures var run := AuthRun(url, user, password, cookie, script);
      run.sent[0] == TokenRequest(url) && 1 <= |run.sent| <= 2
      && (|run.sent| == 2 <==> TokenOf(Next(script)).Ok?)
  {
  }

  function StatRequest(url: string, cookie: string): Request
  {
    Request(Get, url + StatPath, cookie, "", map[])
  }

  /** `readStat`'s reading of the stat page reply. */
  function StatPageOf(reply: Reply): Result<string>
  {
    match reply
    case Failed => Err(TransportFailed)
    case Replied(res) =>
      if res.status != 200 then Err(BadStatus(res.status))
      else ScanStatLines(Lines(res.body))
  }

  /** Every status other than 200, 403 included, is a status error, so `NeedAuth` comes
      only from a redirect script on the first line that stops the scan. */
  lemma StatPageOutcome(reply: Reply)
    ensures reply.Failed? ==> StatPageOf(reply) == Err(TransportFailed)
    ensures reply.Replied? && reply.response.status != 200 ==>
      StatPageOf(reply) == Err(BadStatus(reply.response.status))
    ensures StatPageOf(reply) == Err(NeedAuth) ==>
      reply.Replied? && reply.response.status == 200
      && (exists k :: IsFirst(Lines(reply.response.body), k, StatStop)
            && Contains(Lines(reply.response.body)[k], RedirectMarker))
  {
    if StatPageOf(reply) == Err(NeedAuth) {
      var lines := Lines(reply.response.body);
      ScanStatOutcome(lines);
      var k :| IsFirst(lines, k, StatStop) && ScanStatLines(lines) == StatDecision(lines[k]);
    }
  }

  /** The request for the stat page with the cookie as it is, and its reply. */
  function StatPageRun(url: string, cookie: string, before: seq<Request>, script: seq<Reply>): Run<string>
  {
    Run(StatPageOf(Next(script)), cookie, before + [StatRequest(url, cookie)], Rest(script))
  }

  /** `readStat(reAuth)`: a login first when asked to or when there is no cookie, then the
      stat page. */
  function ReadStatRun(url: string, user: string, password: string, reAuth: bool, cookie: string,
                       script: seq<Reply>): Run<string>
  {
    if reAuth || cookie == "" then
      var a := AuthRun(url, user, password, cookie, script);
      if a.result.Err? then Run(Err(AuthError(a.result.error)), a.cookie, a.sent, a.rest)
      else StatPageRun(url, a.cookie, a.sent, a.rest)
    else StatPageRun(url, cookie, [], script)
  }

  lemma AuthSendsNoStatRequest(url: string, user: string, password: string, cookie: string, script: seq<Reply>)
    ensures CountTo(AuthRun(url, user, password, cookie, script).sent, url + StatPath) == 0
  {
    DistinctPaths(url, "", StatPath);
    DistinctPaths(url, LoginPath, StatPath);
    assert url + "" == url;
    var a := AuthRun(url, user, password, cookie, script);
    assert a.sent[..0] == [];
    if |a.sent| == 2 {
      assert a.sent[..1] == [a.sent[0]];
      assert a.sent[..1][..0] == [];
    }
  }

  /** `readStat` logs in first exactly when asked to or when there is no cookie; without
      a login it sends the one stat request with the cookie it has; a failed login is
      returned before any stat request and leaves the cookie as it was. */
  lemma ReadStatAuth(url: string, user: string, password: string, reAuth: bool, cookie: string,
                     script: seq<Reply>)
    ensures var run := ReadStatRun(url, user, password, reAuth, cookie, script);
      |run.sent| > 0 && (run.sent[0] == TokenRequest(url) <==> reAuth || cookie == "")
    ensures !(reAuth || cookie == "") ==>
      var run := ReadStatRun(url, user, password, reAuth, cookie, script);
      run.sent == [StatRequest(url, cookie)] && run.cookie == cookie
    ensures var a := AuthRun(url, user, password, cookie, script);
      (reAuth || cookie == "") && a.result.Err? ==>
        var run := ReadStatRun(url, user, password, reAuth, cookie, script);
        run.result == Err(AuthError(a.result.error)) && run.cookie == cookie
        && CountTo(run.sent, url + StatPath) == 0
  {
    DistinctPaths(url, "", StatPath);
    assert url + "" == url;
    AuthSendsNoStatRequest(url, user, password, cookie, script);
  }

  /** A login answered with 200 but no cookie leaves the cookie empty, so the next
      `readStat` logs in again even without being asked to. */
  lemma NoCookieForcesLogin(url: string, user: string, password: string, cookie: string,
                            script: seq<Reply>, later: seq<Reply>)
    requires AuthRun(url, user, password, cookie, script).result.Ok?
    requires script[1].response.cookies == []
    ensures AuthRun(url, user, password, cookie, script).cookie == ""
    ensures ReadStatRun(url, user, password, false, "", later).sent[0] == TokenRequest(url)
  {
    AuthCookie(url, user, password, cookie, script);
    CookieHeaderShape([]);
    ReadStatAuth(url, user, password, false, "", later);
  }

  /** Each `readStat` sends at most one stat request, and none only when the login it
      attempted failed. */
  lemma ReadStatCount(url: string, user: string, password: string, reAuth: bool, cookie: string,
                      script: seq<Reply>)
    ensures var run := ReadStatRun(url, user, password, reAuth, cookie, script);
      CountTo(run.sent, url + StatPath) ==
        if (reAuth || cookie == "") && AuthRun(url, user, password, cookie, script).result.Err? then 0 else 1
  {
    var run := ReadStatRun(url, user, password, reAuth, cookie, script);
    if reAuth || cookie == "" {
      var a := AuthRun(url, user, password, cookie, script);
      AuthSendsNoStatRequest(url, user, password, cookie, script);
      if a.result.Ok? {
        CountAppend(a.sent, [StatRequest(url, a.cookie)], url + StatPath);
        assert [StatRequest(url, a.cookie)][..0] == [];
      }
    } else {
      assert run.sent[..0] == [];
    }
  }

  /** The stat page read of `Stat`: a second `readStat`, forcing a login, only when the
      first one answered exactly `NeedAuth`. */
  function RetryRun(url: string, user: string, password: string, cookie: string, script: seq<Reply>): Run<string>
  {
    var first := ReadStatRun(url, user, password, false, cookie, script);
    if first.result == Err(NeedAuth) then
      var second := ReadStatRun(url, user, password, true, first.cookie, first.rest);
      Run(second.result, second.cookie, first.sent + second.sent, second.rest)
    else first
  }

  /** The two outcomes of the retry, one read or two. */
  lemma RetrySteps(url: string, user: string, password: string, cookie: string, script: seq<Reply>)
    ensures var first := ReadStatRun(url, user, password, false, cookie, script);
      first.result != Err(NeedAuth) ==> RetryRun(url, user, password, cookie, script) == first
    ensures var first := ReadStatRun(url, user, password, false, cookie, script);
      var second := ReadStatRun(url, user, password, true, first.cookie, first.rest);
      first.result == Err(NeedAuth) ==>
        RetryRun(url, user, password, cookie, script) == Run(second.result, second.cookie, first.sent + second.sent, second.rest)
  {
  }

  /** `Stat`: the read with its retry, then the counters of the data line. */
  function StatRun(url: string, user: string, password: string, cookie: string, script: seq<Reply>): Run<Stat>
  {
    var read := RetryRun(url, user, password, cookie, script);
    match read.result
    case Err(e) => Run(Err(e), read.cookie, read.sent, read.rest)
    case Ok(line) => Run(ParseFiveField(line), read.cookie, read.sent, read.rest)
  }

  /** `Stat` reads the stat page at most twice; it reads it again only after the first
      read answered `NeedAuth`, and that second read starts with a login; a `NeedAuth`
      of the second read is returned as it is. */
  lemma StatRetriesOnce(url: string, user: string, password: string, cookie: string, script: seq<Reply>)
    ensures CountTo(StatRun(url, user, password, cookie, script).sent, url + StatPath) <= 2
    ensures var first := ReadStatRun(url, user, password, false, cookie, script);
      first.result != Err(NeedAuth) ==>
        StatRun(url, user, password, cookie, script).sent == first.sent
    ensures var first := ReadStatRun(url, user, password, false, cookie, script);
      first.result == Err(NeedAuth) ==>
        var run := StatRun(url, user, password, cookie, script);
        |run.sent| > |first.sent| && run.sent[..|first.sent|] == first.sent
        && run.sent[|first.sent|] == TokenRequest(url)
    ensures StatRun(url, user, password, cookie, script).result == Err(NeedAuth) ==>
      ReadStatRun(url, user, password, false, cookie, script).result == Err(NeedAuth)
  {
    StatRunReads(url, user, password, cookie, script);
    RetrySteps(url, user, password, cookie, script);
    RetryCount(url, user, password, cookie, script);
    RetryStartsWithLogin(url, user, password, cookie, script);
  }

  /** `Stat` sends what its reads sent, and a `NeedAuth` it returns is the one its reads
      returned, since the counters fail only with a panic. */
  lemma StatRunReads(url: string, user: string, password: string, cookie: string, script: seq<Reply>)
    ensures StatRun(url, user, password, cookie, script).sent == RetryRun(url, user, password, cookie, script).sent
    ensures StatRun(url, user, password, cookie, script).result == Err(NeedAuth) ==>
      RetryRun(url, user, password, cookie, script).result == Err(NeedAuth)
  {
    var read := RetryRun(url, user, password, cookie, script);
    if read.result.Ok? {
      ParseFiveFieldErrors(read.result.value);
    }
  }

  /** The reads send at most two requests for the stat page. */
  lemma RetryCount(url: string, user: string, password: string, cookie: string, script: seq<Reply>)
    ensures CountTo(RetryRun(url, user, password, cookie, script).sent, url + StatPath) <= 2
  {
    RetrySteps(url, user, password, cookie, script);
    var first := ReadStatRun(url, user, password, false, cookie, script);
    ReadStatCount(url, user, password, false, cookie, script);
    if first.result == Err(NeedAuth) {
      var second := ReadStatRun(url, user, password, true, first.cookie, first.rest);
      ReadStatCount(url, user, password, true, first.cookie, first.rest);
      CountAppend(first.sent, second.sent, url + StatPath);
    }
  }

  /** After a first read that answered `NeedAuth`, the next request is a token request. */
  lemma RetryStartsWithLogin(url: string, user: string, password: string, cookie: string, script: seq<Reply>)
    ensures var first := ReadStatRun(url, user, password, false, cookie, script);
      first.result == Err(NeedAuth) ==>
        var run := RetryRun(url, user, password, cookie, script);
        |run.sent| > |first.sent| && run.sent[..|first.sent|] == first.sent
        && run.sent[|first.sent|] == TokenRequest(url)
  {
    RetrySteps(url, user, password, cookie, script);
    var first := ReadStatRun(url, user, password, false, cookie, script);
    if first.result == Err(NeedAuth) {
      var second := ReadStatRun(url, user, password, true, first.cookie, first.rest);
      ReadStatAuth(url, user, password, true, first.cookie, first.rest);
      assert (first.sent + second.sent)[|first.sent|] == second.sent[0];
      assert (first.sent + second.sent)[..|first.sent|] == first.sent;
    }
  }

  /** The adapter object: its configuration, its HTTP client and the session cookie. */
  class Modem {
    const url: string
    const user: string
    const password: string
    var cookie: string
    const client: Client

    constructor (url: string, user: string, password: string, client: Client)
      ensures this.url == url && this.user == user && this.password == password
      ensures this.client == client && cookie == ""
    {
      this.url := url;
      this.user := user;
      this.password := password;
      this.client := client;
      cookie := "";
    }

    /** The state after a call is the one `run` describes, from requests `sent0` on. */
    predicate After<T(==)>(run: Run<T>, r: Result<T>, sent0: seq<Request>)
      reads this, client
    {
      r == run.result && cookie == run.cookie && client.sent == sent0 + run.sent && client.script == run.rest
    }

    method GetToken() returns (r: Result<string>)
      modifies client
      ensures After(TokenRun(url, cookie, old(client.script)), r, old(client.sent))
    {
      var reply := client.Do(TokenRequest(url));
      if reply.Failed? {
        return Err(TransportFailed);
      }
      if reply.response.status != 200 {
        return Err(BadStatus(reply.response.status));
      }
      r := FindToken(Lines(reply.response.body));
    }

    method Auth() returns (r: Result<()>)
      modifies this, client
      ensures After(AuthRun(url, user, password, old(cookie), old(client.script)), r, old(client.sent))
    {
      var token := GetToken();
      if token.Err? {
        return Err(TokenError(token.error));
      }
      var reply := client.Do(LoginRequest(url, user, password, token.value));
      if reply.Failed? {
        return Err(TransportFailed);
      }
      if reply.response.status != 200 {
        return Err(BadStatus(reply.response.status));
      }
      cookie := JoinCookies(reply.response.cookies);
      return Ok(());
    }

    method ReadStat(reAuth: bool) returns (r: Result<string>)
      modifies this, client
      ensures After(ReadStatRun(url, user, password, reAuth, old(cookie), old(client.script)), r, old(client.sent))
    {
      if reAuth || cookie == "" {
        var a := Auth();
        if a.Err? {
          return Err(AuthError(a.error));
        }
      }
      var reply := client.Do(StatRequest(url, cookie));
      if reply.Failed? {
        return Err(TransportFailed);
      }
      if reply.response.status != 200 {
        return Err(BadStatus(reply.response.status));
      }
      r := FindStatLine(Lines(reply.response.body));
    }

    /** The reads of `Stat`: `readStat(false)`, and `readStat(true)` again only when the
        first answered `NeedAuth`. */
    method ReadWithRetry() returns (line: Result<string>)
      modifies this, client
      ensures After(RetryRun(url, user, password, old(cookie), old(client.script)), line, old(client.sent))
    {
      ghost var first := ReadStatRun(url, user, password, false, cookie, client.script);
      RetrySteps(url, user, password, cookie, client.script);
      line := ReadStat(false);
      if line == Err(NeedAuth) {
        ghost var second := ReadStatRun(url, user, password, true, first.cookie, first.rest);
        SentInOrder(old(client.sent), first.sent, second.sent);
        line := ReadStat(true);
      }
    }

    method Stat() returns (r: Result<Stat>)
      modifies this, client
      ensures After(StatRun(url, user, password, old(cookie), old(client.script)), r, old(client.sent))
    {
      var line := ReadWithRetry();
      if line.Err? {
        return Err(line.error);
      }
      r := SumFiveField(line.value);
    }
  }
}
