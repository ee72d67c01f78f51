/** The adapter of huawei.go: the token and the login are those of the EG8141A5 adapter,
    a login grants a session of one minute from the time it succeeded, the stat page is
    read with the cookie as it is (no login before, no retry after), and its data line
    is the first line with the data marker, in the five-field grammar. */
module Huawei {
  import opened Errors
  import opened Text
  import opened Http
  import opened Metrics
  import opened Pages
  import opened LanStats
  import Eg8141A5

  /** Instants, in nanoseconds; the zero `time.Time` is 0. */
  type Time = int

  /** `1 * time.Minute`. */
  const Minute: int := 60_000_000_000

  /** `Auth`: `getToken` and the login of the EG8141A5 adapter; on success, the instant
      at which the session ends, one minute after `now`. */
  function AuthRun(url: string, user: string, password: string, cookie: string, now: Time,
                   script: seq<Reply>): Run<Time>
  {
    var a := Eg8141A5.AuthRun(url, user, password, cookie, script);
    Run(if a.result.Ok? then Ok(now + Minute) else Err(a.result.error), a.cookie, a.sent, a.rest)
  }

  /** A login succeeds exactly when the token was read and the login reply is a 200;
      it then ends a minute after `now` and the cookie is the pairs of that reply's
      cookies; a failure leaves the cookie as it was and gives no expiry. */
  lemma AuthExpiry(url: string, user: string, password: string, cookie: string, now: Time,
                   script: seq<Reply>)
    ensures var run := AuthRun(url, user, password, cookie, now, script);
      run.result.Ok? <==>
        Eg8141A5.TokenOf(Next(script)).Ok? && |script| >= 2
        && script[1].Replied? && script[1].response.status == 200
    ensures var run := AuthRun(url, user, password, cookie, now, script);
      run.result.Ok? ==>
        run.result.value == now + Minute && run.result.value > now
        && run.cookie == CookieHeader(script[1].response.cookies)
    ensures var run := AuthRun(url, user, password, cookie, now, script);
      run.result.Err? ==> run.cookie == cookie
  {
    Eg8141A5.AuthCookie(url, user, password, cookie, script);
    if Eg8141A5.TokenOf(Next(script)).Ok? {
      assert |script| >= 1 && Rest(script) == script[1..];
      if |script| >= 2 {
        assert Next(Rest(script)) == script[1];
      }
    }
  }

  /** `readStat`'s reading of the stat page reply: nothing on the page asks for a login. */
  function DataPageOf(reply: Reply): Result<string>
  {
    match reply
    case Failed => Err(TransportFailed)
    case Replied(res) =>
      if res.status != 200 then Err(BadStatus(res.status))
      else ScanDataLine(Lines(res.body))
  }

  /** `readStat`: one request with the cookie as it is; the cookie is not touched. */
  function ReadStatRun(url: string, cookie: string, script: seq<Reply>): Run<string>
  {
    Run(DataPageOf(Next(script)), cookie, [Eg8141A5.StatRequest(url, cookie)], Rest(script))
  }

  /** `readStat` never logs in and never asks for a login: it sends only the stat page
      request, a 200 page gives its first line with the data marker or, when it has
      none, an invalid body, and any other status is a status error. */
  lemma ReadStatNoAuth(url: string, cookie: string, script: seq<Reply>)
    ensures var run := ReadStatRun(url, cookie, script);
      run.sent == [Eg8141A5.StatRequest(url, cookie)] && run.cookie == cookie
      && run.result != Err(NeedAuth)
    ensures var run := ReadStatRun(url, cookie, script);
      run.result.Ok? ==>
        |script| >= 1 && script[0].Replied? && script[0].response.status == 200
        && exists k :: IsFirst(Lines(script[0].response.body), k, HasData)
             && run.result.value == Lines(script[0].response.body)[k]
    ensures var run := ReadStatRun(url, cookie, script);
      |script| >= 1 && script[0].Replied? && script[0].response.status != 200 ==>
        run.result == Err(BadStatus(script[0].response.status))
    ensures var run := ReadStatRun(url, cookie, script);
      |script| >= 1 && script[0].Replied? && script[0].response.status == 200 ==>
        (run.result == Err(InvalidBody) <==>
           forall k :: 0 <= k < |Lines(script[0].response.body)| ==> !HasData(Lines(script[0].response.body)[k]))
  {
    if |script| >= 1 {
      assert Next(script) == script[0];
    }
  }

  /** `Stat`: `readStat`, then the counters of the data line; an error of `readStat` is
      returned as it is. */
  function StatRun(url: string, cookie: string, script: seq<Reply>): Run<Stat>
  {
    var read := ReadStatRun(url, cookie, script);
    Run(if read.result.Err? then Err(read.result.error) else ParseFiveField(read.result.value),
        read.cookie, read.sent, read.rest)
  }

  /** `Stat` does not retry and does not log in: exactly one request, the cookie kept,
      and an error that is the read's own error or a `Must` panic, never a login one. */
  lemma StatNoRetry(url: string, cookie: string, script: seq<Reply>)
    ensures var run := StatRun(url, cookie, script);
      run.sent == [Eg8141A5.StatRequest(url, cookie)] && run.cookie == cookie
      && run.rest == Rest(script)
    ensures var run := StatRun(url, cookie, script);
      var read := ReadStatRun(url, cookie, script);
      (read.result.Err? ==> run.result == Err(read.result.error))
      && (read.result.Ok? && run.result.Err? ==> run.result.error == Panicked(MustFailed))
    ensures var run := StatRun(url, cookie, script);
      run.result.Err? ==>
        !run.result.error.NeedAuth? && !run.result.error.AuthFailed? && !run.result.error.TokenFailed?
  {
    var read := ReadStatRun(url, cookie, script);
    ReadStatNoAuth(url, cookie, script);
    if read.result.Ok? {
      ParseFiveFieldErrors(read.result.value);
    } else {
      assert read.result == DataPageOf(Next(script));
    }
  }

  class Huawei {
    const url: string
    var cookie: string
    const client: Client

    constructor (url: string, client: Client)
      ensures this.url == url && this.client == client && cookie == ""
    {
      this.url := url;
      this.client := client;
      cookie := "";
    }

    /** The state after a call is the one `run` describes, from requests `sent0` on. */
    predicate After<T(==)>(run: Run<T>, r: Result<T>, sent0: seq<Request>)
      reads this, client
    {
      r == run.result && cookie == run.cookie && client.sent == sent0 + run.sent && client.script == run.rest
    }

    method GetToken() returns (r: Result<string>)
      modifies client
      ensures After(Eg8141A5.TokenRun(url, cookie, old(client.script)), r, old(client.sent))
    {
      var reply := client.Do(Eg8141A5.TokenRequest(url));
      if reply.Failed? {
        return Err(TransportFailed);
      }
      if reply.response.status != 200 {
        return Err(BadStatus(reply.response.status));
      }
      r := FindToken(Lines(reply.response.body));
    }

    /** `Auth`, with the clock read at the end given as `now`. */
    method Auth(user: string, password: string, now: Time) returns (r: Result<Time>)
      modifies this, client
      ensures After(AuthRun(url, user, password, old(cookie), now, old(client.script)), r, old(client.sent))
    {
      var token := GetToken();
      if token.Err? {
        return Err(TokenError(token.error));
      }
      var reply := client.Do(Eg8141A5.LoginRequest(url, user, password, token.value));
      if reply.Failed? {
        return Err(TransportFailed);
      }
      if reply.response.status != 200 {
        return Err(BadStatus(reply.response.status));
      }
      cookie := JoinCookies(reply.response.cookies);
      return Ok(now + Minute);
    }

    method ReadStat() returns (r: Result<string>)
      modifies client
      ensures After(ReadStatRun(url, cookie, old(client.script)), r, old(client.sent))
    {
      var reply := client.Do(Eg8141A5.StatRequest(url, cookie));
      if reply.Failed? {
        return Err(TransportFailed);
      }
      if reply.response.status != 200 {
        return Err(BadStatus(reply.response.status));
      }
      r := FindDataLine(Lines(reply.response.body));
    }

    method Stat() returns (r: Result<Stat>)
      modifies client
      ensures After(StatRun(url, cookie, old(client.script)), r, old(client.sent))
    {
      var line := ReadStat();
      if line.Err? {
        return Err(line.error);
      }
      r := SumFiveField(line.value);
    }
  }
}
