/** The exporter's HTTP handler of modem.go: a login through the modem adapter whenever
    the clock is past the end of the last session, then the counters of the modem. The
    adapter behind `Server.Modem` is the one of huawei.go, the only `Modem` of that
    package. */
module Exporter {
  import opened Errors
  import opened Http
  import opened Metrics
  import Eg8141A5
  import Huawei

  type Time = Huawei.Time

  /** `time.Now().After(expire)`: strictly later. */
  predicate Expired(now: Time, expire: Time) {
    now > expire
  }

  /** What `Server.auth` leaves behind: the exchanges with the modem, as a run of its
      adapter, and the end of the session. */
  datatype Gate = Gate(run: Run<()>, authExpire: Time)

  /** `Server.auth` at instant `now` (the one clock reading both the check and the
      adapter's expiry use): a login only when the session has ended, and the new end
      of the session only when that login succeeds. */
  function GateRun(url: string, user: string, password: string, authExpire: Time, cookie: string,
                   now: Time, script: seq<Reply>): Gate
  {
    if Expired(now, authExpire) then
      var a := Huawei.AuthRun(url, user, password, cookie, now, script);
      if a.result.Err? then Gate(Run(Err(a.result.error), a.cookie, a.sent, a.rest), authExpire)
      else Gate(Run(Ok(()), a.cookie, a.sent, a.rest), a.result.value)
    else Gate(Run(Ok(()), cookie, [], script), authExpire)
  }

  /** The adapter is asked to log in exactly when `now` is past the session's end, and
      then the gate does what the login does: its error as it is, with the end of the
      session kept, or success, with the session ending a minute after `now`. Before the
      end nothing is sent and nothing changes. */
  lemma GateLogsInWhenExpired(url: string, user: string, password: string, authExpire: Time,
                              cookie: string, now: Time, script: seq<Reply>)
    ensures var g := GateRun(url, user, password, authExpire, cookie, now, script);
      g.run.sent != [] <==> now > authExpire
    ensures var g := GateRun(url, user, password, authExpire, cookie, now, script);
      now > authExpire ==>
        var a := Huawei.AuthRun(url, user, password, cookie, now, script);
        g.run.sent == a.sent && g.run.cookie == a.cookie && g.run.rest == a.rest
        && (a.result.Err? ==> g.run.result == Err(a.result.error) && g.authExpire == authExpire)
        && (a.result.Ok? ==> g.run.result == Ok(()) && g.authExpire == now + Huawei.Minute)
    ensures var g := GateRun(url, user, password, authExpire, cookie, now, script);
      now <= authExpire ==>
        g == Gate(Run(Ok(()), cookie, [], script), authExpire)
  {
    var a := Huawei.AuthRun(url, user, password, cookie, now, script);
    Huawei.AuthExpiry(url, user, password, cookie, now, script);
    Eg8141A5.AuthCookie(url, user, password, cookie, script);
  }

  /** The end of the session only moves forward on a successful login, and then lies
      after `now`; a failed gate leaves it where it was. */
  lemma GateKeepsExpiryOnError(url: string, user: string, password: string, authExpire: Time,
                               cookie: string, now: Time, script: seq<Reply>)
    ensures var g := GateRun(url, user, password, authExpire, cookie, now, script);
      g.run.result.Err? ==> g.authExpire == authExpire && g.run.cookie == cookie
    ensures var g := GateRun(url, user, password, authExpire, cookie, now, script);
      g.authExpire != authExpire ==> g.run.result.Ok? && g.authExpire > now && g.authExpire > authExpire
  {
    Huawei.AuthExpiry(url, user, password, cookie, now, script);
  }

  /** The zero session end of a new server makes its first request, at any instant
      after the zero time, log in. */
  lemma FirstRequestLogsIn(url: string, user: string, password: string, cookie: string, now: Time,
                           script: seq<Reply>)
    requires now > 0
    ensures GateRun(url, user, password, 0, cookie, now, script).run.sent != []
    ensures GateRun(url, user, password, 0, cookie, now, script).run.sent[0] == Eg8141A5.TokenRequest(url)
  {
    Eg8141A5.AuthCookie(url, user, password, cookie, script);
  }

  /** After a login that succeeded at `now`, a request up to a minute later does not log
      in again. */
  lemma SessionLastsAMinute(url: string, user: string, password: string, authExpire: Time,
                            cookie: string, now: Time, script: seq<Reply>, later: Time,
                            next: seq<Reply>)
    requires now > authExpire
    requires GateRun(url, user, password, authExpire, cookie, now, script).run.result.Ok?
    requires now <= later <= now + Huawei.Minute
    ensures var g := GateRun(url, user, password, authExpire, cookie, now, script);
      GateRun(url, user, password, g.authExpire, g.run.cookie, later, next).run.sent == []
  {
    Huawei.AuthExpiry(url, user, password, cookie, now, script);
  }

  /** What `ServeHTTP` answers: the counters with status 200, or an error with status
      500; a panic of the adapter aborts the request and no response is written. */
  datatype Page = Counters(stat: Stat) | ServerError(error: Error) | Aborted(panic: Panic)

  function StatusOf(page: Page): (code: int)
    ensures page.Counters? <==> code == 200
    ensures page.ServerError? <==> code == 500
  {
    match page
    case Counters(_) => 200
    case ServerError(_) => 500
    case Aborted(_) => 0
  }

  /** An error of `auth` or of `Stat` as the handler answers it. */
  function Failure(e: Error): Page
  {
    if e.Panicked? then Aborted(e.panic) else ServerError(e)
  }

  /** What one request to the handler does: the answer, the end of the session, and
      the exchanges with the modem. */
  datatype Served = Served(page: Page, authExpire: Time, cookie: string, sent: seq<Request>, rest: seq<Reply>)

  /** `ServeHTTP` at instant `now`: the gate, then, only when it succeeds, the modem's
      `Stat`. */
  function ServeRun(url: string, user: string, password: string, authExpire: Time, cookie: string,
                    now: Time, script: seq<Reply>): Served
  {
    var g := GateRun(url, user, password, authExpire, cookie, now, script);
    if g.run.result.Err? then
      Served(Failure(g.run.result.error), g.authExpire, g.run.cookie, g.run.sent, g.run.rest)
    else
      var s := Huawei.StatRun(url, g.run.cookie, g.run.rest);
      Served(if s.result.Err? then Failure(s.result.error) else Counters(s.result.value),
             g.authExpire, s.cookie, g.run.sent + s.sent, s.rest)
  }

  /** The stat page is requested once, last, and only after the gate succeeded; a failed
      gate requests no stat page and answers 500. Counters come only from a successful
      gate and a successful `Stat`, and every error of either is a 500 unless it is a
      panic. */
  lemma AuthBeforeStat(url: string, user: string, password: string, authExpire: Time, cookie: string,
                       now: Time, script: seq<Reply>)
    ensures var g := GateRun(url, user, password, authExpire, cookie, now, script);
      var served := ServeRun(url, user, password, authExpire, cookie, now, script);
      CountTo(served.sent, url + Eg8141A5.StatPath) == (if g.run.result.Ok? then 1 else 0)
    ensures var g := GateRun(url, user, password, authExpire, cookie, now, script);
      var served := ServeRun(url, user, password, authExpire, cookie, now, script);
      g.run.result.Err? ==>
        served.sent == g.run.sent && served.page == Failure(g.run.result.error)
        && StatusOf(served.page) == 500
    ensures var g := GateRun(url, user, password, authExpire, cookie, now, script);
      var served := ServeRun(url, user, password, authExpire, cookie, now, script);
      g.run.result.Ok? ==>
        |served.sent| >= 1 && served.sent[..|served.sent| - 1] == g.run.sent
        && served.sent[|served.sent| - 1] == Eg8141A5.StatRequest(url, g.run.cookie)
    ensures var served := ServeRun(url, user, password, authExpire, cookie, now, script);
      served.page.Counters? ==>
        GateRun(url, user, password, authExpire, cookie, now, script).run.result.Ok?
  {
    var g := GateRun(url, user, password, authExpire, cookie, now, script);
    if Expired(now, authExpire) {
      Eg8141A5.AuthSendsNoStatRequest(url, user, password, cookie, script);
      Huawei.AuthExpiry(url, user, password, cookie, now, script);
      Eg8141A5.AuthCookie(url, user, password, cookie, script);
    }
    if g.run.result.Ok? {
      var s := Huawei.StatRun(url, g.run.cookie, g.run.rest);
      Huawei.StatNoRetry(url, g.run.cookie, g.run.rest);
      CountAppend(g.run.sent, s.sent, url + Eg8141A5.StatPath);
      assert s.sent[..0] == [];
    } else {
      Huawei.AuthExpiry(url, user, password, cookie, now, script);
    }
  }

  class Server {
    const modem: Huawei.Huawei
    const user: string
    const password: string
    var authExpire: Time

    constructor (modem: Huawei.Huawei, user: string, password: string)
      ensures this.modem == modem && this.user == user && this.password == password
      ensures authExpire == 0
    {
      this.modem := modem;
      this.user := user;
      this.password := password;
      authExpire := 0;
    }

    /** `auth`, at instant `now`. */
    method Auth(now: Time) returns (r: Result<()>)
      modifies this, modem, modem.client
      ensures var g := GateRun(modem.url, user, password, old(authExpire), old(modem.cookie), now,
                               old(modem.client.script));
        r == g.run.result && authExpire == g.authExpire && modem.cookie == g.run.cookie
        && modem.client.sent == old(modem.client.sent) + g.run.sent && modem.client.script == g.run.rest
    {
      if Expired(now, authExpire) {
        var expire := modem.Auth(user, password, now);
        if expire.Err? {
          return Err(expire.error);
        }
        authExpire := expire.value;
      }
      return Ok(());
    }

    /** `ServeHTTP`, at instant `now`; the answer is the page, the metric text is not
        rendered. */
    method ServeHTTP(now: Time) returns (page: Page)
      modifies this, modem, modem.client
      ensures var served := ServeRun(modem.url, user, password, old(authExpire), old(modem.cookie), now,
                                     old(modem.client.script));
        page == served.page && authExpire == served.authExpire && modem.cookie == served.cookie
        && modem.client.sent == old(modem.client.sent) + served.sent && modem.client.script == served.rest
    {
      ghost var g := GateRun(modem.url, user, password, authExpire, modem.cookie, now, modem.client.script);
      var a := Auth(now);
      if a.Err? {
        return Failure(a.error);
      }
      ghost var s := Huawei.StatRun(modem.url, modem.cookie, modem.client.script);
      var stat := modem.Stat();
      SentInOrder(old(modem.client.sent), g.run.sent, s.sent);
      if stat.Err? {
        return Failure(stat.error);
      }
      return Counters(stat.value);
    }
  }
}
