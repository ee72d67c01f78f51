/** The adapter for the Huawei EG8141A5V5 (modem/huawei/eg8141A5v5/modem.go): the token
    is the body of the token endpoint without its first three bytes, the session cookie
    is the first `;`-segment of `Set-Cookie`, a 403 on the stat page asks for a new
    login, and each `LANStats(...)` call carries 64-bit counters as pairs of 32-bit
    decimal halves. */
module Eg8141A5v5 {
  import opened Errors
  import opened Text
  import opened Uint64
  import opened Base64
  import opened Http
  import opened Metrics
  import opened Pages
  import opened LanStats

  const TokenPath := "/asp/GetRandCount.asp"
  const LoginPath := "/login.cgi"
  const StatPath := "/html/amp/ethinfo/ethinfo.asp"
  /** The `cookie` header of the requests made before a login. */
  const AnonymousCookie := "Cookie=body:Language:english:id=-1"
  const FormContentType := "application/x-www-form-urlencoded"
  /** What `Info` reports. */
  const ModemInfo := Info("Huawei", "EG8141A5V5", [])

  /** 2^32, the weight of the high half of a counter. */
  const Half: nat := 0x1_0000_0000

  // ---------------------------------------------------------------------------------
  // The arguments of a `LANStats(...)` call

  /** `parseIntArgs`: the argument without the `"` at either end, as a decimal `uint64`;
      anything else makes `Must` panic. */
  function ParseIntArg(arg: string): (r: Result<U64>)
    ensures r.Ok? <==> ParseUint(Trim(arg, '"')).Some?
    ensures r.Ok? ==> Some(r.value) == ParseUint(Trim(arg, '"'))
    ensures r.Err? ==> r.error == Panicked(MustFailed)
  {
    FieldValue(Trim(arg, '"'))
  }

  /** Quotes around the decimal form of a number, any number of them on either side,
      do not change what the argument parses to. */
  lemma ParseIntArgQuoted(n: U64, a: nat, b: nat)
    ensures ParseIntArg(Repeat('"', a) + Format(n) + Repeat('"', b)) == Ok(n)
  {
    TrimWrapped(Format(n), '"', a, b);
    ParseFormat(n);
  }

  /** What `parseIntArgs` gives for each argument. Parsing has no effect besides its
      result, so the arguments a call never reads being parsed here changes nothing:
      only the results `calculateArgs` reads are used. */
  function Parsed(args: seq<string>): (vals: seq<Result<U64>>)
    ensures |vals| == |args|
    ensures forall k :: 0 <= k < |args| ==> vals[k] == ParseIntArg(args[k])
  {
    seq(|args|, k requires 0 <= k < |args| => ParseIntArg(args[k]))
  }

  /** `parseIntArgs(args[i])`: an index past the end panics before anything is parsed. */
  function ArgAt(vals: seq<Result<U64>>, i: nat): (r: Result<U64>)
    requires ParseResults(vals)
    ensures r == Err(Panicked(IndexOutOfRange)) <==> i >= |vals|
    ensures i < |vals| ==> r == vals[i]
  {
    if i < |vals| then vals[i] else Err(Panicked(IndexOutOfRange))
  }

  /** Results of `parseIntArgs`: a value or a `Must` panic. */
  predicate ParseResults(vals: seq<Result<U64>>)
  {
    forall k :: 0 <= k < |vals| ==> vals[k].Ok? || vals[k] == Err(Panicked(MustFailed))
  }

  /** The value the two halves stand for, over the integers and then reduced to 64 bits. */
  function Wide(vals: seq<Result<U64>>, high: nat, low: nat): int
    requires high < |vals| && low < |vals| && vals[high].Ok? && vals[low].Ok?
  {
    (vals[high].value * Half + vals[low].value) % MODULUS
  }

  /** `calculateArgs(args, high, low)`: `high*4294967296 + low` on `uint64`, the high
      half fetched and parsed first. It succeeds exactly when both arguments exist and
      parse, and then it is the 64-bit reduction of `high * 2^32 + low`. */
  function CalculateArgs(vals: seq<Result<U64>>, high: nat, low: nat): (r: Result<U64>)
    requires ParseResults(vals)
    ensures r.Ok? <==> high < |vals| && low < |vals| && vals[high].Ok? && vals[low].Ok?
    ensures r.Ok? ==> r.value == Wide(vals, high, low)
    ensures high >= |vals| ==> r == Err(Panicked(IndexOutOfRange))
    ensures high < |vals| && low < |vals| && r.Err? ==> r == Err(Panicked(MustFailed))
  {
    var h :- ArgAt(vals, high);
    var l :- ArgAt(vals, low);
    WrapCombine(h, l);
    Ok(Add(Mul(h, Half), l))
  }

  lemma WrapCombine(h: U64, l: U64)
    ensures Add(Mul(h, Half), l) == (h * Half + l) % MODULUS
  {
    var m := h * Half;
    assert Mul(h, Half) == m % MODULUS;
    assert (m % MODULUS + l) % MODULUS == (m + l) % MODULUS by {
      var q := m / MODULUS;
      assert m == q * MODULUS + m % MODULUS;
      assert m + l == q * MODULUS + (m % MODULUS + l);
    }
  }

  /** Halves below 2^32 give the exact value back, and it splits into the same halves:
      high zero gives the low half alone, low zero the high half times 2^32. */
  lemma CombineExact(h: U64, l: U64)
    requires h < Half && l < Half
    ensures Add(Mul(h, Half), l) == h * Half + l
    ensures (h * Half + l) / Half == h && (h * Half + l) % Half == l
  {
    assert h * Half <= (Half - 1) * Half by {
      assert h <= Half - 1;
    }
    assert h * Half + l < MODULUS;
    WrapCombine(h, l);
  }

  /** What one `LANStats(...)` call adds, from its parsed comma-separated arguments, in
      the order the statements of the loop body evaluate: sent packets (2, 1), sent bytes
      (4, 3) + (6, 5), received packets (8, 7), received bytes (10, 9) + (12, 11). */
  function CountersOf(vals: seq<Result<U64>>): (r: Result<Stat>)
    requires ParseResults(vals)
    ensures r.Err? ==> r.error.Panicked?
  {
    var txPackets :- CalculateArgs(vals, 2, 1);
    var txBytes1 :- CalculateArgs(vals, 4, 3);
    var txBytes2 :- CalculateArgs(vals, 6, 5);
    var rxPackets :- CalculateArgs(vals, 8, 7);
    var rxBytes1 :- CalculateArgs(vals, 10, 9);
    var rxBytes2 :- CalculateArgs(vals, 12, 11);
    Ok(Stat(Add(txBytes1, txBytes2), txPackets, Add(rxBytes1, rxBytes2), rxPackets, []))
  }

  /** The call's capture split on `,`, each argument parsed when it is read. */
  function CallCounters(inside: string): Result<Stat>
  {
    CountersOf(Parsed(Split(inside, ',')))
  }

  /** At least 13 arguments, and every one from the second to the thirteenth parses. */
  predicate ArgsParse(vals: seq<Result<U64>>)
  {
    |vals| >= 13 && forall k :: 1 <= k <= 12 ==> vals[k].Ok?
  }

  /** A call counts exactly when it has at least 13 arguments and the twelve it reads
      parse. */
  lemma CountersOk(vals: seq<Result<U64>>)
    requires ParseResults(vals)
    ensures CountersOf(vals).Ok? <==> ArgsParse(vals)
  {
    if CountersOf(vals).Ok? {
      assert CalculateArgs(vals, 2, 1).Ok? && CalculateArgs(vals, 4, 3).Ok? && CalculateArgs(vals, 6, 5).Ok?;
      assert CalculateArgs(vals, 8, 7).Ok? && CalculateArgs(vals, 10, 9).Ok? && CalculateArgs(vals, 12, 11).Ok?;
    }
  }

  /** The counters of a call that counts are the 64-bit sums of its recombined halves. */
  lemma CountersValues(vals: seq<Result<U64>>)
    requires ParseResults(vals) && ArgsParse(vals)
    ensures CountersOf(vals).Ok?
    ensures var st := CountersOf(vals).value;
      st.txPackets == Wide(vals, 2, 1)
      && st.txBytes == (Wide(vals, 4, 3) + Wide(vals, 6, 5)) % MODULUS
      && st.rxPackets == Wide(vals, 8, 7)
      && st.rxBytes == (Wide(vals, 10, 9) + Wide(vals, 12, 11)) % MODULUS
  {
  }

  /** A call with fewer than 13 arguments, all of which parse, panics on the index of
      the first missing one; a call with 13 or more never panics on an index. */
  lemma ShortCallPanics(vals: seq<Result<U64>>)
    requires ParseResults(vals)
    ensures |vals| < 13 && (forall k :: 1 <= k < |vals| ==> vals[k].Ok?) ==>
      CountersOf(vals) == Err(Panicked(IndexOutOfRange))
    ensures |vals| >= 13 ==> CountersOf(vals) != Err(Panicked(IndexOutOfRange))
  {
  }

  /** The counters of every variadic call of a line. */
  function VariadicParts(calls: seq<string>): (parts: seq<Result<Stat>>)
    ensures |parts| == |calls|
    ensures forall k :: 0 <= k < |calls| ==> parts[k] == CallCounters(calls[k])
  {
    seq(|calls|, k requires 0 <= k < |calls| => CallCounters(calls[k]))
  }

  /** The counters of a data line: the sum over its calls, the first failure otherwise. */
  function ParseVariadic(line: string): (r: Result<Stat>)
    ensures r.Err? ==> r.error.Panicked?
  {
    TotalFirstError(VariadicParts(FindVariadic(line)));
    Total(VariadicParts(FindVariadic(line)))
  }

  /** A line without any call gives zero counters; a line whose calls all count gives
      each counter as the sum over the calls, reduced to 64 bits. */
  lemma ParseVariadicSum(line: string)
    ensures FindVariadic(line) == [] ==> ParseVariadic(line) == Ok(Zero)
    ensures (forall k :: 0 <= k < |FindVariadic(line)| ==> CallCounters(FindVariadic(line)[k]).Ok?) ==>
      var parts := VariadicParts(FindVariadic(line));
      ParseVariadic(line).Ok? && forall c :: CounterOf(ParseVariadic(line).value, c) == SumOf(parts, c) % MODULUS
  {
    var parts := VariadicParts(FindVariadic(line));
    if forall k :: 0 <= k < |parts| ==> parts[k].Ok? {
      TotalIsSumModulo(parts);
    }
  }

  // ---------------------------------------------------------------------------------
  // The exchanges

  function TokenRequest(url: string): Request
  {
    Request(Post, url + TokenPath, AnonymousCookie, "", map[])
  }

  /** `getToken`'s reading of the reply: a status other than 200 is an error, and the
      token is the body after its first three bytes (a shorter body panics). */
  function TokenOf(reply: Reply): (r: Result<string>)
    ensures r.Ok? <==> reply.Replied? && reply.response.status == 200 && |reply.response.body| >= 3
    ensures r.Ok? ==> reply.response.body == reply.response.body[..3] + r.value
    ensures reply.Replied? && reply.response.status != 200 ==> r == Err(BadStatus(reply.response.status))
    ensures reply.Replied? && reply.response.status == 200 && r.Err? ==> r == Err(Panicked(IndexOutOfRange))
  {
    match reply
    case Failed => Err(TransportFailed)
    case Replied(res) =>
      if res.status != 200 then Err(BadStatus(res.status))
      else if |res.body| < 3 then Err(Panicked(IndexOutOfRange))
      else Ok(res.body[3..])
  }

  /** `getToken`: one request; the cookie is not touched. */
  function TokenRun(url: string, cookie: string, script: seq<Reply>): Run<string>
  {
    Run(TokenOf(Next(script)), cookie, [TokenRequest(url)], Rest(script))
  }

  /** The login form: user name, base64url password, language and token. */
  function LoginForm(user: string, password: string, token: string): map<string, string>
  {
    map["UserName" := user, "PassWord" := Encode(Octets(password)),
        "Language" := "english", "x.X_HW_Token" := token]
  }

  /** The form has exactly four fields, and its password field decodes to the bytes of
      the password. */
  lemma LoginFormFields(user: string, password: string, token: string)
    ensures var form := LoginForm(user, password, token);
      form.Keys == {"UserName", "PassWord", "Language", "x.X_HW_Token"}
      && form["UserName"] == user && form["Language"] == "english" && form["x.X_HW_Token"] == token
      && Decode(form["PassWord"]) == Some(Octets(password))
  {
    DecodeEncode(Octets(password));
  }

  function LoginRequest(url: string, user: string, password: string, token: string): Request
  {
    Request(Post, url + LoginPath, AnonymousCookie, FormContentType, LoginForm(user, password, token))
  }

  /** The session cookie taken from a `Set-Cookie` value: its first `;`-segment. */
  function SessionCookie(setCookie: string): (c: string)
    ensures IsPrefix(c, setCookie) && ';' !in c
    ensures |c| < |setCookie| ==> setCookie[|c|] == ';'
  {
    FirstPiece(setCookie, ';');
    Split(setCookie, ';')[0]
  }

  /** `auth`: the token request, then the login; the cookie changes only after a login
      answered with 200. */
  function AuthRun(url: string, user: string, password: string, cookie: string, script: seq<Reply>): Run<()>
  {
    var t := TokenRun(url, cookie, script);
    if t.result.Err? then Run(Err(TokenError(t.result.error)), cookie, t.sent, t.rest)
    else
      var sent := t.sent + [LoginRequest(url, user, password, t.result.value)];
      match Next(t.rest)
      case Failed => Run(Err(TransportFailed), cookie, sent, Rest(t.rest))
      case Replied(res) =>
        if res.status != 200 then Run(Err(BadStatus(res.status)), cookie, sent, Rest(t.rest))
        else Run(Ok(()), SessionCookie(res.setCookie), sent, Rest(t.rest))
  }

  /** A failed login leaves the cookie as it was; a successful one sets it from the
      second reply, which answered the login with 200. */
  lemma AuthCookie(url: string, user: string, password: string, cookie: string, script: seq<Reply>)
    ensures var run := AuthRun(url, user, password, cookie, script);
      (run.result.Err? ==> run.cookie == cookie)
      && (run.result.Ok? ==>
            |script| >= 2 && script[1].Replied? && script[1].response.status == 200
            && run.cookie == SessionCookie(script[1].response.setCookie))
    ensures var run := AuthRun(url, user, password, cookie, script);
      run.sent[0] == TokenRequest(url) && 1 <= |run.sent| <= 2
      && (|run.sent| == 2 <==> TokenOf(Next(script)).Ok?)
  {
  }

  function StatRequest(url: string, cookie: string): Request
  {
    Request(Get, url + StatPath, cookie, "", map[])
  }

  /** `readStat`'s reading of the stat page reply. */
  function StatPageOf(reAuth: bool, reply: Reply): (r: Result<string>)
    ensures reply.Failed? ==> r == Err(TransportFailed)
    ensures reply.Replied? && reply.response.status == 403 ==>
      r == if reAuth then Err(BadStatus(403)) else Err(NeedAuth)
    ensures reply.Replied? && reply.response.status != 200 && reply.response.status != 403 ==>
      r == Err(BadStatus(reply.response.status))
    ensures reply.Replied? && reply.response.status == 200 ==>
      r == ScanStatLines(Lines(reply.response.body))
  {
    match reply
    case Failed => Err(TransportFailed)
    case Replied(res) =>
      if !reAuth && res.status == 403 then Err(NeedAuth)
      else if res.status != 200 then Err(BadStatus(res.status))
      else ScanStatLines(Lines(res.body))
  }

  /** The request for the stat page with the cookie as it is, and its reply. */
  function StatPageRun(url: string, reAuth: bool, cookie: string, before: seq<Request>,
                       script: seq<Reply>): Run<string>
  {
    Run(StatPageOf(reAuth, Next(script)), cookie, before + [StatRequest(url, cookie)], Rest(script))
  }

  /** `readStat(reAuth)`: a login first when asked to or when there is no cookie, then the
      stat page. */
  function ReadStatRun(url: string, user: string, password: string, reAuth: bool, cookie: string,
                       script: seq<Reply>): Run<string>
  {
    if reAuth || cookie == "" then
      var a := AuthRun(url, user, password, cookie, script);
      if a.result.Err? then Run(Err(AuthError(a.result.error)), a.cookie, a.sent, a.rest)
      else StatPageRun(url, reAuth, a.cookie, a.sent, a.rest)
    else StatPageRun(url, reAuth, cookie, [], script)
  }

  /** `readStat` logs in first exactly when asked to or when there is no cookie; without
      a login it sends the one stat request with the cookie it has; a failed login is
      returned before any stat request and leaves the cookie as it was. */
  lemma ReadStatAuth(url: string, user: string, password: string, reAuth: bool, cookie: string,
                     script: seq<Reply>)
    ensures var run := ReadStatRun(url, user, password, reAuth, cookie, script);
      |run.sent| > 0 && (run.sent[0] == TokenRequest(url) <==> reAuth || cookie == "")
    ensures !(reAuth || cookie == "") ==>
      var run := ReadStatRun(url, user, password, reAuth, cookie, script);
      run.sent == [StatRequest(url, cookie)] && run.cookie == cookie
    ensures var a := AuthRun(url, user, password, cookie, script);
      (reAuth || cookie == "") && a.result.Err? ==>
        var run := ReadStatRun(url, user, password, reAuth, cookie, script);
        run.result == Err(AuthError(a.result.error)) && run.cookie == cookie
        && CountTo(run.sent, url + StatPath) == 0
  {
    DistinctPaths(url, TokenPath, StatPath);
    AuthSendsNoStatRequest(url, user, password, cookie, script);
  }

  /** Each `readStat` sends at most one stat request, and none only when the login it
      attempted failed. */
  lemma ReadStatCount(url: string, user: string, password: string, reAuth: bool, cookie: string,
                      script: seq<Reply>)
    ensures var run := ReadStatRun(url, user, password, reAuth, cookie, script);
      CountTo(run.sent, url + StatPath) ==
        if (reAuth || cookie == "") && AuthRun(url, user, password, cookie, script).result.Err? then 0 else 1
  {
    var run := ReadStatRun(url, user, password, reAuth, cookie, script);
    if reAuth || cookie == "" {
      var a := AuthRun(url, user, password, cookie, script);
      AuthSendsNoStatRequest(url, user, password, cookie, script);
      if a.result.Ok? {
        CountAppend(a.sent, [StatRequest(url, a.cookie)], url + StatPath);
        assert [StatRequest(url, a.cookie)][..0] == [];
      }
    } else {
      assert run.sent[..0] == [];
    }
  }

  lemma AuthSendsNoStatRequest(url: string, user: string, password: string, cookie: string, script: seq<Reply>)
    ensures CountTo(AuthRun(url, user, password, cookie, script).sent, url + StatPath) == 0
  {
    DistinctPaths(url, TokenPath, StatPath);
    DistinctPaths(url, LoginPath, StatPath);
    var a := AuthRun(url, user, password, cookie, script);
    assert a.sent[..0] == [];
    if |a.sent| == 2 {
      assert a.sent[..1] == [a.sent[0]];
      assert a.sent[..1][..0] == [];
    }
  }

  /** The stat page read of `Stat`: a second `readStat`, forcing a login, only when the
      first one answered exactly `NeedAuth`. */
  function RetryRun(url: string, user: string, password: string, cookie: string, script: seq<Reply>): Run<string>
  {
    var first := ReadStatRun(url, user, password, false, cookie, script);
    if first.result == Err(NeedAuth) then
      var second := ReadStatRun(url, user, password, true, first.cookie, first.rest);
      Run(second.result, second.cookie, first.sent + second.sent, second.rest)
    else first
  }

  /** The two outcomes of the retry, one read or two. */
  lemma RetrySteps(url: string, user: string, password: string, cookie: string, script: seq<Reply>)
    ensures var first := ReadStatRun(url, user, password, false, cookie, script);
      first.result != Err(NeedAuth) ==> RetryRun(url, user, password, cookie, script) == first
    ensures var first := ReadStatRun(url, user, password, false, cookie, script);
      var second := ReadStatRun(url, user, password, true, first.cookie, first.rest);
      first.result == Err(NeedAuth) ==>
        RetryRun(url, user, password, cookie, script) == Run(second.result, second.cookie, first.sent + second.sent, second.rest)
  {
  }

  /** `Stat`: the read with its retry, then the counters of the data line. */
  function StatRun(url: string, user: string, password: string, cookie: string, script: seq<Reply>): Run<Stat>
  {
    var read := RetryRun(url, user, password, cookie, script);
    match read.result
    case Err(e) => Run(Err(e), read.cookie, read.sent, read.rest)
    case Ok(line) => Run(ParseVariadic(line), read.cookie, read.sent, read.rest)
  }

  /** `Stat` reads the stat page at most twice; it reads it again only after the first
      read answered `NeedAuth`, and that second read starts with a login; a `NeedAuth`
      of the second read is returned as it is. */
  lemma StatRetriesOnce(url: string, user: string, password: string, cookie: string, script: seq<Reply>)
    ensures CountTo(StatRun(url, user, password, cookie, script).sent, url + StatPath) <= 2
    ensures var first := ReadStatRun(url, user, password, false, cookie, script);
      first.result != Err(NeedAuth) ==>
        StatRun(url, user, password, cookie, script).sent == first.sent
    ensures var first := ReadStatRun(url, user, password, false, cookie, script);
      first.result == Err(NeedAuth) ==>
        var run := StatRun(url, user, password, cookie, script);
        |run.sent| > |first.sent| && run.sent[..|first.sent|] == first.sent
        && run.sent[|first.sent|] == TokenRequest(url)
    ensures StatRun(url, user, password, cookie, script).result == Err(NeedAuth) ==>
      ReadStatRun(url, user, password, false, cookie, script).result == Err(NeedAuth)
  {
    StatRunReads(url, user, password, cookie, script);
    RetrySteps(url, user, password, cookie, script);
    RetryCount(url, user, password, cookie, script);
    RetryStartsWithLogin(url, user, password, cookie, script);
  }

  /** `Stat` sends what its reads sent, and a `NeedAuth` it returns is the one its reads
      returned, since the counters fail only with a panic. */
  lemma StatRunReads(url: string, user: string, password: string, cookie: string, script: seq<Reply>)
    ensures StatRun(url, user, password, cookie, script).sent == RetryRun(url, user, password, cookie, script).sent
    ensures StatRun(url, user, password, cookie, script).result == Err(NeedAuth) ==>
      RetryRun(url, user, password, cookie, script).result == Err(NeedAuth)
  {
    var read := RetryRun(url, user, password, cookie, script);
    if read.result.Ok? {
      var counters := ParseVariadic(read.result.value);
    }
  }

  /** The reads send at most two requests for the stat page. */
  lemma RetryCount(url: string, user: string, password: string, cookie: string, script: seq<Reply>)
    ensures CountTo(RetryRun(url, user, password, cookie, script).sent, url + StatPath) <= 2
  {
    RetrySteps(url, user, password, cookie, script);
    var first := ReadStatRun(url, user, password, false, cookie, script);
    ReadStatCount(url, user, password, false, cookie, script);
    if first.result == Err(NeedAuth) {
      var second := ReadStatRun(url, user, password, true, first.cookie, first.rest);
      ReadStatCount(url, user, password, true, first.cookie, first.rest);
      CountAppend(first.sent, second.sent, url + StatPath);
    }
  }

  /** After a first read that answered `NeedAuth`, the next request is a token request. */
  lemma RetryStartsWithLogin(url: string, user: string, password: string, cookie: string, script: seq<Reply>)
    ensures var first := ReadStatRun(url, user, password, false, cookie, script);
      first.result == Err(NeedAuth) ==>
        var run := RetryRun(url, user, password, cookie, script);
        |run.sent| > |first.sent| && run.sent[..|first.sent|] == first.sent
        && run.sent[|first.sent|] == TokenRequest(url)
  {
    RetrySteps(url, user, password, cookie, script);
    var first := ReadStatRun(url, user, password, false, cookie, script);
    if first.result == Err(NeedAuth) {
      var second := ReadStatRun(url, user, password, true, first.cookie, first.rest);
      ReadStatAuth(url, user, password, true, first.cookie, first.rest);
      assert (first.sent + second.sent)[|first.sent|] == second.sent[0];
      assert (first.sent + second.sent)[..|first.sent|] == first.sent;
    }
  }

  /** The loop of `Stat` over the calls of the data line. */
  method SumCalls(line: string) returns (r: Result<Stat>)
    ensures r == ParseVariadic(line)
  {
    var matches := FindVariadic(line);
    ghost var parts := VariadicParts(matches);
    var stat := Zero;
    var i := 0;
    while i < |matches|
      invariant 0 <= i <= |matches|
      invariant Total(parts[..i]) == Ok(stat)
    {
      var next := Accumulate(stat, matches[i]);
      if next.Err? {
        TotalStopsAt(parts, i);
        return Err(next.error);
      }
      TotalExtend(parts, i, stat);
      stat := next.value;
      i := i + 1;
    }
    assert parts[..|matches|] == parts;
    return Ok(stat);
  }

  /** The body of the loop of `Stat` for one call: the counters added field by field,
      in the order of the source's statements. */
  method Accumulate(stat: Stat, inside: string) returns (r: Result<Stat>)
    ensures CallCounters(inside).Err? ==> r == CallCounters(inside)
    ensures CallCounters(inside).Ok? ==> r == Ok(Plus(stat, CallCounters(inside).value))
  {
    var acc := stat;
    var args := Parsed(Split(inside, ','));
    var txPackets := CalculateArgs(args, 2, 1);
    if txPackets.Err? {
      return Err(txPackets.error);
    }
    acc := acc.(txPackets := Add(acc.txPackets, txPackets.value));
    var txBytes1 := CalculateArgs(args, 4, 3);
    if txBytes1.Err? {
      return Err(txBytes1.error);
    }
    var txBytes2 := CalculateArgs(args, 6, 5);
    if txBytes2.Err? {
      return Err(txBytes2.error);
    }
    acc := acc.(txBytes := Add(acc.txBytes, Add(txBytes1.value, txBytes2.value)));
    var rxPackets := CalculateArgs(args, 8, 7);
    if rxPackets.Err? {
      return Err(rxPackets.error);
    }
    acc := acc.(rxPackets := Add(acc.rxPackets, rxPackets.value));
    var rxBytes1 := CalculateArgs(args, 10, 9);
    if rxBytes1.Err? {
      return Err(rxBytes1.error);
    }
    var rxBytes2 := CalculateArgs(args, 12, 11);
    if rxBytes2.Err? {
      return Err(rxBytes2.error);
    }
    acc := acc.(rxBytes := Add(acc.rxBytes, Add(rxBytes1.value, rxBytes2.value)));
    return Ok(acc);
  }

  /** The adapter object: its configuration, its HTTP client and the session cookie. */
  class Modem {
    const url: string
    const user: string
    const password: string
    var cookie: string
    const client: Client

    constructor (url: string, user: string, password: string, client: Client)
      ensures this.url == url && this.user == user && this.password == password
      ensures this.client == client && cookie == ""
    {
      this.url := url;
      this.user := user;
      this.password := password;
      this.client := client;
      cookie := "";
    }

    /** The state after a call is the one `run` describes, from requests `sent0` on. */
    predicate After<T(==)>(run: Run<T>, r: Result<T>, sent0: seq<Request>)
      reads this, client
    {
      r == run.result && cookie == run.cookie && client.sent == sent0 + run.sent && client.script == run.rest
    }

    method GetToken() returns (r: Result<string>)
      modifies client
      ensures After(TokenRun(url, cookie, old(client.script)), r, old(client.sent))
    {
      var reply := client.Do(TokenRequest(url));
      if reply.Failed? {
        return Err(TransportFailed);
      }
      if reply.response.status != 200 {
        return Err(BadStatus(reply.response.status));
      }
      var body := reply.response.body;
      if |body| < 3 {
        return Err(Panicked(IndexOutOfRange));
      }
      return Ok(body[3..]);
    }

    method Auth() returns (r: Result<()>)
      modifies this, client
      ensures After(AuthRun(url, user, password, old(cookie), old(client.script)), r, old(client.sent))
    {
      var token := GetToken();
      if token.Err? {
        return Err(TokenError(token.error));
      }
      var reply := client.Do(LoginRequest(url, user, password, token.value));
      if reply.Failed? {
        return Err(TransportFailed);
      }
      if reply.response.status != 200 {
        return Err(BadStatus(reply.response.status));
      }
      cookie := SessionCookie(reply.response.setCookie);
      return Ok(());
    }

    method ReadStat(reAuth: bool) returns (r: Result<string>)
      modifies this, client
      ensures After(ReadStatRun(url, user, password, reAuth, old(cookie), old(client.script)), r, old(client.sent))
    {
      if reAuth || cookie == "" {
        var a := Auth();
        if a.Err? {
          return Err(AuthError(a.error));
        }
      }
      var reply := client.Do(StatRequest(url, cookie));
      if reply.Failed? {
        return Err(TransportFailed);
      }
      var res := reply.response;
      if !reAuth && res.status == 403 {
        return Err(NeedAuth);
      }
      if res.status != 200 {
        return Err(BadStatus(res.status));
      }
      r := FindStatLine(Lines(res.body));
    }

    /** The reads of `Stat`: `readStat(false)`, and `readStat(true)` again only when the
        first answered `NeedAuth`. */
    method ReadWithRetry() returns (line: Result<string>)
      modifies this, client
      ensures After(RetryRun(url, user, password, old(cookie), old(client.script)), line, old(client.sent))
    {
      ghost var first := ReadStatRun(url, user, password, false, cookie, client.script);
      RetrySteps(url, user, password, cookie, client.script);
      line := ReadStat(false);
      if line == Err(NeedAuth) {
        ghost var second := ReadStatRun(url, user, password, true, first.cookie, first.rest);
        SentInOrder(old(client.sent), first.sent, second.sent);
        line := ReadStat(true);
      }
    }

    method Stat() returns (r: Result<Stat>)
      modifies this, client
      ensures After(StatRun(url, user, password, old(cookie), old(client.script)), r, old(client.sent))
    {
      var line := ReadWithRetry();
      if line.Err? {
        return Err(line.error);
      }
      r := SumCalls(line.value);
    }
  }
}
