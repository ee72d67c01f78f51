/** The HTTP exchanges of the adapters, abstracted: a request is what the adapter puts
    on the wire, a reply is either a transport failure or a response record, and the
    client answers requests from a script of replies, one per request, logging what
    it was sent. */
module Http {
  import opened Errors
  import opened Text

  datatype Method = Get | Post

  /** The parts of a request the adapters set: method, URL, the `cookie` header (""
      when none is set), the `content-type` header ("" when none is set) and the form
      fields of the body (`url.Values` before it is encoded; empty when there is no
      body). */
  datatype Request = Request(verb: Method, url: string, cookie: string, contentType: string,
                             form: map<string, string>)

  /** One cookie of `res.Cookies()`. */
  datatype Cookie = Cookie(name: string, value: string)

  /** The parts of a response the adapters read: the status code, the parsed cookies
      (`res.Cookies()`), the first `Set-Cookie` header value (`res.Header.Get`, ""
      when there is none) and the body. */
  datatype Response = Response(status: int, cookies: seq<Cookie>, setCookie: string, body: string)

  /** What `client.Do` gives back: an error, or a response. */
  datatype Reply = Failed | Replied(response: Response)

  /** The reply to the next request: a transport failure once the script is used up. */
  function Next(script: seq<Reply>): Reply
  {
    if script == [] then Failed else script[0]
  }

  function Rest(script: seq<Reply>): (rest: seq<Reply>)
    ensures |rest| == if script == [] then 0 else |script| - 1
  {
    if script == [] then [] else script[1..]
  }

  /** The HTTP client: it answers each request with the next reply of its script. */
  class Client {
    var script: seq<Reply>
    var sent: seq<Request>

    constructor (script: seq<Reply>)
      ensures this.script == script && sent == []
    {
      this.script := script;
      sent := [];
    }

    /** `client.Do(request)`. */
    method Do(request: Request) returns (reply: Reply)
      modifies this
      ensures reply == Next(old(script)) && script == Rest(old(script))
      ensures sent == old(sent) + [request]
    {
      reply := Next(script);
      script := Rest(script);
      sent := sent + [request];
    }
  }

  /** What a sequence of exchanges of an adapter does: its result, the session cookie
      afterwards, the requests it sent, in order, and the replies left in the script. */
  datatype Run<+T> = Run(result: Result<T>, cookie: string, sent: seq<Request>, rest: seq<Reply>)

  /** The requests of two runs one after the other, appended to what was sent before. */
  lemma SentInOrder(before: seq<Request>, first: seq<Request>, second: seq<Request>)
    ensures (before + first) + second == before + (first + second)
  {
  }

  /** How many of the requests went to `url`. */
  function CountTo(sent: seq<Request>, url: string): (n: nat)
    ensures n <= |sent|
    decreases |sent|
  {
    if sent == [] then 0
    else CountTo(sent[..|sent| - 1], url) + (if sent[|sent| - 1].url == url then 1 else 0)
  }

  lemma {:induction false} CountAppend(a: seq<Request>, b: seq<Request>, url: string)
    ensures CountTo(a + b, url) == CountTo(a, url) + CountTo(b, url)
    decreases |b|
  {
    if b == [] {
      assert a + b == a;
    } else {
      assert (a + b)[..|a + b| - 1] == a + b[..|b| - 1];
      CountAppend(a, b[..|b| - 1], url);
    }
  }

  /** Two paths below the same base URL are different URLs when the paths differ. */
  lemma DistinctPaths(base: string, p: string, q: string)
    requires p != q
    ensures base + p != base + q
  {
    assert (base + p)[|base|..] == p;
    assert (base + q)[|base|..] == q;
  }

  /** `cookie.Name + "=" + cookie.Value` of each cookie, in order. */
  function CookiePairs(cookies: seq<Cookie>): (pairs: seq<string>)
    ensures |pairs| == |cookies|
    ensures forall k :: 0 <= k < |cookies| ==> pairs[k] == cookies[k].name + "=" + cookies[k].value
  {
    seq(|cookies|, k requires 0 <= k < |cookies| => cookies[k].name + "=" + cookies[k].value)
  }

  /** The session cookie the EG8141A5 and huawei.go adapters keep: every pair of the
      login response, joined with `"; "`. */
  function CookieHeader(cookies: seq<Cookie>): string
  {
    Join(CookiePairs(cookies), "; ")
  }

  /** The header is empty exactly when the response set no cookie, since every pair
      holds at least its `=`; the first pair opens it and the others follow, each after
      `"; "`. */
  lemma CookieHeaderShape(cookies: seq<Cookie>)
    ensures CookieHeader(cookies) == "" <==> cookies == []
    ensures |cookies| == 1 ==> CookieHeader(cookies) == cookies[0].name + "=" + cookies[0].value
    ensures |cookies| > 1 ==>
      CookieHeader(cookies) == cookies[0].name + "=" + cookies[0].value + "; " + CookieHeader(cookies[1..])
  {
    var pairs := CookiePairs(cookies);
    if |cookies| > 1 {
      assert pairs[1..] == CookiePairs(cookies[1..]);
    }
    if cookies != [] {
      assert |Join(pairs, "; ")| >= |pairs[0]| > 0;
    }
  }

  /** The loop that builds the pairs, then `strings.Join(cookies, "; ")`. */
  method JoinCookies(cookies: seq<Cookie>) returns (header: string)
    ensures header == CookieHeader(cookies)
  {
    var pairs: seq<string> := [];
    var i := 0;
    while i < |cookies|
      invariant 0 <= i <= |cookies|
      invariant pairs == CookiePairs(cookies[..i])
    {
      pairs := pairs + [cookies[i].name + "=" + cookies[i].value];
      i := i + 1;
    }
    assert cookies[..|cookies|] == cookies;
    header := Join(pairs, "; ");
  }
}
