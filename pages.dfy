/** What the adapters look for in the pages of the device's web interface, line by line:
    the token in the home page, and the data line (or the redirect to the login page) in
    the Ethernet statistics page. Each scan stops at the first line that decides it. */
module Pages {
  import opened Errors
  import opened Text

  /** The script the stat page holds when the session is not valid. */
  const RedirectMarker := "top.location.replace(pageName)"
  /** The start of the statistics assignment on the data line. */
  const DataMarker := "var userEthInfos"
  /** The function of the home page that returns the login token. */
  const TokenFunction := "function GetRandCnt()"
  /** The text before the quoted token in that function. */
  const TokenOpen := "return '"

  /** `k` is the index of the first line of `lines` that satisfies `stop`. */
  ghost predicate IsFirst(lines: seq<string>, k: int, stop: string -> bool)
  {
    0 <= k < |lines| && stop(lines[k]) && forall j :: 0 <= j < k ==> !stop(lines[j])
  }

  /** The first line of `lines[1..]` is the first of `lines` when `lines[0]` does not stop. */
  lemma IsFirstShift(lines: seq<string>, stop: string -> bool)
    requires |lines| > 0 && !stop(lines[0])
    ensures forall k :: IsFirst(lines[1..], k, stop) ==> IsFirst(lines, k + 1, stop)
  {
    forall k | IsFirst(lines[1..], k, stop)
      ensures IsFirst(lines, k + 1, stop)
    {
      forall j | 0 <= j < k + 1
        ensures !stop(lines[j])
      {
        if j > 0 {
          assert lines[j] == lines[1..][j - 1];
        }
      }
    }
  }

  // ---------------------------------------------------------------------------------
  // The stat page of the eg8141A5 and eg8141A5v5 adapters

  /** A line that ends the scan of the stat page. */
  predicate StatStop(line: string) {
    Contains(line, RedirectMarker) || Contains(line, DataMarker)
  }

  /** What the line that ends the scan means: the redirect is checked first. */
  function StatDecision(line: string): Result<string>
  {
    if Contains(line, RedirectMarker) then Err(NeedAuth) else Ok(line)
  }

  /** The scan of the stat page, one line at a time. */
  function ScanStatLines(lines: seq<string>): Result<string>
    decreases |lines|
  {
    if lines == [] then Err(InvalidBody)
    else if StatStop(lines[0]) then StatDecision(lines[0])
    else ScanStatLines(lines[1..])
  }

  /** The first line with the redirect script gives `NeedAuth`, the first line with the
      data marker is the result, and a page with neither is an invalid body. */
  lemma {:induction false} ScanStatOutcome(lines: seq<string>)
    ensures ScanStatLines(lines) == Err(InvalidBody) <==> forall k :: 0 <= k < |lines| ==> !StatStop(lines[k])
    ensures ScanStatLines(lines) != Err(InvalidBody) ==>
      exists k :: IsFirst(lines, k, StatStop) && ScanStatLines(lines) == StatDecision(lines[k])
    ensures ScanStatLines(lines).Ok? || ScanStatLines(lines) == Err(NeedAuth) || ScanStatLines(lines) == Err(InvalidBody)
    decreases |lines|
  {
    if lines == [] {
    } else if StatStop(lines[0]) {
      assert IsFirst(lines, 0, StatStop);
    } else {
      ScanStatOutcome(lines[1..]);
      IsFirstShift(lines, StatStop);
      assert forall k :: 1 <= k < |lines| ==> lines[k] == lines[1..][k - 1];
    }
  }

  /** The scan ends at the first stopping line, with that line's decision. */
  lemma ScanStatAt(lines: seq<string>, i: int)
    requires IsFirst(lines, i, StatStop)
    ensures ScanStatLines(lines) == StatDecision(lines[i])
  {
    ScanStatOutcome(lines);
    var k :| IsFirst(lines, k, StatStop) && ScanStatLines(lines) == StatDecision(lines[k]);
    FirstUnique(lines, i, k, StatStop);
  }

  /** The loop over the lines of the stat page of both EG8141A5 adapters: it returns at
      the first line with the redirect script or the data marker. */
  method FindStatLine(lines: seq<string>) returns (r: Result<string>)
    ensures r == ScanStatLines(lines)
  {
    var i := 0;
    while i < |lines|
      invariant 0 <= i <= |lines|
      invariant forall j :: 0 <= j < i ==> !StatStop(lines[j])
    {
      if Contains(lines[i], RedirectMarker) {
        ScanStatAt(lines, i);
        return Err(NeedAuth);
      }
      if Contains(lines[i], DataMarker) {
        ScanStatAt(lines, i);
        return Ok(lines[i]);
      }
      i := i + 1;
    }
    ScanStatOutcome(lines);
    return Err(InvalidBody);
  }

  /** A data line is found only if no earlier line, nor the data line itself, has the
      redirect script; a redirect line wins over a data marker on the same line. */
  lemma ScanStatFound(lines: seq<string>, k: nat)
    requires k < |lines| && Contains(lines[k], DataMarker)
    requires forall j :: 0 <= j < k ==> !StatStop(lines[j])
    ensures ScanStatLines(lines) ==
      if Contains(lines[k], RedirectMarker) then Err(NeedAuth) else Ok(lines[k])
  {
    ScanStatAt(lines, k);
  }

  /** The first of several stopping lines is the one that counts. */
  lemma FirstUnique(lines: seq<string>, i: int, k: int, stop: string -> bool)
    requires IsFirst(lines, i, stop) && IsFirst(lines, k, stop)
    ensures i == k
  {
  }

  // ---------------------------------------------------------------------------------
  // The stat page of the Huawei adapter of huawei.go

  predicate HasData(line: string) {
    Contains(line, DataMarker)
  }

  /** The scan of the stat page that knows no redirect: the first line with the data
      marker, or an invalid body. */
  function ScanDataLine(lines: seq<string>): (r: Result<string>)
    ensures r == Err(InvalidBody) <==> forall k :: 0 <= k < |lines| ==> !HasData(lines[k])
    ensures r != Err(InvalidBody) ==> exists k :: IsFirst(lines, k, HasData) && r == Ok(lines[k])
    decreases |lines|
  {
    if lines == [] then Err(InvalidBody)
    else if HasData(lines[0]) then
      assert IsFirst(lines, 0, HasData);
      Ok(lines[0])
    else
      IsFirstShift(lines, HasData);
      assert forall k :: 1 <= k < |lines| ==> lines[k] == lines[1..][k - 1];
      ScanDataLine(lines[1..])
  }

  /** The scan ends at the first line with the data marker. */
  lemma ScanDataAt(lines: seq<string>, i: int)
    requires IsFirst(lines, i, HasData)
    ensures ScanDataLine(lines) == Ok(lines[i])
  {
    var k :| IsFirst(lines, k, HasData) && ScanDataLine(lines) == Ok(lines[k]);
    FirstUnique(lines, i, k, HasData);
  }

  /** The loop over the lines of the stat page of huawei.go: lines without the data
      marker are skipped. */
  method FindDataLine(lines: seq<string>) returns (r: Result<string>)
    ensures r == ScanDataLine(lines)
  {
    var i := 0;
    while i < |lines|
      invariant 0 <= i <= |lines|
      invariant forall j :: 0 <= j < i ==> !HasData(lines[j])
    {
      if !Contains(lines[i], DataMarker) {
        i := i + 1;
        continue;
      }
      ScanDataAt(lines, i);
      return Ok(lines[i]);
    }
    return Err(InvalidBody);
  }

  // ---------------------------------------------------------------------------------
  // The token of the home page

  /** The pattern `return '([^']+)` matches at the start of `s`. */
  predicate TokenAtStart(s: string) {
    |s| > |TokenOpen| && s[..|TokenOpen|] == TokenOpen && s[|TokenOpen|] != '\''
  }

  /** The capture of the leftmost match of `return '([^']+)` in `s`: the longest run of
      characters other than `'` after the first `return '` that such a character follows. */
  function TokenCapture(s: string): (r: Option<string>)
    ensures r.Some? ==> r.value != [] && '\'' !in r.value
    decreases |s|
  {
    if TokenAtStart(s) then Some(RunUntil(s[|TokenOpen|..], '\''))
    else if s == [] then None
    else TokenCapture(s[1..])
  }

  /** The capture is taken at the leftmost offset where the pattern matches, and there is
      none when it matches nowhere. */
  lemma {:induction false} TokenCaptureLeftmost(s: string)
    ensures TokenCapture(s).None? <==> forall i :: 0 <= i <= |s| ==> !TokenAtStart(s[i..])
    ensures TokenCapture(s).Some? ==>
      (exists i :: 0 <= i <= |s| && TokenAtStart(s[i..])
         && (forall j :: 0 <= j < i ==> !TokenAtStart(s[j..]))
         && TokenCapture(s).value == RunUntil(s[i + |TokenOpen|..], '\''))
    decreases |s|
  {
    if TokenAtStart(s) {
      assert s[0..] == s;
    } else if s != [] {
      TokenCaptureLeftmost(s[1..]);
      assert forall i :: 1 <= i <= |s| ==> s[i..] == s[1..][i - 1..];
      assert s[0..] == s;
      if TokenCapture(s).Some? {
        var i :| 0 <= i <= |s[1..]| && TokenAtStart(s[1..][i..])
          && (forall j :: 0 <= j < i ==> !TokenAtStart(s[1..][j..]))
          && TokenCapture(s).value == RunUntil(s[1..][i + |TokenOpen|..], '\'');
        assert s[1..][i + |TokenOpen|..] == s[i + 1 + |TokenOpen|..];
        assert forall j :: 0 <= j < i + 1 ==> !TokenAtStart(s[j..]);
      }
    }
  }

  /** A token text placed after `return '` is the capture, when nothing before it can
      start a match (no `r` there) and a quote or the end of the line follows it. */
  lemma {:induction false} TokenCaptureOf(before: string, token: string, after: string)
    requires forall k :: 0 <= k < |before| ==> before[k] != 'r'
    requires token != [] && '\'' !in token
    requires after == [] || after[0] == '\''
    ensures TokenCapture(before + TokenOpen + token + after) == Some(token)
    decreases |before|
  {
    var s := before + TokenOpen + token + after;
    if before == [] {
      assert s == TokenOpen + (token + after);
      assert s[|TokenOpen|..] == token + after;
      assert s[|TokenOpen|] == token[0];
      if after == [] {
        assert token + after == token;
        RunUntilAll(token, '\'');
      } else {
        assert token + after == token + ['\''] + after[1..];
        RunUntilStopsAt(token, '\'', after[1..]);
      }
    } else {
      assert s[0] == before[0];
      assert s[1..] == before[1..] + TokenOpen + token + after;
      TokenCaptureOf(before[1..], token, after);
    }
  }

  /** A line that ends the token scan: it has the token function and the pattern matches. */
  predicate TokenStop(line: string) {
    Contains(line, TokenFunction) && TokenCapture(line).Some?
  }

  /** The token scan of the home page: lines without the token function are skipped, as
      are lines with it where the pattern does not match; the first line with both gives
      the token, and a page without one is an invalid body. */
  function ScanTokenLines(lines: seq<string>): (r: Result<string>)
    ensures r.Ok? || r == Err(InvalidBody)
    ensures r.Err? <==> forall k :: 0 <= k < |lines| ==> !TokenStop(lines[k])
    ensures r.Ok? ==> exists k :: IsFirst(lines, k, TokenStop) && Some(r.value) == TokenCapture(lines[k])
    ensures r.Ok? ==> r.value != [] && '\'' !in r.value
    decreases |lines|
  {
    if lines == [] then Err(InvalidBody)
    else if TokenStop(lines[0]) then
      assert IsFirst(lines, 0, TokenStop);
      Ok(TokenCapture(lines[0]).value)
    else
      IsFirstShift(lines, TokenStop);
      assert forall k :: 1 <= k < |lines| ==> lines[k] == lines[1..][k - 1];
      ScanTokenLines(lines[1..])
  }

  /** The token scan ends at the first line that has the token function and a match. */
  lemma ScanTokenAt(lines: seq<string>, i: int)
    requires IsFirst(lines, i, TokenStop)
    ensures ScanTokenLines(lines) == Ok(TokenCapture(lines[i]).value)
  {
    var k :| IsFirst(lines, k, TokenStop) && Some(ScanTokenLines(lines).value) == TokenCapture(lines[k]);
    FirstUnique(lines, i, k, TokenStop);
  }

  /** The loop over the lines of the home page: lines without the token function are
      skipped, and so are lines where the pattern does not match. */
  method FindToken(lines: seq<string>) returns (r: Result<string>)
    ensures r == ScanTokenLines(lines)
  {
    var i := 0;
    while i < |lines|
      invariant 0 <= i <= |lines|
      invariant forall j :: 0 <= j < i ==> !TokenStop(lines[j])
    {
      if !Contains(lines[i], TokenFunction) {
        i := i + 1;
        continue;
      }
      var capture := TokenCapture(lines[i]);
      if capture.Some? {
        ScanTokenAt(lines, i);
        return Ok(capture.value);
      }
      i := i + 1;
    }
    return Err(InvalidBody);
  }

  /** The home page line `function GetRandCnt(){ return 'abcd1234'; }` gives the token
      `abcd1234`. */
  lemma TokenExample()
    ensures ScanTokenLines(["<script>", "function GetRandCnt(){ return 'abcd1234'; }"]) == Ok("abcd1234")
  {
    var line := "function GetRandCnt(){ return 'abcd1234'; }";
    assert line == "function GetRandCnt(){ " + TokenOpen + "abcd1234" + "'; }";
    TokenCaptureOf("function GetRandCnt(){ ", "abcd1234", "'; }");
    assert OccursAt(line, TokenFunction, 0);
    ContainsAt(line, TokenFunction, 0);
    var lines := ["<script>", line];
    ContainsIff("<script>", TokenFunction);
    assert IsFirst(lines, 1, TokenStop);
    ScanTokenAt(lines, 1);
  }
}
