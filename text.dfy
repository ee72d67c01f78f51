/** The effect of the Go library string functions the adapters call: `strings.Contains`,
    `strings.Split`, `strings.Join`, `strings.Trim` with a one-character cutset, and the
    line splitting of a `bufio.Scanner` (`bufio.ScanLines`). Strings are byte strings:
    each character stands for one byte. */
module Text {

  predicate IsPrefix(p: string, s: string) {
    |p| <= |s| && s[..|p|] == p
  }

  /** `strings.Contains(s, sub)`. */
  predicate Contains(s: string, sub: string)
    decreases |s|
  {
    IsPrefix(sub, s) || (|s| > 0 && Contains(s[1..], sub))
  }

  /** `sub` occurs in `s` at offset `i`. */
  predicate OccursAt(s: string, sub: string, i: nat) {
    i + |sub| <= |s| && s[i..i + |sub|] == sub
  }

  /** `Contains` holds exactly when `sub` occurs at some offset of `s`. */
  lemma {:induction false} ContainsIff(s: string, sub: string)
    ensures Contains(s, sub) <==> exists i: nat :: OccursAt(s, sub, i)
    decreases |s|
  {
    if |s| > 0 {
      ContainsIff(s[1..], sub);
    }
    if IsPrefix(sub, s) {
      assert OccursAt(s, sub, 0);
    } else if |s| > 0 && Contains(s[1..], sub) {
      var i: nat :| OccursAt(s[1..], sub, i);
      assert s[i + 1..i + 1 + |sub|] == s[1..][i..i + |sub|];
      assert OccursAt(s, sub, i + 1);
    } else {
      forall i: nat | OccursAt(s, sub, i)
        ensures false
      {
        if i > 0 {
          assert s[1..][i - 1..i - 1 + |sub|] == s[i..i + |sub|];
          assert OccursAt(s[1..], sub, i - 1);
        }
      }
    }
  }

  /** A text that has `sub` at offset `i` contains it. */
  lemma ContainsAt(s: string, sub: string, i: nat)
    requires OccursAt(s, sub, i)
    ensures Contains(s, sub)
  {
    ContainsIff(s, sub);
  }

  /** The longest prefix of `s` in which `c` does not occur. */
  function RunUntil(s: string, c: char): (r: string)
    ensures IsPrefix(r, s) && c !in r
    ensures |r| < |s| ==> s[|r|] == c
    decreases |s|
  {
    if s == [] || s[0] == c then [] else [s[0]] + RunUntil(s[1..], c)
  }

  /** The run before `c` in a text that has `c` right after `a` is `a`. */
  lemma {:induction false} RunUntilStopsAt(a: string, c: char, b: string)
    requires c !in a
    ensures RunUntil(a + [c] + b, c) == a
    decreases |a|
  {
    if a != [] {
      RunUntilStopsAt(a[1..], c, b);
      assert (a + [c] + b)[1..] == a[1..] + [c] + b;
    }
  }

  /** `RunUntil` takes the whole of a text without `c`. */
  lemma {:induction false} RunUntilAll(s: string, c: char)
    requires c !in s
    ensures RunUntil(s, c) == s
    decreases |s|
  {
    if s != [] {
      RunUntilAll(s[1..], c);
    }
  }

  /** `strings.Split(s, string(sep))`: the pieces of `s` around every `sep`. */
  function Split(s: string, sep: char): (parts: seq<string>)
    ensures |parts| >= 1
    ensures forall k :: 0 <= k < |parts| ==> sep !in parts[k]
    decreases |s|
  {
    var head := RunUntil(s, sep);
    if |head| == |s| then [s] else [head] + Split(s[|head| + 1..], sep)
  }

  /** `strings.Join(parts, sep)`. */
  function Join(parts: seq<string>, sep: string): string
  {
    if |parts| == 0 then ""
    else if |parts| == 1 then parts[0]
    else parts[0] + sep + Join(parts[1..], sep)
  }

  /** The first piece of a split is the text before the first separator. */
  lemma FirstPiece(s: string, sep: char)
    ensures Split(s, sep)[0] == RunUntil(s, sep)
    ensures IsPrefix(Split(s, sep)[0], s) && sep !in Split(s, sep)[0]
    ensures |Split(s, sep)[0]| < |s| ==> s[|Split(s, sep)[0]|] == sep
  {
  }

  /** Joining the pieces of a split with the separator gives the text back. */
  lemma {:induction false} JoinSplit(s: string, sep: char)
    ensures Join(Split(s, sep), [sep]) == s
    decreases |s|
  {
    var head := RunUntil(s, sep);
    if |head| < |s| {
      var rest := s[|head| + 1..];
      JoinSplit(rest, sep);
      var tail := Split(rest, sep);
      assert Split(s, sep) == [head] + tail;
      assert ([head] + tail)[1..] == tail;
      assert s == head + [sep] + rest;
    }
  }

  /** Splitting pieces joined by a separator none of them holds gives the pieces back. */
  lemma {:induction false} SplitJoin(parts: seq<string>, sep: char)
    requires |parts| >= 1
    requires forall k :: 0 <= k < |parts| ==> sep !in parts[k]
    ensures Split(Join(parts, [sep]), sep) == parts
    decreases |parts|
  {
    if |parts| == 1 {
      RunUntilAll(parts[0], sep);
    } else {
      var rest := Join(parts[1..], [sep]);
      SplitJoin(parts[1..], sep);
      RunUntilStopsAt(parts[0], sep, rest);
      var s := parts[0] + [sep] + rest;
      assert Join(parts, [sep]) == s;
      assert s[|parts[0]| + 1..] == rest;
      assert parts == [parts[0]] + parts[1..];
    }
  }

  /** `strings.TrimLeft(s, string(c))`. */
  function TrimLeft(s: string, c: char): (r: string)
    ensures |r| <= |s| && r == s[|s| - |r|..]
    ensures forall k :: 0 <= k < |s| - |r| ==> s[k] == c
    ensures r == [] || r[0] != c
    decreases |s|
  {
    if |s| > 0 && s[0] == c then TrimLeft(s[1..], c) else s
  }

  /** `strings.TrimRight(s, string(c))`. */
  function TrimRight(s: string, c: char): (r: string)
    ensures |r| <= |s| && r == s[..|r|]
    ensures forall k :: |r| <= k < |s| ==> s[k] == c
    ensures r == [] || r[|r| - 1] != c
    decreases |s|
  {
    if |s| > 0 && s[|s| - 1] == c then TrimRight(s[..|s| - 1], c) else s
  }

  /** `strings.Trim(s, string(c))`: every leading and trailing `c` removed. */
  function Trim(s: string, c: char): (r: string)
    ensures |r| <= |s|
    ensures r == [] || (r[0] != c && r[|r| - 1] != c)
  {
    TrimRight(TrimLeft(s, c), c)
  }

  function Repeat(c: char, n: nat): (r: string)
    ensures |r| == n && forall k :: 0 <= k < n ==> r[k] == c
  {
    seq(n, _ => c)
  }

  /** `TrimLeft` skips any number of leading `c`. */
  lemma {:induction false} TrimLeftSkips(c: char, a: nat, t: string)
    ensures TrimLeft(Repeat(c, a) + t, c) == TrimLeft(t, c)
    decreases a
  {
    if a > 0 {
      assert (Repeat(c, a) + t)[0] == c;
      assert (Repeat(c, a) + t)[1..] == Repeat(c, a - 1) + t;
      TrimLeftSkips(c, a - 1, t);
    } else {
      assert Repeat(c, a) + t == t;
    }
  }

  /** `TrimRight` skips any number of trailing `c`. */
  lemma {:induction false} TrimRightSkips(c: char, t: string, b: nat)
    ensures TrimRight(t + Repeat(c, b), c) == TrimRight(t, c)
    decreases b
  {
    if b > 0 {
      assert (t + Repeat(c, b))[|t| + b - 1] == c;
      assert (t + Repeat(c, b))[..|t| + b - 1] == t + Repeat(c, b - 1);
      TrimRightSkips(c, t, b - 1);
    } else {
      assert t + Repeat(c, b) == t;
    }
  }

  /** Trimming a text wrapped in any number of `c` on either side gives back the text,
      when the text neither starts nor ends with `c`. */
  lemma TrimWrapped(m: string, c: char, a: nat, b: nat)
    requires m == [] || (m[0] != c && m[|m| - 1] != c)
    ensures Trim(Repeat(c, a) + m + Repeat(c, b), c) == m
  {
    assert Repeat(c, a) + m + Repeat(c, b) == Repeat(c, a) + (m + Repeat(c, b));
    TrimLeftSkips(c, a, m + Repeat(c, b));
    if m == [] {
      assert m + Repeat(c, b) == [] + Repeat(c, b);
      TrimLeftSkips(c, b, []);
    } else {
      TrimRightSkips(c, m, b);
    }
  }

  /** The trailing carriage return a line may end with is dropped (`dropCR`). */
  function DropCR(s: string): string
  {
    if |s| > 0 && s[|s| - 1] == '\r' then s[..|s| - 1] else s
  }

  /** The lines a `bufio.Scanner` with `bufio.ScanLines` yields for `body`: the pieces
      around each newline without a trailing carriage return; a final newline does not
      start an empty last line. */
  function Lines(body: string): (lines: seq<string>)
    ensures forall k :: 0 <= k < |lines| ==> '\n' !in lines[k]
    ensures body == [] <==> lines == []
    decreases |body|
  {
    if body == [] then []
    else
      var head := RunUntil(body, '\n');
      if |head| == |body| then [DropCR(body)]
      else [DropCR(head)] + Lines(body[|head| + 1..])
  }

  /** Lines, each followed by a newline. */
  function Unlines(lines: seq<string>): string
  {
    if lines == [] then "" else lines[0] + "\n" + Unlines(lines[1..])
  }

  /** Scanning the text of some lines yields those lines, when no line holds a newline
      or ends with a carriage return. */
  lemma {:induction false} LinesUnlines(lines: seq<string>)
    requires forall k :: 0 <= k < |lines| ==> '\n' !in lines[k]
    requires forall k :: 0 <= k < |lines| ==> lines[k] == [] || lines[k][|lines[k]| - 1] != '\r'
    ensures Lines(Unlines(lines)) == lines
    decreases |lines|
  {
    if lines != [] {
      var rest := Unlines(lines[1..]);
      var body := lines[0] + "\n" + rest;
      assert Unlines(lines) == body;
      RunUntilStopsAt(lines[0], '\n', rest);
      assert body[|lines[0]| + 1..] == rest;
      LinesUnlines(lines[1..]);
      assert lines == [lines[0]] + lines[1..];
    }
  }
}
