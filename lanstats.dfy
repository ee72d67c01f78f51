/** The `LANStats(...)` calls of the data line, as the two regular expressions of the
    adapters find them (`FindAllStringSubmatch`: leftmost matches, each search going on
    after the end of the previous match), and the five-field grammar's counters. */
module LanStats {
  import opened Errors
  import opened Text
  import opened Uint64
  import opened Metrics

  /** The start of a five-field call: `LANStats("`. */
  const FiveOpen := "LANStats(\""
  /** The start of a call of the variadic grammar: `LANStats(`. */
  const CallOpen := "LANStats("
  /** Between two quoted fields: `","`. */
  const FieldSep := "\",\""

  /** The fields of a five-field match: each a non-empty run without `"`. */
  predicate QuotedField(f: string) {
    f != [] && '"' !in f
  }

  /** `n` fields of `"([^"]+)","([^"]+)",...,"([^"]+)"` at the start of `s`, the
      opening quote already consumed: the fields and what follows the closing quote. */
  function QuotedFields(s: string, n: nat): (r: Option<(seq<string>, string)>)
    requires n >= 1
    ensures r.Some? ==> |r.value.0| == n && |r.value.1| < |s|
    ensures r.Some? ==> forall k :: 0 <= k < n ==> QuotedField(r.value.0[k])
    decreases n
  {
    var f := RunUntil(s, '"');
    if f == [] || |f| == |s| then None
    else if n == 1 then Some(([f], s[|f| + 1..]))
    else if IsPrefix(FieldSep, s[|f|..]) then
      match QuotedFields(s[|f| + |FieldSep|..], n - 1)
      case None => None
      case Some((fs, rest)) => Some(([f] + fs, rest))
    else None
  }

  /** The captures of one five-field match. */
  predicate FiveFields(fields: seq<string>) {
    |fields| == 5 && forall k :: 0 <= k < 5 ==> QuotedField(fields[k])
  }

  /** The regular expression `LANStats\("([^"]+)","([^"]+)","([^"]+)","([^"]+)","([^"]+)"`
      matched at the start of `s`: its five captures and the text after the match. */
  function FiveFieldAt(s: string): (r: Option<(seq<string>, string)>)
    ensures r.Some? ==> FiveFields(r.value.0) && |r.value.1| < |s|
    ensures r.Some? ==> s[0] == 'L'
  {
    if IsPrefix(FiveOpen, s) then QuotedFields(s[|FiveOpen|..], 5) else None
  }

  /** All matches of the five-field expression in `s`, leftmost first. */
  function FindFiveField(s: string): (calls: seq<seq<string>>)
    ensures forall k :: 0 <= k < |calls| ==> FiveFields(calls[k])
    decreases |s|
  {
    if s == [] then []
    else
      match FiveFieldAt(s)
      case Some((fields, rest)) => [fields] + FindFiveField(rest)
      case None => FindFiveField(s[1..])
  }

  /** The regular expression `LANStats\(([^\)]+)\)` matched at the start of `s`: the
      text between the parentheses and the text after the match. */
  function VariadicAt(s: string): (r: Option<(string, string)>)
    ensures r.Some? ==> r.value.0 != [] && ')' !in r.value.0 && |r.value.1| < |s|
    ensures r.Some? ==> s[0] == 'L'
  {
    if IsPrefix(CallOpen, s) then
      var inside := RunUntil(s[|CallOpen|..], ')');
      if inside == [] || |inside| == |s| - |CallOpen| then None
      else Some((inside, s[|CallOpen| + |inside| + 1..]))
    else None
  }

  /** All matches of the variadic expression in `s`, leftmost first: their captures. */
  function FindVariadic(s: string): (calls: seq<string>)
    ensures forall k :: 0 <= k < |calls| ==> calls[k] != [] && ')' !in calls[k]
    decreases |s|
  {
    if s == [] then []
    else
      match VariadicAt(s)
      case Some((inside, rest)) => [inside] + FindVariadic(rest)
      case None => FindVariadic(s[1..])
  }

  // ---------------------------------------------------------------------------------
  // Where calls are found

  /** Text without an `L` holds no match and is skipped. */
  lemma {:induction false} SkipPlainText(p: string, s: string)
    requires forall k :: 0 <= k < |p| ==> p[k] != 'L'
    ensures FindFiveField(p + s) == FindFiveField(s)
    ensures FindVariadic(p + s) == FindVariadic(s)
    decreases |p|
  {
    if p == [] {
      assert p + s == s;
    } else {
      assert (p + s)[0] == p[0];
      assert (p + s)[1..] == p[1..] + s;
      SkipPlainText(p[1..], s);
    }
  }

  /** A line without an `L` has no call of either grammar. */
  lemma NoCallsInPlainText(s: string)
    requires forall k :: 0 <= k < |s| ==> s[k] != 'L'
    ensures FindFiveField(s) == [] && FindVariadic(s) == []
  {
    SkipPlainText(s, []);
    assert s + [] == s;
  }

  /** Quoted fields as the page writes them: separated by `","`, closed by `"`. */
  function Quoted(fields: seq<string>): string
    requires |fields| >= 1
    decreases |fields|
  {
    if |fields| == 1 then fields[0] + "\"" else fields[0] + FieldSep + Quoted(fields[1..])
  }

  /** The last field: its closing quote ends the match. */
  lemma QuotedFieldLast(f: string, s: string)
    requires QuotedField(f)
    ensures QuotedFields(f + "\"" + s, 1) == Some(([f], s))
  {
    var t := f + "\"" + s;
    assert t == f + ['"'] + s;
    RunUntilStopsAt(f, '"', s);
    assert t[|f| + 1..] == s;
  }

  /** A field followed by `","`: the match goes on with the next field. */
  lemma QuotedFieldNext(f: string, more: string, n: nat)
    requires QuotedField(f) && n >= 2
    ensures QuotedFields(f + FieldSep + more, n) ==
      match QuotedFields(more, n - 1)
      case None => None
      case Some((fs, rest)) => Some(([f] + fs, rest))
  {
    var t := f + FieldSep + more;
    assert t == f + ['"'] + (",\"" + more);
    RunUntilStopsAt(f, '"', ",\"" + more);
    assert t[|f|..][..|FieldSep|] == FieldSep;
    assert t[|f| + |FieldSep|..] == more;
  }

  /** The fields as the page writes them are matched back, with what follows them. */
  lemma {:induction false} QuotedFieldsOf(fields: seq<string>, s: string)
    requires |fields| >= 1
    requires forall k :: 0 <= k < |fields| ==> QuotedField(fields[k])
    ensures QuotedFields(Quoted(fields) + s, |fields|) == Some((fields, s))
    decreases |fields|
  {
    if |fields| == 1 {
      assert fields == [fields[0]];
      QuotedFieldLast(fields[0], s);
    } else {
      assert fields == [fields[0]] + fields[1..];
      assert Quoted(fields) + s == fields[0] + FieldSep + (Quoted(fields[1..]) + s);
      QuotedFieldsOf(fields[1..], s);
      QuotedFieldNext(fields[0], Quoted(fields[1..]) + s, |fields|);
    }
  }

  /** The text of a five-field call up to the end of the match (the closing parenthesis
      is not part of it). */
  function FiveFieldCall(fields: seq<string>): string
    requires |fields| == 5
  {
    FiveOpen + Quoted(fields)
  }

  /** A five-field call at the start of a line is its first match, and the search goes on
      after it. */
  lemma FindFiveFieldCall(fields: seq<string>, s: string)
    requires FiveFields(fields)
    ensures FindFiveField(FiveFieldCall(fields) + s) == [fields] + FindFiveField(s)
  {
    var t := FiveFieldCall(fields) + s;
    assert t == FiveOpen + (Quoted(fields) + s);
    assert t[..|FiveOpen|] == FiveOpen;
    assert t[|FiveOpen|..] == Quoted(fields) + s;
    QuotedFieldsOf(fields, s);
  }

  /** A variadic call at the start of a line is its first match, and the search goes on
      after it. */
  lemma FindVariadicCall(inside: string, s: string)
    requires inside != [] && ')' !in inside
    ensures FindVariadic(CallOpen + inside + ")" + s) == [inside] + FindVariadic(s)
  {
    var t := CallOpen + inside + ")" + s;
    assert t[..|CallOpen|] == CallOpen;
    assert t[|CallOpen|..] == inside + [')'] + s;
    RunUntilStopsAt(inside, ')', s);
    assert t[|CallOpen| + |inside| + 1..] == s;
  }

  /** A match of quoted fields is the text it claims: the fields, quoted and separated as
      the page writes them, then what follows. */
  lemma {:induction false} QuotedBack(s: string, n: nat)
    requires n >= 1 && QuotedFields(s, n).Some?
    ensures s == Quoted(QuotedFields(s, n).value.0) + QuotedFields(s, n).value.1
    decreases n
  {
    var f := RunUntil(s, '"');
    var r := QuotedFields(s, n).value;
    assert f != [] && |f| < |s|;
    assert s[..|f|] == f && s[|f|] == '"';
    if n == 1 {
      assert r == ([f], s[|f| + 1..]);
      assert Quoted([f]) == f + "\"";
      assert s == s[..|f|] + [s[|f|]] + s[|f| + 1..];
    } else {
      var more := s[|f| + |FieldSep|..];
      var sub := QuotedFields(more, n - 1).value;
      assert r == ([f] + sub.0, sub.1);
      QuotedBack(more, n - 1);
      QuotedBackStep(s, f, sub.0, sub.1);
    }
  }

  /** One field and the `","` after it, in front of the quoted rest of the match. */
  lemma QuotedBackStep(s: string, f: string, fs: seq<string>, rest: string)
    requires |fs| >= 1
    requires |f| + |FieldSep| <= |s| && s[..|f|] == f && s[|f|..][..|FieldSep|] == FieldSep
    requires s[|f| + |FieldSep|..] == Quoted(fs) + rest
    ensures s == Quoted([f] + fs) + rest
  {
    assert ([f] + fs)[1..] == fs;
    var k := |f| + |FieldSep|;
    assert s[..k] == f + FieldSep;
    assert s == s[..k] + s[k..];
  }

  /** A five-field match is `LANStats("f1","f2","f3","f4","f5"` followed by the rest. */
  lemma FiveFieldBack(s: string)
    requires FiveFieldAt(s).Some?
    ensures s == FiveFieldCall(FiveFieldAt(s).value.0) + FiveFieldAt(s).value.1
  {
    var t := s[|FiveOpen|..];
    var r := FiveFieldAt(s).value;
    assert QuotedFields(t, 5) == Some(r);
    QuotedBack(t, 5);
    assert s == s[..|FiveOpen|] + t;
  }

  /** A variadic match is `LANStats(`, its capture and `)`, followed by the rest. */
  lemma VariadicBack(s: string)
    requires VariadicAt(s).Some?
    ensures s == CallOpen + VariadicAt(s).value.0 + ")" + VariadicAt(s).value.1
  {
    var inside := VariadicAt(s).value.0;
    var t := s[|CallOpen|..];
    assert t[..|inside|] == inside && t[|inside|] == ')';
    assert t == inside + ")" + t[|inside| + 1..];
    assert s == CallOpen + t;
  }

  /** Positions where no five-field match starts are passed over. */
  lemma {:induction false} SkipNoFiveField(s: string, i: nat)
    requires i <= |s|
    requires forall j :: 0 <= j < i ==> FiveFieldAt(s[j..]).None?
    ensures FindFiveField(s) == FindFiveField(s[i..])
    decreases i
  {
    if i > 0 {
      assert s[0..] == s;
      assert forall j :: 0 <= j < i - 1 ==> s[1..][j..] == s[j + 1..];
      SkipNoFiveField(s[1..], i - 1);
      assert s[1..][i - 1..] == s[i..];
    } else {
      assert s[0..] == s;
    }
  }

  /** The matches are leftmost and none is missed: a line has none exactly when no
      position starts one, and otherwise the first is the one at the leftmost position
      that starts one, the search going on after it. */
  lemma {:induction false} FindFiveFieldLeftmost(s: string)
    ensures FindFiveField(s) == [] <==> forall i :: 0 <= i < |s| ==> FiveFieldAt(s[i..]).None?
    ensures forall i :: 0 <= i < |s| && FiveFieldAt(s[i..]).Some?
                        && (forall j :: 0 <= j < i ==> FiveFieldAt(s[j..]).None?) ==>
      FindFiveField(s) == [FiveFieldAt(s[i..]).value.0] + FindFiveField(FiveFieldAt(s[i..]).value.1)
    decreases |s|
  {
    forall i | 0 <= i < |s| && FiveFieldAt(s[i..]).Some? && (forall j :: 0 <= j < i ==> FiveFieldAt(s[j..]).None?)
      ensures FindFiveField(s) == [FiveFieldAt(s[i..]).value.0] + FindFiveField(FiveFieldAt(s[i..]).value.1)
    {
      SkipNoFiveField(s, i);
    }
    if s != [] {
      assert s[0..] == s;
      if FiveFieldAt(s).None? {
        FindFiveFieldLeftmost(s[1..]);
        assert forall i :: 1 <= i < |s| ==> s[1..][i - 1..] == s[i..];
      }
    }
  }

  /** Positions where no variadic match starts are passed over. */
  lemma {:induction false} SkipNoVariadic(s: string, i: nat)
    requires i <= |s|
    requires forall j :: 0 <= j < i ==> VariadicAt(s[j..]).None?
    ensures FindVariadic(s) == FindVariadic(s[i..])
    decreases i
  {
    if i > 0 {
      assert s[0..] == s;
      assert forall j :: 0 <= j < i - 1 ==> s[1..][j..] == s[j + 1..];
      SkipNoVariadic(s[1..], i - 1);
      assert s[1..][i - 1..] == s[i..];
    } else {
      assert s[0..] == s;
    }
  }

  /** The variadic matches are leftmost and none is missed, as for the five-field
      grammar. */
  lemma {:induction false} FindVariadicLeftmost(s: string)
    ensures FindVariadic(s) == [] <==> forall i :: 0 <= i < |s| ==> VariadicAt(s[i..]).None?
    ensures forall i :: 0 <= i < |s| && VariadicAt(s[i..]).Some?
                        && (forall j :: 0 <= j < i ==> VariadicAt(s[j..]).None?) ==>
      FindVariadic(s) == [VariadicAt(s[i..]).value.0] + FindVariadic(VariadicAt(s[i..]).value.1)
    decreases |s|
  {
    forall i | 0 <= i < |s| && VariadicAt(s[i..]).Some? && (forall j :: 0 <= j < i ==> VariadicAt(s[j..]).None?)
      ensures FindVariadic(s) == [VariadicAt(s[i..]).value.0] + FindVariadic(VariadicAt(s[i..]).value.1)
    {
      SkipNoVariadic(s, i);
    }
    if s != [] {
      assert s[0..] == s;
      if VariadicAt(s).None? {
        FindVariadicLeftmost(s[1..]);
        assert forall i :: 1 <= i < |s| ==> s[1..][i - 1..] == s[i..];
      }
    }
  }

  // ---------------------------------------------------------------------------------
  // The five-field grammar (eg8141A5 and huawei.go)

  /** `Must(strconv.ParseUint(f, 10, 64))`: a field that is not a decimal `uint64` panics. */
  function FieldValue(f: string): (r: Result<U64>)
    ensures r.Ok? <==> ParseUint(f).Some?
    ensures r.Ok? ==> Some(r.value) == ParseUint(f)
    ensures r.Err? ==> r.error == Panicked(MustFailed)
  {
    match ParseUint(f)
    case None => Err(Panicked(MustFailed))
    case Some(v) => Ok(v)
  }

  /** The counters one five-field call adds: fields 2, 3, 4 and 5 are the sent packets,
      the sent bytes, the received packets and the received bytes; field 1 is ignored. */
  function FiveFieldCounters(fields: seq<string>): Result<Stat>
    requires |fields| == 5
  {
    var txPackets :- FieldValue(fields[1]);
    var txBytes :- FieldValue(fields[2]);
    var rxPackets :- FieldValue(fields[3]);
    var rxBytes :- FieldValue(fields[4]);
    Ok(Stat(txBytes, txPackets, rxBytes, rxPackets, []))
  }

  /** The counters of every five-field call of a line. */
  function FiveFieldParts(calls: seq<seq<string>>): (parts: seq<Result<Stat>>)
    requires forall k :: 0 <= k < |calls| ==> |calls[k]| == 5
    ensures |parts| == |calls|
    ensures forall k :: 0 <= k < |calls| ==> parts[k] == FiveFieldCounters(calls[k])
  {
    seq(|calls|, k requires 0 <= k < |calls| => FiveFieldCounters(calls[k]))
  }

  /** The counters of a data line in the five-field grammar: the total over its calls. */
  function ParseFiveField(line: string): Result<Stat>
  {
    Total(FiveFieldParts(FindFiveField(line)))
  }

  /** The loop of the five-field `Stat` over the matches of the data line. */
  method SumFiveField(line: string) returns (r: Result<Stat>)
    ensures r == ParseFiveField(line)
  {
    var matches := FindFiveField(line);
    ghost var parts := FiveFieldParts(matches);
    var stat := Zero;
    var i := 0;
    while i < |matches|
      invariant 0 <= i <= |matches|
      invariant Total(parts[..i]) == Ok(stat)
    {
      var next := AddFiveField(stat, matches[i]);
      if next.Err? {
        TotalStopsAt(parts, i);
        return Err(next.error);
      }
      TotalExtend(parts, i, stat);
      stat := next.value;
      i := i + 1;
    }
    assert parts[..|matches|] == parts;
    return Ok(stat);
  }

  /** The body of that loop for one match: each field parsed with `Must` and added, in
      the order of the source's statements. */
  method AddFiveField(stat: Stat, fields: seq<string>) returns (r: Result<Stat>)
    requires |fields| == 5
    ensures FiveFieldCounters(fields).Err? ==> r == FiveFieldCounters(fields)
    ensures FiveFieldCounters(fields).Ok? ==> r == Ok(Plus(stat, FiveFieldCounters(fields).value))
  {
    var acc := stat;
    var txPackets := FieldValue(fields[1]);
    if txPackets.Err? {
      return Err(txPackets.error);
    }
    acc := acc.(txPackets := Add(acc.txPackets, txPackets.value));
    var txBytes := FieldValue(fields[2]);
    if txBytes.Err? {
      return Err(txBytes.error);
    }
    acc := acc.(txBytes := Add(acc.txBytes, txBytes.value));
    var rxPackets := FieldValue(fields[3]);
    if rxPackets.Err? {
      return Err(rxPackets.error);
    }
    acc := acc.(rxPackets := Add(acc.rxPackets, rxPackets.value));
    var rxBytes := FieldValue(fields[4]);
    if rxBytes.Err? {
      return Err(rxBytes.error);
    }
    acc := acc.(rxBytes := Add(acc.rxBytes, rxBytes.value));
    return Ok(acc);
  }

  /** A call's counters are its fields 2 to 5 when they are decimal `uint64` values, and
      a `Must` panic otherwise. */
  lemma FiveFieldCountersMeaning(fields: seq<string>)
    requires |fields| == 5
    ensures FiveFieldCounters(fields).Ok? <==> forall k :: 1 <= k < 5 ==> ParseUint(fields[k]).Some?
    ensures FiveFieldCounters(fields).Ok? ==>
      var st := FiveFieldCounters(fields).value;
      Some(st.txPackets) == ParseUint(fields[1]) && Some(st.txBytes) == ParseUint(fields[2])
      && Some(st.rxPackets) == ParseUint(fields[3]) && Some(st.rxBytes) == ParseUint(fields[4])
    ensures FiveFieldCounters(fields).Err? ==> FiveFieldCounters(fields).error == Panicked(MustFailed)
  {
  }

  /** The counters of a data line fail only with a panic. */
  lemma ParseFiveFieldErrors(line: string)
    ensures ParseFiveField(line).Err? ==> ParseFiveField(line).error == Panicked(MustFailed)
  {
    var calls := FindFiveField(line);
    var parts := FiveFieldParts(calls);
    TotalFirstError(parts);
    if Total(parts).Err? {
      var k :| 0 <= k < |parts| && parts[k] == Total(parts) && forall j :: 0 <= j < k ==> parts[j].Ok?;
      FiveFieldCountersMeaning(calls[k]);
    }
  }

  /** When every counter field of every call is a decimal `uint64`, each counter of a
      data line is the sum of that counter over its calls, modulo 2^64; a line without a
      call counts zero. */
  lemma ParseFiveFieldSum(line: string)
    requires forall k, j :: 0 <= k < |FindFiveField(line)| && 1 <= j < 5 ==>
      ParseUint(FindFiveField(line)[k][j]).Some?
    ensures ParseFiveField(line).Ok?
    ensures forall c ::
      CounterOf(ParseFiveField(line).value, c) == SumOf(FiveFieldParts(FindFiveField(line)), c) % MODULUS
    ensures FindFiveField(line) == [] ==> ParseFiveField(line) == Ok(Zero)
  {
    var calls := FindFiveField(line);
    var parts := FiveFieldParts(calls);
    forall k | 0 <= k < |parts|
      ensures parts[k].Ok?
    {
      FiveFieldCountersMeaning(calls[k]);
    }
    TotalIsSumModulo(parts);
  }

  /** The example of a page with one interface:
      `var userEthInfos = [LANStats("0","10","2000","20","4000")];`. */
  lemma FiveFieldExample()
    ensures ParseFiveField("var userEthInfos = [" + FiveFieldCall(["0", "10", "2000", "20", "4000"]) + ")];")
         == Ok(Stat(2000, 10, 4000, 20, []))
  {
    var fields := ["0", "10", "2000", "20", "4000"];
    ExampleCall(fields);
    ExampleCounters(fields);
    var calls := FindFiveField("var userEthInfos = [" + FiveFieldCall(fields) + ")];");
    var parts := FiveFieldParts(calls);
    assert parts == [Ok(Stat(2000, 10, 4000, 20, []))];
    assert parts[..0] == [];
    assert Total(parts[..0]) == Ok(Zero);
    assert Plus(Zero, Stat(2000, 10, 4000, 20, [])) == Stat(2000, 10, 4000, 20, []);
    assert Total(parts) == Ok(Stat(2000, 10, 4000, 20, []));
  }

  /** A single five-field call between two texts without an `L` is the only match. */
  lemma OnlyCall(before: string, fields: seq<string>, after: string)
    requires forall k :: 0 <= k < |before| ==> before[k] != 'L'
    requires forall k :: 0 <= k < |after| ==> after[k] != 'L'
    requires FiveFields(fields)
    ensures FindFiveField(before + FiveFieldCall(fields) + after) == [fields]
  {
    SkipPlainText(before, FiveFieldCall(fields) + after);
    assert before + FiveFieldCall(fields) + after == before + (FiveFieldCall(fields) + after);
    FindFiveFieldCall(fields, after);
    NoCallsInPlainText(after);
  }

  lemma ExampleCall(fields: seq<string>)
    requires fields == ["0", "10", "2000", "20", "4000"]
    ensures FindFiveField("var userEthInfos = [" + FiveFieldCall(fields) + ")];") == [fields]
  {
    OnlyCall("var userEthInfos = [", fields, ")];");
  }

  lemma ExampleCounters(fields: seq<string>)
    requires fields == ["0", "10", "2000", "20", "4000"]
    ensures FiveFieldCounters(fields) == Ok(Stat(2000, 10, 4000, 20, []))
  {
    DigitsOf("10", "1", 1, 0);
    DigitsOf("20", "2", 2, 0);
    DigitsOf("200", "20", 20, 0);
    DigitsOf("2000", "200", 200, 0);
    DigitsOf("40", "4", 4, 0);
    DigitsOf("400", "40", 40, 0);
    DigitsOf("4000", "400", 400, 0);
    assert ParseUint("10") == Some(10);
    assert ParseUint("2000") == Some(2000);
    assert ParseUint("20") == Some(20);
    assert ParseUint("4000") == Some(4000);
  }

  lemma DigitsOf(s: string, front: string, v: nat, d: nat)
    requires AllDigits(front) && DigitsValue(front) == v && d < 10
    requires s == front + [('0' as int + d) as char]
    ensures AllDigits(s) && DigitsValue(s) == v * 10 + d
  {
    assert s[..|s| - 1] == front;
  }
}
