# modemexporter adapters in Dafny

A model of the core of `modemexporter`, a Prometheus exporter for Huawei home modems.
An adapter logs in to the modem's web interface, reads the Ethernet statistics page
and turns the `LANStats(...)` calls on that page into four counters: bytes and
packets, sent and received. The model covers:

- the two `eg8141a5` adapters: `Eg8141A5` (modem/huawei/eg8141A5/modem.go) and
  `Eg8141A5v5` (modem/huawei/eg8141A5v5/modem.go). Each is a class with a `cookie`
  field whose methods `GetToken`, `Auth`, `ReadStat`, `ReadWithRetry` and `Stat` do
  what the Go methods do;
- the older adapter of huawei.go (`Huawei`), whose `Auth` returns the end of the
  session;
- the exporter's handler of modem.go (`Exporter.Server`). It has an `authExpire`
  field and logs in only once the session has ended;
- the registry of modem/fromenv.go (`Registry.Registry`). It maps vendor and model
  to a constructor, and picks one from the configured vendor and model.

The network is a scripted client (`Http.Client`). Every request takes the next reply
of its script and is appended to a log of sent requests. A reply is either a
transport failure or a response record: status, parsed cookies, first `Set-Cookie`
value and body. Each adapter method is proved equal to a pure "run" function. The
run function gives the method's result, the new cookie, the requests it sent and the
replies left over. The properties the adapters promise are lemmas about these run
functions:

- login before the stat page exactly when asked to or when there is no cookie;
- the cookie is left unchanged by a failed login;
- at most one retry, and only on the "need authentication" error;
- the first-match scan of the stat page;
- the sums of the counters.

The parsers are functions on strings. The loops of the source are methods proved
against those functions:

- the base64url encoding of the password, with its decoding as partner;
- the line splitting of `bufio.Scanner`;
- `strings.Split`, `strings.Trim` and `strconv.ParseUint`;
- the `return '...` token capture;
- the two `LANStats` grammars.

Go's `uint64` `+=` and `*` wrap modulo 2^64 (`Uint64.Add`, `Uint64.Mul`). A Go panic
(an index out of range, or `Must` on a parse error) is the error value
`Panicked(...)`. Error wrappers such as "can't get token" and "auth error" keep their
cause.

Three behaviours of the code worth noting:

- The v5 adapter's `readStat` answers a 403 with "need authentication" whenever it was
  called with `reAuth` false, even just after a login that an empty cookie forced; with
  `reAuth` true a 403 is a status error.
- The eg8141A5 adapter treats every status other than 200, 403 included, as a status
  error.
- The v5 factory at modem/huawei/eg8141A5v5/modem.go:37-47 does not fit the
  `RegisterCallback` type of modem/fromenv.go:10, so it is not part of this model.

## Model

| member | source | states |
|---|---|---|
| `Text.Lines` | modem/huawei/eg8141A5/modem.go:100-103 | the lines `bufio.Scanner` yields: none contains a newline, and an empty body has no line |
| `Text.LinesUnlines` | modem/huawei/eg8141A5/modem.go:160-162 | lines without a newline or a trailing CR, joined with newlines, scan back to the same lines |
| `Text.ContainsIff` | huawei.go:126 | `strings.Contains` holds exactly when the fragment occurs at some position |
| `Text.RunUntil` | modem/huawei/eg8141A5/modem.go:101 | the `[^x]+` run: a prefix without the stop character that ends at that character or at the end of the string |
| `Text.Split` | modem/huawei/eg8141A5v5/modem.go:119 | `strings.Split` on a character: at least one piece, and no piece holds the separator |
| `Text.FirstPiece` | modem/huawei/eg8141A5v5/modem.go:80 | `strings.Split(s, ";")[0]` is the longest prefix of `s` without `;` |
| `Text.JoinSplit` | modem/huawei/eg8141A5v5/modem.go:119 | joining the pieces of a split with the separator gives back the string |
| `Text.SplitJoin` | modem/huawei/eg8141A5v5/modem.go:119 | splitting the join of separator-free pieces gives back the pieces |
| `Text.TrimLeft` | modem/huawei/eg8141A5v5/modem.go:135 | removes exactly the leading run of the character: a suffix of the input that does not start with it |
| `Text.TrimRight` | modem/huawei/eg8141A5v5/modem.go:135 | removes exactly the trailing run of the character: a prefix of the input that does not end with it |
| `Text.Trim` | modem/huawei/eg8141A5v5/modem.go:135 | `strings.Trim(s, "\"")`: the result neither starts nor ends with the character |
| `Text.TrimWrapped` | modem/huawei/eg8141A5v5/modem.go:135 | any number of quotes on either side of a quote-free core trim to that core |
| `Uint64.Add` | modem/huawei/eg8141A5/modem.go:129-132 | the wrapping `uint64` `+=`: the exact sum below 2^64, and the sum less 2^64 above |
| `Uint64.Format` | modem/huawei/eg8141A5/modem.go:129 | a non-empty decimal numeral of `n` without a leading zero |
| `Uint64.ParseFormat` | modem/huawei/eg8141A5/modem.go:129 | `strconv.ParseUint` of the decimal numeral of any `uint64` gives it back |
| `Uint64.LeadingZero` | modem/huawei/eg8141A5v5/modem.go:135 | a leading zero changes neither the value nor whether `ParseUint` accepts the numeral |
| `Base64.Encode` | modem/huawei/eg8141A5/modem.go:61 | base64url with padding (section 5 of RFC 4648): `4*ceil(n/3)` characters, each of the alphabet or `=` |
| `Base64.DecodeEncode` | modem/huawei/eg8141A5/modem.go:61 | decoding the encoding of any byte string gives it back |
| `Base64.EncodeVectors` | modem/huawei/eg8141A5/modem.go:61 | the encodings of "f", "fo", "foo" and "foobar" from section 10 of RFC 4648, and bytes whose encoding holds `-` and `_`, the two URL-safe characters |
| `Base64.Octets` | huawei.go:34 | `[]byte(password)` has one byte per character |
| `Http.Client.Do` | huawei.go:65 | `client.Do`: the next reply of the script, or a transport failure once the script is used up; the request is logged |
| `Http.CountTo` | modem/huawei/eg8141A5/modem.go:145 | the number of requests sent to one URL is at most the number sent |
| `Http.CountAppend` | modem/huawei/eg8141A5/modem.go:145 | requests to a URL count additively over consecutive exchanges |
| `Http.CookiePairs` | modem/huawei/eg8141A5/modem.go:78-81 | one `Name=Value` pair per response cookie, in order |
| `Http.CookieHeaderShape` | modem/huawei/eg8141A5/modem.go:78-82 | the joined cookie is empty exactly when the response set no cookie; otherwise the first pair, then `"; "` and the rest |
| `Http.JoinCookies` | huawei.go:51-55 | the loop and `strings.Join` give the `"; "`-joined pairs |
| `Metrics.TotalFirstError` | modem/huawei/eg8141A5/modem.go:128-133 | the accumulation fails exactly when some call fails, and then with the first failure |
| `Metrics.TotalIsSumModulo` | modem/huawei/eg8141A5/modem.go:125-133 | without failures each counter is the exact sum over the calls modulo 2^64; zero calls give zero counters |
| `Pages.ScanStatOutcome` | modem/huawei/eg8141A5/modem.go:160-170 | the stat-page scan is "invalid body" exactly when no line has the redirect or the data marker, and otherwise decides on the first such line: the redirect first, then the line itself |
| `Pages.ScanStatFound` | modem/huawei/eg8141A5/modem.go:163-167 | a data line before any other stop line is returned, unless that line also holds the redirect |
| `Pages.FindStatLine` | modem/huawei/eg8141A5v5/modem.go:166-176 | the scanner loop of the stat page computes the scan |
| `Pages.ScanDataLine` | huawei.go:123-132 | the first line with the data marker, or "invalid body" exactly when no line has it |
| `Pages.FindDataLine` | huawei.go:123-132 | the scanner loop of huawei.go computes that scan |
| `Pages.TokenCapture` | modem/huawei/eg8141A5/modem.go:101 | a capture of `return '([^']+)` is non-empty and has no quote |
| `Pages.TokenCaptureLeftmost` | modem/huawei/eg8141A5/modem.go:107-110 | no capture exactly when the pattern matches nowhere; otherwise the run after the leftmost match |
| `Pages.TokenCaptureOf` | modem/huawei/eg8141A5/modem.go:107-110 | text without `r`, then `return '`, the token and a quote, captures exactly the token |
| `Pages.ScanTokenLines` | modem/huawei/eg8141A5/modem.go:100-112 | the token of the first line with the token function and a match; lines with the function but no match are skipped; "invalid body" exactly when no line qualifies |
| `Pages.FindToken` | huawei.go:74-86 | the scanner loop of `getToken` computes that scan |
| `Pages.TokenExample` | modem/huawei/eg8141A5/modem.go:100-112 | `function GetRandCnt(){ return 'abcd1234'; }` gives `abcd1234` |
| `LanStats.QuotedFields` | modem/huawei/eg8141A5/modem.go:126 | `n` fields, each non-empty and quote-free, and the text after them |
| `LanStats.QuotedFieldsOf` | modem/huawei/eg8141A5/modem.go:126 | quoted fields separated by `","` parse back to the same fields |
| `LanStats.QuotedBack` | modem/huawei/eg8141A5/modem.go:126 | a match of quoted fields is exactly those fields, quoted and separated by `","`, followed by the rest |
| `LanStats.FiveFieldAt` | modem/huawei/eg8141A5/modem.go:126 | a match of the five-field pattern starts at `L` and has five non-empty quote-free fields |
| `LanStats.FiveFieldBack` | modem/huawei/eg8141A5/modem.go:126 | a five-field match is exactly `LANStats("f1","f2","f3","f4","f5"` followed by the rest |
| `LanStats.FindFiveField` | modem/huawei/eg8141A5/modem.go:127 | `FindAllStringSubmatch`: every match has five well-formed fields |
| `LanStats.FindFiveFieldLeftmost` | modem/huawei/eg8141A5/modem.go:127 | no match exactly when no position starts one; otherwise the first match is the one at the leftmost position that starts one, and the search resumes after it |
| `LanStats.FindFiveFieldCall` | modem/huawei/eg8141A5/modem.go:127 | a five-field call is found, then the matches of the text after it |
| `LanStats.SkipPlainText` | modem/huawei/eg8141A5v5/modem.go:117 | text without an `L` adds no match in either grammar |
| `LanStats.OnlyCall` | huawei.go:96-97 | one call between texts without an `L` is the only match |
| `LanStats.VariadicAt` | modem/huawei/eg8141A5v5/modem.go:116 | a match of `LANStats\(([^\)]+)\)` starts at `L` and captures a non-empty text without `)` |
| `LanStats.VariadicBack` | modem/huawei/eg8141A5v5/modem.go:116 | a variadic match is exactly `LANStats(`, its capture and `)`, followed by the rest |
| `LanStats.FindVariadic` | modem/huawei/eg8141A5v5/modem.go:117 | every capture is non-empty and has no `)` |
| `LanStats.FindVariadicLeftmost` | modem/huawei/eg8141A5v5/modem.go:117 | no match exactly when no position starts one; otherwise the first capture is the one at the leftmost position that starts a match, and the search resumes after it |
| `LanStats.FindVariadicCall` | modem/huawei/eg8141A5v5/modem.go:116-117 | a call is captured, then the matches after it |
| `LanStats.FieldValue` | modem/huawei/eg8141A5/modem.go:129 | `Must(strconv.ParseUint(f, 10, 64))`: the value when `f` is a decimal `uint64`, a panic otherwise |
| `LanStats.FiveFieldParts` | modem/huawei/eg8141A5/modem.go:128-133 | the counters of each match, in order |
| `LanStats.FiveFieldCountersMeaning` | modem/huawei/eg8141A5/modem.go:129-132 | fields 2, 3, 4 and 5 are sent packets, sent bytes, received packets and received bytes; field 1 is ignored; a bad field panics |
| `LanStats.ParseFiveFieldErrors` | huawei.go:98-103 | the five-field counters fail only with a `Must` panic |
| `LanStats.ParseFiveFieldSum` | huawei.go:95-104 | without a bad field each counter is the sum over all matches modulo 2^64; no match gives zero counters |
| `LanStats.SumFiveField` | huawei.go:95-104 | the accumulation loop computes the five-field counters |
| `LanStats.AddFiveField` | modem/huawei/eg8141A5/modem.go:129-132 | one loop body: the four parsed fields added to the counters, or the first panic |
| `LanStats.FiveFieldExample` | modem/huawei/eg8141A5/modem.go:125-134 | `LANStats("0","10","2000","20","4000")` counts 10 sent packets, 2000 sent bytes, 20 received packets and 4000 received bytes |
| `Eg8141A5.TokenOfStatus` | modem/huawei/eg8141A5/modem.go:91-98 | a transport failure or a status other than 200 is an error before any line is read; a token is non-empty and quote-free |
| `Eg8141A5.TokenOfScan` | modem/huawei/eg8141A5/modem.go:100-112 | on a 200 reply the token comes from the first qualifying line, and "invalid body" exactly when none qualifies |
| `Eg8141A5.LoginFormFields` | modem/huawei/eg8141A5/modem.go:59-62 | the form has exactly `UserName`, `PassWord` and `x.X_HW_Token`, and the password field decodes to the password's bytes |
| `Eg8141A5.AuthCookie` | modem/huawei/eg8141A5/modem.go:53-84 | a failed token fetch or login leaves the cookie unchanged; success needs a 200 login reply and sets the cookie to its joined pairs; the token request comes first, and the login request is sent only after a token was read |
| `Eg8141A5.StatPageOutcome` | modem/huawei/eg8141A5/modem.go:150-170 | a transport failure or any status other than 200, 403 included, is an error; "need authentication" only from the redirect on the first stop line of a 200 page |
| `Eg8141A5.AuthSendsNoStatRequest` | modem/huawei/eg8141A5/modem.go:53-84 | a login never requests the stat page |
| `Eg8141A5.ReadStatAuth` | modem/huawei/eg8141A5/modem.go:137-149 | `readStat` logs in first exactly when `reAuth` or the cookie is empty; otherwise it sends only the stat request with the current cookie; a failed login is returned wrapped before any stat request, with the cookie unchanged |
| `Eg8141A5.NoCookieForcesLogin` | modem/huawei/eg8141A5/modem.go:78-82 | a 200 login without cookies leaves the cookie empty, so the next `readStat` logs in again |
| `Eg8141A5.ReadStatCount` | modem/huawei/eg8141A5/modem.go:137-150 | `readStat` requests the stat page once, or not at all when its login failed |
| `Eg8141A5.RetryCount` | modem/huawei/eg8141A5/modem.go:117-121 | the reads of `Stat` request the stat page at most twice |
| `Eg8141A5.RetryStartsWithLogin` | modem/huawei/eg8141A5/modem.go:117-121 | after a first "need authentication" the next request is a fresh login |
| `Eg8141A5.StatRetriesOnce` | modem/huawei/eg8141A5/modem.go:116-124 | `Stat` retries once at most, only after "need authentication", with a new login first; any other first outcome is all it sends; "need authentication" is returned only when the first read also gave it |
| `Eg8141A5.Modem.GetToken` | modem/huawei/eg8141A5/modem.go:86-113 | `getToken` does what the token run describes: one request, the cookie unchanged |
| `Eg8141A5.Modem.Auth` | modem/huawei/eg8141A5/modem.go:53-84 | `auth` does what the login run describes |
| `Eg8141A5.Modem.ReadStat` | modem/huawei/eg8141A5/modem.go:137-171 | `readStat(reAuth)` does what the read run describes |
| `Eg8141A5.Modem.ReadWithRetry` | modem/huawei/eg8141A5/modem.go:117-124 | the two reads of `Stat` do what the retry run describes |
| `Eg8141A5.Modem.Stat` | modem/huawei/eg8141A5/modem.go:116-135 | `Stat` does what the stat run describes: the reads, then the five-field counters |
| `Eg8141A5v5.ParseIntArg` | modem/huawei/eg8141A5v5/modem.go:134-137 | `parseIntArgs`: the argument without its surrounding quotes parsed as a decimal `uint64`, or a `Must` panic |
| `Eg8141A5v5.ParseIntArgQuoted` | modem/huawei/eg8141A5v5/modem.go:134-137 | any number of quotes around the numeral of `n` parse to `n` |
| `Eg8141A5v5.Parsed` | modem/huawei/eg8141A5v5/modem.go:129-130 | each argument parsed, in order |
| `Eg8141A5v5.ArgAt` | modem/huawei/eg8141A5v5/modem.go:129-130 | an index past the arguments panics; otherwise the parsed argument |
| `Eg8141A5v5.CalculateArgs` | modem/huawei/eg8141A5v5/modem.go:128-132 | `high*2^32 + low` wrapped to 64 bits when both arguments exist and parse; a missing high argument is an index panic; a present but unparsable one is a `Must` panic |
| `Eg8141A5v5.WrapCombine` | modem/huawei/eg8141A5v5/modem.go:131 | the wrapping `high*4294967296 + low` is the exact value modulo 2^64 |
| `Eg8141A5v5.CombineExact` | modem/huawei/eg8141A5v5/modem.go:131 | with both halves below 2^32 the value is exact, and its halves are the high and low parts |
| `Eg8141A5v5.CountersOf` | modem/huawei/eg8141A5v5/modem.go:120-123 | the counters of one call fail only with a panic |
| `Eg8141A5v5.CountersOk` | modem/huawei/eg8141A5v5/modem.go:119-123 | a call counts exactly when it has at least 13 arguments and the twelve it reads parse |
| `Eg8141A5v5.CountersValues` | modem/huawei/eg8141A5v5/modem.go:120-123 | sent packets from arguments 2/1; sent bytes from 4/3 plus 6/5; received packets from 8/7; received bytes from 10/9 plus 12/11 |
| `Eg8141A5v5.ShortCallPanics` | modem/huawei/eg8141A5v5/modem.go:119-123 | a call with fewer than 13 arguments that all parse panics on the index; 13 or more never do |
| `Eg8141A5v5.VariadicParts` | modem/huawei/eg8141A5v5/modem.go:118-124 | the counters of each capture, in order |
| `Eg8141A5v5.ParseVariadic` | modem/huawei/eg8141A5v5/modem.go:115-125 | the counters of a data line fail only with a panic |
| `Eg8141A5v5.ParseVariadicSum` | modem/huawei/eg8141A5v5/modem.go:115-125 | no call gives zero counters; when every call counts, each counter is the sum over the calls modulo 2^64 |
| `Eg8141A5v5.SumCalls` | modem/huawei/eg8141A5v5/modem.go:115-125 | the accumulation loop computes those counters |
| `Eg8141A5v5.Accumulate` | modem/huawei/eg8141A5v5/modem.go:119-123 | one loop body: the call's counters added, or its panic |
| `Eg8141A5v5.TokenOf` | modem/huawei/eg8141A5v5/modem.go:90-102 | a token exactly for a 200 reply of at least 3 bytes: the body without its first 3 bytes; a shorter body panics; another status is a status error |
| `Eg8141A5v5.LoginFormFields` | modem/huawei/eg8141A5v5/modem.go:60-64 | the form has exactly `UserName`, `PassWord`, `Language` = `english` and `x.X_HW_Token`; the password decodes back |
| `Eg8141A5v5.SessionCookie` | modem/huawei/eg8141A5v5/modem.go:80 | the cookie is the longest `;`-free prefix of the `Set-Cookie` value |
| `Eg8141A5v5.AuthCookie` | modem/huawei/eg8141A5v5/modem.go:54-82 | a failed token fetch or login leaves the cookie unchanged; success needs a 200 login reply and keeps the first segment of its `Set-Cookie`; the login request is sent only after a token was read |
| `Eg8141A5v5.StatPageOf` | modem/huawei/eg8141A5v5/modem.go:152-176 | a 403 is "need authentication" without `reAuth` and a status error with it; other non-200 statuses are status errors; a 200 page is scanned |
| `Eg8141A5v5.ReadStatAuth` | modem/huawei/eg8141A5v5/modem.go:139-151 | `readStat` logs in first exactly when `reAuth` or the cookie is empty; a failed login is returned before any stat request, with the cookie unchanged |
| `Eg8141A5v5.ReadStatCount` | modem/huawei/eg8141A5v5/modem.go:139-152 | `readStat` requests the stat page once, or not at all when its login failed |
| `Eg8141A5v5.AuthSendsNoStatRequest` | modem/huawei/eg8141A5v5/modem.go:54-82 | a login never requests the stat page |
| `Eg8141A5v5.RetryCount` | modem/huawei/eg8141A5v5/modem.go:107-111 | the reads of `Stat` request the stat page at most twice |
| `Eg8141A5v5.RetryStartsWithLogin` | modem/huawei/eg8141A5v5/modem.go:107-111 | after a first "need authentication" the next request is a fresh login |
| `Eg8141A5v5.StatRetriesOnce` | modem/huawei/eg8141A5v5/modem.go:106-114 | `Stat` retries once at most, only after "need authentication", with a new login first; "need authentication" is returned only when the first read also gave it |
| `Eg8141A5v5.Modem.GetToken` | modem/huawei/eg8141A5v5/modem.go:84-103 | `getToken` does what the token run describes |
| `Eg8141A5v5.Modem.Auth` | modem/huawei/eg8141A5v5/modem.go:54-82 | `auth` does what the login run describes |
| `Eg8141A5v5.Modem.ReadStat` | modem/huawei/eg8141A5v5/modem.go:139-177 | `readStat(reAuth)` does what the read run describes |
| `Eg8141A5v5.Modem.ReadWithRetry` | modem/huawei/eg8141A5v5/modem.go:107-114 | the two reads of `Stat` do what the retry run describes |
| `Eg8141A5v5.Modem.Stat` | modem/huawei/eg8141A5v5/modem.go:106-126 | `Stat` does what the stat run describes: the reads, then the variadic counters |
| `Huawei.AuthExpiry` | huawei.go:26-58 | a login succeeds exactly when a token was read and the login reply is 200; the session then ends one minute after `now` and the cookie is the joined pairs; a failure leaves the cookie unchanged |
| `Huawei.ReadStatNoAuth` | huawei.go:107-133 | `readStat` sends only the stat request with the current cookie and never gives "need authentication"; a 200 page gives its first data line, or "invalid body" exactly when there is none; other statuses are status errors |
| `Huawei.StatNoRetry` | huawei.go:90-105 | `Stat` sends exactly one request; an error of `readStat` is returned unchanged; the counters fail only with a panic; no login error can arise |
| `Huawei.Huawei.GetToken` | huawei.go:60-87 | `getToken` does what the token run of the eg8141A5 adapter describes |
| `Huawei.Huawei.Auth` | huawei.go:26-58 | `Auth` does what the login run describes, with the session end |
| `Huawei.Huawei.ReadStat` | huawei.go:107-133 | `readStat` does what the read run describes, leaving the cookie alone |
| `Huawei.Huawei.Stat` | huawei.go:90-105 | `Stat` does what the stat run describes |
| `Exporter.GateLogsInWhenExpired` | modem.go:62-75 | `auth` calls the modem's `Auth` exactly when `now` is after `authExpire`; its error is returned with `authExpire` unchanged; on success `authExpire` is the returned end; otherwise nothing is sent and nothing changes |
| `Exporter.GateKeepsExpiryOnError` | modem.go:67-71 | `authExpire` changes only on a successful login, and then moves past `now` |
| `Exporter.FirstRequestLogsIn` | modem.go:27 | the zero `authExpire` of a new server makes the first request log in |
| `Exporter.SessionLastsAMinute` | modem.go:66 | within a minute of a successful login no further login is made |
| `Exporter.StatusOf` | modem.go:38-48 | counters are answered with 200 and errors with 500 |
| `Exporter.AuthBeforeStat` | modem.go:37-48 | the stat page is requested once, last, and only after `auth` succeeded; a failed `auth` requests nothing more and answers 500; counters imply a successful `auth` |
| `Exporter.Server.constructor` | modem.go:23-29 | a new server has the zero `authExpire` |
| `Exporter.Server.Auth` | modem.go:62-75 | `auth` does what the gate run describes |
| `Exporter.Server.ServeHTTP` | modem.go:34-48 | `ServeHTTP` does what the served run describes |
| `Registry.Lookup` | modem/fromenv.go:21-33 | `FromEnv`: "vendor not found" exactly when the vendor is absent; "model not found", naming both, exactly when the vendor is present without the model; otherwise the constructor applied to the URL, user and password |
| `Registry.RegisterFrames` | modem/fromenv.go:12-19 | `Register` adds the vendor with an empty inner map when it is new; other vendors and other models of the vendor are unchanged; the model maps to the new constructor |
| `Registry.RegisterThenLookup` | modem/fromenv.go:18 | after `Register(info, cb)` the lookup of `info`'s vendor and model gives `cb` applied to the configuration |
| `Registry.RegisterKeepsOthers` | modem/fromenv.go:13-18 | every other pair finds what it found before, except that a new vendor's other models become "model not found" |
| `Registry.RegisterOverwrites` | modem/fromenv.go:18 | registering the same pair twice keeps only the last constructor |
| `Registry.Registry.Register` | modem/fromenv.go:12-19 | the nested insert in place |
| `Registry.Registry.FromEnv` | modem/fromenv.go:21-33 | the lookup with early returns computes `Lookup` |

## Left out

- HTTP transport is not modelled: request construction, headers beyond the cookie and
  content type, `context` cancellation and closing bodies. A request that cannot be
  built and a transport error are both `TransportFailed`.
- Errors reading a response body are not modelled. That includes the `io.ReadAll`
  failure at modem/huawei/eg8141A5v5/modem.go:98-101; the model reads the whole body.
- `bufio.Scanner`'s 64 KB line limit is not modelled: lines have no length limit.
  The scanner's CR stripping is modelled.
- `url.Values.Encode` is not modelled; the form is a map of fields.
- The `sync.Mutex` of `Server` is not modelled: `Server.Auth` is sequential.
- `time.Now` is a parameter. `Exporter.GateRun` uses one instant both for the
  expiry check (modem.go:66) and for the expiry the adapter computes (huawei.go:56).
- The metric text of `ServeHTTP` (modem.go:50-59, modem/modem.go:58-67) is not
  rendered. The model returns the counters or the error, and Go's map iteration
  order is not modelled.
- The `ServeHTTP` of modem/modem.go:36-68 (with `Info`) and main.go are not part of
  this model. The `Info` records are the constants `ModemInfo`.
- The v5 registration and factory (modem/huawei/eg8141A5v5/modem.go:37-47) use a
  constructor type the shown registry does not have. The registry is modelled
  generically instead, and no adapter registers itself in it.
- Log output (`fmt.Println`) and error message texts are not modelled; only the
  error kinds and their wrapping are.
- A `nil` callback passed to `Register` is not modelled. Dafny functions are never
  nil, so a registered model always constructs.
- Strings are byte strings: one character is one byte, and the base64 input is each
  character's code modulo 256. UTF-8 is not modelled.
- `Eg8141A5v5.Parsed`: arguments are parsed in one pass, while the source parses
  each one only when it is read. The outcome is the same because `CalculateArgs`
  checks the index and then the parse, high argument before low.
- `Metrics.Stat` has the `Extra` field of modem/modem.go:26. The adapters always
  leave it empty; the `Stat` of modem.go has no such field.
- `Exporter.Server` holds the huawei.go adapter, the only `Modem` of that package,
  rather than any implementation of the interface.
- A panic in the handler is `Exporter.Page.Aborted`: `net/http` drops the
  connection, so no status is written.
