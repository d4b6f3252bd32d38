/**
 * The gateway's access-log middleware: one log line per request, at a level
 * chosen by the status code, and an X-Response-Time header on every response
 * the handler produced. The two clock readings are parameters; the log is the
 * line the call returns.
 */
module AccessLog {
  import opened Wrappers
  import opened PyValues
  import Text
  import opened HttpExchange
  import RateLimit

  /** The same address rule as the rate limiter's, written out again as the code does. */
  function ClientIp(r: Request): (ip: string)
    ensures HeaderGiven(r, "X-Forwarded-For") ==> ',' !in ip
    ensures !HeaderGiven(r, "X-Forwarded-For") && HeaderGiven(r, "X-Real-IP") ==> ip == Header(r, "X-Real-IP").value
    ensures !HeaderGiven(r, "X-Forwarded-For") && !HeaderGiven(r, "X-Real-IP") ==> ip == r.client.GetOr("unknown")
  {
    if HeaderGiven(r, "X-Forwarded-For") then
      var hop := Text.BeforeFirst(Header(r, "X-Forwarded-For").value, ',');
      RateLimit.TrimKeepsAbsent(hop, ',');
      Text.Trim(hop, Text.Python)
    else if HeaderGiven(r, "X-Real-IP") then
      Header(r, "X-Real-IP").value
    else if r.client.Some? then
      r.client.value
    else
      "unknown"
  }

  /** Both middlewares attribute a request to the same client. */
  lemma SameClientAsRateLimit(r: Request)
    ensures ClientIp(r) == RateLimit.ClientIp(r)
  {
  }

  datatype Level = Info | Warning | Error

  /** Server errors are errors, client errors warnings, everything else information. */
  function LevelFor(status: int): (l: Level)
    ensures l == Error <==> 500 <= status
    ensures l == Warning <==> 400 <= status < 500
    ensures l == Info <==> status < 400
  {
    if status >= 500 then Error
    else if status >= 400 then Warning
    else Info
  }

  /** `round(x * 100)` with ties to even, as `format(x, ".2f")` rounds. */
  function Hundredths(x: real): (h: int)
    ensures -0.5 <= h as real - x * 100.0 <= 0.5
  {
    var scaled := x * 100.0;
    var down := scaled.Floor;
    var frac := scaled - down as real;
    if frac > 0.5 || (frac == 0.5 && down % 2 == 1) then down + 1 else down
  }

  /** Two decimal digits of `n < 100`. */
  function TwoDigits(n: nat): (r: string)
    requires n < 100
    ensures |r| == 2 && '0' <= r[0] <= '9' && '0' <= r[1] <= '9'
    ensures (r[0] - '0') as int * 10 + (r[1] - '0') as int == n
  {
    ['0' + (n / 10) as char, '0' + (n % 10) as char]
  }

  /**
   * `f"{x:.2f}"` for an exact `x`: a minus sign exactly for a negative `x`,
   * then the whole hundreds of the rounded magnitude in hundredths, a point,
   * and its last two digits.
   */
  function Fixed2(x: real): (r: string)
    ensures |r| >= 4 && r[|r| - 3] == '.'
    ensures '0' <= r[|r| - 2] <= '9' && '0' <= r[|r| - 1] <= '9'
    ensures r[0] == '-' <==> x < 0.0
    ensures var h := Hundredths(if x < 0.0 then -x else x);
      var sign := if x < 0.0 then 1 else 0;
      && 0 <= h
      && r[sign..|r| - 3] == Text.NatToString(h / 100)
      && r[|r| - 2..] == TwoDigits(h % 100)
  {
    var h := Hundredths(if x < 0.0 then -x else x);
    var magnitude := if h < 0 then 0 else h;
    var whole := Text.NatToString(magnitude / 100);
    var digits := whole + "." + TwoDigits(magnitude % 100);
    assert digits[0] == whole[0] && whole[0] in whole;
    if x < 0.0 then "-" + digits else digits
  }

  /**
   * Read back, the text of `Fixed2(x)` after its sign is `|x|` in hundredths,
   * rounded to within half a hundredth, and the sign is that of `x`.
   */
  lemma Fixed2ReadsBack(x: real)
    ensures var r := Fixed2(x);
      var sign := if x < 0.0 then 1 else 0;
      var magnitude := if x < 0.0 then -x else x;
      var value := Text.DigitsValue(r[sign..|r| - 3]) * 100 + Text.DigitsValue(r[|r| - 2..]);
      -0.5 <= value as real - magnitude * 100.0 <= 0.5
  {
    var r := Fixed2(x);
    var h := Hundredths(if x < 0.0 then -x else x);
    Text.NatToStringReadsBack(h / 100);
    var two := TwoDigits(h % 100);
    assert two[..1] == [two[0]] && [two[0]][..0] == [];
    assert Text.DigitsValue([two[0]]) == two[0] as int - '0' as int;
    assert Text.DigitsValue(two) == (two[0] as int - '0' as int) * 10 + (two[1] as int - '0' as int);
  }

  /** The time between the two clock readings (in seconds), in milliseconds. */
  function DurationMs(start: real, finish: real): real {
    (finish - start) * 1000.0
  }

  function StatusText(status: int): string {
    ValueText(Int(status))
  }

  datatype LogLine = LogLine(level: Level, text: string)

  /** The part every log line starts with: address, method and path. */
  function Prefix(r: Request): string {
    ClientIp(r) + " - " + r.verb + " " + r.path + " - "
  }

  /**
   * One request through the middleware: the handler's outcome comes back
   * unchanged except for the timing header, and exactly one line is logged.
   */
  function Dispatch(request: Request, start: real, finish: real, handled: Outcome<Response>)
    : (r: (Outcome<Response>, LogLine))
    ensures handled.Raise? ==> r.0 == handled && r.1.level == Error
    ensures handled.Ok? ==>
              && r.0.Ok?
              && r.0.value.status == handled.value.status
              && r.0.value.body == handled.value.body
              && "X-Response-Time" in r.0.value.headers
              && r.0.value.headers["X-Response-Time"] == Fixed2(DurationMs(start, finish)) + "ms"
              && r.1.level == LevelFor(handled.value.status)
    ensures handled.Ok? ==> forall h :: h in handled.value.headers && h != "X-Response-Time" ==>
              h in r.0.value.headers && r.0.value.headers[h] == handled.value.headers[h]
    ensures Prefix(request) <= r.1.text
  {
    var ms := Fixed2(DurationMs(start, finish));
    (WithHeader(handled, "X-Response-Time", ms + "ms"), LineFor(request, ms, handled))
  }

  /** The line logged for a request that took `ms` milliseconds (already formatted). */
  function LineFor(request: Request, ms: string, handled: Outcome<Response>): (l: LogLine)
    ensures l.level == if handled.Raise? then Error else LevelFor(handled.value.status)
    ensures Prefix(request) <= l.text
  {
    var tail := match handled
      case Raise(message) => "ERROR (" + ms + "ms) - " + message
      case Ok(response) => StatusText(response.status) + " (" + ms + "ms)";
    var level := if handled.Raise? then Error else LevelFor(handled.value.status);
    assert Prefix(request) <= Prefix(request) + tail;
    LogLine(level, Prefix(request) + tail)
  }

  /**
   * The access log is the outermost middleware, so a request the rate limiter
   * turns away is logged as a warning, not as an error.
   */
  lemma RateLimitedRequestLoggedAsWarning(request: Request, start: real, finish: real, rpm: int)
    requires rpm != 0
    ensures Dispatch(request, start, finish, Ok(RateLimit.TooManyRequests(rpm))).1.level == Warning
  {
  }
}
