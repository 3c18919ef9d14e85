/**
 * What every tool shares (tools/tools.go): the outcome of a tool's `Run`, the
 * distinguished invalid-arguments error and its text, the reply of an HTTP
 * call made by a tool, and the stand-alone `CurrentWeather` demo tool.
 */
module Tools {
  import opened Json

  /**
   * The error a tool's `Run` returns: an `InvalidToolArgumentsError`, which
   * the conversation loop shows to the model, or any other failure.
   */
  datatype ToolError =
    | InvalidToolArguments(toolName: string, message: string)
    | Failed(message: string)

  /** `Run` returns either its textual output or an error. */
  datatype ToolOutcome = Output(text: string) | Error(error: ToolError)

  /** What an HTTP round trip gives back: a failure to reach the server, or a status and a body. */
  datatype HttpReply = TransportError(detail: string) | Response(status: int, body: string)

  const StatusOK: int := 200

  const InvalidArgumentsPrefix: string := "invalid arguments for tool "

  /** `InvalidToolArgumentsError.Error()`: the prefix, the tool's name, a colon and the message. */
  function InvalidArgumentsText(toolName: string, message: string): (r: string)
    ensures |r| == |InvalidArgumentsPrefix| + |toolName| + 2 + |message|
    ensures r[..|InvalidArgumentsPrefix|] == InvalidArgumentsPrefix
    ensures r[|InvalidArgumentsPrefix|..|InvalidArgumentsPrefix| + |toolName|] == toolName
    ensures r[|InvalidArgumentsPrefix| + |toolName|..|InvalidArgumentsPrefix| + |toolName| + 2] == ": "
    ensures r[|r| - |message|..] == message
  {
    InvalidArgumentsPrefix + toolName + ": " + message
  }

  /**
   * When tool names contain no colon, the error text identifies the tool and
   * the message: two texts are equal only for the same name and message.
   */
  lemma InvalidArgumentsTextInjective(n1: string, m1: string, n2: string, m2: string)
    requires ':' !in n1 && ':' !in n2
    requires InvalidArgumentsText(n1, m1) == InvalidArgumentsText(n2, m2)
    ensures n1 == n2 && m1 == m2
  {
    var p := |InvalidArgumentsPrefix|;
    var r := InvalidArgumentsText(n1, m1);
    assert r == InvalidArgumentsText(n2, m2);
    assert r[p + |n1|] == ':' by { assert r == InvalidArgumentsPrefix + n1 + ": " + m1; }
    assert r[p + |n2|] == ':' by { assert r == InvalidArgumentsPrefix + n2 + ": " + m2; }
    // A shorter name would put its colon inside the longer name.
    assert |n1| == |n2|;
    assert n1 == r[p..p + |n1|] == n2;
    assert |m1| == |m2|;
    assert m1 == r[|r| - |m1|..] == m2;
  }

  /** The decimal digits of a natural number, most significant first, as Go's `%d` prints them. */
  function NatDigits(n: nat): (r: string)
    ensures r != [] && '0' <= r[0] <= '9'
    ensures forall i :: 0 <= i < |r| ==> '0' <= r[i] <= '9'
    ensures r[0] == '0' ==> n == 0
    ensures |r| > 1 ==> r[0] != '0'
    decreases n
  {
    if n < 10 then [DigitChar(n)] else NatDigits(n / 10) + [DigitChar(n % 10)]
  }

  function DigitChar(d: nat): (c: char)
    requires d < 10
    ensures '0' <= c <= '9' && (c == '0' <==> d == 0)
  {
    "0123456789"[d]
  }

  /** Go's `%d` of an `int`: a minus sign for negative numbers, then the digits. */
  function Decimal(n: int): (r: string)
    ensures r != [] && (r[0] == '-' <==> n < 0)
    ensures n < 0 ==> r[1..] == NatDigits(-n) && r[1] != '0'
    ensures n >= 0 ==> r == NatDigits(n)
  {
    if n < 0 then "-" + NatDigits(-n) else NatDigits(n)
  }

  /** The value of a decimal text with an optional leading minus sign; the inverse of `Decimal`. */
  function DecimalValue(s: string): int
  {
    if s != [] && s[0] == '-' then -DigitsValue(s[1..]) else DigitsValue(s)
  }

  /** Any status, negative ones included, printed with `%d` reads back as itself. */
  lemma {:induction false} DecimalRoundTrip(n: int)
    ensures DecimalValue(Decimal(n)) == n
  {
    if n < 0 {
      var m: nat := -n;
      NatDigitsRoundTrip(m);
      MinusValue(NatDigits(m));
      assert Decimal(n) == "-" + NatDigits(m);
    } else {
      NatDigitsRoundTrip(n);
      assert Decimal(n) == NatDigits(n);
      assert NatDigits(n)[0] != '-';
    }
  }

  /** A minus sign negates the value of the digits after it. */
  lemma MinusValue(digits: string)
    ensures DecimalValue("-" + digits) == -DigitsValue(digits)
  {
    assert ("-" + digits)[1..] == digits;
  }

  /** The value of a string of decimal digits; the inverse of `NatDigits`. */
  function DigitsValue(s: string): int
  {
    if s == [] then 0 else DigitsValue(s[..|s| - 1]) * 10 + DigitValue(s[|s| - 1])
  }

  function DigitValue(c: char): int
  {
    if '0' <= c <= '9' then c as int - '0' as int else 0
  }

  /** A status code printed with `%d` can be read back: the printed error carries the exact code. */
  lemma {:induction false} NatDigitsRoundTrip(n: nat)
    ensures DigitsValue(NatDigits(n)) == n
    ensures |NatDigits(n)| > 0
    decreases n
  {
    var s := NatDigits(n);
    if n >= 10 {
      NatDigitsRoundTrip(n / 10);
      assert s[..|s| - 1] == NatDigits(n / 10);
    }
  }

  const WeatherPrefix: string := "The weather in "
  const WeatherSuffix: string := " is sunny"
  const WeatherNotFound: string := "not found, try again"

  /**
   * `CurrentWeather.Run`: a report for the `location` argument when it is a
   * string, a fixed answer otherwise; it never returns an error.
   */
  function WeatherRun(arguments: map<string, Json>): (r: string)
    ensures "location" in arguments && arguments["location"].JString? ==>
              |r| == |WeatherPrefix| + |arguments["location"].s| + |WeatherSuffix| &&
              r[..|WeatherPrefix|] == WeatherPrefix &&
              r[|WeatherPrefix|..|r| - |WeatherSuffix|] == arguments["location"].s &&
              r[|r| - |WeatherSuffix|..] == WeatherSuffix
    ensures !("location" in arguments && arguments["location"].JString?) ==> r == WeatherNotFound
  {
    if "location" in arguments && arguments["location"].JString? then
      WeatherPrefix + arguments["location"].s + WeatherSuffix
    else
      WeatherNotFound
  }

  /** Reads the location back out of a weather report. */
  function ReportedLocation(report: string): string
  {
    if |report| >= |WeatherPrefix| + |WeatherSuffix| then
      report[|WeatherPrefix|..|report| - |WeatherSuffix|]
    else
      ""
  }

  /**
   * A report names exactly the location asked for, and the fixed answer for a
   * missing location can never be mistaken for a report.
   */
  lemma WeatherReportNamesLocation(arguments: map<string, Json>)
    ensures "location" in arguments && arguments["location"].JString? ==>
              WeatherRun(arguments)[..|WeatherPrefix|] == WeatherPrefix &&
              ReportedLocation(WeatherRun(arguments)) == arguments["location"].s
    ensures !("location" in arguments && arguments["location"].JString?) ==>
              WeatherRun(arguments)[..|WeatherPrefix|] != WeatherPrefix
  {
    if "location" in arguments && arguments["location"].JString? {
      var loc := arguments["location"].s;
      var r := WeatherRun(arguments);
      assert r == WeatherPrefix + loc + WeatherSuffix;
      assert r[|WeatherPrefix|..|r| - |WeatherSuffix|] == loc;
    } else {
      assert WeatherNotFound[0] != WeatherPrefix[0];
    }
  }
}
