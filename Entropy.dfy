/**
 * What the two Sensu plugins, check-entropy and metrics-entropy, share: reading the
 * kernel's available-entropy counter, the default metric scheme, the Graphite plaintext
 * metric line, and the states and errors a plugin call reports back to the Sensu SDK.
 *
 * The I/O of the source becomes input here: the result of reading
 * /proc/sys/kernel/random/entropy_avail is a FileRead, the result of os.Hostname a
 * HostLookup, and the clock reading a timestamp parameter.
 */
module Entropy {
  import opened Wrappers
  import opened GoStrings
  import opened Decimal

  /** The Sensu check states (the SDK's exit codes for them are not part of this model). */
  datatype State = OK | WARNING | CRITICAL | UNKNOWN

  /** What `os.ReadFile` of the entropy pseudo-file gave back: its error text, or the contents. */
  datatype FileRead = ReadError(cause: string) | Contents(data: string)

  /** What `os.Hostname` gave back. */
  datatype HostLookup = HostError | Host(name: string)

  /** The two ways `readEntropy` fails. */
  datatype EntropyError =
    | ReadFailed(cause: string)    // the read's own error, passed on unchanged
    | ParseFailed(err: NumError)   // the trimmed contents are not an int
  {
    function Text(): string {
      match this
      case ReadFailed(cause) => cause
      case ParseFailed(err) => ParseFailureTag + err.Text()
    }
  }

  /** The errors a plugin's validation or execution function returns. */
  datatype PluginError =
    | InvalidThreshold
    | ThresholdOrder
    | EntropyUnavailable(cause: EntropyError)
  {
    function Text(): string {
      match this
      case InvalidThreshold => "invalid entropy threshold"
      case ThresholdOrder => "critical threshold must be less than or equal to warning threshold"
      case EntropyUnavailable(cause) => ReadFailurePrefix + cause.Text()
    }
  }

  /** One plugin call as the SDK sees it: the state, the error (nil as None), and what went to stdout. */
  datatype Outcome = Outcome(state: State, err: Option<PluginError>, stdout: string)

  const ReadFailurePrefix: string := "failed to read entropy: "
  const ParseFailureTag: string := "failed to parse entropy value: "
  const ParseFailurePrefix: string := ReadFailurePrefix + ParseFailureTag

  /**
   * `readEntropy`: trim the white space around the file's contents and read the rest as a
   * decimal int. A read failure is passed on as it is; a parse failure is a ParseFailed
   * naming the trimmed text.
   */
  function ReadEntropy(f: FileRead): (r: Result<int, EntropyError>)
    ensures f.ReadError? ==> r == Failure(ReadFailed(f.cause))
    ensures f.Contents? ==>
      var t := TrimSpace(f.data);
      && (r.Success? <==> IsDecimal(t) && InInt64(DecimalValue(t)))
      && (r.Success? ==> r.value == DecimalValue(t))
      && (r.Failure? ==> r.error.ParseFailed? && r.error.err.num == t)
      && (r.Failure? ==> r.error == ParseFailed(Atoi(t).error))
  {
    match f
    case ReadError(cause) => Failure(ReadFailed(cause))
    case Contents(data) =>
      match Atoi(TrimSpace(data))
      case Success(v) => Success(v)
      case Failure(e) => Failure(ParseFailed(e))
  }

  /**
   * A parse failure reads "failed to read entropy: failed to parse entropy value: "
   * followed by the NumError's own text.
   */
  lemma ParseFailureText(e: NumError)
    ensures ReadFailurePrefix <= EntropyUnavailable(ParseFailed(e)).Text()
    ensures ParseFailurePrefix <= EntropyUnavailable(ParseFailed(e)).Text()
    ensures EntropyUnavailable(ParseFailed(e)).Text() == ParseFailurePrefix + e.Text()
  {
    var detail := e.Text();
    Wrapped(ReadFailurePrefix, ParseFailureTag, detail);
  }

  /** Two prefixes put before a text in turn, as the nested error wrappings do. */
  lemma Wrapped(outer: string, inner: string, detail: string)
    ensures outer + (inner + detail) == (outer + inner) + detail
    ensures outer <= outer + (inner + detail) && outer + inner <= outer + (inner + detail)
  {
  }

  lemma {:induction false} DecimalIsTrimmed(s: string)
    requires IsDecimal(s)
    ensures Trimmed(s) && ' ' !in s && '\n' !in s
  {
    var d := Unsigned(s);
    assert s == d || s == [s[0]] + d;
    assert s[|s| - 1] == d[|d| - 1];
  }

  /** The counter's text with any white space around it reads back as the number it denotes. */
  lemma ReadEntropyPadded(a: string, v: int, b: string)
    requires AllSpace(a) && AllSpace(b) && InInt64(v)
    ensures ReadEntropy(Contents(a + FormatInt(v) + b)) == Success(v)
  {
    DecimalIsTrimmed(FormatInt(v));
    TrimSpacePadded(a, FormatInt(v), b);
  }

  /** Empty or all-white-space contents are a syntax error on the empty text. */
  lemma BlankIsSyntaxError(data: string)
    requires AllSpace(data)
    ensures ReadEntropy(Contents(data)) == Failure(ParseFailed(NumError([], ErrSyntax)))
  {
    TrimLeftAllSpace(data);
  }

  /**
   * Contents that are not a signed decimal once trimmed fail with the parse error, and so
   * the plugin's error names both the read and the parse.
   */
  lemma RejectsNonDecimal(data: string)
    requires !IsDecimal(TrimSpace(data))
    ensures ReadEntropy(Contents(data)).Failure?
    ensures ReadEntropy(Contents(data)).error.ParseFailed?
    ensures ParseFailurePrefix <= EntropyUnavailable(ReadEntropy(Contents(data)).error).Text()
  {
    ParseFailureText(ReadEntropy(Contents(data)).error.err);
  }

  /** `getDefaultScheme`: the host name, or "unknown" when it cannot be found, then ".entropy". */
  function DefaultScheme(h: HostLookup): (r: string)
    ensures |r| >= 8 && r[|r| - 8..] == ".entropy"
    ensures h.Host? ==> r[..|r| - 8] == h.name
    ensures h.HostError? ==> r == "unknown.entropy"
  {
    var host := if h.Host? then h.name else "unknown";
    host + ".entropy"
  }

  /**
   * The Graphite plaintext line `<scheme> <value> <timestamp>\n`. It is one line when the
   * scheme holds no newline, and a consumer splitting it on single spaces gets the scheme,
   * the value and the timestamp back when the scheme holds no space.
   */
  function FormatMetric(scheme: string, v: int, t: int): (line: string)
    ensures |line| > 0 && line[|line| - 1] == '\n'
    ensures '\n' !in scheme ==> '\n' !in line[..|line| - 1]
    ensures ' ' !in scheme ==> Split(line[..|line| - 1], ' ') == [scheme, FormatInt(v), FormatInt(t)]
  {
    var value, time := FormatInt(v), FormatInt(t);
    DecimalIsTrimmed(value);
    DecimalIsTrimmed(time);
    var body := scheme + [' '] + (value + [' '] + time);
    var line := body + ['\n'];
    assert line[..|line| - 1] == body;
    assert ' ' !in scheme ==> Split(body, ' ') == [scheme, value, time] by {
      if ' ' !in scheme {
        SplitAfterPiece(scheme, ' ', value + [' '] + time);
        SplitAfterPiece(value, ' ', time);
      }
    }
    line
  }

  /** The metric line in full, for any scheme: the scheme, the value and the timestamp, a space between each. */
  lemma MetricLineText(scheme: string, v: int, t: int)
    ensures FormatMetric(scheme, v, t) == scheme + " " + FormatInt(v) + " " + FormatInt(t) + "\n"
  {
  }

  /** Reading a metric line back: the scheme, and the value and timestamp through Atoi. */
  lemma MetricLineRoundTrip(scheme: string, v: int, t: int)
    requires ' ' !in scheme && InInt64(v) && InInt64(t)
    ensures var line := FormatMetric(scheme, v, t);
      var fields := Split(line[..|line| - 1], ' ');
      |fields| == 3 && fields[0] == scheme && Atoi(fields[1]) == Success(v) && Atoi(fields[2]) == Success(t)
  {
    AtoiFormatInt(v);
    AtoiFormatInt(t);
  }
}
