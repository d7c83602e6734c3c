/**
 * The metrics-entropy plugin: no thresholds, it reads the available entropy and prints it
 * as one Graphite plaintext line under its scheme.
 */
module MetricsEntropy {
  import opened Wrappers
  import opened GoStrings
  import opened Decimal
  import opened Entropy
  import CheckEntropy

  /** The scheme when the option is not given. */
  function DefaultConfig(h: HostLookup): (scheme: string)
    ensures scheme == CheckEntropy.DefaultConfig(h).metricScheme
  {
    DefaultScheme(h)
  }

  /** `checkArgs`: there is nothing to validate, so every configuration is accepted. */
  function CheckArgs(scheme: string): (r: Outcome)
    ensures r.state == OK && r.err.None? && r.stdout == []
  {
    Outcome(OK, None, [])
  }

  /**
   * `executeMetric`: UNKNOWN with the wrapped read or parse error and no output when the
   * entropy cannot be read, otherwise OK with the metric line for the reading.
   */
  function ExecuteMetric(scheme: string, f: FileRead, now: int): (r: Outcome)
    ensures r.state == OK || r.state == UNKNOWN
    ensures r.state == UNKNOWN <==> ReadEntropy(f).Failure?
    ensures r.state == UNKNOWN ==>
      r.err == Some(EntropyUnavailable(ReadEntropy(f).error)) && r.stdout == []
    ensures r.state == OK ==>
      r.err == None && r.stdout == FormatMetric(scheme, ReadEntropy(f).value, now)
  {
    match ReadEntropy(f)
    case Failure(e) => Outcome(UNKNOWN, Some(EntropyUnavailable(e)), [])
    case Success(v) => Outcome(OK, None, FormatMetric(scheme, v, now))
  }

  /** The plugin as the SDK runs it: `checkArgs`, then `executeMetric` when it returned no error. */
  function Run(scheme: string, f: FileRead, now: int): (r: Outcome)
    ensures r.state == OK || r.state == UNKNOWN
    ensures r.state == UNKNOWN <==> ReadEntropy(f).Failure?
    ensures r.state == UNKNOWN ==> r.stdout == [] && r.err.Some? && ReadFailurePrefix <= r.err.value.Text()
    ensures r == ExecuteMetric(scheme, f, now)
  {
    var validation := CheckArgs(scheme);
    if validation.err.Some? then validation else ExecuteMetric(scheme, f, now)
  }

  /**
   * metrics-entropy behaves as check-entropy does in metrics mode, whatever valid
   * thresholds the latter is given.
   */
  lemma SameAsCheckMetricsMode(scheme: string, warning: int, critical: int, f: FileRead, now: int)
    requires 0 <= critical <= warning
    ensures Run(scheme, f, now) == CheckEntropy.Run(CheckEntropy.Config(warning, critical, true, scheme), f, now)
  {
  }

  /**
   * A successful run prints exactly one line, and a consumer that splits it on spaces and
   * parses the fields gets back the scheme, the reading and the timestamp.
   */
  lemma OutputRoundTrip(scheme: string, f: FileRead, now: int)
    requires ' ' !in scheme && '\n' !in scheme && InInt64(now)
    requires Run(scheme, f, now).state == OK
    ensures var line := Run(scheme, f, now).stdout;
      && |line| > 0 && line[|line| - 1] == '\n' && '\n' !in line[..|line| - 1]
      && var fields := Split(line[..|line| - 1], ' ');
      && |fields| == 3 && fields[0] == scheme
      && Atoi(fields[1]) == Success(ReadEntropy(f).value) && Atoi(fields[2]) == Success(now)
  {
    MetricLineRoundTrip(scheme, ReadEntropy(f).value, now);
  }
}
