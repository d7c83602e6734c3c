/**
 * The check-entropy plugin: validates its warning and critical thresholds, reads the
 * available entropy, and either classifies it (CRITICAL at or below the critical
 * threshold, WARNING at or below the warning threshold, OK above) or, in metrics mode,
 * prints it as a Graphite line.
 */
module CheckEntropy {
  import opened Wrappers
  import opened Decimal
  import opened Entropy

  /** The plugin's configuration once the SDK has resolved flags, environment and defaults. */
  datatype Config = Config(warning: int, critical: int, metrics: bool, metricScheme: string)

  const DefaultWarning: int := 60
  const DefaultCritical: int := 30

  /** The configuration when nothing overrides the defaults; the scheme depends on the host name. */
  function DefaultConfig(h: HostLookup): (cfg: Config)
    ensures cfg.warning == DefaultWarning && cfg.critical == DefaultCritical
    ensures !cfg.metrics && cfg.metricScheme == DefaultScheme(h)
  {
    Config(DefaultWarning, DefaultCritical, false, DefaultScheme(h))
  }

  /** The thresholds `checkArgs` lets through: both non-negative, critical not above warning. */
  predicate ValidThresholds(cfg: Config) {
    0 <= cfg.critical <= cfg.warning
  }

  /**
   * `checkArgs`: UNKNOWN with "invalid entropy threshold" when either threshold is
   * negative, else UNKNOWN when critical is above warning, else OK. It prints nothing.
   */
  function CheckArgs(cfg: Config): (r: Outcome)
    ensures r.state == OK <==> ValidThresholds(cfg)
    ensures r.state == OK || r.state == UNKNOWN
    ensures r.err.None? <==> r.state == OK
    ensures cfg.critical < 0 || cfg.warning < 0 ==> r.err == Some(InvalidThreshold)
    ensures 0 <= cfg.critical && 0 <= cfg.warning && cfg.critical > cfg.warning ==> r.err == Some(ThresholdOrder)
    ensures r.stdout == []
  {
    if cfg.critical < 0 || cfg.warning < 0 then Outcome(UNKNOWN, Some(InvalidThreshold), [])
    else if cfg.critical > cfg.warning then Outcome(UNKNOWN, Some(ThresholdOrder), [])
    else Outcome(OK, None, [])
  }

  /** The error texts of the two ways validation fails. */
  lemma CheckArgsTexts(cfg: Config)
    ensures cfg.critical < 0 || cfg.warning < 0 ==>
      CheckArgs(cfg).err.value.Text() == "invalid entropy threshold"
    ensures 0 <= cfg.critical && 0 <= cfg.warning && cfg.critical > cfg.warning ==>
      CheckArgs(cfg).err.value.Text() == "critical threshold must be less than or equal to warning threshold"
  {
  }

  /** The severity word in the check's message. */
  function Label(s: State): string {
    match s
    case OK => "OK"
    case WARNING => "WARNING"
    case CRITICAL => "CRITICAL"
    case UNKNOWN => "UNKNOWN"
  }

  /** The line the check prints for a classified reading. */
  function Message(s: State, v: int): string {
    "CheckEntropy " + Label(s) + ": entropy is " + FormatInt(v) + "\n"
  }

  /**
   * The threshold chain of `executeCheck`: CRITICAL exactly when the entropy is at or below
   * critical, WARNING exactly when it is above critical and at or below warning, OK exactly
   * when it is above both; the printed message names the state the call returns.
   */
  function Classify(v: int, warning: int, critical: int): (r: Outcome)
    ensures r.state == CRITICAL <==> v <= critical
    ensures r.state == WARNING <==> critical < v <= warning
    ensures r.state == OK <==> critical < v && warning < v
    ensures r.err == None
    ensures r.stdout == Message(r.state, v)
  {
    if v <= critical then Outcome(CRITICAL, None, Message(CRITICAL, v))
    else if v <= warning then Outcome(WARNING, None, Message(WARNING, v))
    else Outcome(OK, None, Message(OK, v))
  }

  /** How severe a state is, for comparing classifications. */
  function Severity(s: State): nat {
    match s
    case OK => 0
    case WARNING => 1
    case CRITICAL => 2
    case UNKNOWN => 3
  }

  /**
   * With validated thresholds exactly one of the three bands holds: CRITICAL up to and
   * including critical, WARNING above it up to and including warning, OK above warning.
   */
  lemma ClassifyBands(v: int, warning: int, critical: int)
    requires 0 <= critical <= warning
    ensures var s := Classify(v, warning, critical).state;
      && (s == CRITICAL <==> v <= critical)
      && (s == WARNING <==> critical < v <= warning)
      && (s == OK <==> warning < v)
      && s != UNKNOWN
  {
  }

  /** A threshold value itself falls into the more severe band. */
  lemma ClassifyBoundaries(warning: int, critical: int)
    ensures Classify(critical, warning, critical).state == CRITICAL
    ensures warning > critical ==> Classify(warning, warning, critical).state == WARNING
  {
  }

  /** Less entropy is never less severe. */
  lemma ClassifyMonotone(v1: int, v2: int, warning: int, critical: int)
    requires v1 <= v2
    ensures Severity(Classify(v1, warning, critical).state) >= Severity(Classify(v2, warning, critical).state)
  {
  }

  /**
   * `executeCheck`: UNKNOWN with the wrapped read or parse error and no output when the
   * entropy cannot be read; otherwise, in metrics mode, OK with the metric line; otherwise
   * the classification.
   */
  function ExecuteCheck(cfg: Config, f: FileRead, now: int): (r: Outcome)
    ensures r.state == UNKNOWN <==> ReadEntropy(f).Failure?
    ensures r.state == UNKNOWN ==>
      r.err == Some(EntropyUnavailable(ReadEntropy(f).error)) && r.stdout == []
    ensures r.state != UNKNOWN ==> r.err == None
    ensures ReadEntropy(f).Success? && cfg.metrics ==>
      r.state == OK && r.stdout == FormatMetric(cfg.metricScheme, ReadEntropy(f).value, now)
    ensures ReadEntropy(f).Success? && !cfg.metrics ==>
      r == Classify(ReadEntropy(f).value, cfg.warning, cfg.critical)
  {
    match ReadEntropy(f)
    case Failure(e) => Outcome(UNKNOWN, Some(EntropyUnavailable(e)), [])
    case Success(v) =>
      if cfg.metrics then Outcome(OK, None, FormatMetric(cfg.metricScheme, v, now))
      else Classify(v, cfg.warning, cfg.critical)
  }

  /** In metrics mode the thresholds play no part: the outcome is the same whatever they are. */
  lemma MetricsIgnoreThresholds(cfg1: Config, cfg2: Config, f: FileRead, now: int)
    requires cfg1.metrics && cfg2.metrics && cfg1.metricScheme == cfg2.metricScheme
    ensures ExecuteCheck(cfg1, f, now) == ExecuteCheck(cfg2, f, now)
  {
  }

  /**
   * The check as the SDK runs it: `checkArgs` first, and `executeCheck` only when the
   * validation returned no error.
   */
  function Run(cfg: Config, f: FileRead, now: int): (r: Outcome)
    ensures !ValidThresholds(cfg) ==> r.state == UNKNOWN && r.stdout == [] && r.err == CheckArgs(cfg).err
    ensures ValidThresholds(cfg) ==> r == ExecuteCheck(cfg, f, now)
    ensures r.state == UNKNOWN <==> !ValidThresholds(cfg) || ReadEntropy(f).Failure?
  {
    var validation := CheckArgs(cfg);
    if validation.err.Some? then validation else ExecuteCheck(cfg, f, now)
  }

  /** The default thresholds pass validation. */
  lemma DefaultConfigValid(h: HostLookup)
    ensures CheckArgs(DefaultConfig(h)) == Outcome(OK, None, [])
  {
  }

  /**
   * A reading that cannot be had is UNKNOWN with an error starting "failed to read
   * entropy: ", and nothing is printed; a parse failure's error goes on with "failed to
   * parse entropy value: ", so it is told apart from a failed read.
   */
  lemma RunReadFailure(cfg: Config, f: FileRead, now: int)
    requires ValidThresholds(cfg) && ReadEntropy(f).Failure?
    ensures var r := Run(cfg, f, now);
      && r.state == UNKNOWN && r.stdout == [] && r.err.Some?
      && ReadFailurePrefix <= r.err.value.Text()
      && (f.Contents? ==> ParseFailurePrefix <= r.err.value.Text())
      && (f.ReadError? ==> r.err.value.Text() == ReadFailurePrefix + f.cause)
  {
    var e := ReadEntropy(f).error;
    if f.Contents? {
      ParseFailureText(e.err);
    }
  }
}
