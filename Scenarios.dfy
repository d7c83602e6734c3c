/**
 * Proved outcomes of the two plugins on sample counter contents: "45\n", "20", "150" and
 * "abc" with the default thresholds, and 88 at timestamp 1700000000 in metrics mode.
 */
module Scenarios {
  import opened Wrappers
  import opened GoStrings
  import opened Decimal
  import opened Entropy
  import CheckEntropy
  import MetricsEntropy

  lemma FormatSamples()
    ensures FormatInt(20) == "20" && FormatInt(45) == "45" && FormatInt(88) == "88"
    ensures FormatInt(150) == "150"
  {
    assert Digits(20) == Digits(2) + ['0'];
    assert Digits(45) == Digits(4) + ['5'];
    assert Digits(88) == Digits(8) + ['8'];
    assert Digits(15) == Digits(1) + ['5'];
    assert Digits(150) == Digits(15) + ['0'];
  }

  lemma FormatTimestamp()
    ensures FormatInt(1700000000) == "1700000000"
  {
    assert Digits(17) == Digits(1) + ['7'];
    assert Digits(170) == Digits(17) + ['0'];
    assert Digits(1700) == Digits(170) + ['0'];
    assert Digits(17000) == Digits(1700) + ['0'];
    assert Digits(170000) == Digits(17000) + ['0'];
    assert Digits(1700000) == Digits(170000) + ['0'];
    assert Digits(17000000) == Digits(1700000) + ['0'];
    assert Digits(170000000) == Digits(17000000) + ['0'];
    assert Digits(1700000000) == Digits(170000000) + ['0'];
  }

  /** A file holding a number's text, optionally followed by white space, reads as that number. */
  lemma ReadsAs(data: string, v: int, pad: string)
    requires InInt64(v) && AllSpace(pad) && data == FormatInt(v) + pad
    ensures ReadEntropy(Contents(data)) == Success(v)
  {
    var s := FormatInt(v);
    DecimalIsTrimmed(s);
    var none: string := [];
    assert none + s + pad == data;
    TrimSpacePadded(none, s, pad);
    assert TrimSpace(data) == s;
    AtoiFormatInt(v);
  }

  /** With the default thresholds the check classifies whatever number the file holds. */
  lemma CheckDefaults(h: HostLookup, data: string, v: int, pad: string, now: int)
    requires InInt64(v) && AllSpace(pad) && data == FormatInt(v) + pad
    ensures CheckEntropy.Run(CheckEntropy.DefaultConfig(h), Contents(data), now)
      == CheckEntropy.Classify(v, CheckEntropy.DefaultWarning, CheckEntropy.DefaultCritical)
  {
    ReadsAs(data, v, pad);
  }

  /** The WARNING line of the scenarios, spelled out. */
  lemma WarningText(word: string, digits: string)
    requires word == "WARNING" && digits == "45"
    ensures "CheckEntropy " + word + ": entropy is " + digits + "\n" == "CheckEntropy WARNING: entropy is 45\n"
  {
  }

  /** The CRITICAL line of the scenarios, spelled out. */
  lemma CriticalText(word: string, digits: string)
    requires word == "CRITICAL" && digits == "20"
    ensures "CheckEntropy " + word + ": entropy is " + digits + "\n" == "CheckEntropy CRITICAL: entropy is 20\n"
  {
  }

  /** The OK line of the scenarios, spelled out. */
  lemma OkText(word: string, digits: string)
    requires word == "OK" && digits == "150"
    ensures "CheckEntropy " + word + ": entropy is " + digits + "\n" == "CheckEntropy OK: entropy is 150\n"
  {
  }

  /** The counter file holds "45\n": with the defaults the check warns. */
  lemma CheckWarning(h: HostLookup, data: string, now: int)
    requires data == "45\n"
    ensures CheckEntropy.Run(CheckEntropy.DefaultConfig(h), Contents(data), now)
      == Outcome(WARNING, None, "CheckEntropy WARNING: entropy is 45\n")
  {
    assert data == FormatInt(45) + "\n" by {
      FormatSamples();
    }
    CheckDefaults(h, data, 45, "\n", now);
    var digits := FormatInt(45);
    assert digits == "45" by {
      FormatSamples();
    }
    WarningText(CheckEntropy.Label(WARNING), digits);
  }

  /** The counter file holds "20": with the defaults the check is critical. */
  lemma CheckCritical(h: HostLookup, data: string, now: int)
    requires data == "20"
    ensures CheckEntropy.Run(CheckEntropy.DefaultConfig(h), Contents(data), now)
      == Outcome(CRITICAL, None, "CheckEntropy CRITICAL: entropy is 20\n")
  {
    assert data == FormatInt(20) + [] by {
      FormatSamples();
    }
    CheckDefaults(h, data, 20, [], now);
    var digits := FormatInt(20);
    assert digits == "20" by {
      FormatSamples();
    }
    CriticalText(CheckEntropy.Label(CRITICAL), digits);
  }

  /** The counter file holds "150": with the defaults the check is OK. */
  lemma CheckOk(h: HostLookup, data: string, now: int)
    requires data == "150"
    ensures CheckEntropy.Run(CheckEntropy.DefaultConfig(h), Contents(data), now)
      == Outcome(OK, None, "CheckEntropy OK: entropy is 150\n")
  {
    assert data == FormatInt(150) + [] by {
      FormatSamples();
    }
    CheckDefaults(h, data, 150, [], now);
    var digits := FormatInt(150);
    assert digits == "150" by {
      FormatSamples();
    }
    OkText(CheckEntropy.Label(OK), digits);
  }

  lemma AbcIsNotAnInt(data: string)
    requires data == "abc"
    ensures Atoi(data) == Failure(NumError(data, ErrSyntax))
  {
    assert !IsDecimal(data);
    ShortAtoiFailsOnSyntax(data);
  }

  lemma GarbageIsSyntaxError(data: string)
    requires data == "abc"
    ensures ReadEntropy(Contents(data)) == Failure(ParseFailed(NumError(data, ErrSyntax)))
  {
    TrimSpaceOfTrimmed(data);
    AbcIsNotAnInt(data);
  }

  /** The counter file holds "abc": UNKNOWN with a parse error, which a missing file never gives. */
  lemma CheckGarbage(h: HostLookup, data: string, cause: string, now: int)
    requires data == "abc"
    ensures var r := CheckEntropy.Run(CheckEntropy.DefaultConfig(h), Contents(data), now);
      && r.state == UNKNOWN && r.stdout == []
      && r.err == Some(EntropyUnavailable(ParseFailed(NumError("abc", ErrSyntax))))
      && ParseFailurePrefix <= r.err.value.Text()
      && r != CheckEntropy.Run(CheckEntropy.DefaultConfig(h), ReadError(cause), now)
  {
    GarbageIsSyntaxError(data);
    ParseFailureText(NumError(data, ErrSyntax));
  }

  lemma SampleLineText(scheme: string, value: string, time: string)
    requires scheme == "host1.entropy" && value == "88" && time == "1700000000"
    ensures scheme + [' '] + (value + [' '] + time) + ['\n'] == "host1.entropy 88 1700000000\n"
  {
  }

  lemma MetricSample(scheme: string, now: int)
    requires scheme == "host1.entropy" && now == 1700000000
    ensures FormatMetric(scheme, 88, now) == "host1.entropy 88 1700000000\n"
  {
    var value, time := FormatInt(88), FormatInt(now);
    assert value == "88" by {
      FormatSamples();
    }
    assert time == "1700000000" by {
      FormatTimestamp();
    }
    MetricLineText(scheme, 88, now);
    SampleLineText(scheme, value, time);
  }

  /** In metrics mode a readable counter gives OK and the metric line, whatever the thresholds. */
  lemma MetricsRun(cfg: CheckEntropy.Config, data: string, v: int, now: int)
    requires CheckEntropy.ValidThresholds(cfg) && cfg.metrics && ReadEntropy(Contents(data)) == Success(v)
    ensures CheckEntropy.Run(cfg, Contents(data), now) == Outcome(OK, None, FormatMetric(cfg.metricScheme, v, now))
  {
  }

  /** Metrics mode with the scheme "host1.entropy": entropy 88 at 1700000000. */
  lemma CheckMetrics(warning: int, critical: int, scheme: string, data: string, now: int)
    requires 0 <= critical <= warning
    requires scheme == "host1.entropy" && data == "88" && now == 1700000000
    ensures CheckEntropy.Run(CheckEntropy.Config(warning, critical, true, scheme), Contents(data), now)
      == Outcome(OK, None, "host1.entropy 88 1700000000\n")
  {
    assert data == FormatInt(88) + [] by {
      FormatSamples();
    }
    ReadsAs(data, 88, []);
    MetricsRun(CheckEntropy.Config(warning, critical, true, scheme), data, 88, now);
    MetricSample(scheme, now);
  }

  /** metrics-entropy on the same inputs prints the same line. */
  lemma MetricsSample(scheme: string, data: string, now: int)
    requires scheme == "host1.entropy" && data == "88" && now == 1700000000
    ensures MetricsEntropy.Run(scheme, Contents(data), now) == Outcome(OK, None, "host1.entropy 88 1700000000\n")
  {
    CheckMetrics(60, 30, scheme, data, now);
    MetricsEntropy.SameAsCheckMetricsMode(scheme, 60, 30, Contents(data), now);
  }
}
