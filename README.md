# sensu-check-entropy in Dafny

A model of the two Sensu plugins of sensu-check-entropy, with proofs about them.

- **check-entropy** first validates its warning and critical thresholds. It then reads the kernel's available-entropy counter and either classifies the reading or prints it as a metric. A reading at or below critical is CRITICAL. A reading at or below warning is WARNING. Anything above is OK. In metrics mode it prints the Graphite plaintext line `<scheme> <value> <timestamp>` and reports OK.
- **metrics-entropy** has nothing to validate. It reads the same counter and prints the same Graphite line under its scheme.

Both plugins trim white space from the counter's text and parse the rest with Go's `strconv.Atoi`. A failed read or parse gives UNKNOWN, with an error that starts `failed to read entropy: `. A parse failure's error continues with `failed to parse entropy value: ` and then the `*strconv.NumError` text. The default scheme is `<hostname>.entropy`, or `unknown.entropy` when the host name cannot be found.

Modules:

- `Wrappers`: `Option` and `Result`.
- `GoStrings`: `strings.TrimSpace`, with Go's `unicode.IsSpace` table. It also holds `strings.Split`, the way a consumer takes a metric line apart again.
- `Decimal`: the `%d` rendering, and `strconv.Atoi` for a 64-bit `int`. This includes ParseUint's order of syntax and range errors, the `NumError` text, and `strconv.Quote` for characters up to U+00FF, with a reading of its escapes back.
- `Entropy`: what both plugins share. That is `readEntropy`, `getDefaultScheme`, the metric line, the plugin states, and the error texts.
- `CheckEntropy` and `MetricsEntropy`: the plugins' own functions. `Run` composes validation and execution the way the SDK calls them.
- `Scenarios`: proved outcomes of both plugins on sample inputs.

`Atoi` accepts a leading `+` or `-`. So a counter holding `-5` is read as -5, and check-entropy reports it as CRITICAL. The plugins do not require the reading to be non-negative. The model follows the code here, and the round trip `Atoi(FormatInt(v)) == v` holds for negative values too.

## Model

| member | source | states |
|---|---|---|
| GoStrings.TrimLeft | cmd/check-entropy/main.go:120 | the result is the suffix left after a prefix that is all white space, and it does not start with white space |
| GoStrings.TrimRight | cmd/check-entropy/main.go:120 | the result is the prefix left before a suffix that is all white space, and it does not end with white space |
| GoStrings.TrimSpace | cmd/check-entropy/main.go:120 | the trimmed text has no white space at either end, and it is the slice of the input that starts where the leading white space ends, with only white space after it |
| GoStrings.TrimSpacePadded | cmd/check-entropy/main.go:120 | trimming white-space padding around a trimmed text gives back exactly that text |
| GoStrings.TrimSpaceOfTrimmed | cmd/check-entropy/main.go:120 | a text with no white space at either end is left unchanged |
| GoStrings.TrimSpaceIdempotent | cmd/check-entropy/main.go:120 | trimming twice is the same as trimming once |
| GoStrings.Split | cmd/metrics-entropy/main.go:58 | no piece holds the separator and joining the pieces with it gives the text back; a text without the separator is one piece |
| GoStrings.SplitAfterPiece | cmd/metrics-entropy/main.go:58 | a separator-free piece followed by the separator splits off as the first field |
| Decimal.Digits | cmd/check-entropy/main.go:101 | the digits are non-empty, denote n, and have no leading zero |
| Decimal.FormatInt | cmd/check-entropy/main.go:101 | `%d` writes canonical decimal text (no `+`, no leading zero, no `-0`) that denotes v |
| Decimal.ScanDigits | cmd/check-entropy/main.go:121 | the digit loop succeeds exactly when all are digits with a value at most 2^64-1; a syntax error has a non-digit before any overflow, and a range error has an overflowing digit prefix |
| Decimal.ParseUint | cmd/check-entropy/main.go:121 | the unsigned parse succeeds exactly on non-empty digits with a value at most 2^64-1; empty digits are a syntax error; a syntax error means a stray character before any overflow, a range error an overflowing run of digits |
| Decimal.Atoi | cmd/check-entropy/main.go:121 | succeeds exactly on a signed decimal whose value fits in int64, giving that value; a failure names the whole input; no digits after the sign is a syntax error; a syntax error has a stray character before any overflow, and a range error has an overflow or a well-formed value outside int64 |
| Decimal.StopOrOverflow | cmd/check-entropy/main.go:121 | a stray character before any overflow and an overflow before any stray character never both happen |
| Decimal.AtoiErrorKind | cmd/check-entropy/main.go:121-123 | on failure the kind is ErrSyntax exactly when there are no digits or a stray character comes first, and ErrRange exactly when digits overflow first or a well-formed value is outside int64 |
| Decimal.ShortAtoiFailsOnSyntax | cmd/check-entropy/main.go:121 | an input shorter than 19 characters never fails with a range error |
| Decimal.NumErrorText | cmd/check-entropy/main.go:123 | for an input of plain characters the NumError text is `strconv.Atoi: parsing "<input>": ` followed by `invalid syntax` or `value out of range` |
| Decimal.AtoiFormatInt | cmd/metrics-entropy/main.go:58 | parsing the `%d` text of any 64-bit value gives that value back, negatives included |
| Decimal.FormatIntAtoi | cmd/metrics-entropy/main.go:70 | canonical decimal text that parses is written back by `%d` unchanged |
| Decimal.RawCharRejected | cmd/check-entropy/main.go:123 | a raw double quote or a raw character that must be escaped (controls, DEL, C1 controls, NBSP, soft hyphen) makes a text no literal body |
| Decimal.UnescapeChar | cmd/check-entropy/main.go:123 | the escape written for any one character reads back as that character, whatever follows it |
| Decimal.Escape | cmd/check-entropy/main.go:123 | the result is a valid Go literal body (no raw double quote or control character, only known escapes) that reads back as the original text; a text of printable ASCII characters other than quote and backslash is not changed |
| Decimal.Quote | cmd/check-entropy/main.go:123 | the result is a double-quoted Go string literal: between the quotes stands a valid literal body that reads back as the input, and a plain text stands there unchanged |
| Entropy.ReadEntropy | cmd/check-entropy/main.go:114-127 | a read error is passed on; otherwise it succeeds exactly when the trimmed text is a signed decimal in int64 range, with its value, and a failure is Atoi's own error on the trimmed text |
| Entropy.ParseFailureText | cmd/check-entropy/main.go:123 | a parse failure's error is `failed to read entropy: failed to parse entropy value: ` followed by the NumError text |
| Entropy.ReadEntropyPadded | cmd/check-entropy/main.go:120-121 | a number's `%d` text with white space around it reads back as that number |
| Entropy.BlankIsSyntaxError | cmd/metrics-entropy/main.go:69-73 | empty or all-white-space contents are a syntax error on the empty text |
| Entropy.RejectsNonDecimal | cmd/metrics-entropy/main.go:69-73 | contents that are not a signed decimal once trimmed give the parse error, with both prefixes in its text |
| Entropy.DefaultScheme | cmd/check-entropy/main.go:129-135 | the scheme ends with `.entropy` after the host name, and is `unknown.entropy` when the lookup fails |
| Entropy.FormatMetric | cmd/check-entropy/main.go:96 | the metric text is one newline-terminated line when the scheme has no newline, and splits on spaces into scheme, value and timestamp when the scheme has no space |
| Entropy.MetricLineText | cmd/check-entropy/main.go:96 | for every scheme, spaces or newlines in it included, the line is the scheme, a space, the value, a space, the timestamp and a line feed |
| Entropy.MetricLineRoundTrip | cmd/metrics-entropy/main.go:58 | a consumer gets back the scheme, and through Atoi the value and the timestamp |
| CheckEntropy.DefaultConfig | cmd/check-entropy/main.go:33-67 | the defaults are warning 60, critical 30, metrics off, and the default scheme |
| CheckEntropy.CheckArgs | cmd/check-entropy/main.go:77-85 | OK exactly when 0 <= critical <= warning; a negative threshold gives "invalid entropy threshold"; otherwise critical above warning gives the ordering error; nothing is printed |
| CheckEntropy.CheckArgsTexts | cmd/check-entropy/main.go:79-82 | a negative threshold reads "invalid entropy threshold", and critical above warning reads "critical threshold must be less than or equal to warning threshold" |
| CheckEntropy.Classify | cmd/check-entropy/main.go:100-111 | CRITICAL exactly when v <= critical, WARNING exactly when critical < v <= warning, OK exactly when v is above both; the printed message names the returned state |
| CheckEntropy.ClassifyBands | cmd/check-entropy/main.go:100-111 | with valid thresholds exactly one band holds, OK exactly when v > warning, and never UNKNOWN |
| CheckEntropy.ClassifyBoundaries | cmd/check-entropy/main.go:100-106 | a reading equal to a threshold falls into the more severe band |
| CheckEntropy.ClassifyMonotone | cmd/check-entropy/main.go:100-111 | less entropy never gives a less severe state |
| CheckEntropy.ExecuteCheck | cmd/check-entropy/main.go:87-112 | UNKNOWN exactly when the read fails, with the wrapped error and no output; in metrics mode OK with the metric line; otherwise the classification |
| CheckEntropy.MetricsIgnoreThresholds | cmd/check-entropy/main.go:94-97 | in metrics mode the outcome does not depend on the thresholds |
| CheckEntropy.Run | cmd/check-entropy/main.go:73 | invalid thresholds give UNKNOWN with the validation error and no output; valid ones give executeCheck's outcome |
| CheckEntropy.DefaultConfigValid | cmd/check-entropy/main.go:38-47 | the default thresholds pass validation |
| CheckEntropy.RunReadFailure | cmd/check-entropy/main.go:88-91 | a failed reading is UNKNOWN with no output and an error starting `failed to read entropy: `; a parse failure adds `failed to parse entropy value: `, and a read error is the prefix plus the cause |
| MetricsEntropy.DefaultConfig | cmd/metrics-entropy/main.go:35 | the default scheme is the same as check-entropy's |
| MetricsEntropy.CheckArgs | cmd/metrics-entropy/main.go:47-49 | every configuration is accepted with OK and no error |
| MetricsEntropy.ExecuteMetric | cmd/metrics-entropy/main.go:51-61 | UNKNOWN exactly when the read fails, with the wrapped error and no output; otherwise OK with the metric line |
| MetricsEntropy.Run | cmd/metrics-entropy/main.go:43 | it is executeMetric's outcome, since validation never fails: UNKNOWN exactly when the read fails, with an error starting `failed to read entropy: ` and no output |
| MetricsEntropy.SameAsCheckMetricsMode | cmd/metrics-entropy/main.go:51-61 | metrics-entropy gives the same outcome as check-entropy in metrics mode, whatever valid thresholds the latter has |
| MetricsEntropy.OutputRoundTrip | cmd/metrics-entropy/main.go:57-58 | a successful run prints one line whose fields are the scheme, the reading and the timestamp |
| Scenarios.ReadsAs | cmd/check-entropy/main.go:120-121 | a file holding a number's text followed by white space reads as that number |
| Scenarios.CheckDefaults | cmd/check-entropy/main.go:100-111 | with the default thresholds the check classifies the number in the file against 60 and 30 |
| Scenarios.CheckWarning | cmd/check-entropy/main.go:105-107 | the file "45\n" gives WARNING and "CheckEntropy WARNING: entropy is 45" |
| Scenarios.CheckCritical | cmd/check-entropy/main.go:100-102 | the file "20" gives CRITICAL and "CheckEntropy CRITICAL: entropy is 20" |
| Scenarios.CheckOk | cmd/check-entropy/main.go:110-111 | the file "150" gives OK and "CheckEntropy OK: entropy is 150" |
| Scenarios.AbcIsNotAnInt | cmd/check-entropy/main.go:121 | Atoi fails on "abc" with a syntax error naming "abc" |
| Scenarios.GarbageIsSyntaxError | cmd/check-entropy/main.go:120-124 | the file "abc" gives the parse error on "abc" |
| Scenarios.CheckGarbage | cmd/check-entropy/main.go:88-91 | the file "abc" gives UNKNOWN with the parse error, unlike any failed read |
| Scenarios.MetricsRun | cmd/check-entropy/main.go:94-97 | in metrics mode a readable counter gives OK and the metric line whatever the valid thresholds |
| Scenarios.CheckMetrics | cmd/check-entropy/main.go:94-97 | in metrics mode, the reading 88 at 1700000000 prints "host1.entropy 88 1700000000" and gives OK |
| Scenarios.MetricsSample | cmd/metrics-entropy/main.go:57-60 | metrics-entropy prints the same line for the same inputs |

## Left out

- The Sensu SDK wiring is not modelled. That covers `sensu.NewCheck`, `Execute`, the option declarations, and the precedence of arguments, environment and keyspace. The resolved configuration is a parameter, and the defaults are constants. `Run` assumes the SDK calls the execute function only when validation returned no error.
- The SDK's numeric exit codes for the states are not visible here, so the states are an enumeration.
- How the SDK reports a validation or execution error is not modelled. The error is returned as a value with its text.
- The I/O becomes inputs. `os.ReadFile` is a `FileRead`, `os.Hostname` is a `HostLookup`, and `time.Now().Unix()` is a timestamp parameter.
- What `fmt.Printf` writes is returned as a string. The write to stdout itself is not modelled.
- File contents are modelled as decoded characters. Invalid UTF-8 in the counter file is not modelled.
- Decimal.Atoi: assumes a 64-bit `int`. On a 32-bit platform the range is smaller.
- Decimal.Quote: follows Go's escaping only for characters up to U+00FF. Go also escapes the non-printable characters above that range, such as U+2028 as `\u2028`, and the model passes those through unchanged, because Go's `unicode.IsPrint` tables are not modelled. `Unescape` accepts those characters raw in the same way, so the round trip holds for every character, but for them it does not say that Go's escape is used.
- Decimal.Escape: the same limit as `Quote`, for characters above U+00FF.
- Decimal.Unescape: reads `\xHH` as the character with code HH, where Go's literal would give the byte HH. The two agree on what Quote writes, which uses `\x` only below U+0080.
- The metric line ends with a line feed only. No platform line-ending translation is modelled.
