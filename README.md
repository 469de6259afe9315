# fetch_elastic counter and verdict core, in Dafny

`fetch_elastic` is a monitoring plugin. It runs a search query against
Elasticsearch, takes the response's total hit count, and can add that
count to a running total kept in a counter file between invocations. It
then compares the total with a warning and a critical threshold. It
prints one status line with performance data and exits with the plugin
code: 0 OK, 1 WARNING, 2 CRITICAL, 3 UNKNOWN. When run as an event
handler (`-e`) with current status 0, it deletes the counter file and
exits 0 without querying.

This project models that core of `main()`. The counter file is the state
that persists across invocations: a `CounterFile` object for the file at
one `-cf` path, whose `content` is absent (`None`) or the file's bytes.
`Run` accepts a configuration naming that path or no path at all. `CounterFile.Run` is one
invocation, written step by step as the Go code is. It is proved equal
to the pure function `Probe.Step`, and the lemmas state the
properties of `Step`.

Modules:

- `Wrappers`: `Option` and `Result`.
- `Int64`: Go's `int64`, and `WrapAdd` for Go's wrapping `+`.
- `LittleEndian`: `binary.Write` and `binary.Read` of an int64 with
  `binary.LittleEndian` (`EncodeLE`, `DecodeLE`, `ReadInt64`), with both
  round trips. Bytes are `newtype byte = 0..255`.
- `Decimal`: the `%d` rendering, and a parser that reads it back.
- `Verdict`: `Classify`, `ExitCode` and `StatusLine`, and a parser that
  recovers the severity, the value, the phrase and both thresholds from a
  status line.
- `Probe`: the inputs, `Step`, and the `CounterFile` class.
- `ProbeProperties`: one lemma per promised behaviour, and what a series
  of invocations does to the counter file.
- `Scenarios`: a client that drives `CounterFile.Run` through threshold
  scenarios with warn 10 and crit 20.

Inputs in place of the outside world:

- `Config` holds the parsed flags `-cf`, `-e`, `-s`, `-c`, `-w` and `-o`.
- `SearchOutcome` is how client setup, reading the query file, the
  search and decoding the response ended. It is either the hit count or
  the failing step with the library's error text.
- `FileOps` says whether reading, writing and removing the counter file
  succeed, and gives the text of a write error.
- Standard output and the exit code are returned values.

Behaviour of the code worth knowing:

- A counter file shorter than 8 bytes is not a fatal read error.
  `binary.Read` fails, the error text ("EOF" for an empty file,
  "unexpected EOF" otherwise) is printed, the prior count stays 0, and the
  file is rewritten. A file longer than 8 bytes is read from its first 8
  bytes.
- `fmt.Print(err)` writes to standard output with no newline. So a decode
  or write error comes right before the status line. Standard output then
  does not always begin with the severity word (`ShortCounterFile`,
  `WriteFailure`).
- The total is Go's int64 sum, which wraps around on overflow. It is not
  the unbounded sum (`WrapAdd`, `AccumulatedHistory`).

## Model

| member | source | states |
|---|---|---|
| `Int64.WrapAdd` | fetch_elastic.go:137 | the int64 sum equals the mathematical sum when that fits in int64; two non-negative operands that overflow give a negative result |
| `Int64.WrapOfWrapped` | fetch_elastic.go:137 | wrapping an intermediate sum and then adding more wraps to the same value as wrapping the whole sum |
| `LittleEndian.EncodeLE` | fetch_elastic.go:139-140 | the encoding of an int64 is exactly 8 bytes which, read least significant first, give the value's two's-complement bit pattern |
| `LittleEndian.DecodeLE` | fetch_elastic.go:133 | the int64 decoded from 8 bytes has, as its two's-complement bit pattern, the number the bytes give read least significant first |
| `LittleEndian.DecodeEncode` | fetch_elastic.go:133-140 | decoding the encoding of any int64 gives that int64 back |
| `LittleEndian.EncodeDecode` | fetch_elastic.go:133-140 | every 8-byte sequence is the encoding of the value it decodes to |
| `LittleEndian.ReadInt64` | fetch_elastic.go:132-136 | the read succeeds exactly when at least 8 bytes are present, and the first 8 bytes are then the encoding of the result; it fails with EOF exactly when the content is empty |
| `LittleEndian.ReadEncoded` | fetch_elastic.go:132-140 | what the write step stores, the read step reads back, whatever bytes follow |
| `LittleEndian.ErrorText` | fetch_elastic.go:134-136 | the printed decode error is a non-empty text ("EOF" or "unexpected EOF") |
| `Decimal.FormatInt` | fetch_elastic.go:152 | the `%d` rendering is non-empty and begins with '-' exactly for a negative number |
| `Decimal.ParseFormatInt` | fetch_elastic.go:152 | reading back the `%d` rendering of any integer gives that integer |
| `Decimal.NoSeparator` | fetch_elastic.go:152 | the `%d` rendering contains no character other than '-' and digits, so no ';', '|' or ':' |
| `Verdict.Classify` | fetch_elastic.go:151-160 | CRITICAL exactly when value >= crit; WARNING exactly when warn <= value < crit; OK exactly when the value is below both thresholds; never UNKNOWN |
| `Verdict.ClassifyMonotone` | fetch_elastic.go:151-160 | a larger value never gets a milder verdict |
| `Verdict.NoWarningAboveCrit` | fetch_elastic.go:151-156 | when warn >= crit, WARNING is never reported, because value == crit is CRITICAL first |
| `Verdict.ExitCode` | fetch_elastic.go:151-160 | exit codes lie in 0..3, and 3 is used exactly for UNKNOWN |
| `Verdict.ExitCodeRoundTrip` | fetch_elastic.go:151-160 | the exit code identifies the severity uniquely |
| `Verdict.StatusLine` | fetch_elastic.go:152-158 | a status line begins with its severity word |
| `Verdict.Headline` | fetch_elastic.go:152 | the readable part after the ':' begins with a blank |
| `Verdict.HeadlineRoundTrip` | fetch_elastic.go:152 | the readable part ` <value> <phrase>` gives back the value and the phrase exactly, whatever blanks or separators the phrase contains |
| `Verdict.PerfData` | fetch_elastic.go:152 | the performance data contains no bar character, so the last bar of a status line is the one that starts it |
| `Verdict.StatusLinesDifferOnlyInToken` | fetch_elastic.go:152-158 | the three verdict lines for the same value, phrase and thresholds are identical after the severity word |
| `Verdict.PerfDataRoundTrip` | fetch_elastic.go:152 | the `hits=<value>;<warn>;<crit>;;` suffix gives back the value and both thresholds exactly |
| `Verdict.StatusLineRoundTrip` | fetch_elastic.go:152-158 | whatever the `-o` phrase contains, reading a status line recovers its severity, the value and the phrase of its readable part, and the value and both thresholds of its performance data |
| `Probe.AfterRemove` | fetch_elastic.go:51 | removing the counter file either leaves no file or leaves it as it was (`ProbeProperties.EventReset` states which) |
| `Probe.FailureReport` | fetch_elastic.go:76-120 | every failure before the counter step is reported on a line that begins with "UNKNOWN: " |
| `Probe.AddPrior` | fetch_elastic.go:126-137 | with at least 8 bytes the total is the hit count plus the decoded first 8 bytes and nothing is printed; with fewer the total is the hit count and an error text is printed |
| `Probe.Accumulated` | fetch_elastic.go:124-138 | with no file the total is the hit count and nothing is printed; with at least 8 bytes it is the wrapped sum of the hit count and the decoded first 8 bytes; with fewer it is the hit count and an error text is printed |
| `Probe.Saved` | fetch_elastic.go:139-147 | a successful write leaves the 8-byte encoding of the total and prints nothing; a failed write leaves the file as it was |
| `Probe.Report` | fetch_elastic.go:151-160 | the verdict's exit code is that of the classified severity, so it lies in 0..2 and is never UNKNOWN |
| `Probe.NextOutcome` | fetch_elastic.go:50-160 | a reset exits 0 silently; the exit code lies in 0..3 and is 3 exactly when a step before the counter step fails or an existing counter file cannot be read |
| `Probe.Step` | fetch_elastic.go:49-160 | an invocation that exits 3 leaves the counter file as it was, and the file changes only when a counter path is set |
| `Probe.NextFile` | fetch_elastic.go:49-148 | the counter file changes only when a counter path is set; a successful accumulating run leaves exactly 8 bytes |
| `Probe.CounterFile.AddStoredCount` | fetch_elastic.go:125-138 | the read step's total and printed text are those of `Probe.Accumulated`, and the file is only read |
| `Probe.CounterFile.Store` | fetch_elastic.go:139-147 | after the write step the file holds the encoded total, or is unchanged when the write fails and the error text is returned |
| `Probe.CounterFile.Run` | fetch_elastic.go:49-160 | for a configuration naming this file's path or none, the exit code, the standard output and the new counter file are those of `Step`; a reset exits 0 silently; without a hit count or a counter path the file is untouched |
| `ProbeProperties.EventReset` | fetch_elastic.go:50-53 | event mode with status 0 exits 0 with no output and does not depend on the search; the file is removed when a path is set and removal works, otherwise unchanged |
| `ProbeProperties.EventWithProblemStatus` | fetch_elastic.go:50 | event mode with a non-zero status runs exactly the ordinary probe |
| `ProbeProperties.ResetForgetsHistory` | fetch_elastic.go:50-53 | after a reset with a counter path, the next invocation with the same path behaves as if no counter file had ever existed |
| `ProbeProperties.EarlyFailure` | fetch_elastic.go:76-120 | client, query-file, search or decode failures end with exit 3 and a line beginning "UNKNOWN: ", and the counter file is untouched |
| `ProbeProperties.UnreadableCounterFile` | fetch_elastic.go:127-131 | an existing counter file that cannot be read ends with "UNKNOWN: could not open counter file" and exit 3, and nothing is written |
| `ProbeProperties.ReportRoundTrip` | fetch_elastic.go:150-160 | the exit code names the verdict's severity, and the line carries that severity, the final total and both thresholds |
| `ProbeProperties.NoCounterPath` | fetch_elastic.go:123-124 | with no counter path the verdict is on the hit count alone and the counter file is untouched |
| `ProbeProperties.FirstAccumulation` | fetch_elastic.go:123-148 | with a counter path and no file, the verdict is on the hit count, and the file afterwards holds exactly its 8-byte encoding, which reads back as the hit count |
| `ProbeProperties.Accumulation` | fetch_elastic.go:125-144 | with a file of at least 8 bytes, the total is the hit count plus the stored int64, with int64 wrap-around, and equals the plain sum when no overflow occurs; the verdict is on that total; the file afterwards holds exactly its encoding |
| `ProbeProperties.ShortCounterFile` | fetch_elastic.go:132-144 | a file shorter than 8 bytes is not fatal: the decode error text comes before the verdict, the prior count is 0, and the file is rewritten with the hit count |
| `ProbeProperties.WriteFailure` | fetch_elastic.go:144-147 | a failed write leaves the file as it was, prints its error before the verdict, and does not change the verdict |
| `ProbeProperties.ExitCodes` | fetch_elastic.go:76-160 | every invocation exits with 0..3, and exit 3 always comes with a line beginning "UNKNOWN: " |
| `ProbeProperties.StepOnStored` | fetch_elastic.go:125-144 | an invocation on a file written by an earlier one stores the wrapped sum of the old total and the new hit count |
| `ProbeProperties.RunsFromStored` | fetch_elastic.go:122-148 | successive invocations starting from a stored total p leave the wrapped sum of p and all their hit counts |
| `ProbeProperties.AccumulatedHistory` | fetch_elastic.go:122-148 | successive invocations starting with no counter file leave the wrapped sum of all their hit counts, and exactly that sum while it fits in an int64 |

## Left out

- Flag parsing, flag defaults and the usage text (fetch_elastic.go:29-47). The parsed values are the `Config` input.
- Client configuration and construction, the CA file, reading the query file, `os.ExpandEnv`, the search call and JSON decoding of the response (fetch_elastic.go:55-120). These are library and network calls. Only their outcome is modelled: `SearchOutcome` is a hit count or a failure with its error text. A search whose HTTP status is an error, but whose body still decodes, is only a hit count here, as it is to the code. The error of reading the response body (line 113) is ignored by the code and not modelled.
- The file system is reduced to one optional byte sequence at the configured path, plus success flags. Files at other paths are not modelled: a `CounterFile` is the file at its one `-cf` path. A failing `os.Stat` that is not "does not exist" counts as a present but unreadable file. File mode 0644 is not modelled.
- Probe.CounterFile.Store: a failed write leaves the old content. `ioutil.WriteFile` truncates before it writes, so a write that fails after truncating would leave a shorter file; that case is not modelled.
- The error branch of `binary.Write` into a `bytes.Buffer` (fetch_elastic.go:141-143) is not modelled, because an int64 can always be encoded.
- Writing to standard output and the process exit are returned values; the deferred body close has no observable effect.
- `-s` is Go's `int`; it is an unbounded `int` here, since only its comparison with 0 matters.
- Concurrent invocations, and crashes between the read and the write of the counter file, are not modelled.
