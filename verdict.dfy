/**
 * The verdict: the final hit total is classified against the warning and
 * critical thresholds, rendered as one status line with performance data
 * for the monitoring supervisor, and mapped to the plugin exit code.
 */
module Verdict {
  import opened Wrappers
  import opened Int64
  import opened Decimal

  /** The monitoring-plugin states; UNKNOWN is reserved for errors. */
  datatype Severity = OK | WARNING | CRITICAL | UNKNOWN

  /** The word that opens a status line of this severity. */
  function Token(sev: Severity): (t: string)
    ensures t != [] && ':' !in t
  {
    match sev
    case OK => "OK"
    case WARNING => "WARNING"
    case CRITICAL => "CRITICAL"
    case UNKNOWN => "UNKNOWN"
  }

  /** The process exit code reporting a severity. */
  function ExitCode(sev: Severity): (code: int)
    ensures 0 <= code <= 3
    ensures code == 3 <==> sev == UNKNOWN
  {
    match sev
    case OK => 0
    case WARNING => 1
    case CRITICAL => 2
    case UNKNOWN => 3
  }

  /** How the supervisor reads an exit code back. */
  function SeverityOfExit(code: int): (sev: Option<Severity>)
    ensures sev.Some? <==> 0 <= code <= 3
  {
    if code == 0 then Some(OK)
    else if code == 1 then Some(WARNING)
    else if code == 2 then Some(CRITICAL)
    else if code == 3 then Some(UNKNOWN)
    else None
  }

  /** Exit codes identify the severity uniquely. */
  lemma ExitCodeRoundTrip(sev: Severity)
    ensures SeverityOfExit(ExitCode(sev)) == Some(sev)
  {
  }

  /** The fixed-priority comparison: critical first, then warning. */
  function Classify(value: int64, warn: int64, crit: int64): (sev: Severity)
    ensures sev != UNKNOWN
    ensures sev == CRITICAL <==> value >= crit
    ensures sev == WARNING <==> warn <= value < crit
    ensures sev == OK <==> value < warn && value < crit
  {
    if value >= crit then CRITICAL
    else if value >= warn then WARNING
    else OK
  }

  /** A larger total never gets a milder verdict. */
  lemma ClassifyMonotone(v1: int64, v2: int64, warn: int64, crit: int64)
    requires v1 <= v2
    ensures ExitCode(Classify(v1, warn, crit)) <= ExitCode(Classify(v2, warn, crit))
  {
  }

  /** With the warning threshold at or above the critical one, WARNING is
      never reported: every value at or above `crit` is CRITICAL first. */
  lemma NoWarningAboveCrit(value: int64, warn: int64, crit: int64)
    requires warn >= crit
    ensures Classify(value, warn, crit) != WARNING
  {
  }

  /** The performance-data suffix from already rendered numbers. */
  function PerfFields(v: string, w: string, c: string): string {
    "hits=" + v + [';'] + w + [';'] + c + ";;"
  }

  /** The performance-data suffix `hits=<value>;<warn>;<crit>;;`. */
  function PerfData(value: int64, warn: int64, crit: int64): (p: string)
    ensures '|' !in p
  {
    NoSeparator(value as int, '|');
    NoSeparator(warn as int, '|');
    NoSeparator(crit as int, '|');
    PerfFields(FormatInt(value as int), FormatInt(warn as int), FormatInt(crit as int))
  }

  /** `<SEV>: <value> <phrase>|hits=<value>;<warn>;<crit>;;` */
  function StatusLine(sev: Severity, value: int64, phrase: string, warn: int64, crit: int64): (line: string)
    ensures |line| > |Token(sev)| && line[..|Token(sev)|] == Token(sev)
  {
    Layout(Token(sev), Headline(value, phrase), PerfData(value, warn, crit))
  }

  /** A status line from its three parts: `<word>:<headline>|<perf data>`. */
  function Layout(word: string, head: string, perf: string): string {
    word + [':'] + head + ['|'] + perf
  }

  /** The human-readable part between the ':' and the '|': ` <value> <phrase>`. */
  function Headline(value: int64, phrase: string): (h: string)
    ensures h != [] && h[0] == ' '
  {
    " " + FormatInt(value as int) + " " + phrase
  }

  /** The lines of the three verdicts differ only in their severity token. */
  lemma StatusLinesDifferOnlyInToken(s1: Severity, s2: Severity, value: int64, phrase: string,
                                     warn: int64, crit: int64)
    ensures StatusLine(s1, value, phrase, warn, crit)[|Token(s1)|..]
         == StatusLine(s2, value, phrase, warn, crit)[|Token(s2)|..]
  {
    var h, p := Headline(value, phrase), PerfData(value, warn, crit);
    LayoutAfterWord(Token(s1), h, p);
    LayoutAfterWord(Token(s2), h, p);
  }

  lemma LayoutAfterWord(word: string, head: string, perf: string)
    ensures Layout(word, head, perf)[|word|..] == [':'] + head + ['|'] + perf
  {
    assert Layout(word, head, perf) == word + ([':'] + head + ['|'] + perf);
  }

  // ---------------------------------------------------------------------
  // Reading a status line back, as a supervisor does.

  /** The text before the first `sep` and the text after it. */
  function SplitFirst(s: string, sep: char): (r: Option<(string, string)>)
    ensures r.Some? ==> sep !in r.value.0 && s == r.value.0 + [sep] + r.value.1
    ensures r.None? <==> sep !in s
  {
    if s == [] then None
    else if s[0] == sep then Some(([], s[1..]))
    else
      match SplitFirst(s[1..], sep)
      case None => None
      case Some((a, b)) => Some(([s[0]] + a, b))
  }

  /** The text before the last `sep` and the text after it. */
  function SplitLast(s: string, sep: char): (r: Option<(string, string)>)
    ensures r.Some? ==> sep !in r.value.1 && s == r.value.0 + [sep] + r.value.1
    ensures r.None? <==> sep !in s
  {
    if s == [] then None
    else
      match SplitLast(s[1..], sep)
      case Some((a, b)) => Some(([s[0]] + a, b))
      case None => if s[0] == sep then Some(([], s[1..])) else None
  }

  lemma {:induction false} SplitFirstAt(p: string, sep: char, rest: string)
    requires sep !in p
    ensures SplitFirst(p + [sep] + rest, sep) == Some((p, rest))
  {
    if p != [] {
      var s := p + [sep] + rest;
      assert s[1..] == p[1..] + [sep] + rest;
      SplitFirstAt(p[1..], sep, rest);
      assert [p[0]] + p[1..] == p;
    }
  }

  lemma {:induction false} SplitLastAt(p: string, sep: char, q: string)
    requires sep !in q
    ensures SplitLast(p + [sep] + q, sep) == Some((p, q))
  {
    var s := p + [sep] + q;
    if p == [] {
      assert s[1..] == q;
    } else {
      assert s[1..] == p[1..] + [sep] + q;
      SplitLastAt(p[1..], sep, q);
      assert [p[0]] + p[1..] == p;
    }
  }

  /** The first ':' of a laid-out line ends the word and its last '|' starts
      the performance data, whatever the headline holds. */
  lemma SplitLayout(word: string, head: string, perf: string)
    requires ':' !in word && '|' !in perf
    ensures SplitFirst(Layout(word, head, perf), ':') == Some((word, head + ['|'] + perf))
    ensures SplitLast(head + ['|'] + perf, '|') == Some((head, perf))
  {
    assert Layout(word, head, perf) == word + [':'] + (head + ['|'] + perf);
    SplitFirstAt(word, ':', head + ['|'] + perf);
    SplitLastAt(head, '|', perf);
  }

  /** The three rendered numbers of a performance-data suffix. */
  function SplitPerfData(p: string): (r: Option<(string, string, string)>)
  {
    if |p| < 5 || p[..5] != "hits=" then None
    else
      match SplitFirst(p[5..], ';')
      case None => None
      case Some((v, r1)) =>
        match SplitFirst(r1, ';')
        case None => None
        case Some((w, r2)) =>
          match SplitFirst(r2, ';')
          case None => None
          case Some((c, r3)) => if r3 == ";" then Some((v, w, c)) else None
  }

  lemma SplitPerfFields(v: string, w: string, c: string)
    requires ';' !in v && ';' !in w && ';' !in c
    ensures SplitPerfData(PerfFields(v, w, c)) == Some((v, w, c))
  {
    var p := PerfFields(v, w, c);
    var tail2 := c + [';'] + ";";
    var tail1 := w + [';'] + tail2;
    assert p == "hits=" + (v + [';'] + tail1);
    assert p[..5] == "hits=" && p[5..] == v + [';'] + tail1;
    SplitFirstAt(v, ';', tail1);
    SplitFirstAt(w, ';', tail2);
    SplitFirstAt(c, ';', ";");
  }

  /** The three integers of a performance-data suffix. */
  function ParsePerfData(p: string): (r: Option<(int, int, int)>)
  {
    match SplitPerfData(p)
    case None => None
    case Some((v, w, c)) =>
      match (ParseInt(v), ParseInt(w), ParseInt(c))
      case (Some(vv), Some(ww), Some(cc)) => Some((vv, ww, cc))
      case _ => None
  }

  /** The performance data carries the value and both thresholds exactly. */
  lemma PerfDataRoundTrip(value: int64, warn: int64, crit: int64)
    ensures ParsePerfData(PerfData(value, warn, crit)) == Some((value as int, warn as int, crit as int))
  {
    var fv, fw, fc := FormatInt(value as int), FormatInt(warn as int), FormatInt(crit as int);
    NoSeparator(value as int, ';');
    NoSeparator(warn as int, ';');
    NoSeparator(crit as int, ';');
    SplitPerfFields(fv, fw, fc);
    ParseFormatInt(value as int);
    ParseFormatInt(warn as int);
    ParseFormatInt(crit as int);
  }

  /** The value and the phrase of a headline: a blank, a numeral, a blank and
      the rest of the text. */
  function ParseHeadline(h: string): (r: Option<(int, string)>)
  {
    if h == [] || h[0] != ' ' then None
    else
      match SplitFirst(h[1..], ' ')
      case None => None
      case Some((numeral, phrase)) =>
        match ParseInt(numeral)
        case None => None
        case Some(v) => Some((v, phrase))
  }

  /** The headline carries the value and the phrase exactly, whatever blanks
      or separators the phrase contains. */
  lemma HeadlineRoundTrip(value: int64, phrase: string)
    ensures ParseHeadline(Headline(value, phrase)) == Some((value as int, phrase))
  {
    var f := FormatInt(value as int);
    NoSeparator(value as int, ' ');
    assert Headline(value, phrase)[1..] == f + [' '] + phrase;
    SplitFirstAt(f, ' ', phrase);
    ParseFormatInt(value as int);
  }

  /** The severity a word names, if any. */
  function ParseSeverity(word: string): (r: Option<Severity>)
    ensures r.Some? ==> Token(r.value) == word
  {
    if word == "OK" then Some(OK)
    else if word == "WARNING" then Some(WARNING)
    else if word == "CRITICAL" then Some(CRITICAL)
    else if word == "UNKNOWN" then Some(UNKNOWN)
    else None
  }

  /** What a supervisor reads off a status line. */
  datatype Reading = Reading(sev: Severity, value: int, phrase: string,
                             perfValue: int, warn: int, crit: int)

  /** The severity word (before the first ':'), the headline (up to the last
      '|') and the three numbers of the performance data (after it). */
  function ParseStatusLine(line: string): (r: Option<Reading>)
  {
    match SplitFirst(line, ':')
    case None => None
    case Some((word, rest)) =>
      match SplitLast(rest, '|')
      case None => None
      case Some((head, perf)) =>
        match (ParseSeverity(word), ParseHeadline(head), ParsePerfData(perf))
        case (Some(sev), Some((v, phrase)), Some((pv, w, c))) => Some(Reading(sev, v, phrase, pv, w, c))
        case _ => None
  }

  /** Whatever the phrase says, a supervisor reading a status line recovers
      the severity, the value and the phrase of the headline, and the value
      and both thresholds of the performance data. */
  lemma StatusLineRoundTrip(sev: Severity, value: int64, phrase: string, warn: int64, crit: int64)
    ensures ParseStatusLine(StatusLine(sev, value, phrase, warn, crit))
         == Some(Reading(sev, value as int, phrase, value as int, warn as int, crit as int))
  {
    SplitLayout(Token(sev), Headline(value, phrase), PerfData(value, warn, crit));
    HeadlineRoundTrip(value, phrase);
    PerfDataRoundTrip(value, warn, crit);
    assert ParseSeverity(Token(sev)) == Some(sev);
  }
}
