/**
 * What an invocation promises, stated on `Probe.Step` (and so, through
 * `CounterFile.Run`'s postcondition, on the imperative model), and what a
 * sequence of invocations does to the counter file.
 */
module ProbeProperties {
  import opened Wrappers
  import opened Int64
  import opened LittleEndian
  import opened Verdict
  import opened Probe

  // ---------------------------------------------------------------------
  // Event mode

  /** Event mode with status 0 exits 0 silently before any query: the search
      outcome plays no part, and the counter file is removed when a path is
      set and removal works (otherwise the ignored error leaves it as it was). */
  lemma EventReset(file: File, cfg: Config, search: SearchOutcome, other: SearchOutcome, ops: FileOps)
    requires cfg.event && cfg.currentStatus == 0
    ensures Step(file, cfg, search, ops).outcome == Outcome(0, "")
    ensures Step(file, cfg, search, ops) == Step(file, cfg, other, ops)
    ensures Step(file, cfg, search, ops).file
         == if cfg.counterPath != "" && ops.removable then None else file
  {
  }

  /** Event mode with a non-zero status runs the ordinary probe. */
  lemma EventWithProblemStatus(file: File, cfg: Config, search: SearchOutcome, ops: FileOps)
    requires cfg.event && cfg.currentStatus != 0
    ensures Step(file, cfg, search, ops) == Step(file, cfg.(event := false), search, ops)
  {
  }

  /** After a reset the next invocation behaves as if no count had ever
      been stored. */
  lemma ResetForgetsHistory(file: File, resetCfg: Config, resetOps: FileOps, skipped: SearchOutcome,
                            cfg: Config, search: SearchOutcome, ops: FileOps)
    requires IsReset(resetCfg) && resetCfg.counterPath != "" && resetOps.removable
    requires cfg.counterPath == resetCfg.counterPath
    ensures Step(Step(file, resetCfg, skipped, resetOps).file, cfg, search, ops) == Step(None, cfg, search, ops)
  {
  }

  // ---------------------------------------------------------------------
  // Failures before the verdict

  /** A failure of client setup, query file, search or response decoding
      ends with UNKNOWN and exit 3 and leaves the counter file alone. */
  lemma EarlyFailure(file: File, cfg: Config, search: SearchOutcome, ops: FileOps)
    requires !IsReset(cfg) && !search.Hits?
    ensures Step(file, cfg, search, ops).outcome.exit == 3
    ensures Step(file, cfg, search, ops).outcome.stdout[..9] == "UNKNOWN: "
    ensures Step(file, cfg, search, ops).file == file
  {
  }

  /** An existing counter file that cannot be read ends with UNKNOWN and
      exit 3 before anything is written. */
  lemma UnreadableCounterFile(content: seq<byte>, cfg: Config, hits: int64, ops: FileOps)
    requires !IsReset(cfg) && cfg.counterPath != "" && !ops.readable
    ensures Step(Some(content), cfg, Hits(hits), ops)
         == Transition(Outcome(3, "UNKNOWN: could not open counter file"), Some(content))
  {
  }

  // ---------------------------------------------------------------------
  // The counter step

  /** The verdict line names the severity the exit code reports, the final
      total and both thresholds, whatever the phrase. */
  lemma ReportRoundTrip(total: int64, cfg: Config)
    ensures SeverityOfExit(Report(total, cfg).exit) == Some(Classify(total, cfg.warn, cfg.crit))
    ensures ParseStatusLine(Report(total, cfg).stdout)
         == Some(Reading(Classify(total, cfg.warn, cfg.crit), total as int, cfg.phrase,
                         total as int, cfg.warn as int, cfg.crit as int))
  {
    ExitCodeRoundTrip(Classify(total, cfg.warn, cfg.crit));
    StatusLineRoundTrip(Classify(total, cfg.warn, cfg.crit), total, cfg.phrase, cfg.warn, cfg.crit);
  }

  /** Without a counter path the verdict is on the hit count alone and the
      counter file is not touched. */
  lemma NoCounterPath(file: File, cfg: Config, hits: int64, ops: FileOps)
    requires !IsReset(cfg) && cfg.counterPath == ""
    ensures Step(file, cfg, Hits(hits), ops) == Transition(Report(hits, cfg), file)
  {
  }

  /** With a counter path and no file yet, the verdict is on the hit count
      and the file afterwards holds exactly its 8-byte encoding. */
  lemma FirstAccumulation(cfg: Config, hits: int64, ops: FileOps)
    requires !IsReset(cfg) && cfg.counterPath != "" && ops.writeError.None?
    ensures Step(None, cfg, Hits(hits), ops).outcome == Report(hits, cfg)
    ensures Step(None, cfg, Hits(hits), ops).file == Some(EncodeLE(hits))
    ensures ReadInt64(Step(None, cfg, Hits(hits), ops).file.value) == Ok(hits)
  {
    ReadEncoded(hits, []);
    assert EncodeLE(hits) + [] == EncodeLE(hits);
  }

  /** With a readable file of at least 8 bytes, the total is the hit count
      plus the int64 in the first 8 bytes (wrapping as Go's int64 `+`
      does), the verdict is on that total, and the file afterwards holds
      exactly its encoding, which the next run reads back. */
  lemma Accumulation(content: seq<byte>, cfg: Config, hits: int64, ops: FileOps)
    requires !IsReset(cfg) && cfg.counterPath != "" && ops.readable && ops.writeError.None?
    requires |content| >= WIDTH
    ensures var prior := DecodeLE(content[..WIDTH]);
            var t := Step(Some(content), cfg, Hits(hits), ops);
            t.outcome == Report(WrapAdd(hits, prior), cfg)
            && t.file == Some(EncodeLE(WrapAdd(hits, prior)))
            && ReadInt64(t.file.value) == Ok(WrapAdd(hits, prior))
            && (InRange(hits as int + prior as int) ==> WrapAdd(hits, prior) as int == hits as int + prior as int)
  {
    var total := WrapAdd(hits, DecodeLE(content[..WIDTH]));
    ReadEncoded(total, []);
    assert EncodeLE(total) + [] == EncodeLE(total);
  }

  /** A counter file shorter than 8 bytes is not fatal: the decoding error
      is printed ahead of the verdict, the prior count is 0, and the file
      is rewritten with the hit count. */
  lemma ShortCounterFile(content: seq<byte>, cfg: Config, hits: int64, ops: FileOps)
    requires !IsReset(cfg) && cfg.counterPath != "" && ops.readable && ops.writeError.None?
    requires |content| < WIDTH
    ensures var t := Step(Some(content), cfg, Hits(hits), ops);
            t.outcome.exit == Report(hits, cfg).exit
            && t.outcome.stdout == ErrorText(if content == [] then EOF else UnexpectedEOF) + Report(hits, cfg).stdout
            && t.file == Some(EncodeLE(hits))
  {
  }

  /** A failed write is printed ahead of the verdict, leaves the counter
      file as it was, and does not change the verdict. */
  lemma WriteFailure(file: File, cfg: Config, hits: int64, ops: FileOps, err: string)
    requires !IsReset(cfg) && cfg.counterPath != "" && (file.None? || ops.readable)
    requires ops.writeError == Some(err)
    ensures var total := Accumulated(file, hits).0;
            var t := Step(file, cfg, Hits(hits), ops);
            t.file == file
            && t.outcome.exit == Report(total, cfg).exit
            && t.outcome.stdout == Accumulated(file, hits).1 + err + Report(total, cfg).stdout
  {
  }

  /** The exit code is always a plugin state, and exit 3 always comes with
      an UNKNOWN line. */
  lemma ExitCodes(file: File, cfg: Config, search: SearchOutcome, ops: FileOps)
    ensures 0 <= Step(file, cfg, search, ops).outcome.exit <= 3
    ensures Step(file, cfg, search, ops).outcome.exit == 3
        ==> |Step(file, cfg, search, ops).outcome.stdout| >= 9
            && Step(file, cfg, search, ops).outcome.stdout[..9] == "UNKNOWN: "
  {
    var t := Step(file, cfg, search, ops);
    if t.outcome.exit == 3 && !IsReset(cfg) && search.Hits? {
      assert cfg.counterPath != "" && file.Some? && !ops.readable;
    }
  }

  // ---------------------------------------------------------------------
  // Successive invocations

  /** The counter file after successive ordinary invocations whose searches
      found `hs[0]`, `hs[1]`, ... hits, every file operation succeeding. */
  function Runs(file: File, cfg: Config, hs: seq<int64>): (f: File)
    ensures hs == [] ==> f == file
    decreases hs
  {
    if hs == [] then file
    else Runs(NextFile(file, cfg, Hits(hs[0]), ALL_SUCCEED), cfg, hs[1..])
  }

  function Sum(hs: seq<int64>): int {
    if hs == [] then 0 else hs[0] as int + Sum(hs[1..])
  }

  /** One ordinary invocation on a file written by an earlier one. */
  lemma StepOnStored(p: int64, cfg: Config, h: int64)
    requires !IsReset(cfg) && cfg.counterPath != ""
    ensures NextFile(Some(EncodeLE(p)), cfg, Hits(h), ALL_SUCCEED) == Some(EncodeLE(WrapAdd(h, p)))
  {
    DecodeEncode(p);
    assert EncodeLE(p)[..WIDTH] == EncodeLE(p);
  }

  /** Adding `h` to the stored `p` and then the rest of the history wraps
      to the same value as adding the whole history to `p`. */
  lemma WrapHistory(p: int64, h: int64, rest: int)
    ensures Wrap(WrapAdd(h, p) as int + rest) == Wrap(p as int + (h as int + rest))
  {
    WrapOfWrapped(h as int + p as int, rest);
  }

  lemma {:induction false} RunsFromStored(p: int64, cfg: Config, hs: seq<int64>)
    requires !IsReset(cfg) && cfg.counterPath != ""
    ensures Runs(Some(EncodeLE(p)), cfg, hs) == Some(EncodeLE(Wrap(p as int + Sum(hs))))
    decreases hs
  {
    if hs == [] {
      assert Wrap(p as int + 0) == p;
    } else {
      var h, rest := hs[0], hs[1..];
      StepOnStored(p, cfg, h);
      var next := WrapAdd(h, p);
      RunsFromStored(next, cfg, rest);
      WrapHistory(p, h, Sum(rest));
    }
  }

  /** Starting from no counter file, successive invocations leave the
      (wrapped) sum of all their hit counts in the file; while that sum
      fits an int64 the file holds exactly the sum. */
  lemma AccumulatedHistory(cfg: Config, hs: seq<int64>)
    requires !IsReset(cfg) && cfg.counterPath != "" && hs != []
    ensures Runs(None, cfg, hs) == Some(EncodeLE(Wrap(Sum(hs))))
    ensures InRange(Sum(hs)) ==> ReadInt64(Runs(None, cfg, hs).value) == Ok(Sum(hs) as int64)
  {
    var first := NextFile(None, cfg, Hits(hs[0]), ALL_SUCCEED);
    assert first == Some(EncodeLE(hs[0]));
    RunsFromStored(hs[0], cfg, hs[1..]);
    ReadEncoded(Wrap(Sum(hs)), []);
    assert EncodeLE(Wrap(Sum(hs))) + [] == EncodeLE(Wrap(Sum(hs)));
  }
}
