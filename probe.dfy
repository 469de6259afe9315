/**
 * One invocation of the probe and the counter file it keeps between
 * invocations: the event-mode reset, the accumulation of the search's hit
 * count into the persisted total, and the final verdict.
 *
 * The command line, the search client and the file system are inputs:
 * `Config` holds the parsed flags, `SearchOutcome` how client setup, the
 * query file, the search and the response decoding ended, and `FileOps`
 * whether each call on the counter file succeeds.
 */
module Probe {
  import opened Wrappers
  import opened Int64
  import opened LittleEndian
  import opened Verdict

  /** The flags the core reads. */
  datatype Config = Config(
    counterPath: string,  // -cf, empty when no counter file is kept
    event: bool,          // -e
    currentStatus: int,   // -s
    crit: int64,          // -c
    warn: int64,          // -w
    phrase: string)       // -o

  /** How everything before the counter step ended: with the response's
      `hits.total.value`, or with the failing step and its error text. */
  datatype SearchOutcome =
    | ClientInitFailed(err: string)
    | QueryFileUnreadable(err: string)
    | SearchFailed(err: string)
    | UnmarshalFailed(err: string)
    | Hits(total: int64)

  /** Whether the file-system calls on the counter file succeed. A failing
      write reports its error text. */
  datatype FileOps = FileOps(readable: bool, writeError: Option<string>, removable: bool)

  const ALL_SUCCEED := FileOps(true, None, true)

  /** The counter file at the configured path: absent, or its bytes. */
  type File = Option<seq<byte>>

  /** What the process writes to standard output and its exit code. */
  datatype Outcome = Outcome(exit: int, stdout: string)

  /** How an invocation ends, and the counter file it leaves. */
  datatype Transition = Transition(outcome: Outcome, file: File)

  const UNREADABLE_COUNTER: string := "UNKNOWN: could not open counter file"

  /** Event mode with an OK current status: purge the counter and quit. */
  predicate IsReset(cfg: Config) {
    cfg.event && cfg.currentStatus == 0
  }

  /** The file after `os.Remove(path)`, whose error is ignored; removing
      the empty path fails and leaves everything as it was. */
  function AfterRemove(file: File, cfg: Config, ops: FileOps): (f: File)
    ensures f.None? || f == file
  {
    if cfg.counterPath != "" && ops.removable then None else file
  }

  /** The UNKNOWN report of a step that failed before the counter step. */
  function FailureReport(search: SearchOutcome): (out: string)
    requires !search.Hits?
    ensures |out| > 9 && out[..9] == "UNKNOWN: "
  {
    var reason :=
      match search
      case ClientInitFailed(err) => "Could not initialize elasticsearch client.\n" + err
      case QueryFileUnreadable(err) => "Could not open query file.\n" + err
      case SearchFailed(err) => "Could not retrieve data from elasticsearch.\n" + err
      case UnmarshalFailed(err) => "Could not unmarshal search data\n" + err;
    "UNKNOWN: " + reason
  }

  /** The total after adding the prior count held by an existing counter
      file, and the decoding error text printed on the way, if any. A
      content too short to decode contributes 0. */
  function AddPrior(hits: int64, content: seq<byte>): (r: (int64, string))
    ensures |content| >= WIDTH ==> r.1 == [] && r.0 == WrapAdd(hits, DecodeLE(content[..WIDTH]))
    ensures |content| < WIDTH ==> r.0 == hits && r.1 != []
  {
    match ReadInt64(content)
    case Ok(prior) => (WrapAdd(hits, prior), "")
    case Err(e) => (WrapAdd(hits, 0), ErrorText(e))
  }

  /** The total and the read error text of the counter step, from the
      counter file as it was found. */
  function Accumulated(file: File, hits: int64): (r: (int64, string))
    ensures file.None? ==> r == (hits, "")
    ensures file.Some? && |file.value| >= WIDTH
            ==> r == (WrapAdd(hits, DecodeLE(file.value[..WIDTH])), "")
    ensures file.Some? && |file.value| < WIDTH ==> r.0 == hits && r.1 != []
  {
    if file.Some? then AddPrior(hits, file.value) else (hits, "")
  }

  /** The counter file after `ioutil.WriteFile` of the encoded total, and
      the write error text printed, if any. */
  function Saved(file: File, total: int64, ops: FileOps): (r: (File, string))
    ensures ops.writeError.None? ==> r == (Some(EncodeLE(total)), "")
    ensures ops.writeError.Some? ==> r.0 == file
  {
    match ops.writeError
    case None => (Some(EncodeLE(total)), "")
    case Some(err) => (file, err)
  }

  /** The verdict on a final total. */
  function Report(total: int64, cfg: Config): (o: Outcome)
    ensures o.exit == ExitCode(Classify(total, cfg.warn, cfg.crit))
    ensures 0 <= o.exit < 3
  {
    var sev := Classify(total, cfg.warn, cfg.crit);
    Outcome(ExitCode(sev), StatusLine(sev, total, cfg.phrase, cfg.warn, cfg.crit))
  }

  /** The counter file an invocation leaves behind. */
  function NextFile(file: File, cfg: Config, search: SearchOutcome, ops: FileOps): (f: File)
    ensures (!IsReset(cfg) && cfg.counterPath != "" && search.Hits? && (file.None? || ops.readable)
             && ops.writeError.None?) ==> f.Some? && |f.value| == WIDTH
    ensures f != file ==> cfg.counterPath != ""
  {
    if IsReset(cfg) then AfterRemove(file, cfg, ops)
    else if !search.Hits? || cfg.counterPath == "" || (file.Some? && !ops.readable) then file
    else Saved(file, Accumulated(file, search.total).0, ops).0
  }

  /** What an invocation prints and the code it exits with. */
  function NextOutcome(file: File, cfg: Config, search: SearchOutcome, ops: FileOps): (o: Outcome)
    ensures IsReset(cfg) ==> o == Outcome(0, "")
    ensures 0 <= o.exit <= 3
    ensures o.exit == 3 <==>
              !IsReset(cfg) && (!search.Hits? || (cfg.counterPath != "" && file.Some? && !ops.readable))
  {
    if IsReset(cfg) then Outcome(0, "")
    else if !search.Hits? then Outcome(3, FailureReport(search))
    else if cfg.counterPath == "" then Report(search.total, cfg)
    else if file.Some? && !ops.readable then Outcome(3, UNREADABLE_COUNTER)
    else
      var acc := Accumulated(file, search.total);
      var verdict := Report(acc.0, cfg);
      Outcome(verdict.exit, acc.1 + Saved(file, acc.0, ops).1 + verdict.stdout)
  }

  /** One invocation, from the counter file it starts with. */
  function Step(file: File, cfg: Config, search: SearchOutcome, ops: FileOps): (t: Transition)
    ensures t.outcome.exit == 3 ==> t.file == file
    ensures t.file != file ==> cfg.counterPath != ""
  {
    Transition(NextOutcome(file, cfg, search, ops), NextFile(file, cfg, search, ops))
  }

  /** The counter file at one path, which successive invocations given that
      path read and rewrite; an invocation without a path leaves it alone. */
  class CounterFile {
    /** The -cf path this file lives at. */
    const path: string
    var content: File

    constructor (p: string, initial: File)
      ensures path == p && content == initial
    {
      path := p;
      content := initial;
    }

    /** The counter step's read: adds the prior count stored in the file,
        if there is one, to `hits`. */
    method AddStoredCount(hits: int64) returns (total: int64, readNote: string)
      ensures (total, readNote) == Accumulated(content, hits)
    {
      total, readNote := hits, "";
      if content.Some? {
        var priorHits: int64 := 0;
        match ReadInt64(content.value) {
          case Ok(v) =>
            priorHits := v;
          case Err(e) =>
            readNote := ErrorText(e);
        }
        total := WrapAdd(total, priorHits);
      }
    }

    /** The counter step's write: overwrites the file with the encoded total. */
    method Store(total: int64, ops: FileOps) returns (writeNote: string)
      modifies this
      ensures (content, writeNote) == Saved(old(content), total, ops)
    {
      writeNote := "";
      var buf := EncodeLE(total);
      match ops.writeError {
        case None =>
          content := Some(buf);
        case Some(err) =>
          writeNote := err;
      }
    }

    /** One invocation of the probe: returns the exit code and what was
        written to standard output, and updates the counter file. */
    method Run(cfg: Config, search: SearchOutcome, ops: FileOps) returns (exit: int, stdout: string)
      requires cfg.counterPath == "" || cfg.counterPath == path
      modifies this
      ensures Transition(Outcome(exit, stdout), content) == Step(old(content), cfg, search, ops)
      ensures IsReset(cfg) ==> exit == 0 && stdout == []
      ensures !IsReset(cfg) && (!search.Hits? || cfg.counterPath == "") ==> content == old(content)
    {
      if cfg.event && cfg.currentStatus == 0 {
        if cfg.counterPath != "" && ops.removable {
          content := None;
        }
        return 0, "";
      }
      if !search.Hits? {
        return 3, FailureReport(search);
      }
      var hits := search.total;
      var readNote, writeNote := "", "";
      if cfg.counterPath != "" {
        if content.Some? && !ops.readable {
          return 3, UNREADABLE_COUNTER;
        }
        hits, readNote := AddStoredCount(hits);
        writeNote := Store(hits, ops);
      }
      var sev := Classify(hits, cfg.warn, cfg.crit);
      stdout := readNote + writeNote + StatusLine(sev, hits, cfg.phrase, cfg.warn, cfg.crit);
      exit := ExitCode(sev);
    }
  }
}
