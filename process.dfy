/**
 * `processFile` run sequentially: the scan loop with its two counters, the
 * error-rate decision and the marker rename. Opening, gzip and reading are not
 * modelled: a file is its list of lines, or None when it cannot be opened or
 * decompressed. Each line carries the Reply its write task would get.
 */
module Processor {
  import opened Wrappers
  import opened GoStrings
  import opened Parser
  import opened Writer
  import opened FilePath

  /** What the scan loop does with one line. */
  datatype LineClass =
    | Blank
    | Rejected(error: ParseError)
    | UnknownDevice(devType: string)
    | Dispatched(device: DeviceType, outcome: WriteOutcome)

  /** One iteration of the scan loop: trim, skip blank, parse, route, write. */
  function Classify(l: Line, parseFloat: string -> Option<real>, dry: bool): LineClass {
    var line := TrimSpace(l.text);
    if line == "" then Blank
    else
      match Parse(line, parseFloat)
      case Failure(e) => Rejected(e)
      case Success(rec) =>
        match Route(rec.devType)
        case None => UnknownDevice(rec.devType)
        case Some(d) => Dispatched(d, Insert(rec, dry, l.reply))
  }

  /** A line of the file, with the reply its write task would get if it reached one. */
  datatype Line = Line(text: string, reply: Reply)

  /** The classes of a file's lines, each line classified on its own. */
  function Classes(lines: seq<Line>, parseFloat: string -> Option<real>, dry: bool): seq<LineClass> {
    seq(|lines|, i requires 0 <= i < |lines| => Classify(lines[i], parseFloat, dry))
  }

  /** The per-file counters `processed` and `errors`. */
  datatype Counters = Counters(processed: nat, errors: nat) {
    function Plus(other: Counters): Counters {
      Counters(processed + other.processed, errors + other.errors)
    }
  }

  /** The counter that one line increments, if any. */
  function Count(c: Counters, cls: LineClass): Counters {
    match cls
    case Blank => c
    case Rejected(_) => c.(errors := c.errors + 1)
    case UnknownDevice(_) => c.(errors := c.errors + 1)
    case Dispatched(_, w) =>
      if w.Succeeded() then c.(processed := c.processed + 1) else c.(errors := c.errors + 1)
  }

  /** The counters after a sequence of lines, starting from zero. */
  function CountAll(cs: seq<LineClass>): Counters {
    if cs == [] then Counters(0, 0) else Count(CountAll(cs[..|cs| - 1]), cs[|cs| - 1])
  }

  /** The counters `processFile` ends with, had it counted every outcome before reading them. */
  function Tally(lines: seq<Line>, parseFloat: string -> Option<real>, dry: bool): Counters {
    CountAll(Classes(lines, parseFloat, dry))
  }

  /** The number of lines that are not blank once trimmed. */
  function NonBlank(lines: seq<Line>): nat {
    if lines == [] then 0
    else NonBlank(lines[..|lines| - 1]) + (if TrimSpace(lines[|lines| - 1].text) == "" then 0 else 1)
  }

  /**
   * The line, once trimmed, is not blank, parses to a record whose device type
   * has a shard, and the write of that record succeeds: the task sends true.
   */
  predicate Written(l: Line, parseFloat: string -> Option<real>, dry: bool) {
    var line := TrimSpace(l.text);
    line != "" && Parse(line, parseFloat).Success? &&
    Route(Parse(line, parseFloat).value.devType).Some? &&
    Insert(Parse(line, parseFloat).value, dry, l.reply).Succeeded()
  }

  /**
   * The line is not blank but is not written: it fails to parse, names a device
   * type without a shard, or its write fails.
   */
  predicate Failed(l: Line, parseFloat: string -> Option<real>, dry: bool) {
    TrimSpace(l.text) != "" && !Written(l, parseFloat, dry)
  }

  /** The number of lines that are written. */
  function WrittenCount(lines: seq<Line>, parseFloat: string -> Option<real>, dry: bool): nat {
    if lines == [] then 0
    else
      WrittenCount(lines[..|lines| - 1], parseFloat, dry) +
      (if Written(lines[|lines| - 1], parseFloat, dry) then 1 else 0)
  }

  /** The number of lines that are not blank and not written. */
  function FailedCount(lines: seq<Line>, parseFloat: string -> Option<real>, dry: bool): nat {
    if lines == [] then 0
    else
      FailedCount(lines[..|lines| - 1], parseFloat, dry) +
      (if Failed(lines[|lines| - 1], parseFloat, dry) then 1 else 0)
  }

  /**
   * The scan loop of `processFile`: blank lines are skipped, a line that fails
   * to parse or has an unknown device type is an error and the scan goes on,
   * and every dispatched write adds its outcome to `processed` or `errors`.
   */
  method ScanLines(lines: seq<Line>, parseFloat: string -> Option<real>, dry: bool)
    returns (processed: nat, errors: nat)
    ensures Counters(processed, errors) == Tally(lines, parseFloat, dry)
  {
    processed, errors := 0, 0;
    assert Classes(lines[..0], parseFloat, dry) == [];
    for k := 0 to |lines|
      invariant Counters(processed, errors) == Tally(lines[..k], parseFloat, dry)
    {
      TallySnoc(lines, parseFloat, dry, k);
      processed, errors := ScanLine(lines[k], parseFloat, dry, processed, errors);
    }
    assert lines[..|lines|] == lines;
  }

  /**
   * One iteration of the scan loop on the counters so far: a blank line is
   * skipped, a parse failure or an unknown device type is an error, and a
   * dispatched write adds its outcome to one of the two counters.
   */
  method ScanLine(l: Line, parseFloat: string -> Option<real>, dry: bool, processed0: nat, errors0: nat)
    returns (processed: nat, errors: nat)
    ensures Counters(processed, errors) == Count(Counters(processed0, errors0), Classify(l, parseFloat, dry))
  {
    processed, errors := processed0, errors0;
    ghost var cls := Classify(l, parseFloat, dry);
    var line := TrimSpace(l.text);
    if line == "" {
      assert cls == Blank;
      return;
    }
    var parsed := ParseAppsInstalled(line, parseFloat);
    if parsed.Failure? {
      assert cls == Rejected(parsed.error);
      errors := errors + 1;
      return;
    }
    var rec := parsed.value;
    var shard := Route(rec.devType);
    if shard.None? {
      assert cls == UnknownDevice(rec.devType);
      errors := errors + 1;
      return;
    }
    var outcome := Insert(rec, dry, l.reply);
    assert cls == Dispatched(shard.value, outcome);
    if outcome.Succeeded() {
      processed := processed + 1;
    } else {
      errors := errors + 1;
    }
  }

  // ---------------------------------------------------------------------------
  // Properties of the counting

  /** Classifying a prefix of the lines gives a prefix of the classes. */
  lemma ClassesPrefix(lines: seq<Line>, parseFloat: string -> Option<real>, dry: bool, k: nat)
    requires k <= |lines|
    ensures Classes(lines[..k], parseFloat, dry) == Classes(lines, parseFloat, dry)[..k]
  {
  }

  /** Lines are classified independently, so classifying distributes over concatenation. */
  lemma ClassesAppend(l1: seq<Line>, l2: seq<Line>, parseFloat: string -> Option<real>, dry: bool)
    ensures Classes(l1 + l2, parseFloat, dry) == Classes(l1, parseFloat, dry) + Classes(l2, parseFloat, dry)
  {
    var lhs := Classes(l1 + l2, parseFloat, dry);
    var rhs := Classes(l1, parseFloat, dry) + Classes(l2, parseFloat, dry);
    forall i | 0 <= i < |lhs| ensures lhs[i] == rhs[i] {
      if i < |l1| {
        assert (l1 + l2)[i] == l1[i];
      } else {
        assert (l1 + l2)[i] == l2[i - |l1|];
      }
    }
  }

  /** The tally of the lines is the tally of all but the last, counted with the last line's class. */
  lemma TallyLast(lines: seq<Line>, parseFloat: string -> Option<real>, dry: bool)
    requires lines != []
    ensures Tally(lines, parseFloat, dry)
         == Count(Tally(lines[..|lines| - 1], parseFloat, dry), Classify(lines[|lines| - 1], parseFloat, dry))
  {
    var n := |lines|;
    var cs := Classes(lines, parseFloat, dry);
    ClassesPrefix(lines, parseFloat, dry, n - 1);
    assert cs[n - 1] == Classify(lines[n - 1], parseFloat, dry);
  }

  /** Scanning one more line adds onto the counters so far by that line's class only. */
  lemma TallySnoc(lines: seq<Line>, parseFloat: string -> Option<real>, dry: bool, k: nat)
    requires k < |lines|
    ensures Tally(lines[..k + 1], parseFloat, dry)
         == Count(Tally(lines[..k], parseFloat, dry), Classify(lines[k], parseFloat, dry))
  {
    assert lines[..k + 1][..k] == lines[..k];
    TallyLast(lines[..k + 1], parseFloat, dry);
  }

  /** Counting distributes over concatenation: the counters add up. */
  lemma {:induction false} CountAllAppend(a: seq<LineClass>, b: seq<LineClass>)
    ensures CountAll(a + b) == CountAll(a).Plus(CountAll(b))
    decreases |b|
  {
    if b == [] {
      assert a + b == a;
    } else {
      var ab := a + b;
      assert ab[..|ab| - 1] == a + b[..|b| - 1];
      assert ab[|ab| - 1] == b[|b| - 1];
      CountAllAppend(a, b[..|b| - 1]);
    }
  }

  /** Every non-blank line is counted exactly once, as processed or as an error. */
  lemma {:induction false} TallyCountsNonBlank(lines: seq<Line>, parseFloat: string -> Option<real>, dry: bool)
    ensures Tally(lines, parseFloat, dry).processed + Tally(lines, parseFloat, dry).errors == NonBlank(lines)
    decreases |lines|
  {
    if lines != [] {
      var n := |lines|;
      TallyCountsNonBlank(lines[..n - 1], parseFloat, dry);
      TallyLast(lines, parseFloat, dry);
      ClassifyBlank(lines[n - 1], parseFloat, dry);
      CountOne(Tally(lines[..n - 1], parseFloat, dry), Classify(lines[n - 1], parseFloat, dry));
    }
  }

  /** A line is classified blank exactly when it is empty once trimmed. */
  lemma ClassifyBlank(raw: Line, parseFloat: string -> Option<real>, dry: bool)
    ensures Classify(raw, parseFloat, dry).Blank? <==> TrimSpace(raw.text) == ""
  {
  }

  /** A blank line leaves both counters alone; any other line adds one to exactly one of them. */
  lemma CountOne(c: Counters, cls: LineClass)
    ensures cls.Blank? ==> Count(c, cls) == c
    ensures !cls.Blank? ==>
      Count(c, cls) == Counters(c.processed + 1, c.errors) || Count(c, cls) == Counters(c.processed, c.errors + 1)
  {
  }

  /**
   * One line's effect on the counters, in terms of what happens to it: a written
   * line adds one to `processed`, a failed one adds one to `errors`, and a
   * blank one changes nothing.
   */
  lemma CountLine(c: Counters, l: Line, parseFloat: string -> Option<real>, dry: bool)
    ensures Count(c, Classify(l, parseFloat, dry)) ==
      Counters(c.processed + (if Written(l, parseFloat, dry) then 1 else 0),
               c.errors + (if Failed(l, parseFloat, dry) then 1 else 0))
  {
  }

  /**
   * The counters the scan ends with count exactly the written lines as
   * processed and the failed lines as errors.
   */
  lemma {:induction false} TallyBySource(lines: seq<Line>, parseFloat: string -> Option<real>, dry: bool)
    ensures Tally(lines, parseFloat, dry) ==
      Counters(WrittenCount(lines, parseFloat, dry), FailedCount(lines, parseFloat, dry))
    decreases |lines|
  {
    if lines != [] {
      var n := |lines|;
      TallyBySource(lines[..n - 1], parseFloat, dry);
      TallyLast(lines, parseFloat, dry);
      CountLine(Tally(lines[..n - 1], parseFloat, dry), lines[n - 1], parseFloat, dry);
    }
  }

  /** An error class in the middle of a sequence adds one error to the count of the rest. */
  lemma CountAllError(a: seq<LineClass>, c: LineClass, b: seq<LineClass>)
    requires c.Rejected? || c.UnknownDevice?
    ensures CountAll(a + [c] + b) == Counters(CountAll(a + b).processed, CountAll(a + b).errors + 1)
  {
    var ac := a + [c];
    assert ac[..|ac| - 1] == a && ac[|ac| - 1] == c;
    CountAllAppend(ac, b);
    CountAllAppend(a, b);
  }

  /**
   * A line that fails to parse, or names an unknown device type, adds one error
   * and does not stop the scan: the lines after it are counted as if it were absent.
   */
  lemma ErrorLineCounted(before: seq<Line>, line: Line, after: seq<Line>, parseFloat: string -> Option<real>, dry: bool)
    requires TrimSpace(line.text) != ""
    requires Parse(TrimSpace(line.text), parseFloat).Failure?
          || Route(Parse(TrimSpace(line.text), parseFloat).value.devType).None?
    ensures var skipped := Tally(before + after, parseFloat, dry);
      Tally(before + [line] + after, parseFloat, dry) == Counters(skipped.processed, skipped.errors + 1)
  {
    var a := Classes(before, parseFloat, dry);
    var b := Classes(after, parseFloat, dry);
    var c := Classify(line, parseFloat, dry);
    ClassesAppend(before + [line], after, parseFloat, dry);
    ClassesAppend(before, [line], parseFloat, dry);
    ClassesAppend(before, after, parseFloat, dry);
    assert Classes([line], parseFloat, dry) == [c];
    CountAllError(a, c, b);
  }

  // ---------------------------------------------------------------------------
  // The error-rate decision and the marker rename

  /** The largest acceptable ratio of errors to processed records. */
  const NormalErrRate: real := 0.01

  /** The verdict `processFile` logs once a file is scanned. */
  datatype Evaluation = NotRated | Acceptable | TooManyErrors

  /**
   * No rate is computed when nothing was processed; otherwise the load is
   * acceptable exactly when `errors / processed` is below `NormalErrRate`.
   */
  function Evaluate(c: Counters): (e: Evaluation)
    ensures e == NotRated <==> c.processed == 0
    ensures c.processed > 0 ==>
      (e == Acceptable <==> (c.errors as real) / (c.processed as real) < NormalErrRate)
    ensures c.processed > 0 ==>
      (e == TooManyErrors <==> (c.errors as real) / (c.processed as real) >= NormalErrRate)
  {
    if c.processed == 0 then NotRated
    else
      RateBelow(c.errors, c.processed);
      if 100 * c.errors < c.processed then Acceptable else TooManyErrors
  }

  /** The rate test on whole numbers: `e / p < 1/100` exactly when `100 * e < p`. */
  lemma RateBelow(e: nat, p: nat)
    requires p > 0
    ensures (e as real) / (p as real) < NormalErrRate <==> 100 * e < p
  {
    var r := (e as real) / (p as real);
    assert r * (p as real) == e as real;
    if r < NormalErrRate {
      assert r * (p as real) < NormalErrRate * (p as real);
    } else {
      assert r * (p as real) >= NormalErrRate * (p as real);
    }
  }

  /** More errors at the same number of processed records never improve the verdict. */
  lemma EvaluateMonotone(c: Counters, d: Counters)
    requires c.processed == d.processed && c.errors <= d.errors
    ensures Evaluate(c) == TooManyErrors ==> Evaluate(d) == TooManyErrors
    ensures Evaluate(d) == Acceptable ==> Evaluate(c) == Acceptable
  {
  }

  /** What `processFile` leaves behind for one file. */
  datatype FileReport =
    | Skipped
    | Marked(counters: Counters, evaluation: Evaluation, renamedTo: string)

  /**
   * `processFile`: a file that cannot be opened or decompressed is left as it is;
   * otherwise its lines are scanned, the rate is judged, and the file is renamed
   * to its dot-prefixed name whatever the verdict.
   */
  method ProcessFile(path: string, contents: Option<seq<Line>>, parseFloat: string -> Option<real>, dry: bool)
    returns (r: FileReport)
    requires SimplePath(path)
    ensures contents.None? <==> r == Skipped
    ensures contents.Some? ==>
      var c := Tally(contents.value, parseFloat, dry);
      r == Marked(c, Evaluate(c), DotRename(path))
    ensures r.Marked? ==> Base(r.renamedTo) == "." + Base(path) && Dir(r.renamedTo) == Dir(path)
  {
    if contents.None? {
      return Skipped;
    }
    var processed, errors := ScanLines(contents.value, parseFloat, dry);
    var counters := Counters(processed, errors);
    var evaluation := Evaluate(counters);
    var newPath := DotRename(path);
    r := Marked(counters, evaluation, newPath);
  }
}
