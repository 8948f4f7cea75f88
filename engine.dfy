/**
 * The streaming engine `PathwaySimulator` of monitoring_pipeline.py: its
 * constructor, one iteration of the `while True` loop of `run` (`Poll`), and the
 * effect of successive iterations over a finite series of observations of the
 * input file (`RunSpec`).
 *
 * `json.loads` is the parameter `parse`: `None` where it raises
 * `json.JSONDecodeError`. A snapshot of the input is `None` while the file does
 * not exist and otherwise the file's whole text at the moment it is read.
 */
module Engine {
  import opened Wrappers
  import opened JsonModel
  import opened PyText
  import opened Transform
  import opened Tailing

  /** What the body of the `for line in new_lines` loop does with one line. */
  datatype LineStep =
    | Blank                         // empty after `strip()`: skipped
    | Malformed                     // `json.JSONDecodeError`: caught, printed, skipped
    | Emit(record: Enriched)        // one record appended, `row_count` raised by one
    | Crash(error: TransformError)  // `_transform_row` raised: the exception leaves `run`

  /** `_transform_row`, or another function of the decoded value to a record or an exception. */
  type RowTransform = Json -> Result<Enriched, TransformError>

  /** The transform only produces records whose statuses are those of their own readings. */
  ghost predicate Classifying(transform: RowTransform)
  {
    forall row :: transform(row).Ok? ==> Classified(transform(row).value)
  }

  lemma TransformRowClassifying()
    ensures Classifying(TransformRow)
  {
    forall row | TransformRow(row).Ok? ensures Classified(TransformRow(row).value) {
      var r := TransformRow(row);
    }
  }

  /**
   * One line: strip it, skip it when blank, `json.loads` it, skip it when that
   * raises, otherwise transform the decoded value.
   */
  function StepLine(line: string, parse: string -> Option<Json>, transform: RowTransform): LineStep
  {
    var s := Strip(line);
    if s == [] then Blank
    else match parse(s)
      case None => Malformed
      case Some(row) =>
        match transform(row)
        case Ok(e) => Emit(e)
        case Err(x) => Crash(x)
  }

  /**
   * A line is skipped as blank exactly when it is all white space; `json.loads`
   * sees every other line, and only a line it accepts reaches the transform.
   */
  lemma LineOutcomes(line: string, parse: string -> Option<Json>, transform: RowTransform)
    ensures var r := StepLine(line, parse, transform);
      && (r.Blank? <==> forall i :: 0 <= i < |line| ==> IsSpace(line[i]))
      && (r.Malformed? <==> Strip(line) != [] && parse(Strip(line)).None?)
      && (r.Emit? || r.Crash? <==> Strip(line) != [] && parse(Strip(line)).Some?)
  {
    StripEmptyIffBlank(line);
  }

  /** The records a series of lines appends, and the exception that stopped it, if any. */
  datatype Batch = Batch(records: seq<Enriched>, failure: Option<TransformError>)

  /**
   * The `for line in new_lines` loop: the lines taken in order, each appending
   * at most one record; the first line whose transform raises stops the loop.
   */
  function ProcessLines(lines: seq<string>, parse: string -> Option<Json>, transform: RowTransform): Batch
    decreases |lines|
  {
    if lines == [] then Batch([], None)
    else
      var prior := ProcessLines(lines[..|lines| - 1], parse, transform);
      if prior.failure.Some? then prior
      else match StepLine(lines[|lines| - 1], parse, transform)
        case Blank => prior
        case Malformed => prior
        case Emit(e) => Batch(prior.records + [e], None)
        case Crash(x) => Batch(prior.records, Some(x))
  }

  /** How many of `lines` `json.loads` accepts (blank lines are never handed to it). */
  function DecodableCount(lines: seq<string>, parse: string -> Option<Json>): nat
    decreases |lines|
  {
    if lines == [] then 0
    else
      var last := lines[|lines| - 1];
      DecodableCount(lines[..|lines| - 1], parse) + (if Strip(last) != [] && parse(Strip(last)).Some? then 1 else 0)
  }

  /**
   * Every decodable line appends exactly one record (so `row_count` grows by the
   * number of decodable lines); when a transform raises, fewer records than
   * decodable lines were appended.
   */
  lemma {:induction false} ProcessLinesCount(lines: seq<string>, parse: string -> Option<Json>, transform: RowTransform)
    ensures var b := ProcessLines(lines, parse, transform);
      && (b.failure.None? ==> |b.records| == DecodableCount(lines, parse))
      && (b.failure.Some? ==> |b.records| < DecodableCount(lines, parse))
    decreases |lines|
  {
    if lines != [] {
      ProcessLinesCount(lines[..|lines| - 1], parse, transform);
    }
  }

  /**
   * Processing is in input order: the lines of `a` then the lines of `b` give the
   * records of `a` followed by those of `b`, unless `a` already stopped.
   */
  lemma {:induction false} ProcessLinesAppend(a: seq<string>, b: seq<string>, parse: string -> Option<Json>, transform: RowTransform)
    ensures var pa, pb := ProcessLines(a, parse, transform), ProcessLines(b, parse, transform);
      ProcessLines(a + b, parse, transform) == if pa.failure.Some? then pa else Batch(pa.records + pb.records, pb.failure)
    decreases |b|
  {
    if b == [] {
      assert a + b == a;
    } else {
      var init := b[..|b| - 1];
      assert (a + b)[..|a + b| - 1] == a + init;
      assert (a + b)[|a + b| - 1] == b[|b| - 1];
      ProcessLinesAppend(a, init, parse, transform);
    }
  }

  /** Once a transform has raised, the remaining lines change nothing. */
  lemma FailureIsFinal(lines: seq<string>, k: nat, parse: string -> Option<Json>, transform: RowTransform)
    requires k <= |lines| && ProcessLines(lines[..k], parse, transform).failure.Some?
    ensures ProcessLines(lines, parse, transform) == ProcessLines(lines[..k], parse, transform)
  {
    ProcessLinesAppend(lines[..k], lines[k..], parse, transform);
    assert lines[..k] + lines[k..] == lines;
  }

  /** One more line: `ProcessLines` unfolded once at a prefix, the step `Poll`'s loop takes with the next line. */
  lemma ProcessLinesSnoc(lines: seq<string>, k: nat, parse: string -> Option<Json>, transform: RowTransform)
    requires k < |lines|
    ensures var prior := ProcessLines(lines[..k], parse, transform);
      ProcessLines(lines[..k + 1], parse, transform) ==
        if prior.failure.Some? then prior
        else match StepLine(lines[k], parse, transform)
          case Emit(e) => Batch(prior.records + [e], None)
          case Crash(x) => Batch(prior.records, Some(x))
          case _ => prior
  {
    assert lines[..k + 1][..k] == lines[..k];
  }

  /** Every record a series of lines appends carries the statuses of its own readings. */
  lemma {:induction false} ProcessedRecordsClassified(lines: seq<string>, parse: string -> Option<Json>, transform: RowTransform)
    requires Classifying(transform)
    ensures forall k :: 0 <= k < |ProcessLines(lines, parse, transform).records| ==> Classified(ProcessLines(lines, parse, transform).records[k])
    decreases |lines|
  {
    if lines != [] {
      var prior := ProcessLines(lines[..|lines| - 1], parse, transform);
      ProcessedRecordsClassified(lines[..|lines| - 1], parse, transform);
      var step := StepLine(lines[|lines| - 1], parse, transform);
      if prior.failure.None? && step.Emit? {
        var records := ProcessLines(lines, parse, transform).records;
        assert records == prior.records + [step.record];
        forall k | 0 <= k < |records| ensures Classified(records[k]) {
          if k < |prior.records| {
            assert records[k] == prior.records[k];
          }
        }
      }
    }
  }

  /**
   * Malformed-line isolation: a line `json.loads` rejects between two good
   * readings drops out, and the two records appear in input order.
   */
  lemma MalformedLineIsolated(good1: string, bad: string, good2: string, parse: string -> Option<Json>, transform: RowTransform)
    requires StepLine(good1, parse, transform).Emit? && StepLine(good2, parse, transform).Emit?
    requires Strip(bad) != [] && parse(Strip(bad)).None?
    ensures ProcessLines([good1, bad, good2], parse, transform) ==
      Batch([StepLine(good1, parse, transform).record, StepLine(good2, parse, transform).record], None)
  {
    var r1, r2 := StepLine(good1, parse, transform).record, StepLine(good2, parse, transform).record;
    assert [good1][..0] == [];
    assert ProcessLines([good1], parse, transform) == Batch([r1], None);
    assert [good1, bad][..1] == [good1];
    assert StepLine(bad, parse, transform).Malformed?;
    assert ProcessLines([good1, bad], parse, transform) == Batch([r1], None);
    assert [good1, bad, good2][..2] == [good1, bad];
  }

  /** What one poll does: the new offset and the batch of records appended. */
  datatype PollResult = PollResult(offset: nat, batch: Batch)

  /**
   * One iteration of `run`: nothing while the input is missing; otherwise read
   * from `offset` to the end and process every line read, a torn last line
   * included.
   */
  function PollSpec(offset: nat, input: Option<string>, parse: string -> Option<Json>, transform: RowTransform): (r: PollResult)
    ensures input.None? ==> r == PollResult(offset, Batch([], None))
    ensures r.offset >= offset
    ensures input.Some? && offset <= |input.value| ==> r.offset == |input.value|
  {
    match input
    case None => PollResult(offset, Batch([], None))
    case Some(file) =>
      var (lines, next) := ReadFrom(file, offset);
      PollResult(next, ProcessLines(lines, parse, transform))
  }

  /** Successive polls over the given snapshots, stopping at the first that raised. */
  function RunSpec(offset: nat, inputs: seq<Option<string>>, parse: string -> Option<Json>, transform: RowTransform): (r: PollResult)
    ensures r.offset >= offset
    decreases |inputs|
  {
    if inputs == [] then PollResult(offset, Batch([], None))
    else
      var prior := RunSpec(offset, inputs[..|inputs| - 1], parse, transform);
      if prior.batch.failure.Some? then prior
      else
        var next := PollSpec(prior.offset, inputs[|inputs| - 1], parse, transform);
        PollResult(next.offset, Batch(prior.batch.records + next.batch.records, next.batch.failure))
  }

  /** Once a poll has raised, `run` has ended: later snapshots change nothing. */
  lemma {:induction false} RunFailureIsFinal(offset: nat, inputs: seq<Option<string>>, k: nat, parse: string -> Option<Json>, transform: RowTransform)
    requires k <= |inputs| && RunSpec(offset, inputs[..k], parse, transform).batch.failure.Some?
    ensures RunSpec(offset, inputs, parse, transform) == RunSpec(offset, inputs[..k], parse, transform)
    decreases |inputs|
  {
    if |inputs| > k {
      var init := inputs[..|inputs| - 1];
      assert init[..k] == inputs[..k];
      RunFailureIsFinal(offset, init, k, parse, transform);
    } else {
      assert inputs[..k] == inputs;
    }
  }

  /** One more snapshot: `RunSpec` unfolded once at a prefix, the next iteration of `run` extending the polls so far. */
  lemma RunSpecSnoc(offset: nat, inputs: seq<Option<string>>, k: nat, parse: string -> Option<Json>, transform: RowTransform)
    requires k < |inputs|
    ensures var prior := RunSpec(offset, inputs[..k], parse, transform);
      var next := PollSpec(prior.offset, inputs[k], parse, transform);
      RunSpec(offset, inputs[..k + 1], parse, transform) ==
        if prior.batch.failure.Some? then prior
        else PollResult(next.offset, Batch(prior.batch.records + next.batch.records, next.batch.failure))
  {
    assert inputs[..k + 1][..k] == inputs[..k];
  }

  /** A text the producer has finished writing: empty, or ending with a complete line. */
  predicate LineAligned(s: string)
  {
    s == [] || s[|s| - 1] == '\n'
  }

  /**
   * The input was seen at every poll, only grew between polls, and every poll
   * but the last found it ending on a complete line.
   */
  predicate AlignedGrowth(inputs: seq<Option<string>>)
  {
    && (forall i :: 0 <= i < |inputs| ==> inputs[i].Some?)
    && (forall i :: 0 < i < |inputs| ==> inputs[i - 1].value <= inputs[i].value)
    && (forall i :: 0 <= i < |inputs| - 1 ==> LineAligned(inputs[i].value))
  }

  /**
   * Ordering preservation: when every poll but the last ends on a line boundary,
   * a fresh engine (offset 0) polling a growing input appends exactly the records
   * one read of the final input would give, in the same order, however the lines
   * were batched across polls.
   */
  lemma {:induction false} AlignedPollsReadOnce(inputs: seq<Option<string>>, parse: string -> Option<Json>, transform: RowTransform)
    requires |inputs| > 0 && AlignedGrowth(inputs)
    ensures var last := inputs[|inputs| - 1].value;
      var r := RunSpec(0, inputs, parse, transform);
      && r.batch == ProcessLines(Lines(last), parse, transform)
      && (r.batch.failure.None? ==> r.offset == |last|)
    decreases |inputs|
  {
    var last := inputs[|inputs| - 1].value;
    var init := inputs[..|inputs| - 1];
    if |inputs| == 1 {
      assert init == [];
      assert last[0..] == last;
    } else {
      var prev := init[|init| - 1].value;
      assert AlignedGrowth(init);
      AlignedPollsReadOnce(init, parse, transform);
      ResumeAtLineBoundary(prev, last, parse, transform);
    }
  }

  /** Polls that find no input file change nothing. */
  lemma {:induction false} WaitingChangesNothing(offset: nat, waits: seq<Option<string>>, parse: string -> Option<Json>, transform: RowTransform)
    requires forall i :: 0 <= i < |waits| ==> waits[i].None?
    ensures RunSpec(offset, waits, parse, transform) == PollResult(offset, Batch([], None))
    decreases |waits|
  {
    if waits != [] {
      WaitingChangesNothing(offset, waits[..|waits| - 1], parse, transform);
      var none: seq<Enriched> := [];
      assert none + none == none;
    }
  }

  /** Waiting for the input file before it first appears leaves the later polls as they would be. */
  lemma {:induction false} LeadingWaitsChangeNothing(offset: nat, waits: seq<Option<string>>, inputs: seq<Option<string>>, parse: string -> Option<Json>, transform: RowTransform)
    requires forall i :: 0 <= i < |waits| ==> waits[i].None?
    ensures RunSpec(offset, waits + inputs, parse, transform) == RunSpec(offset, inputs, parse, transform)
    decreases |inputs|
  {
    if inputs == [] {
      assert waits + inputs == waits;
      WaitingChangesNothing(offset, waits, parse, transform);
    } else {
      var init := inputs[..|inputs| - 1];
      var all := waits + inputs;
      assert all[..|all| - 1] == waits + init;
      assert all[|all| - 1] == inputs[|inputs| - 1];
      LeadingWaitsChangeNothing(offset, waits, init, parse, transform);
    }
  }

  /**
   * An engine started before the input exists: after any number of polls that
   * wait for the file, line-aligned polls of the growing file still append
   * exactly the records of one read of the final file.
   */
  lemma StartBeforeInputExists(waits: seq<Option<string>>, inputs: seq<Option<string>>, parse: string -> Option<Json>, transform: RowTransform)
    requires forall i :: 0 <= i < |waits| ==> waits[i].None?
    requires |inputs| > 0 && AlignedGrowth(inputs)
    ensures RunSpec(0, waits + inputs, parse, transform).batch == ProcessLines(Lines(inputs[|inputs| - 1].value), parse, transform)
  {
    LeadingWaitsChangeNothing(0, waits, inputs, parse, transform);
    AlignedPollsReadOnce(inputs, parse, transform);
  }

  /**
   * A poll that resumes where a read of `prev` stopped, `prev` ending on a
   * complete line, continues exactly as one read of the longer text would.
   */
  lemma ResumeAtLineBoundary(prev: string, last: string, parse: string -> Option<Json>, transform: RowTransform)
    requires prev <= last && LineAligned(prev)
    ensures var p, n := ProcessLines(Lines(prev), parse, transform), PollSpec(|prev|, Some(last), parse, transform);
      && n.offset == |last|
      && ProcessLines(Lines(last), parse, transform) ==
           if p.failure.Some? then p else Batch(p.records + n.batch.records, n.batch.failure)
  {
    var rest := last[|prev|..];
    assert prev + rest == last;
    LinesAppend(prev, rest);
    ProcessLinesAppend(Lines(prev), Lines(rest), parse, transform);
  }

  /**
   * A torn write is lost, as the code is written, when neither half decodes:
   * if the producer's line is split across two polls before the object is
   * complete, no record is written, whereas one poll of the finished line
   * writes its record.
   */
  lemma TornWriteIsLost(a: string, b: string, parse: string -> Option<Json>, transform: RowTransform)
    requires a != [] && forall i :: 0 <= i < |a| ==> !IsLineBreak(a[i])
    requires b != [] && b[|b| - 1] == '\n' && forall i :: 0 <= i < |b| - 1 ==> !IsLineBreak(b[i])
    requires parse(Strip(a)).None? && parse(Strip(b)).None?
    requires StepLine(a + b, parse, transform).Emit?
    ensures RunSpec(0, [Some(a), Some(a + b)], parse, transform).batch == Batch([], None)
    ensures RunSpec(0, [Some(a + b)], parse, transform).batch == Batch([StepLine(a + b, parse, transform).record], None)
    ensures RunSpec(0, [Some(a), Some(a + b)], parse, transform).offset == RunSpec(0, [Some(a + b)], parse, transform).offset == |a + b|
  {
    UnterminatedIsOneLine(a);
    TerminatedIsOneLine(b);
    var ab := a + b;
    forall i | 0 <= i < |ab| - 1 ensures !IsLineBreak(ab[i]) {
      if i < |a| { assert ab[i] == a[i]; } else { assert ab[i] == b[i - |a|]; }
    }
    TerminatedIsOneLine(ab);
    assert a[0..] == a && ab[0..] == ab && ab[|a|..] == b;
    assert [Some(a), Some(ab)][..1] == [Some(a)];
    assert [Some(a)][..0] == [] && [Some(ab)][..0] == [];
    assert [a][..0] == [] && [b][..0] == [] && [ab][..0] == [];
    assert !StepLine(a, parse, transform).Emit? && !StepLine(a, parse, transform).Crash?;
    assert !StepLine(b, parse, transform).Emit? && !StepLine(b, parse, transform).Crash?;
    assert ProcessLines([a], parse, transform) == Batch([], None);
    assert ProcessLines([b], parse, transform) == Batch([], None);
    assert PollSpec(0, Some(a), parse, transform) == PollResult(|a|, Batch([], None));
    assert PollSpec(|a|, Some(ab), parse, transform) == PollResult(|ab|, Batch([], None));
    assert RunSpec(0, [Some(a)], parse, transform) == PollResult(|a|, Batch([], None));
  }

  /**
   * A write torn just before its line break loses nothing: the first poll
   * reads the complete object as a last line without terminator and writes its
   * record, and the next poll reads the line break alone as a blank line.
   */
  lemma TornBeforeBreakKeepsRecord(a: string, parse: string -> Option<Json>, transform: RowTransform)
    requires a != [] && forall i :: 0 <= i < |a| ==> !IsLineBreak(a[i])
    requires StepLine(a, parse, transform).Emit?
    ensures RunSpec(0, [Some(a), Some(a + "\n")], parse, transform) ==
      PollResult(|a| + 1, Batch([StepLine(a, parse, transform).record], None))
    ensures RunSpec(0, [Some(a), Some(a + "\n")], parse, transform) == RunSpec(0, [Some(a + "\n")], parse, transform)
  {
    var nl := "\n";
    var an := a + nl;
    var e := StepLine(a, parse, transform).record;
    UnterminatedIsOneLine(a);
    TerminatedIsOneLine(nl);
    forall i | 0 <= i < |an| - 1 ensures !IsLineBreak(an[i]) {
      assert an[i] == a[i];
    }
    TerminatedIsOneLine(an);
    LineOutcomes(nl, parse, transform);
    LineOutcomes(a, parse, transform);
    LineOutcomes(an, parse, transform);
    StripIgnoresTrailingSpace(a, '\n');
    assert a[0..] == a && an[0..] == an && an[|a|..] == nl;
    assert [Some(a), Some(an)][..1] == [Some(a)];
    assert [Some(a)][..0] == [] && [Some(an)][..0] == [];
    assert [a][..0] == [] && [nl][..0] == [] && [an][..0] == [];
    assert StepLine(nl, parse, transform).Blank?;
    assert ProcessLines([a], parse, transform) == Batch([e], None);
    assert ProcessLines([nl], parse, transform) == Batch([], None);
    assert ProcessLines([an], parse, transform) == Batch([e], None);
    assert PollSpec(0, Some(a), parse, transform) == PollResult(|a|, Batch([e], None));
    assert PollSpec(|a|, Some(an), parse, transform) == PollResult(|an|, Batch([], None));
    assert RunSpec(0, [Some(a)], parse, transform) == PollResult(|a|, Batch([e], None));
    assert PollSpec(0, Some(an), parse, transform) == PollResult(|an|, Batch([e], None));
    assert RunSpec(0, [Some(an)], parse, transform) == PollResult(|an|, Batch([e], None));
  }

  /** How one call of `Poll` ended. */
  datatype PollOutcome =
    | Waiting                         // the input file did not exist
    | Polled                          // every line read was handled
    | Crashed(error: TransformError)  // a transform raised; `run` is over

  class PathwaySimulator {
    /** `_file_offset`: how much of the input has been read. */
    var offset: nat
    /** The records of the output file, one per line, in the order they were written. */
    var output: seq<Enriched>

    /** The engine's `_transform_row`. */
    const transform: RowTransform

    /** `__init__`: the offset starts at 0 and an existing output file is removed. */
    constructor ()
      ensures offset == 0 && output == [] && transform == TransformRow
    {
      offset := 0;
      output := [];
      transform := TransformRow;
    }

    /**
     * One iteration of the `while True` loop of `run`. `rowCount` is the loop's
     * local `row_count` on entry and `count` its value on exit.
     */
    method Poll(input: Option<string>, parse: string -> Option<Json>, rowCount: nat) returns (count: nat, outcome: PollOutcome)
      modifies this
      ensures var r := PollSpec(old(offset), input, parse, transform);
        && offset == r.offset
        && output == old(output) + r.batch.records
        && count == rowCount + |r.batch.records|
        && outcome == (if input.None? then Waiting
                       else if r.batch.failure.Some? then Crashed(r.batch.failure.value)
                       else Polled)
    {
      if input.None? {
        return rowCount, Waiting;
      }
      var (lines, next) := ReadFrom(input.value, offset);
      offset := next;
      count := rowCount;
      var i := 0;
      while i < |lines|
        invariant 0 <= i <= |lines| && offset == next
        invariant ProcessLines(lines[..i], parse, transform).failure.None?
        invariant output == old(output) + ProcessLines(lines[..i], parse, transform).records
        invariant count == rowCount + |ProcessLines(lines[..i], parse, transform).records|
      {
        ghost var prior := ProcessLines(lines[..i], parse, transform);
        ProcessLinesSnoc(lines, i, parse, transform);
        var line := Strip(lines[i]);
        if line != [] {
          match parse(line) {
            case None =>
              assert StepLine(lines[i], parse, transform) == Malformed;
              assert ProcessLines(lines[..i + 1], parse, transform) == prior;
            case Some(row) =>
              match transform(row) {
                case Err(x) =>
                  assert StepLine(lines[i], parse, transform) == Crash(x);
                  FailureIsFinal(lines, i + 1, parse, transform);
                  return count, Crashed(x);
                case Ok(e) =>
                  assert StepLine(lines[i], parse, transform) == Emit(e);
                  assert ProcessLines(lines[..i + 1], parse, transform) == Batch(prior.records + [e], None);
                  count := count + 1;
                  output := output + [e];
                  assert output == old(output) + (prior.records + [e]);
              }
          }
        } else {
          assert StepLine(lines[i], parse, transform) == Blank;
          assert ProcessLines(lines[..i + 1], parse, transform) == prior;
        }
        i := i + 1;
      }
      assert lines[..|lines|] == lines;
      outcome := Polled;
    }
  }
}
