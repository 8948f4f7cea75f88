/**
 * The read step of `PathwaySimulator.run` (monitoring_pipeline.py): seek to the
 * saved offset, `readlines()` the rest of the input, and `tell()` the new offset.
 * The input is the text of the file at the moment of the read; offsets count
 * characters of that text.
 */
module Tailing {

  /** The characters that end a line under Python's universal newlines. */
  predicate IsLineBreak(c: char)
  {
    c == '\n' || c == '\r'
  }

  /**
   * The length of the first line of `s`, its terminator included: a line ends
   * after `\n`, after `\r\n`, or after a `\r` not followed by `\n`; a last line
   * without a terminator runs to the end of `s`.
   */
  function FirstLineLength(s: string): (n: nat)
    requires s != []
    ensures 0 < n <= |s|
  {
    if s[0] == '\n' then 1
    else if s[0] == '\r' then (if |s| > 1 && s[1] == '\n' then 2 else 1)
    else if |s| == 1 then 1
    else 1 + FirstLineLength(s[1..])
  }

  /**
   * The first line stops at the first line break, takes the `\n` of a `\r\n`
   * with it, and otherwise runs to the end of the text.
   */
  lemma {:induction false} FirstLineEnds(s: string)
    requires s != []
    ensures var n := FirstLineLength(s);
      && (n == |s| || IsLineBreak(s[n - 1]))
      && (forall i :: 0 <= i < n - 1 ==> !IsLineBreak(s[i]) || (i == n - 2 && s[i] == '\r' && s[n - 1] == '\n'))
      && (s[n - 1] == '\r' ==> n == |s| || s[n] != '\n')
    decreases |s|
  {
    if s[0] != '\n' && s[0] != '\r' && |s| > 1 {
      FirstLineEnds(s[1..]);
      var n := FirstLineLength(s);
      forall i | 0 <= i < n - 1 ensures !IsLineBreak(s[i]) || (i == n - 2 && s[i] == '\r' && s[n - 1] == '\n') {
        if i > 0 { assert s[i] == s[1..][i - 1]; }
      }
    }
  }

  /** The concatenation of a sequence of lines. */
  function Concat(lines: seq<string>): string
  {
    if lines == [] then [] else lines[0] + Concat(lines[1..])
  }

  /**
   * `readlines()` on text `s`: the text cut after every line terminator, the
   * last line possibly without one. Each line keeps its raw terminator (`\n`,
   * `\r\n` or `\r`), where Python's universal newlines hand back `\n`; the
   * two agree once the line is stripped, and raw lengths are what `tell()` counts.
   */
  function Lines(s: string): seq<string>
    decreases |s|
  {
    if s == [] then []
    else
      var n := FirstLineLength(s);
      [s[..n]] + Lines(s[n..])
  }

  /** Every line is non-empty, and every line but the last ends with a line break. */
  lemma {:induction false} LinesAreTerminated(s: string)
    ensures var lines := Lines(s);
      && (forall k :: 0 <= k < |lines| ==> lines[k] != [])
      && (forall k :: 0 <= k < |lines| - 1 ==> IsLineBreak(lines[k][|lines[k]| - 1]))
    decreases |s|
  {
    if s != [] {
      var n := FirstLineLength(s);
      FirstLineEnds(s);
      LinesAreTerminated(s[n..]);
      var lines := Lines(s);
      assert lines[1..] == Lines(s[n..]);
      forall k | 0 <= k < |lines| ensures lines[k] != [] && (k < |lines| - 1 ==> IsLineBreak(lines[k][|lines[k]| - 1])) {
        if k > 0 { assert lines[k] == Lines(s[n..])[k - 1]; }
      }
    }
  }

  /** `line` has no line break before its terminator, apart from the `\r` of a closing `\r\n`. */
  predicate NoInnerBreak(line: string)
  {
    forall i :: 0 <= i < |line| - 1 ==>
      !IsLineBreak(line[i]) || (i == |line| - 2 && line[i] == '\r' && line[i + 1] == '\n')
  }

  /**
   * `readlines()` cuts at every `\n`, `\r\n` and lone `\r`: no line holds a
   * break before its end, and a `\r\n` is never split between two lines.
   */
  lemma {:induction false} LinesHaveNoInnerBreak(s: string)
    ensures forall k :: 0 <= k < |Lines(s)| ==> Lines(s)[k] != [] && NoInnerBreak(Lines(s)[k])
    ensures forall k :: 0 <= k < |Lines(s)| - 1 && Lines(s)[k][|Lines(s)[k]| - 1] == '\r' ==> Lines(s)[k + 1][0] != '\n'
    decreases |s|
  {
    if s != [] {
      var n := FirstLineLength(s);
      FirstLineEnds(s);
      LinesHaveNoInnerBreak(s[n..]);
      var lines := Lines(s);
      assert lines[1..] == Lines(s[n..]);
      assert lines[0] == s[..n];
      if n < |s| {
        var rest := Lines(s[n..]);
        assert rest[0] == s[n..][..FirstLineLength(s[n..])];
        assert lines[1][0] == s[n];
      }
      forall k | 0 <= k < |lines| - 1 && lines[k][|lines[k]| - 1] == '\r' ensures lines[k + 1][0] != '\n' {
        if k > 0 {
          assert lines[k] == Lines(s[n..])[k - 1] && lines[k + 1] == Lines(s[n..])[k];
        }
      }
      forall k | 0 <= k < |lines| ensures lines[k] != [] && NoInnerBreak(lines[k]) {
        if k > 0 {
          assert lines[k] == Lines(s[n..])[k - 1];
        } else {
          forall i | 0 <= i < n - 1
            ensures !IsLineBreak(lines[0][i]) || (i == n - 2 && lines[0][i] == '\r' && lines[0][i + 1] == '\n')
          {
            assert lines[0][i] == s[i] && lines[0][i + 1] == s[i + 1];
          }
        }
      }
    }
  }

  /** `readlines()` loses nothing and adds nothing: its lines put together are the text read. */
  lemma {:induction false} LinesConcat(s: string)
    ensures Concat(Lines(s)) == s
    decreases |s|
  {
    if s != [] {
      var n := FirstLineLength(s);
      LinesConcat(s[n..]);
      assert Lines(s)[1..] == Lines(s[n..]);
      assert s == s[..n] + s[n..];
    }
  }

  /** The last line ends with a terminator exactly when the text does: a torn last line is returned as it is. */
  lemma {:induction false} LastLineTorn(s: string)
    requires s != []
    ensures var lines := Lines(s);
      lines != [] && lines[|lines| - 1] != [] && lines[|lines| - 1][|lines[|lines| - 1]| - 1] == s[|s| - 1]
    decreases |s|
  {
    var n := FirstLineLength(s);
    var lines := Lines(s);
    if n < |s| {
      LastLineTorn(s[n..]);
      assert lines[1..] == Lines(s[n..]);
      assert lines[|lines| - 1] == Lines(s[n..])[|Lines(s[n..])| - 1];
      assert s[n..][|s[n..]| - 1] == s[|s| - 1];
    } else {
      assert s[n..] == [] && s[..n] == s;
      assert Lines(s[n..]) == [];
      assert lines == [s];
    }
  }

  /** A first line that ends in `\n` is not changed by what follows it. */
  lemma {:induction false} FirstLineLengthPrefix(a: string, b: string)
    requires a != [] && a[|a| - 1] == '\n'
    ensures FirstLineLength(a + b) == FirstLineLength(a)
    decreases |a|
  {
    if a[0] != '\n' && a[0] != '\r' {
      assert |a| > 1;
      assert (a + b)[1..] == a[1..] + b;
      FirstLineLengthPrefix(a[1..], b);
    }
  }

  /**
   * Reading a text in two parts, split just after a `\n`, gives the same lines
   * as reading it at once: the split falls between two lines.
   */
  lemma {:induction false} LinesAppend(a: string, b: string)
    requires a == [] || a[|a| - 1] == '\n'
    ensures Lines(a + b) == Lines(a) + Lines(b)
    decreases |a|
  {
    if a != [] {
      var n := FirstLineLength(a);
      FirstLineLengthPrefix(a, b);
      assert (a + b)[..n] == a[..n];
      assert (a + b)[n..] == a[n..] + b;
      LinesAppend(a[n..], b);
    } else {
      assert a + b == b;
    }
  }

  /** A text with no line break is a single (torn) line. */
  lemma {:induction false} UnterminatedIsOneLine(s: string)
    requires s != [] && forall i :: 0 <= i < |s| ==> !IsLineBreak(s[i])
    ensures Lines(s) == [s]
  {
    FirstLineEnds(s);
    assert FirstLineLength(s) == |s|;
    assert s[..|s|] == s && s[|s|..] == [];
    assert Lines(s[|s|..]) == [];
  }

  /** A text whose only line break is a final `\n` is a single complete line. */
  lemma {:induction false} TerminatedIsOneLine(s: string)
    requires s != [] && s[|s| - 1] == '\n'
    requires forall i :: 0 <= i < |s| - 1 ==> !IsLineBreak(s[i])
    ensures Lines(s) == [s]
  {
    FirstLineEnds(s);
    assert FirstLineLength(s) == |s|;
    assert s[..|s|] == s && s[|s|..] == [];
    assert Lines(s[|s|..]) == [];
  }

  /**
   * `f.seek(offset); lines = f.readlines(); offset = f.tell()` on the text `file`.
   * An offset past the end (the file was recreated shorter) reads nothing and
   * stays where it is.
   */
  function ReadFrom(file: string, offset: nat): (r: (seq<string>, nat))
    ensures offset <= |file| ==> r.1 == |file|
    ensures offset > |file| ==> r == ([], offset)
    ensures r.1 >= offset
  {
    if offset <= |file| then (Lines(file[offset..]), |file|) else ([], offset)
  }

  /** A read returns exactly the text from the offset to the end, cut into lines. */
  lemma ReadFromReadsRest(file: string, offset: nat)
    requires offset <= |file|
    ensures Concat(ReadFrom(file, offset).0) == file[offset..]
  {
    LinesConcat(file[offset..]);
  }
}
