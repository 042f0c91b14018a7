/**
 * The output file `coupons.txt` and `save_coupon` (test.py:18-28).
 *
 * The file is opened in append mode for every saved code, so its text only ever
 * grows at the end; it is never read, truncated or deduplicated.
 */
module Output {
  import Seqs

  /** The file's text read as lines: each line ends at a newline; text after the
      last newline, if any, is a final unterminated line. */
  function Lines(text: string): (ls: seq<string>)
    ensures text == [] <==> ls == []
    decreases |text|
  {
    if text == [] then []
    else
      var n := LineLength(text);
      if n == |text| then [text] else [text[..n]] + Lines(text[n + 1..])
  }

  /** Length of the first line of `text`: the position of its first newline, or |text|. */
  function LineLength(text: string): (n: nat)
    ensures n <= |text|
    ensures '\n' !in text[..n]
    ensures n < |text| ==> text[n] == '\n'
  {
    if text == [] || text[0] == '\n' then 0 else 1 + LineLength(text[1..])
  }

  /** The text of a file holding exactly the given lines, each ended by a newline. */
  function Render(lines: seq<string>): (text: string)
    ensures |text| >= |lines|
    ensures text != [] ==> text[|text| - 1] == '\n'
  {
    if lines == [] then [] else Render(lines[..|lines| - 1]) + lines[|lines| - 1] + "\n"
  }

  /** The file as a text that only grows at the end. */
  class CouponFile {
    var text: string

    /** The file as found before the run; it is created empty when absent. */
    constructor (existing: string)
      ensures text == existing
    {
      text := existing;
    }

    /** test.py:21-25: append the code and a newline. */
    method SaveCoupon(code: string)
      modifies this
      ensures text == old(text) + code + "\n"
    {
      text := text + code + "\n";
    }
  }

  // ---------------------------------------------------------------------------
  // Reading back what was appended
  // ---------------------------------------------------------------------------

  /** A line followed by a newline and more text: that line comes first. */
  lemma {:induction false} LineLengthOfLine(line: string, more: string)
    requires '\n' !in line
    ensures LineLength(line + "\n" + more) == |line|
    decreases |line|
  {
    if line != [] {
      assert (line + "\n" + more)[1..] == line[1..] + "\n" + more;
      LineLengthOfLine(line[1..], more);
    }
  }

  /** A line followed by a newline and more text reads as that line, then the rest. */
  lemma LinesOfLine(line: string, more: string)
    requires '\n' !in line
    ensures Lines(line + "\n" + more) == [line] + Lines(more)
  {
    var whole := line + "\n" + more;
    LineLengthOfLine(line, more);
    assert whole[..|line|] == line;
    assert whole[|line| + 1..] == more;
  }

  /** Text that ends in a newline (or is empty) followed by one more newline-terminated
      line reads as the old lines plus exactly that line. */
  lemma {:induction false} AppendOneLine(text: string, line: string)
    requires text == [] || text[|text| - 1] == '\n'
    requires '\n' !in line
    ensures Lines(text + line + "\n") == Lines(text) + [line]
    decreases |text|
  {
    if text == [] {
      assert text + line + "\n" == line + "\n" + [];
      LinesOfLine(line, []);
    } else {
      var head, rest := FirstLine(text);
      assert Lines(text) == [head] + Lines(rest) by {
        LinesOfLine(head, rest);
      }
      assert Lines(text + line + "\n") == [head] + Lines(rest + line + "\n") by {
        Seqs.Assoc(head + "\n", rest, line + "\n");
        Seqs.Assoc(head + "\n" + rest, line, "\n");
        Seqs.Assoc(rest, line, "\n");
        LinesOfLine(head, rest + line + "\n");
      }
      AppendOneLine(rest, line);
    }
  }

  /** A file whose last line lacks its newline does not gain a line: the code is
      glued onto that last line, after whatever whole lines come before it. */
  lemma GluedOntoLastLine(prefix: string, last: string, code: string)
    requires prefix == [] || prefix[|prefix| - 1] == '\n'
    requires last != [] && '\n' !in last && '\n' !in code
    ensures Lines(prefix + last) == Lines(prefix) + [last]
    ensures Lines(prefix + (last + code + "\n")) == Lines(prefix) + [last + code]
    ensures |Lines(prefix + (last + code + "\n"))| == |Lines(prefix + last)|
  {
    LinesConcat(prefix, last);
    LineAlone(last);
    LinesConcat(prefix, last + code + "\n");
    assert '\n' !in last + code by {
      forall c | c in last + code ensures c != '\n' { assert c in last || c in code; }
    }
    LinesOfLine(last + code, []);
    assert last + code + "\n" == last + code + "\n" + [];
  }

  /** Text made of whole lines, then anything: the lines of each part, one after the other. */
  lemma {:induction false} LinesConcat(prefix: string, tail: string)
    requires prefix == [] || prefix[|prefix| - 1] == '\n'
    ensures Lines(prefix + tail) == Lines(prefix) + Lines(tail)
    decreases |prefix|
  {
    if prefix == [] {
      assert prefix + tail == tail;
    } else {
      var head, rest := FirstLine(prefix);
      Seqs.Assoc(head + "\n", rest, tail);
      LinesOfLine(head, rest + tail);
      LinesOfLine(head, rest);
      LinesConcat(rest, tail);
      Seqs.Assoc([head], Lines(rest), Lines(tail));
    }
  }

  /** A non-empty text without a newline is one line. */
  lemma LineAlone(line: string)
    requires line != [] && '\n' !in line
    ensures Lines(line) == [line]
  {
    LineLengthAlone(line);
  }

  /** The first line of a text without a newline is the whole text. */
  lemma {:induction false} LineLengthAlone(line: string)
    requires '\n' !in line
    ensures LineLength(line) == |line|
    decreases |line|
  {
    if line != [] {
      assert '\n' !in line[1..] by {
        forall c | c in line[1..] ensures c != '\n' { assert c in line; }
      }
      LineLengthAlone(line[1..]);
    }
  }

  /** A non-empty text ending in a newline splits into its first line and the rest. */
  lemma FirstLine(text: string) returns (head: string, rest: string)
    requires text != [] && text[|text| - 1] == '\n'
    ensures text == head + "\n" + rest && '\n' !in head
    ensures |rest| < |text| && (rest == [] || rest[|rest| - 1] == '\n')
  {
    var n := LineLength(text);
    head, rest := text[..n], text[n + 1..];
    assert text == head + "\n" + rest;
  }

  /** Reading a rendered file gives back its lines: Lines is the inverse of Render. */
  lemma {:induction false} LinesOfRender(lines: seq<string>)
    requires forall k :: 0 <= k < |lines| ==> '\n' !in lines[k]
    ensures Lines(Render(lines)) == lines
  {
    if lines != [] {
      var init, last := lines[..|lines| - 1], lines[|lines| - 1];
      assert lines == init + [last];
      forall k | 0 <= k < |init| ensures '\n' !in init[k] {
        assert init[k] == lines[k];
      }
      LinesOfRender(init);
      assert Render(lines) == Render(init) + last + "\n";
      AppendOneLine(Render(init), last);
    }
  }
}
