/**
 * The poster's description is drawn a character at a time: a character joins the
 * current line unless the line with it would be wider than the limit, in which
 * case the current line is drawn and a new one starts with that character. The
 * width of a piece of text is whatever the canvas measures, a parameter here.
 */
module WrapText {

  /** One `fillText` call: the text and where it is drawn. */
  datatype Line = Line(text: string, x: int, y: int)

  /** The drawn texts one after the other. */
  function Concat(lines: seq<Line>): string {
    if lines == [] then [] else lines[0].text + Concat(lines[1..])
  }

  /** The drawn texts of one more line. */
  lemma {:induction false} ConcatSnoc(lines: seq<Line>, l: Line)
    ensures Concat(lines + [l]) == Concat(lines) + l.text
  {
    if lines != [] {
      assert (lines + [l])[1..] == lines[1..] + [l];
      ConcatSnoc(lines[1..], l);
    }
  }

  /**
   * The line was built within the width: each character after the first was
   * added only when the line with it was no wider than `maxWidth`.
   */
  predicate Fits(line: string, width: string -> real, maxWidth: real) {
    |line| <= 1 || (width(line) <= maxWidth && Fits(line[..|line| - 1], width, maxWidth))
  }

  /** Every prefix of a line that fits is at most `maxWidth` wide, except a prefix of a single character. */
  lemma {:induction false} FitsPrefixes(line: string, width: string -> real, maxWidth: real, j: nat)
    requires Fits(line, width, maxWidth) && 2 <= j <= |line|
    ensures width(line[..j]) <= maxWidth
    decreases |line|
  {
    if j < |line| {
      var init := line[..|line| - 1];
      FitsPrefixes(init, width, maxWidth, j);
      assert init[..j] == line[..j];
    } else {
      assert line[..j] == line;
    }
  }

  /** A line was ended because the next character would have made it too wide. */
  predicate BrokenBefore(line: string, next: string, width: string -> real, maxWidth: real) {
    line != [] && next != [] && width(line + [next[0]]) > maxWidth
  }

  /** The `k`-th line is drawn at `x`, `k` line heights below `y`. */
  predicate Placed(lines: seq<Line>, x: int, y: int, lineHeight: int) {
    forall k :: 0 <= k < |lines| ==> lines[k].x == x && lines[k].y == y + k * lineHeight
  }

  /** Every line is non-empty and fits, and each ended where the next one's first character would overflow it. */
  ghost predicate Greedy(lines: seq<Line>, width: string -> real, maxWidth: real) {
    && (forall k :: 0 <= k < |lines| ==> lines[k].text != [] && Fits(lines[k].text, width, maxWidth))
    && (forall k, next :: 0 <= k < next < |lines| && next == k + 1 ==>
          BrokenBefore(lines[k].text, lines[next].text, width, maxWidth))
  }

  /** Drawing one more line, one line height below the last. */
  lemma PlacedSnoc(lines: seq<Line>, x: int, y: int, lineHeight: int, line: string)
    requires Placed(lines, x, y, lineHeight)
    ensures Placed(lines + [Line(line, x, y + |lines| * lineHeight)], x, y, lineHeight)
    ensures y + |lines| * lineHeight + lineHeight == y + (|lines| + 1) * lineHeight
  {
  }

  /** Ending a line that was broken before the next one keeps the lines greedy. */
  lemma GreedySnoc(lines: seq<Line>, line: string, x: int, y: int, width: string -> real, maxWidth: real)
    requires Greedy(lines, width, maxWidth) && line != [] && Fits(line, width, maxWidth)
    requires lines != [] ==> BrokenBefore(lines[|lines| - 1].text, line, width, maxWidth)
    ensures Greedy(lines + [Line(line, x, y)], width, maxWidth)
  {
  }

  /**
   * The state of `wrapText` after `i` characters: the lines drawn so far and the
   * current `line` hold the first `i` characters, and the lines are placed and
   * broken as the loop places and breaks them.
   */
  ghost predicate Progress(text: string, i: nat, lines: seq<Line>, line: string, x: int, y: int, lineHeight: int,
                     width: string -> real, maxWidth: real)
  {
    && i <= |text|
    && Concat(lines) + line == text[..i]
    && (i == 0 ==> lines == [] && line == [])
    && (i > 0 ==> line != [])
    && Placed(lines, x, y, lineHeight)
    && Greedy(lines, width, maxWidth)
    && Fits(line, width, maxWidth)
    && (lines != [] ==> BrokenBefore(lines[|lines| - 1].text, line, width, maxWidth))
  }

  /** The loop's first branch: the current line is drawn and the next one starts with the character. */
  lemma BreakStep(text: string, i: nat, lines: seq<Line>, line: string, x: int, y: int, lineHeight: int,
                  width: string -> real, maxWidth: real)
    requires Progress(text, i, lines, line, x, y, lineHeight, width, maxWidth)
    requires 0 < i < |text| && width(line + [text[i]]) > maxWidth
    ensures Progress(text, i + 1, lines + [Line(line, x, y + |lines| * lineHeight)], [text[i]],
                     x, y, lineHeight, width, maxWidth)
  {
    assert text[..i + 1] == text[..i] + [text[i]];
    PlacedSnoc(lines, x, y, lineHeight, line);
    GreedySnoc(lines, line, x, y + |lines| * lineHeight, width, maxWidth);
    ConcatSnoc(lines, Line(line, x, y + |lines| * lineHeight));
  }

  /** The loop's second branch: the character joins the current line. */
  lemma ExtendStep(text: string, i: nat, lines: seq<Line>, line: string, x: int, y: int, lineHeight: int,
                   width: string -> real, maxWidth: real)
    requires Progress(text, i, lines, line, x, y, lineHeight, width, maxWidth)
    requires i < |text| && !(width(line + [text[i]]) > maxWidth && i > 0)
    ensures Progress(text, i + 1, lines, line + [text[i]], x, y, lineHeight, width, maxWidth)
  {
    assert text[..i + 1] == text[..i] + [text[i]];
    assert (line + [text[i]])[..|line|] == line;
    if lines != [] {
      assert (line + [text[i]])[0] == line[0];
    }
  }

  /** After the loop, drawing the current line completes the text. */
  lemma LastLine(text: string, lines: seq<Line>, line: string, x: int, y: int, lineHeight: int,
                 width: string -> real, maxWidth: real)
    requires Progress(text, |text|, lines, line, x, y, lineHeight, width, maxWidth)
    ensures var all := lines + [Line(line, x, y + |lines| * lineHeight)];
            && Concat(all) == text
            && Placed(all, x, y, lineHeight)
            && (text == [] ==> all == [Line("", x, y)])
  {
    assert text[..|text|] == text;
    PlacedSnoc(lines, x, y, lineHeight, line);
    ConcatSnoc(lines, Line(line, x, y + |lines| * lineHeight));
  }

  /** After the loop over a non-empty text, the last line keeps the lines greedy. */
  lemma LastLineGreedy(text: string, lines: seq<Line>, line: string, x: int, y: int, lineHeight: int,
                       width: string -> real, maxWidth: real)
    requires Progress(text, |text|, lines, line, x, y, lineHeight, width, maxWidth) && text != []
    ensures Greedy(lines + [Line(line, x, y + |lines| * lineHeight)], width, maxWidth)
  {
    GreedySnoc(lines, line, x, y + |lines| * lineHeight, width, maxWidth);
  }

  /**
   * One turn of `wrapText`'s loop, on the character at `i`: the current line is
   * drawn and a new one started when the character would make it too wide
   * (except at the first character); otherwise the character joins the line.
   */
  method WrapStep(text: string, i: nat, lines: seq<Line>, line: string, currentY: int,
                  x: int, y: int, lineHeight: int, width: string -> real, maxWidth: real)
    returns (lines': seq<Line>, line': string, currentY': int)
    requires i < |text| && Progress(text, i, lines, line, x, y, lineHeight, width, maxWidth)
    requires currentY == y + |lines| * lineHeight
    ensures Progress(text, i + 1, lines', line', x, y, lineHeight, width, maxWidth)
    ensures currentY' == y + |lines'| * lineHeight
  {
    var testLine := line + [text[i]];
    if width(testLine) > maxWidth && i > 0 {
      BreakStep(text, i, lines, line, x, y, lineHeight, width, maxWidth);
      PlacedSnoc(lines, x, y, lineHeight, line);
      lines' := lines + [Line(line, x, y + |lines| * lineHeight)];
      line' := [text[i]];
      currentY' := currentY + lineHeight;
    } else {
      ExtendStep(text, i, lines, line, x, y, lineHeight, width, maxWidth);
      lines' := lines;
      line' := testLine;
      currentY' := currentY;
    }
  }

  /**
   * `wrapText(context, text, x, y, maxWidth, lineHeight)`. The lines give back the
   * text; each is drawn one `lineHeight` below the previous one; a line ends only
   * where the next character would overflow it, and no line overflows except by
   * its first character; empty text draws one empty line.
   */
  method Wrap(text: string, x: int, y: int, maxWidth: real, lineHeight: int, width: string -> real)
    returns (lines: seq<Line>)
    ensures |lines| >= 1 && Concat(lines) == text
    ensures Placed(lines, x, y, lineHeight)
    ensures text == [] ==> lines == [Line("", x, y)]
    ensures text != [] ==> Greedy(lines, width, maxWidth)
  {
    lines := [];
    var line := "";
    var currentY := y;
    for i := 0 to |text|
      invariant Progress(text, i, lines, line, x, y, lineHeight, width, maxWidth)
      invariant currentY == y + |lines| * lineHeight
    {
      lines, line, currentY := WrapStep(text, i, lines, line, currentY, x, y, lineHeight, width, maxWidth);
    }
    LastLine(text, lines, line, x, y, lineHeight, width, maxWidth);
    if text != [] {
      LastLineGreedy(text, lines, line, x, y, lineHeight, width, maxWidth);
    }
    lines := lines + [Line(line, x, currentY)];
  }
}
