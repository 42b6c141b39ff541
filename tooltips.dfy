/**
 * Tooltip text of an option. Display text is modelled as a plain string
 * (styling and formatting are not modelled). A tooltip is assembled from an
 * ordered list of sources, each giving one entry for the current pending
 * value; entries are joined with a line separator between every consecutive
 * pair, empty entries included.
 */
module Tooltips {

  type Text = string

  /** The separator placed between two consecutive tooltip entries. */
  const LineSeparator: Text := "\n"

  /** A tooltip source: fixed text, or a function of the option's value. */
  datatype TooltipSource<!T> = Literal(text: Text) | Dynamic(getter: T -> Text)

  function Evaluate<T>(source: TooltipSource<T>, value: T): (line: Text)
  {
    match source
    case Literal(text) => text
    case Dynamic(getter) => getter(value)
  }

  /** The entries the sources give for one value, in registration order. */
  function EvaluateAll<T>(sources: seq<TooltipSource<T>>, value: T): (lines: seq<Text>)
  {
    seq(|sources|, i requires 0 <= i < |sources| => Evaluate(sources[i], value))
  }

  /** Reference definition of the joined text: entries separated by LineSeparator. */
  function JoinLines(lines: seq<Text>): (text: Text)
  {
    if |lines| == 0 then ""
    else if |lines| == 1 then lines[0]
    else lines[0] + LineSeparator + JoinLines(lines[1..])
  }

  /** The tooltip the composed getter yields for `value`. */
  function Render<T>(sources: seq<TooltipSource<T>>, value: T): (text: Text)
  {
    JoinLines(EvaluateAll(sources, value))
  }

  /** Splits a text at every line separator: the inverse of JoinLines. */
  function SplitLines(text: Text): (lines: seq<Text>)
    ensures |lines| > 0
  {
    if |text| == 0 then [""]
    else
      var rest := SplitLines(text[1..]);
      if text[0] == '\n' then [""] + rest
      else [[text[0]] + rest[0]] + rest[1..]
  }

  predicate NoSeparator(line: Text)
  {
    '\n' !in line
  }

  /** Appending one entry adds exactly one separator before it. */
  lemma {:induction false} JoinLinesSnoc(lines: seq<Text>, line: Text)
    requires |lines| > 0
    ensures JoinLines(lines + [line]) == JoinLines(lines) + LineSeparator + line
  {
    if |lines| == 1 {
      assert lines + [line] == [lines[0], line];
      assert [lines[0], line][1..] == [line];
    } else {
      assert (lines + [line])[1..] == lines[1..] + [line];
      JoinLinesSnoc(lines[1..], line);
    }
  }

  /** Splitting a text whose first entry has no separator yields that entry first. */
  lemma {:induction false} SplitLinesPrefix(head: Text, tail: Text)
    requires NoSeparator(head)
    ensures SplitLines(head + tail) == [head + SplitLines(tail)[0]] + SplitLines(tail)[1..]
  {
    var split := SplitLines(tail);
    if head == [] {
      assert head + tail == tail;
      assert head + split[0] == split[0];
      assert split == [split[0]] + split[1..];
    } else {
      var text := head + tail;
      assert head[0] != '\n' by { assert head[0] in head; }
      assert text[0] == head[0];
      assert text[1..] == head[1..] + tail;
      assert NoSeparator(head[1..]) by {
        forall c | c in head[1..] ensures c in head { }
      }
      SplitLinesPrefix(head[1..], tail);
      var rest := SplitLines(text[1..]);
      assert rest == [head[1..] + split[0]] + split[1..];
      assert SplitLines(text) == [[head[0]] + rest[0]] + rest[1..];
      assert [head[0]] + (head[1..] + split[0]) == head + split[0];
    }
  }

  /**
   * Round trip: when no entry contains a separator itself, the joined text
   * splits back into exactly the entries, empty ones included, so a separator
   * stands between every consecutive pair and nowhere else.
   */
  lemma {:induction false} SplitJoinLines(lines: seq<Text>)
    requires |lines| > 0
    requires forall i :: 0 <= i < |lines| ==> NoSeparator(lines[i])
    ensures SplitLines(JoinLines(lines)) == lines
  {
    if |lines| == 1 {
      SplitLinesPrefix(lines[0], "");
      assert lines[0] + "" == lines[0];
    } else {
      var rest := JoinLines(lines[1..]);
      SplitJoinLines(lines[1..]);
      var sepRest := LineSeparator + rest;
      SplitLinesPrefix(lines[0], sepRest);
      assert sepRest[0] == '\n' && sepRest[1..] == rest;
      assert SplitLines(sepRest) == [""] + SplitLines(rest);
      assert lines[0] + "" == lines[0];
      assert lines[0] + LineSeparator + rest == lines[0] + (LineSeparator + rest);
      assert [lines[0]] + lines[1..] == lines;
    }
  }

  /** No tooltip sources give the empty text. */
  lemma NoSourcesRenderEmpty<T>(value: T)
    ensures Render<T>([], value) == ""
  {
  }

  /** A tooltip made only of literal sources does not depend on the value. */
  lemma LiteralTooltipIgnoresValue<T>(sources: seq<TooltipSource<T>>, v: T, w: T)
    requires forall i :: 0 <= i < |sources| ==> sources[i].Literal?
    ensures Render(sources, v) == Render(sources, w)
  {
    assert EvaluateAll(sources, v) == EvaluateAll(sources, w);
  }

  /**
   * The composed tooltip getter: walks the sources in order, putting a
   * separator before every entry but the first.
   */
  method ConcatenateTooltip<T>(sources: seq<TooltipSource<T>>, value: T) returns (text: Text)
    ensures text == Render(sources, value)
  {
    ghost var lines := EvaluateAll(sources, value);
    text := "";
    var first := true;
    for i := 0 to |sources|
      invariant first <==> i == 0
      invariant text == JoinLines(lines[..i])
    {
      if !first {
        text := text + LineSeparator;
      }
      first := false;
      text := text + Evaluate(sources[i], value);
      assert lines[..i + 1] == lines[..i] + [lines[i]];
      if i > 0 {
        JoinLinesSnoc(lines[..i], lines[i]);
      }
    }
    assert lines[..|sources|] == lines;
  }
}
