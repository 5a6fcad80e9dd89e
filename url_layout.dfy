/**
 * The text the `url` helper puts inside its `<url>` element: a line break,
 * then each child element on a line of its own indented by four spaces, then
 * two spaces of indentation for the closing tag.
 */
module UrlLayout {
  import opened JsValues

  const ChildIndent := "    "
  const CloseIndent := "  "

  /** The children, each on its own line, four spaces deep. */
  function IndentedLines(children: seq<string>): string
    decreases |children|
  {
    if children == [] then "" else ChildIndent + children[0] + "\n" + IndentedLines(children[1..])
  }

  /** The text of a `<url>` element holding `children`. */
  function UrlText(children: seq<string>): string {
    "\n" + IndentedLines(children) + CloseIndent
  }

  /** The helper's sequence of `+=` steps builds exactly `UrlText`. */
  lemma UrlTextOfFour(a: string, b: string, c: string, d: string)
    ensures UrlText([a, b, c, d]) ==
      "\n" + "    " + a + "\n" + "    " + b + "\n" + "    " + c + "\n" + "    " + d + "\n" + "  "
  {
    assert [a, b, c, d][1..] == [b, c, d];
    assert [b, c, d][1..] == [c, d];
    assert [c, d][1..] == [d];
    assert [d][1..] == [];
    var ld := "    " + d + "\n";
    var lc := "    " + c + "\n";
    var lb := "    " + b + "\n";
    var la := "    " + a + "\n";
    assert IndentedLines([d]) == ld + "";
    assert IndentedLines([c, d]) == lc + ld;
    assert IndentedLines([b, c, d]) == lb + (lc + ld);
    assert IndentedLines([a, b, c, d]) == la + (lb + (lc + ld));
  }

  /** `s.split('\n')`: the pieces of `s` between line breaks. */
  function Split(s: string): (r: seq<string>)
    ensures |r| >= 1
    decreases |s|
  {
    if s == [] then [""]
    else
      var rest := Split(s[1..]);
      if s[0] == '\n' then [""] + rest else [[s[0]] + rest[0]] + rest[1..]
  }

  /** Splitting after a line that holds no line break. */
  lemma {:induction false} SplitAfterLine(line: string, rest: string)
    requires '\n' !in line
    ensures Split(line + "\n" + rest) == [line] + Split(rest)
    decreases |line|
  {
    var s := line + "\n" + rest;
    if line == [] {
      assert s == "\n" + rest;
      assert s[1..] == rest;
    } else {
      assert s[1..] == line[1..] + "\n" + rest;
      SplitAfterLine(line[1..], rest);
      assert [line[0]] + line[1..] == line;
    }
  }

  /** A string without line breaks is a single line. */
  lemma {:induction false} SplitSingleLine(s: string)
    requires '\n' !in s
    ensures Split(s) == [s]
    decreases |s|
  {
    if s != [] {
      SplitSingleLine(s[1..]);
      assert [s[0]] + s[1..] == s;
    }
  }

  /** The lines a `<url>` element's children occupy. */
  function Indented(children: seq<string>): (r: seq<string>)
    ensures |r| == |children|
    decreases |children|
  {
    if children == [] then [] else [ChildIndent + children[0]] + Indented(children[1..])
  }

  /** The inverse of `Indented`: strips four leading spaces from every line,
      failing on a line that does not start with them. */
  function Unindent(lines: seq<string>): Option<seq<string>>
    decreases |lines|
  {
    if lines == [] then Some([])
    else if |lines[0]| < |ChildIndent| || lines[0][..|ChildIndent|] != ChildIndent then None
    else match Unindent(lines[1..])
      case None => None
      case Some(rest) => Some([lines[0][|ChildIndent|..]] + rest)
  }

  /** Reads the children back out of a `<url>` element's text. */
  function UrlChildren(text: string): Option<seq<string>> {
    var lines := Split(text);
    if |lines| >= 2 && lines[0] == "" && lines[|lines| - 1] == CloseIndent
    then Unindent(lines[1..|lines| - 1])
    else None
  }

  lemma {:induction false} SplitIndented(children: seq<string>)
    requires forall c :: c in children ==> '\n' !in c
    ensures Split(IndentedLines(children) + CloseIndent) == Indented(children) + [CloseIndent]
    decreases |children|
  {
    if children == [] {
      assert IndentedLines(children) + CloseIndent == CloseIndent;
      SplitSingleLine(CloseIndent);
    } else {
      var line := ChildIndent + children[0];
      assert children[0] in children;
      assert '\n' !in line;
      var rest := IndentedLines(children[1..]) + CloseIndent;
      assert IndentedLines(children) + CloseIndent == line + "\n" + rest;
      SplitAfterLine(line, rest);
      assert forall c :: c in children[1..] ==> c in children;
      SplitIndented(children[1..]);
    }
  }

  /** Every child sits on a line of its own, four spaces deep, between an
      empty first line and a last line holding the closing indentation. */
  lemma UrlTextLines(children: seq<string>)
    requires forall c :: c in children ==> '\n' !in c
    ensures Split(UrlText(children)) == [""] + Indented(children) + [CloseIndent]
  {
    SplitIndented(children);
    SplitAfterLine("", IndentedLines(children) + CloseIndent);
    assert UrlText(children) == "" + "\n" + (IndentedLines(children) + CloseIndent);
  }

  lemma {:induction false} UnindentIndented(children: seq<string>)
    ensures Unindent(Indented(children)) == Some(children)
    decreases |children|
  {
    if children != [] {
      var line := ChildIndent + children[0];
      assert line[..|ChildIndent|] == ChildIndent && line[|ChildIndent|..] == children[0];
      UnindentIndented(children[1..]);
      var lines := Indented(children);
      assert lines[0] == line && lines[1..] == Indented(children[1..]);
      assert Unindent(lines) == Some([children[0]] + children[1..]);
      assert [children[0]] + children[1..] == children;
    }
  }

  /** The children of a `<url>` element can be read back from its text, as
      long as none of them holds a line break. */
  lemma UrlTextRoundTrip(children: seq<string>)
    requires forall c :: c in children ==> '\n' !in c
    ensures UrlChildren(UrlText(children)) == Some(children)
  {
    UrlTextLines(children);
    var lines := Split(UrlText(children));
    assert lines[1..|lines| - 1] == Indented(children);
    UnindentIndented(children);
  }
}
