/** The shape of the statement text a block hands to the code generator: lines
    separated by '\n', each an accumulation `<target> += <operand>;`. A small
    reader for that shape lets the model state which identifiers a block's source
    text refers to, instead of comparing raw characters. */
module StatementText {
  import opened Wrappers

  /** One accumulation statement: `target += operand;`. */
  datatype Statement = Statement(target: string, operand: string)

  /** The position of the first `c` in `t`. */
  function IndexOf(t: string, c: char): (k: nat)
    requires c in t
    ensures k < |t| && t[k] == c
    ensures c !in t[..k]
    decreases |t|
  {
    if t[0] == c then 0
    else
      var k := 1 + IndexOf(t[1..], c);
      assert t[..k] == [t[0]] + t[1..][..k - 1];
      k
  }

  /** Lines joined with '\n' between them. */
  function JoinLines(lines: seq<string>): string
    requires |lines| > 0
  {
    if |lines| == 1 then lines[0] else lines[0] + "\n" + JoinLines(lines[1..])
  }

  /** The text cut at every '\n'; undoes `JoinLines`. */
  function SplitLines(t: string): (lines: seq<string>)
    ensures |lines| > 0
    ensures forall i :: 0 <= i < |lines| ==> '\n' !in lines[i]
    ensures JoinLines(lines) == t
    decreases |t|
  {
    if '\n' !in t then [t]
    else
      var k := IndexOf(t, '\n');
      var rest := SplitLines(t[k + 1..]);
      assert t == t[..k] + "\n" + t[k + 1..];
      [t[..k]] + rest
  }

  /** A first line without '\n' is split off on its own. */
  lemma SplitAfterLine(head: string, rest: string)
    requires '\n' !in head
    ensures SplitLines(head + "\n" + rest) == [head] + SplitLines(rest)
  {
    var t := head + "\n" + rest;
    var tail := "\n" + rest;
    assert t == head + tail;
    assert tail[0] == '\n' && IndexOf(tail, '\n') == 0;
    IndexOfAfter(head, tail, '\n');
    assert t[..|head|] == head;
    assert t[|head| + 1..] == rest;
  }

  /** The first `c` of `a + b` is the first of `b` when `a` has none. */
  lemma {:induction false} IndexOfAfter(a: string, b: string, c: char)
    requires c !in a && c in b
    ensures c in a + b && IndexOf(a + b, c) == |a| + IndexOf(b, c)
    decreases |a|
  {
    assert (a + b)[|a| + IndexOf(b, c)] == c;
    if a != [] {
      assert (a + b)[1..] == a[1..] + b;
      IndexOfAfter(a[1..], b, c);
    }
  }

  /** The text of one statement. */
  function Render(st: Statement): string {
    st.target + " += " + st.operand + ";"
  }

  /** Reads one line as `target += operand;`, the target ending at the first blank. */
  function ParseStatement(line: string): Option<Statement> {
    if ' ' !in line then None
    else
      var k := IndexOf(line, ' ');
      var rest := line[k..];
      if |rest| >= 5 && rest[..4] == " += " && rest[|rest| - 1] == ';'
      then Some(Statement(line[..k], rest[4..|rest| - 1]))
      else None
  }

  /** Reading a rendered statement gives it back when its target has no blank. */
  lemma ParseRender(st: Statement)
    requires ' ' !in st.target
    ensures ParseStatement(Render(st)) == Some(st)
  {
    var line := Render(st);
    assert line == st.target + (" += " + st.operand + ";");
    IndexOfAfter(st.target, " += " + st.operand + ";", ' ');
    assert line[|st.target|..] == " += " + st.operand + ";";
  }

  /** Every line of `text` read as a statement, or `None` if some line is not one. */
  function ParseStatements(text: string): Option<seq<Statement>> {
    ParseLines(SplitLines(text))
  }

  function ParseLines(lines: seq<string>): Option<seq<Statement>> {
    if lines == [] then Some([])
    else
      match (ParseStatement(lines[0]), ParseLines(lines[1..]))
      case (Some(st), Some(rest)) => Some([st] + rest)
      case _ => None
  }

  /** The text of a sequence of statements, one per line. */
  function RenderAll(sts: seq<Statement>): string
    requires |sts| > 0
  {
    if |sts| == 1 then Render(sts[0]) else Render(sts[0]) + "\n" + RenderAll(sts[1..])
  }

  /** A statement whose target has no blank and which spans one line. */
  predicate WellFormed(st: Statement) {
    ' ' !in st.target && '\n' !in st.target && '\n' !in st.operand
  }

  /** A well-formed statement renders to a single line. */
  lemma RenderIsOneLine(st: Statement)
    requires WellFormed(st)
    ensures '\n' !in Render(st)
  {
    assert Render(st) == st.target + " += " + st.operand + ";";
  }

  lemma ParseLinesCons(line: string, rest: seq<string>, st: Statement, sts: seq<Statement>)
    requires ParseStatement(line) == Some(st) && ParseLines(rest) == Some(sts)
    ensures ParseLines([line] + rest) == Some([st] + sts)
  {
    assert ([line] + rest)[1..] == rest;
  }

  /** Reading rendered statements gives them back: the text refers to exactly
      the targets and operands it was written from, in order. */
  lemma {:induction false} ParseRenderAll(sts: seq<Statement>)
    requires |sts| > 0
    requires forall i :: 0 <= i < |sts| ==> WellFormed(sts[i])
    ensures ParseStatements(RenderAll(sts)) == Some(sts)
    decreases |sts|
  {
    if |sts| == 1 {
      ParseRenderOne(sts[0]);
      assert sts == [sts[0]];
    } else {
      var line, rest := Render(sts[0]), RenderAll(sts[1..]);
      RenderIsOneLine(sts[0]);
      ParseRender(sts[0]);
      assert RenderAll(sts) == line + "\n" + rest;
      SplitAfterLine(line, rest);
      ParseRenderAll(sts[1..]);
      assert ParseLines(SplitLines(rest)) == Some(sts[1..]);
      ParseLinesCons(line, SplitLines(rest), sts[0], sts[1..]);
      assert sts == [sts[0]] + sts[1..];
    }
  }

  lemma ParseRenderOne(st: Statement)
    requires WellFormed(st)
    ensures ParseStatements(RenderAll([st])) == Some([st])
  {
    var line := Render(st);
    RenderIsOneLine(st);
    ParseRender(st);
    assert SplitLines(line) == [line] + [];
    ParseLinesCons(line, [], st, []);
    assert [st] + [] == [st];
  }
}
