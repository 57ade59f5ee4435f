/** The RTF report written at the end of a run (checker.py:113-117): a
    header, one line per result with every backslash doubled and `\line`
    appended, and a closing brace. */
module Report {

  /** `{\rtf1\ansi\deff0` (checker.py:114). */
  const RtfHeader: string := "{\\rtf1\\ansi\\deff0"

  /** The RTF line-break control word appended to every result. */
  const LineBreak: string := "\\line"

  /** Undoes `Escape`: a doubled backslash stands for one backslash. */
  function Unescape(r: string): string
    decreases |r|
  {
    if r == [] then []
    else if |r| >= 2 && r[0] == '\\' && r[1] == '\\' then "\\" + Unescape(r[2..])
    else [r[0]] + Unescape(r[1..])
  }

  /** `line.replace("\\", r"\\")`: every backslash doubled. */
  function Escape(s: string): string {
    if s == [] then []
    else (if s[0] == '\\' then "\\\\" else [s[0]]) + Escape(s[1..])
  }

  /** Escaping loses nothing: `Unescape` recovers the original line. */
  lemma {:induction false} UnescapeEscape(s: string)
    ensures Unescape(Escape(s)) == s
  {
    if s != [] {
      var rest := Escape(s[1..]);
      UnescapeEscape(s[1..]);
      if s[0] == '\\' {
        assert Escape(s) == "\\\\" + rest;
        assert ("\\\\" + rest)[2..] == rest;
      } else {
        assert Escape(s) == [s[0]] + rest;
        assert ([s[0]] + rest)[1..] == rest;
      }
    }
  }

  /** Escaping never introduces a newline. */
  lemma {:induction false} EscapeNoNewline(s: string)
    requires '\n' !in s
    ensures '\n' !in Escape(s)
  {
    if s != [] {
      EscapeNoNewline(s[1..]);
    }
  }

  /** Each backslash of the line becomes two characters; every other
      character stays one. */
  function Backslashes(s: string): nat {
    if s == [] then 0 else (if s[0] == '\\' then 1 else 0) + Backslashes(s[1..])
  }

  lemma {:induction false} EscapeLength(s: string)
    ensures |Escape(s)| == |s| + Backslashes(s)
  {
    if s != [] {
      EscapeLength(s[1..]);
    }
  }

  /** Where character `i` of a line lands once escaped: after itself and
      every backslash before it has been doubled. */
  function EscapedPos(s: string, i: nat): nat
    requires i <= |s|
  {
    i + Backslashes(s[..i])
  }

  /** Character `i` of the line is found at `EscapedPos(s, i)`, and a
      backslash is followed there by a second backslash: together with
      `EscapeLength`, every character of the escaped line is accounted for. */
  lemma {:induction false} EscapeAt(s: string, i: nat)
    requires i < |s|
    ensures EscapedPos(s, i) < |Escape(s)| && Escape(s)[EscapedPos(s, i)] == s[i]
    ensures s[i] == '\\' ==> EscapedPos(s, i) + 1 < |Escape(s)| && Escape(s)[EscapedPos(s, i) + 1] == '\\'
  {
    var head: string := if s[0] == '\\' then "\\\\" else [s[0]];
    var tail := Escape(s[1..]);
    assert Escape(s) == head + tail;
    if i > 0 {
      EscapeAt(s[1..], i - 1);
      var pre := s[..i];
      assert pre[0] == s[0] && pre[1..] == s[1..][..i - 1];
      assert Backslashes(pre) == |head| - 1 + Backslashes(s[1..][..i - 1]);
      assert EscapedPos(s, i) == |head| + EscapedPos(s[1..], i - 1);
      assert s[1..][i - 1] == s[i];
    }
  }

  /** One output line as written on checker.py:116, without its newline. */
  function OutputLine(s: string): string {
    Escape(s) + LineBreak
  }

  /** The text between the header line and the closing brace: one
      newline-terminated output line per result, in order. */
  function Body(results: seq<string>): string {
    if results == [] then [] else OutputLine(results[0]) + "\n" + Body(results[1..])
  }

  /** The whole file `output_o365.rtf`. */
  function Document(results: seq<string>): string {
    RtfHeader + "\n" + Body(results) + "}"
  }

  /** The body of a longer result list extends the body of a shorter one. */
  lemma {:induction false} BodyAppend(a: seq<string>, b: seq<string>)
    ensures Body(a + b) == Body(a) + Body(b)
  {
    if a != [] {
      assert (a + b)[1..] == a[1..] + b;
      BodyAppend(a[1..], b);
    } else {
      assert a + b == b;
    }
  }

  /** Position of the first newline in `s`, or `|s|` when there is none. */
  function NewlineAt(s: string): (k: nat)
    ensures k <= |s| && '\n' !in s[..k] && (k < |s| ==> s[k] == '\n')
  {
    if s == [] || s[0] == '\n' then 0 else 1 + NewlineAt(s[1..])
  }

  lemma {:induction false} NewlineAtSplit(u: string, v: string)
    requires '\n' !in u
    ensures NewlineAt(u + "\n" + v) == |u|
  {
    if u != [] {
      assert (u + "\n" + v)[1..] == u[1..] + "\n" + v;
      NewlineAtSplit(u[1..], v);
    }
  }

  /** Reads one output line back: drop the trailing `\line`, then undo the
      backslash doubling. */
  function DecodeLine(t: string): string {
    if |t| >= |LineBreak| && t[|t| - |LineBreak|..] == LineBreak
    then Unescape(t[..|t| - |LineBreak|])
    else Unescape(t)
  }

  /** Reads a body back into result lines, one per newline-terminated line. */
  function DecodeBody(s: string): seq<string>
    decreases |s|
  {
    if s == [] then []
    else
      var k := NewlineAt(s);
      [DecodeLine(s[..k])] + (if k < |s| then DecodeBody(s[k + 1..]) else [])
  }

  /** The report holds exactly `len(results)` lines, in order, and each one
      decodes to its result: reading the body back gives the results list. */
  lemma {:induction false} DecodeBodyInverse(results: seq<string>)
    requires forall k :: 0 <= k < |results| ==> '\n' !in results[k]
    ensures DecodeBody(Body(results)) == results
  {
    if results != [] {
      var line := OutputLine(results[0]);
      var rest := Body(results[1..]);
      EscapeNoNewline(results[0]);
      UnescapeEscape(results[0]);
      assert '\n' !in line;
      NewlineAtSplit(line, rest);
      var s := line + "\n" + rest;
      assert s[..|line|] == line;
      assert s[|line| + 1..] == rest;
      assert line[..|line| - |LineBreak|] == Escape(results[0]);
      assert DecodeLine(line) == results[0];
      DecodeBodyInverse(results[1..]);
    }
  }

  /** Appending one result appends its output line to the body. */
  lemma BodySnoc(a: seq<string>, x: string)
    ensures Body(a + [x]) == Body(a) + OutputLine(x) + "\n"
  {
    BodyAppend(a, [x]);
    assert Body([x]) == OutputLine(x) + "\n" + Body([]);
  }

  /** The output loop (checker.py:113-117), building the file's text. */
  method WriteReport(results: seq<string>) returns (doc: string)
    ensures doc == Document(results)
  {
    var head := RtfHeader + "\n";
    doc := head;
    for k := 0 to |results|
      invariant doc == head + Body(results[..k])
    {
      assert results[..k + 1] == results[..k] + [results[k]];
      BodySnoc(results[..k], results[k]);
      doc := doc + OutputLine(results[k]) + "\n";
    }
    assert results[..|results|] == results;
    doc := doc + "}";
  }
}
