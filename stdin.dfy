/**
 * `readStdin` of cmd/root.go: the lines scanned from standard input,
 * each followed by a newline, or the empty string and the scanner's error.
 */
module Stdin {
  import opened Wrappers

  /**
   * What the line scanner over standard input delivers: the lines it
   * scanned, without their terminators, and the error it stopped on, if any
   * (None when it stopped at end of input).
   */
  datatype Scan = Scan(lines: seq<string>, err: Option<string>)

  /** A scanned line never holds a line terminator. */
  predicate IsLine(l: string)
  {
    '\n' !in l
  }

  predicate AllLines(lines: seq<string>)
  {
    forall i :: 0 <= i < |lines| ==> IsLine(lines[i])
  }

  /** The lines, each followed by "\n". */
  function Joined(lines: seq<string>): (s: string)
    ensures s == "" <==> lines == []
    ensures lines != [] ==> s[|s| - 1] == '\n'
  {
    if lines == [] then "" else lines[0] + "\n" + Joined(lines[1..])
  }

  /** Appending a line to the list appends that line and a newline to the text. */
  lemma {:induction false} JoinedSnoc(lines: seq<string>, l: string)
    ensures Joined(lines + [l]) == Joined(lines) + l + "\n"
  {
    if lines == [] {
      assert lines + [l] == [l];
    } else {
      assert (lines + [l])[1..] == lines[1..] + [l];
      JoinedSnoc(lines[1..], l);
    }
  }

  /** The text holds exactly one newline per scanned line. */
  lemma {:induction false} JoinedNewlines(lines: seq<string>)
    requires AllLines(lines)
    ensures multiset(Joined(lines))['\n'] == |lines|
  {
    if lines != [] {
      assert IsLine(lines[0]);
      JoinedNewlines(lines[1..]);
      assert Joined(lines) == lines[0] + "\n" + Joined(lines[1..]);
      assert multiset(Joined(lines)) == multiset(lines[0]) + multiset("\n") + multiset(Joined(lines[1..]));
    }
  }

  /** The first line of `s` and the text after its terminator. */
  function TakeLine(s: string): (r: (string, string))
    ensures IsLine(r.0)
    ensures '\n' in s ==> s == r.0 + "\n" + r.1
  {
    if s == "" then ("", "")
    else if s[0] == '\n' then ("", s[1..])
    else
      var (l, rest) := TakeLine(s[1..]);
      assert '\n' in s ==> '\n' in s[1..] by {
        if '\n' in s {
          var k :| 0 <= k < |s| && s[k] == '\n';
          assert s[1..][k - 1] == '\n';
        }
      }
      ([s[0]] + l, rest)
  }

  /** Splits newline-terminated text back into its lines. */
  function SplitLines(s: string): (lines: seq<string>)
    ensures AllLines(lines)
    decreases |s|
  {
    if s == "" then []
    else
      var (l, rest) := TakeLine(s);
      if '\n' in s then [l] + SplitLines(rest) else [l]
  }

  lemma {:induction false} TakeLineJoined(l: string, rest: string)
    requires IsLine(l)
    ensures TakeLine(l + "\n" + rest) == (l, rest)
  {
    var s := l + "\n" + rest;
    if l != [] {
      assert s[0] == l[0] && s[1..] == l[1..] + "\n" + rest;
      TakeLineJoined(l[1..], rest);
      assert [l[0]] + l[1..] == l;
    }
  }

  /** Splitting the accumulated text gives back the scanned lines. */
  lemma {:induction false} SplitJoined(lines: seq<string>)
    requires AllLines(lines)
    ensures SplitLines(Joined(lines)) == lines
  {
    if lines != [] {
      var s := Joined(lines);
      TakeLineJoined(lines[0], Joined(lines[1..]));
      assert s[|lines[0]|] == '\n';
      SplitJoined(lines[1..]);
    }
  }

  /** Joining the lines of newline-terminated text gives back the text. */
  lemma {:induction false} JoinedSplit(s: string)
    requires s == "" || s[|s| - 1] == '\n'
    ensures Joined(SplitLines(s)) == s
    decreases |s|
  {
    if s != "" {
      assert '\n' in s by { assert s[|s| - 1] == '\n'; }
      var (l, rest) := TakeLine(s);
      assert s == l + "\n" + rest;
      if rest != "" {
        assert rest[|rest| - 1] == s[|s| - 1];
      }
      JoinedSplit(rest);
      assert SplitLines(s) == [l] + SplitLines(rest);
    }
  }

  /**
   * `readStdin`: appends every scanned line and a newline to the content;
   * on a scanner error the content is dropped and the error returned.
   */
  method ReadStdin(input: Scan) returns (content: string, err: Option<string>)
    ensures err == input.err
    ensures err.Some? ==> content == ""
    ensures err.None? ==> content == Joined(input.lines)
  {
    content := "";
    var i := 0;
    while i < |input.lines|
      invariant 0 <= i <= |input.lines|
      invariant content == Joined(input.lines[..i])
    {
      JoinedSnoc(input.lines[..i], input.lines[i]);
      assert input.lines[..i + 1] == input.lines[..i] + [input.lines[i]];
      content := content + input.lines[i] + "\n";
      i := i + 1;
    }
    assert input.lines[..i] == input.lines;
    if input.err.Some? {
      return "", input.err;
    }
    return content, None;
  }

  /** The specification of `readStdin` as a value: the content, or the scanner's error. */
  function StdinContent(input: Scan): (r: Result<string, string>)
    ensures r.Err? <==> input.err.Some?
    ensures r.Err? ==> r.error == input.err.value
    ensures r.Ok? ==> (r.value == "" <==> input.lines == [])
  {
    if input.err.Some? then Err(input.err.value) else Ok(Joined(input.lines))
  }
}
