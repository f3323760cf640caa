/** The text of a call file: its directive lines joined by '\n', and the
    splitting at '\n' that takes such text apart again. */
module Lines {

  const Newline: char := '\n'

  /** The number of characters in all of `lines` together. */
  function Chars(lines: seq<string>): nat
  {
    if |lines| == 0 then 0 else |lines[0]| + Chars(lines[1..])
  }

  /** `'\n'.join(lines)`: separators between lines, none after the last, so
      the text is the lines' characters and one separator fewer than lines. */
  function JoinLines(lines: seq<string>): (s: string)
    ensures |lines| == 0 ==> s == ""
    ensures |lines| > 0 ==> |s| == Chars(lines) + |lines| - 1
  {
    if |lines| == 0 then ""
    else if |lines| == 1 then lines[0]
    else lines[0] + [Newline] + JoinLines(lines[1..])
  }

  /** The number of '\n' characters in `s`. */
  function Newlines(s: string): nat
  {
    if s == [] then 0 else (if s[0] == Newline then 1 else 0) + Newlines(s[1..])
  }

  /** `s.split('\n')`: the pieces between separators, one more than there are
      separators, none of them holding a separator. */
  function Split(s: string): (parts: seq<string>)
    ensures |parts| == Newlines(s) + 1
    ensures forall i :: 0 <= i < |parts| ==> Newline !in parts[i]
  {
    if s == [] then [""]
    else
      var rest := Split(s[1..]);
      if s[0] == Newline then [""] + rest
      else [[s[0]] + rest[0]] + rest[1..]
  }

  /** No line of `lines` holds a separator. */
  predicate SingleLines(lines: seq<string>)
  {
    forall i :: 0 <= i < |lines| ==> Newline !in lines[i]
  }

  /** Text without a separator splits into itself. */
  lemma {:induction false} SplitSingle(a: string)
    requires Newline !in a
    ensures Split(a) == [a]
  {
    if a != [] {
      SplitSingle(a[1..]);
      assert [a[0]] + a[1..] == a;
    }
  }

  /** A separator-free line followed by a separator splits off as the first piece. */
  lemma {:induction false} SplitLeading(a: string, b: string)
    requires Newline !in a
    ensures Split(a + [Newline] + b) == [a] + Split(b)
  {
    var s := a + [Newline] + b;
    if a == [] {
      assert s[1..] == b;
    } else {
      assert s[1..] == a[1..] + [Newline] + b;
      SplitLeading(a[1..], b);
      assert [a[0]] + a[1..] == a;
    }
  }

  /** Splitting undoes joining, for a non-empty list of separator-free lines. */
  lemma {:induction false} SplitJoin(lines: seq<string>)
    requires |lines| > 0 && SingleLines(lines)
    ensures Split(JoinLines(lines)) == lines
  {
    if |lines| == 1 {
      SplitSingle(lines[0]);
    } else {
      SplitLeading(lines[0], JoinLines(lines[1..]));
      SplitJoin(lines[1..]);
    }
  }

  /** Joining undoes splitting, for every text: the pieces and the
      separators between them are exactly the text. */
  lemma {:induction false} JoinSplit(s: string)
    ensures JoinLines(Split(s)) == s
  {
    if s != [] {
      var rest := Split(s[1..]);
      JoinSplit(s[1..]);
      if s[0] == Newline {
        assert Split(s) == [""] + rest;
        assert ([""] + rest)[1..] == rest;
      } else if |rest| == 1 {
        assert Split(s) == [[s[0]] + rest[0]];
      } else {
        var parts := [[s[0]] + rest[0]] + rest[1..];
        assert parts[1..] == rest[1..];
        assert JoinLines(rest) == rest[0] + [Newline] + JoinLines(rest[1..]);
        assert JoinLines(parts) == [s[0]] + JoinLines(rest);
      }
      assert [s[0]] + s[1..] == s;
    }
  }

  /** n separator-free lines joined hold exactly n - 1 separators. */
  lemma JoinSeparators(lines: seq<string>)
    requires |lines| > 0 && SingleLines(lines)
    ensures Newlines(JoinLines(lines)) == |lines| - 1
  {
    SplitJoin(lines);
  }

  /** The joined text begins with the first line and ends with the last one:
      nothing is added after the last line. */
  lemma {:induction false} JoinEnds(lines: seq<string>)
    requires |lines| > 0
    ensures lines[0] <= JoinLines(lines)
    ensures var s, last := JoinLines(lines), lines[|lines| - 1];
            |last| <= |s| && s[|s| - |last|..] == last
  {
    if |lines| > 1 {
      JoinEnds(lines[1..]);
    }
  }

  /** Joining two non-empty lists is joining each and putting one separator between. */
  lemma {:induction false} JoinAppend(a: seq<string>, b: seq<string>)
    requires |a| > 0 && |b| > 0
    ensures JoinLines(a + b) == JoinLines(a) + [Newline] + JoinLines(b)
  {
    if |a| == 1 {
      assert (a + b)[1..] == b;
    } else {
      assert (a + b)[1..] == a[1..] + b;
      JoinAppend(a[1..], b);
    }
  }
}
