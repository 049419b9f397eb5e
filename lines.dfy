/** Text made of lines: JavaScript's `lines.join('\n')` and its reader,
    `text.split('\n')`. */
module Lines {

  predicate NoNewline(s: string) {
    '\n' !in s
  }

  predicate AllNoNewline(lines: seq<string>) {
    forall i :: 0 <= i < |lines| ==> NoNewline(lines[i])
  }

  /** `lines.join('\n')`: the lines with one '\n' between neighbours and none
      at the end; the empty array joins to "". */
  function Join(lines: seq<string>): string
  {
    if |lines| == 0 then ""
    else if |lines| == 1 then lines[0]
    else lines[0] + "\n" + Join(lines[1..])
  }

  /** `text.split('\n')`: the pieces between the '\n' characters, in order;
      always at least one piece. */
  function Split(s: string): (pieces: seq<string>)
    ensures |pieces| >= 1
  {
    if s == [] then [""]
    else
      var rest := Split(s[1..]);
      if s[0] == '\n' then [""] + rest
      else [[s[0]] + rest[0]] + rest[1..]
  }

  /** The number of '\n' characters in a text. */
  function NewlineCount(s: string): nat
  {
    if s == [] then 0 else (if s[0] == '\n' then 1 else 0) + NewlineCount(s[1..])
  }

  lemma {:induction false} SplitNoNewline(s: string)
    requires NoNewline(s)
    ensures Split(s) == [s]
  {
    if s != [] {
      SplitNoNewline(s[1..]);
      assert [s[0]] + s[1..] == s;
    }
  }

  /** Splitting is compatible with gluing on a '\n'. */
  lemma {:induction false} SplitGlue(a: string, b: string)
    ensures Split(a + "\n" + b) == Split(a) + Split(b)
  {
    var s := a + "\n" + b;
    if a == [] {
      assert s[0] == '\n' && s[1..] == b;
    } else {
      assert s[0] == a[0] && s[1..] == a[1..] + "\n" + b;
      SplitGlue(a[1..], b);
      var head := Split(a[1..]);
      var rest := Split(s[1..]);
      assert rest == head + Split(b);
      if a[0] != '\n' {
        assert rest[0] == head[0];
        assert rest[1..] == head[1..] + Split(b);
      }
    }
  }

  /** A first line without '\n' is read off as it is. */
  lemma SplitLine(x: string, rest: string)
    requires NoNewline(x)
    ensures Split(x + "\n" + rest) == [x] + Split(rest)
  {
    SplitGlue(x, rest);
    SplitNoNewline(x);
  }

  /** Reading back joined lines that hold no '\n' gives the lines. */
  lemma {:induction false} SplitJoin(lines: seq<string>)
    requires |lines| >= 1 && AllNoNewline(lines)
    ensures Split(Join(lines)) == lines
  {
    if |lines| == 1 {
      SplitNoNewline(lines[0]);
    } else {
      SplitJoin(lines[1..]);
      SplitNoNewline(lines[0]);
      SplitGlue(lines[0], Join(lines[1..]));
      assert [lines[0]] + lines[1..] == lines;
    }
  }

  lemma JoinCons(x: string, rest: seq<string>)
    requires |rest| >= 1
    ensures Join([x] + rest) == x + "\n" + Join(rest)
  {
    assert ([x] + rest)[0] == x && ([x] + rest)[1..] == rest;
  }

  /** Joining the pieces of any text gives the text back. */
  lemma {:induction false} JoinSplit(s: string)
    ensures Join(Split(s)) == s
  {
    if s != [] {
      JoinSplit(s[1..]);
      var rest := Split(s[1..]);
      if s[0] == '\n' {
        assert Split(s) == [""] + rest;
        JoinCons("", rest);
        assert s == "" + "\n" + s[1..];
      } else {
        var first := [s[0]] + rest[0];
        assert Split(s) == [first] + rest[1..];
        if |rest| == 1 {
          assert Split(s) == [first];
          assert s == [s[0]] + rest[0];
        } else {
          JoinCons(first, rest[1..]);
          assert rest == [rest[0]] + rest[1..];
          JoinCons(rest[0], rest[1..]);
          assert s == [s[0]] + (rest[0] + "\n" + Join(rest[1..]));
        }
      }
    }
  }

  /** Two texts with the same pieces are the same text, '\n' or not. */
  lemma SplitInjective(a: string, b: string)
    requires Split(a) == Split(b)
    ensures a == b
  {
    JoinSplit(a);
    JoinSplit(b);
  }

  lemma {:induction false} NewlineCountAppend(a: string, b: string)
    ensures NewlineCount(a + b) == NewlineCount(a) + NewlineCount(b)
  {
    if a != [] {
      NewlineCountAppend(a[1..], b);
      assert (a + b)[1..] == a[1..] + b;
    } else {
      assert a + b == b;
    }
  }

  lemma {:induction false} NewlineCountNone(s: string)
    requires NoNewline(s)
    ensures NewlineCount(s) == 0
  {
    if s != [] {
      NewlineCountNone(s[1..]);
    }
  }

  /** n lines without '\n' are joined by exactly n - 1 separators. */
  lemma {:induction false} JoinNewlineCount(lines: seq<string>)
    requires |lines| >= 1 && AllNoNewline(lines)
    ensures NewlineCount(Join(lines)) == |lines| - 1
  {
    NewlineCountNone(lines[0]);
    if |lines| > 1 {
      JoinNewlineCount(lines[1..]);
      assert Join(lines) == lines[0] + ("\n" + Join(lines[1..]));
      assert NewlineCount("\n") == 1;
      NewlineCountAppend(lines[0], "\n" + Join(lines[1..]));
      NewlineCountAppend("\n", Join(lines[1..]));
    }
  }
}
