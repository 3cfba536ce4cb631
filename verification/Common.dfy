/** Small shared vocabulary: optional values and the string helpers the sources use. */
module Options {
  datatype Option<+T> = None | Some(value: T) {
    function GetOr(default: T): T {
      if Some? then value else default
    }
  }
}

/** Python's str.strip family, and str.split and str.join on a line feed. */
module Text {
  predicate IsSpace(c: char) {
    c in " \t\n\r" || c as int in {0x0b, 0x0c, 0x1c, 0x1d, 0x1e, 0x1f, 0x85, 0xa0}
  }

  function LStrip(s: string): string {
    if s != [] && IsSpace(s[0]) then LStrip(s[1..]) else s
  }

  function RStrip(s: string): string {
    if s != [] && IsSpace(s[|s| - 1]) then RStrip(s[..|s| - 1]) else s
  }

  function Strip(s: string): string {
    RStrip(LStrip(s))
  }

  lemma {:induction false} LStripStart(s: string)
    ensures LStrip(s) == "" || !IsSpace(LStrip(s)[0])
  {
    if s != [] && IsSpace(s[0]) { LStripStart(s[1..]); }
  }

  lemma {:induction false} RStripEnd(s: string)
    ensures RStrip(s) <= s && (RStrip(s) == "" || !IsSpace(RStrip(s)[|RStrip(s)| - 1]))
  {
    if s != [] && IsSpace(s[|s| - 1]) { RStripEnd(s[..|s| - 1]); }
  }

  lemma StripTwice(s: string)
    ensures Strip(Strip(s)) == Strip(s)
  {
    LStripStart(s);
    RStripEnd(LStrip(s));
    var t := Strip(s);
    assert t == "" || t[0] == LStrip(s)[0];
    assert LStrip(t) == t && RStrip(t) == t;
  }

  /** Something is left after stripping. */
  predicate HasText(s: string) {
    exists i :: 0 <= i < |s| && !IsSpace(s[i])
  }

  lemma {:induction false} RStripEmptyIff(s: string)
    ensures RStrip(s) != "" <==> HasText(s)
  {
    if s != [] {
      var n := |s| - 1;
      RStripEmptyIff(s[..n]);
      assert HasText(s) <==> HasText(s[..n]) || !IsSpace(s[n]) by {
        if HasText(s[..n]) {
          var i :| 0 <= i < n && !IsSpace(s[..n][i]);
          assert !IsSpace(s[i]);
        }
        if HasText(s) && IsSpace(s[n]) {
          var i :| 0 <= i < |s| && !IsSpace(s[i]);
          assert !IsSpace(s[..n][i]);
        }
      }
    }
  }

  lemma {:induction false} LStripKeepsText(s: string)
    ensures HasText(LStrip(s)) <==> HasText(s)
  {
    if s != [] && IsSpace(s[0]) {
      LStripKeepsText(s[1..]);
      if HasText(s) {
        var i :| 0 <= i < |s| && !IsSpace(s[i]);
        assert !IsSpace(s[1..][i - 1]);
      }
      if HasText(s[1..]) {
        var i :| 0 <= i < |s| - 1 && !IsSpace(s[1..][i]);
        assert !IsSpace(s[i + 1]);
      }
    }
  }

  /** A string is blank, as the sources test it, exactly when all of it is white space. */
  lemma StripEmptyIff(s: string)
    ensures Strip(s) != "" <==> HasText(s)
  {
    RStripEmptyIff(LStrip(s));
    LStripKeepsText(s);
  }

  predicate OneLine(s: string) {
    '\n' !in s
  }

  /** str.split on a line feed: always at least one line. */
  function Split(s: string): (lines: seq<string>)
    ensures lines != [] && forall l :: l in lines ==> OneLine(l)
  {
    if s == [] then [[]]
    else
      var rest := Split(s[1..]);
      assert rest[0] in rest;
      if s[0] == '\n' then [[]] + rest else [[s[0]] + rest[0]] + rest[1..]
  }

  function Join(lines: seq<string>): string
    requires lines != []
  {
    if |lines| == 1 then lines[0] else lines[0] + "\n" + Join(lines[1..])
  }

  lemma {:induction false} JoinOfSplit(s: string)
    ensures Join(Split(s)) == s
  {
    if s != [] {
      JoinOfSplit(s[1..]);
      var rest := Split(s[1..]);
      if s[0] == '\n' {
        assert ([[]] + rest)[1..] == rest;
      } else {
        var lines := [[s[0]] + rest[0]] + rest[1..];
        assert lines[1..] == rest[1..];
      }
    }
  }

  lemma {:induction false} SplitOfLine(l: string)
    requires OneLine(l)
    ensures Split(l) == [l]
  {
    if l != [] {
      assert l[0] in l;
      SplitOfLine(l[1..]);
      assert [l[0]] + l[1..] == l;
    }
  }

  lemma {:induction false} SplitAfterLine(l: string, t: string)
    requires OneLine(l)
    ensures Split(l + "\n" + t) == [l] + Split(t)
  {
    if l == [] {
      assert (l + "\n" + t)[1..] == t;
    } else {
      SplitAfterLine(l[1..], t);
      var s := l + "\n" + t;
      assert s[0] == l[0] && l[0] in l && s[1..] == l[1..] + "\n" + t;
      assert Split(s[1..]) == [l[1..]] + Split(t);
      assert [l[0]] + l[1..] == l;
    }
  }

  lemma {:induction false} SplitOfJoin(lines: seq<string>)
    requires lines != [] && forall l :: l in lines ==> OneLine(l)
    ensures Split(Join(lines)) == lines
  {
    if |lines| == 1 {
      SplitOfLine(lines[0]);
    } else {
      SplitAfterLine(lines[0], Join(lines[1..]));
      SplitOfJoin(lines[1..]);
    }
  }
}
