/**
 Where the edit tool finds a text: exact occurrences, whole lines equal up to trailing blanks,
 and whole lines equal up to indentation.
 */
module SearchReplace {
  import opened Text

  /** A half-open range of a text. */
  datatype Span = Span(start: nat, end: nat)

  predicate Within(s: Span, text: string) {
    s.start <= s.end <= |text|
  }

  /** The span covers whole lines: it starts and ends at a line feed or an end of the text. */
  predicate IsLineRun(text: string, s: Span) {
    && Within(s, text)
    && (s.start > 0 ==> text[s.start - 1] == '\n')
    && (s.end < |text| ==> text[s.end] == '\n')
  }

  // ------------------------------------------------------------ exact occurrences

  predicate Occurs(text: string, search: string, p: nat) {
    p + |search| <= |text| && text[p..p + |search|] == search
  }

  /** The matches a left-to-right scan from `p` reports, each resuming where the last ended. */
  function Scan(text: string, search: string, p: nat): seq<Span>
    requires search != []
    decreases |text| - p
  {
    if p + |search| > |text| then []
    else if Occurs(text, search, p) then [Span(p, p + |search|)] + Scan(text, search, p + |search|)
    else Scan(text, search, p + 1)
  }

  /** An occurrence at or after `p` that no listed match hides by starting before it and ending after its start. */
  ghost predicate Visible(text: string, search: string, spans: seq<Span>, p: nat) {
    Occurs(text, search, p) && forall s :: s in spans && s.start < p ==> s.end <= p
  }

  ghost predicate Ordered(spans: seq<Span>) {
    forall i, j :: 0 <= i < j < |spans| ==> spans[i].end <= spans[j].start
  }

  /** The scan lists, in order and without overlap, exactly the occurrences no earlier match hides. */
  lemma {:induction false} ScanIsLeftmost(text: string, search: string, p: nat)
    requires search != []
    ensures Ordered(Scan(text, search, p))
    ensures forall s :: s in Scan(text, search, p) ==> p <= s.start && s.end == s.start + |search| <= |text|
    ensures forall q: nat :: p <= q ==>
              (Span(q, q + |search|) in Scan(text, search, p) <==> Visible(text, search, Scan(text, search, p), q))
    decreases |text| - p
  {
    var spans := Scan(text, search, p);
    if p + |search| > |text| {
    } else if Occurs(text, search, p) {
      var first := Span(p, p + |search|);
      var rest := Scan(text, search, p + |search|);
      ScanIsLeftmost(text, search, p + |search|);
      assert spans == [first] + rest;
      forall q: nat | p <= q
        ensures Span(q, q + |search|) in spans <==> Visible(text, search, spans, q)
      {
        if p < q < p + |search| {
          assert first in spans && !Visible(text, search, spans, q);
        } else if q >= p + |search| {
          assert Visible(text, search, rest, q) <==> Visible(text, search, spans, q);
        }
      }
    } else {
      ScanIsLeftmost(text, search, p + 1);
    }
  }

  /** Ordered, and lists exactly the visible occurrences. */
  ghost predicate Leftmost(text: string, search: string, spans: seq<Span>) {
    && Ordered(spans)
    && (forall s :: s in spans ==> s.end == s.start + |search|)
    && (forall q: nat :: Span(q, q + |search|) in spans <==> Visible(text, search, spans, q))
  }

  lemma {:induction false} LeftmostPrefixes(text: string, search: string, spans: seq<Span>, k: nat)
    requires search != [] && Leftmost(text, search, spans)
    requires k <= |spans| && k <= |Scan(text, search, 0)|
    ensures spans[..k] == Scan(text, search, 0)[..k]
  {
    var scan := Scan(text, search, 0);
    ScanIsLeftmost(text, search, 0);
    if k > 0 {
      LeftmostPrefixes(text, search, spans, k - 1);
      var a, b := spans[k - 1], scan[k - 1];
      if a.start < b.start {
        NextVisible(text, search, spans, scan, k - 1);
      } else if b.start < a.start {
        NextVisible(text, search, scan, spans, k - 1);
      }
      assert a == b;
    }
  }

  lemma Missed(text: string, search: string, spans: seq<Span>, q: nat)
    requires Occurs(text, search, q)
    requires forall i :: 0 <= i < |spans| ==> spans[i].start != q && (spans[i].start < q ==> spans[i].end <= q)
    ensures !Leftmost(text, search, spans)
  {
    assert Visible(text, search, spans, q);
  }

  /** Lists that agree so far cannot differ next: the earlier of the two would be missing in the other. */
  lemma NextVisible(text: string, search: string, xs: seq<Span>, ys: seq<Span>, k: nat)
    requires search != [] && Leftmost(text, search, xs) && Leftmost(text, search, ys)
    requires k < |xs| && k < |ys| && xs[..k] == ys[..k]
    ensures xs[k].start >= ys[k].start
  {
    if xs[k].start < ys[k].start {
      var q := xs[k].start;
      assert xs[k] in xs && Visible(text, search, xs, q);
      forall i | 0 <= i < |ys| ensures ys[i].start != q && (ys[i].start < q ==> ys[i].end <= q) {
        if i < k {
          assert ys[i] == ys[..k][i] == xs[..k][i] == xs[i] && xs[i] in xs;
          assert xs[i].end <= xs[k].start;
        } else if i > k {
          assert ys[k] in ys && ys[k].end <= ys[i].start;
        }
      }
      Missed(text, search, ys, q);
    }
  }

  /** Of two such lists that agree as far as the shorter goes, the longer has nothing more. */
  lemma NothingMore(text: string, search: string, xs: seq<Span>, ys: seq<Span>)
    requires search != [] && Leftmost(text, search, xs) && Leftmost(text, search, ys)
    requires |xs| <= |ys| && ys[..|xs|] == xs
    ensures xs == ys
  {
    if |xs| < |ys| {
      var s := ys[|xs|];
      assert s in ys && Visible(text, search, ys, s.start);
      forall x | x in xs ensures x in ys && x.start != s.start {
        var i :| 0 <= i < |xs| && xs[i] == x;
        assert ys[i] == ys[..|xs|][i] == x && ys[i].end <= s.start;
      }
      assert Visible(text, search, xs, s.start);
    }
  }

  /** Being the leftmost non-overlapping occurrences determines the list, and it is the scan's. */
  lemma ScanIsTheLeftmost(text: string, search: string, spans: seq<Span>)
    requires search != []
    ensures Leftmost(text, search, spans) <==> spans == Scan(text, search, 0)
  {
    var scan := Scan(text, search, 0);
    ScanIsLeftmost(text, search, 0);
    assert Leftmost(text, search, scan);
    if Leftmost(text, search, spans) {
      var k := if |spans| <= |scan| then |spans| else |scan|;
      LeftmostPrefixes(text, search, spans, k);
      if k == |spans| {
        assert spans[..k] == spans;
        NothingMore(text, search, spans, scan);
      } else {
        assert scan[..k] == scan;
        NothingMore(text, search, scan, spans);
      }
    }
  }

  // ------------------------------------------------------------ lines and their offsets

  function Off(lines: seq<string>, i: nat): nat
    requires i <= |lines|
  {
    if i == 0 then 0 else |lines[0]| + 1 + Off(lines[1..], i - 1)
  }

  lemma {:induction false} OffNext(lines: seq<string>, i: nat)
    requires i < |lines|
    ensures Off(lines, i + 1) == Off(lines, i) + |lines[i]| + 1
  {
    if i > 0 { OffNext(lines[1..], i - 1); }
  }

  method LineOffsets(text: string) returns (offsets: seq<nat>)
    ensures |offsets| == |Split(text)|
    ensures forall i :: 0 <= i < |offsets| ==> offsets[i] == Off(Split(text), i)
  {
    var lines := Split(text);
    offsets := [0];
    for i := 0 to |lines| - 1
      invariant |offsets| == i + 1
      invariant forall k :: 0 <= k <= i ==> offsets[k] == Off(lines, k)
    {
      OffNext(lines, i);
      offsets := offsets + [offsets[|offsets| - 1] + |lines[i]| + 1];
    }
  }

  /** The range of the whole lines i .. i + w - 1, without the line feed after the last. */
  function LineSpan(lines: seq<string>, i: nat, w: nat): Span
    requires 0 < w && i + w <= |lines|
  {
    Span(Off(lines, i), Off(lines, i + w - 1) + |lines[i + w - 1]|)
  }

  lemma {:induction false} JoinOfBoth(a: seq<string>, b: seq<string>)
    requires a != [] && b != []
    ensures Join(a + b) == Join(a) + "\n" + Join(b)
  {
    assert (a + b)[0] == a[0] && (a + b)[1..] == a[1..] + b;
    if |a| > 1 {
      JoinOfBoth(a[1..], b);
    } else {
      assert (a + b)[1..] == b;
    }
  }

  lemma {:induction false} PrefixLength(lines: seq<string>, j: nat)
    requires 0 < j <= |lines|
    ensures |Join(lines[..j])| == Off(lines, j - 1) + |lines[j - 1]|
  {
    if j > 1 {
      PrefixLength(lines[1..], j - 1);
      assert lines[..j][1..] == lines[1..][..j - 1];
    }
  }

  /** What precedes line i in the text: as long as its offset says, and ended by a line feed. */
  lemma LinesBefore(lines: seq<string>, i: nat) returns (pre: string)
    requires i < |lines|
    ensures Join(lines) == pre + Join(lines[i..]) && |pre| == Off(lines, i)
    ensures if i == 0 then pre == "" else pre != "" && pre[|pre| - 1] == '\n'
  {
    if i == 0 {
      assert lines[0..] == lines;
      pre := "";
    } else {
      assert lines == lines[..i] + lines[i..];
      JoinOfBoth(lines[..i], lines[i..]);
      PrefixLength(lines, i);
      OffNext(lines, i - 1);
      pre := Join(lines[..i]) + "\n";
    }
  }

  lemma LinesAfter(lines: seq<string>, w: nat) returns (post: string)
    requires 0 < w <= |lines|
    ensures Join(lines) == Join(lines[..w]) + post && |Join(lines[..w])| == Off(lines, w - 1) + |lines[w - 1]|
    ensures if w == |lines| then post == "" else post != "" && post[0] == '\n'
  {
    PrefixLength(lines, w);
    if w == |lines| {
      assert lines[..w] == lines;
      post := "";
    } else {
      assert lines == lines[..w] + lines[w..];
      JoinOfBoth(lines[..w], lines[w..]);
      post := "\n" + Join(lines[w..]);
    }
  }

  lemma {:induction false} OffAdds(lines: seq<string>, i: nat, j: nat)
    requires i + j <= |lines|
    ensures Off(lines, i + j) == Off(lines, i) + Off(lines[i..], j)
  {
    if i == 0 {
      assert lines[0..] == lines;
    } else {
      OffAdds(lines[1..], i - 1, j);
      assert lines[1..][i - 1..] == lines[i..];
    }
  }

  /** The offsets rebuild any run of lines from the text, and the run starts and ends at line ends. */
  lemma LinesAt(lines: seq<string>, i: nat, w: nat) returns (pre: string, post: string)
    requires 0 < w && i + w <= |lines|
    ensures Join(lines) == pre + Join(lines[i..i + w]) + post
    ensures LineSpan(lines, i, w) == Span(|pre|, |pre| + |Join(lines[i..i + w])|)
    ensures if i == 0 then pre == "" else pre != "" && pre[|pre| - 1] == '\n'
    ensures if i + w == |lines| then post == "" else post != "" && post[0] == '\n'
  {
    pre := LinesBefore(lines, i);
    var rest := lines[i..];
    post := LinesAfter(rest, w);
    assert rest[..w] == lines[i..i + w];
    assert rest[w - 1] == lines[i + w - 1];
    OffAdds(lines, i, w - 1);
  }

  // ------------------------------------------------------------ tolerant matches

  function Normalize(line: string, ignoreIndent: bool): string {
    if ignoreIndent then Strip(line) else RStrip(line)
  }

  function DropFeeds(s: string): string {
    if s != [] && s[0] == '\n' then DropFeeds(s[1..])
    else if s != [] && s[|s| - 1] == '\n' then DropFeeds(s[..|s| - 1])
    else s
  }

  function NormalizeAll(lines: seq<string>, ignoreIndent: bool): (r: seq<string>)
    ensures |r| == |lines|
  {
    seq(|lines|, k requires 0 <= k < |lines| => Normalize(lines[k], ignoreIndent))
  }

  function Wanted(search: string, ignoreIndent: bool): (r: seq<string>)
    ensures r != []
  {
    NormalizeAll(Split(DropFeeds(search)), ignoreIndent)
  }

  /** Equal but for white space at the end, and at the start too if indentation is ignored. */
  ghost predicate SameLine(a: string, b: string, ignoreIndent: bool) {
    exists text, lead, tail, lead', tail' :: Frames(a, lead, text, tail) && Frames(b, lead', text, tail')
      && (!ignoreIndent ==> lead == lead' == "")
  }

  ghost predicate Frames(line: string, lead: string, text: string, tail: string) {
    line == lead + text + tail && !HasText(lead) && !HasText(tail)
  }

  lemma {:induction false} LStripPastIndent(a: string, x: string)
    requires !HasText(a)
    ensures LStrip(a + x) == LStrip(x)
  {
    if a == [] {
      assert a + x == x;
    } else {
      assert IsSpace(a[0]) && (a + x)[1..] == a[1..] + x;
      assert !HasText(a[1..]) by {
        forall i | 0 <= i < |a[1..]| ensures IsSpace(a[1..][i]) { assert IsSpace(a[i + 1]); }
      }
      LStripPastIndent(a[1..], x);
    }
  }

  lemma {:induction false} RStripPast(x: string, tail: string)
    requires !HasText(tail)
    ensures RStrip(x + tail) == RStrip(x)
    decreases |tail|
  {
    if tail == [] {
      assert x + tail == x;
    } else {
      var n := |tail| - 1;
      assert IsSpace(tail[n]) && (x + tail)[..|x + tail| - 1] == x + tail[..n];
      assert !HasText(tail[..n]) by { forall i | 0 <= i < n ensures IsSpace(tail[..n][i]) { assert IsSpace(tail[i]); } }
      RStripPast(x, tail[..n]);
    }
  }

  lemma {:induction false} LStripFrames(s: string)
    ensures |LStrip(s)| <= |s| && Frames(s, s[..|s| - |LStrip(s)|], LStrip(s), "")
  {
    if s != [] && IsSpace(s[0]) {
      LStripFrames(s[1..]);
      var n := |s| - |LStrip(s)|;
      assert s[..n] == [s[0]] + s[1..][..n - 1];
      forall i | 0 <= i < n ensures IsSpace(s[..n][i]) { assert i > 0 ==> IsSpace(s[1..][..n - 1][i - 1]); }
    }
  }

  lemma {:induction false} RStripFrames(s: string)
    ensures |RStrip(s)| <= |s| && Frames(s, "", RStrip(s), s[|RStrip(s)|..])
  {
    if s != [] && IsSpace(s[|s| - 1]) {
      var n := |s| - 1;
      RStripFrames(s[..n]);
      var k := |RStrip(s)|;
      assert s[k..] == s[..n][k..] + [s[n]];
      forall i | 0 <= i < |s[k..]| ensures IsSpace(s[k..][i]) { assert i < n - k ==> IsSpace(s[..n][k..][i]); }
    }
  }

  lemma NormalizeFrames(a: string, ignoreIndent: bool) returns (lead: string, tail: string)
    ensures Frames(a, lead, Normalize(a, ignoreIndent), tail) && (!ignoreIndent ==> lead == "")
  {
    if ignoreIndent {
      LStripFrames(a);
      var b := LStrip(a);
      RStripFrames(b);
      lead, tail := a[..|a| - |b|], b[|RStrip(b)|..];
      assert a == lead + b && b == RStrip(b) + tail;
    } else {
      RStripFrames(a);
      lead, tail := "", a[|RStrip(a)|..];
    }
  }

  lemma FramedNormalizes(a: string, lead: string, text: string, tail: string, ignoreIndent: bool)
    requires Frames(a, lead, text, tail) && (!ignoreIndent ==> lead == "")
    ensures Normalize(a, ignoreIndent) == Normalize(text, ignoreIndent)
  {
    if ignoreIndent {
      assert lead + text + tail == lead + (text + tail);
      LStripPastIndent(lead, text + tail);
      LStripThenTail(text, tail);
    } else {
      assert lead + text + tail == text + tail;
      RStripPast(text, tail);
    }
  }

  lemma {:induction false} LStripThenTail(text: string, tail: string)
    requires !HasText(tail)
    ensures RStrip(LStrip(text + tail)) == RStrip(LStrip(text))
  {
    if text == [] {
      assert text + tail == tail;
      LStripPastIndent(tail, "");
      assert tail + "" == tail;
    } else if IsSpace(text[0]) {
      assert (text + tail)[1..] == text[1..] + tail;
      LStripThenTail(text[1..], tail);
    } else {
      RStripPast(text, tail);
    }
  }

  /** Two lines match as the search compares them exactly if they differ in blanks alone, where those are tolerated. */
  lemma NormalizedAlikeIff(a: string, b: string, ignoreIndent: bool)
    ensures Normalize(a, ignoreIndent) == Normalize(b, ignoreIndent) <==> SameLine(a, b, ignoreIndent)
  {
    var lead, tail := NormalizeFrames(a, ignoreIndent);
    var lead', tail' := NormalizeFrames(b, ignoreIndent);
    if SameLine(a, b, ignoreIndent) {
      var text, l, t, l', t' :| Frames(a, l, text, t) && Frames(b, l', text, t') && (!ignoreIndent ==> l == l' == "");
      FramedNormalizes(a, l, text, t, ignoreIndent);
      FramedNormalizes(b, l', text, t', ignoreIndent);
    }
  }

  predicate Feeds(s: string) {
    forall i :: 0 <= i < |s| ==> s[i] == '\n'
  }

  /** The search text loses exactly the line feeds around it. */
  lemma {:induction false} DropFeedsStrips(s: string) returns (before: string, after: string)
    ensures s == before + DropFeeds(s) + after && Feeds(before) && Feeds(after)
    ensures var d := DropFeeds(s); d != "" ==> d[0] != '\n' && d[|d| - 1] != '\n'
    decreases |s|
  {
    if s != [] && s[0] == '\n' {
      before, after := DropFeedsStrips(s[1..]);
      before := [s[0]] + before;
      assert s == [s[0]] + s[1..];
    } else if s != [] && s[|s| - 1] == '\n' {
      before, after := DropFeedsStrips(s[..|s| - 1]);
      after := after + [s[|s| - 1]];
      assert s == s[..|s| - 1] + [s[|s| - 1]];
    } else {
      before, after := "", "";
    }
  }

  /** The lines from `i` on equal the wanted ones up to the tolerated blanks. */
  predicate Matches(lines: seq<string>, wanted: seq<string>, ignoreIndent: bool, i: nat) {
    i + |wanted| <= |lines|
    && forall k :: 0 <= k < |wanted| ==> Normalize(lines[i + k], ignoreIndent) == wanted[k]
  }

  predicate AllEmpty(wanted: seq<string>) {
    forall k :: 0 <= k < |wanted| ==> wanted[k] == []
  }

  lemma {:induction false} TextInSomeLine(s: string)
    ensures HasText(s) <==> exists l :: l in Split(s) && HasText(l)
  {
    if s != [] {
      var rest := Split(s[1..]);
      TextInSomeLine(s[1..]);
      assert s == [s[0]] + s[1..];
      TextOfBoth([s[0]], s[1..]);
      if s[0] == '\n' {
        assert !HasText([s[0]]) && !HasText("");
        assert Split(s) == [[]] + rest;
      } else {
        TextOfBoth([s[0]], rest[0]);
        var first := [s[0]] + rest[0];
        assert Split(s) == [first] + rest[1..] && rest == [rest[0]] + rest[1..];
      }
    }
  }

  lemma TextOfBoth(a: string, b: string)
    ensures HasText(a + b) <==> HasText(a) || HasText(b)
  {
    if HasText(a + b) {
      var i :| 0 <= i < |a + b| && !IsSpace((a + b)[i]);
      if i < |a| { assert !IsSpace(a[i]); } else { assert !IsSpace(b[i - |a|]); }
    }
    if i :| 0 <= i < |a| && !IsSpace(a[i]) { assert !IsSpace((a + b)[i]); }
    if i :| 0 <= i < |b| && !IsSpace(b[i]) { assert !IsSpace((a + b)[|a| + i]); }
  }

  lemma NormalEmptyIff(l: string, ignoreIndent: bool)
    ensures Normalize(l, ignoreIndent) == "" <==> !HasText(l)
  {
    StripEmptyIff(l);
    RStripEmptyIff(l);
  }

  /** Nothing is searched for exactly if the search text is blank. */
  lemma BlankSearchIff(search: string, ignoreIndent: bool)
    ensures AllEmpty(Wanted(search, ignoreIndent)) <==> !HasText(search)
  {
    var before, after := DropFeedsStrips(search);
    var d := DropFeeds(search);
    assert !HasText(before) && !HasText(after);
    TextOfBoth(before + d, after);
    TextOfBoth(before, d);
    TextInSomeLine(d);
    var lines, wanted := Split(d), Wanted(search, ignoreIndent);
    forall k | 0 <= k < |lines| ensures wanted[k] == "" <==> !HasText(lines[k]) { NormalEmptyIff(lines[k], ignoreIndent); }
    if l :| l in lines && HasText(l) {
      var k :| 0 <= k < |lines| && lines[k] == l;
      assert wanted[k] != "";
    }
  }

  /** The matching runs that start at line `n` or later, in order. */
  function Runs(lines: seq<string>, wanted: seq<string>, ignoreIndent: bool, n: nat): seq<Span>
    requires wanted != []
    decreases |lines| - n
  {
    if n + |wanted| > |lines| then []
    else if Matches(lines, wanted, ignoreIndent, n) then
      [LineSpan(lines, n, |wanted|)] + Runs(lines, wanted, ignoreIndent, n + 1)
    else Runs(lines, wanted, ignoreIndent, n + 1)
  }

  function TolerantSpans(text: string, search: string, ignoreIndent: bool): seq<Span> {
    var wanted := Wanted(search, ignoreIndent);
    if AllEmpty(wanted) then [] else Runs(Split(text), wanted, ignoreIndent, 0)
  }

  ghost predicate IsRun(lines: seq<string>, wanted: seq<string>, ignoreIndent: bool, n: nat, s: Span)
    requires wanted != []
  {
    exists i: nat :: n <= i && Matches(lines, wanted, ignoreIndent, i) && s == LineSpan(lines, i, |wanted|)
  }

  /** The listed runs are exactly the matching ones. */
  lemma {:induction false} RunsAreMatches(lines: seq<string>, wanted: seq<string>, ignoreIndent: bool, n: nat)
    requires wanted != []
    ensures forall s :: s in Runs(lines, wanted, ignoreIndent, n) <==> IsRun(lines, wanted, ignoreIndent, n, s)
    decreases |lines| - n
  {
    if n + |wanted| <= |lines| {
      RunsAreMatches(lines, wanted, ignoreIndent, n + 1);
      var rest := Runs(lines, wanted, ignoreIndent, n + 1);
      forall s
        ensures s in Runs(lines, wanted, ignoreIndent, n) <==> IsRun(lines, wanted, ignoreIndent, n, s)
      {
        assert s in rest <==> IsRun(lines, wanted, ignoreIndent, n + 1, s);
      }
    }
  }

  lemma MatchesWindow(lines: seq<string>, wanted: seq<string>, ignoreIndent: bool, i: nat)
    requires i + |wanted| <= |lines|
    ensures Matches(lines, wanted, ignoreIndent, i)
            <==> NormalizeAll(lines[i..i + |wanted|], ignoreIndent) == wanted
  {
    var window := lines[i..i + |wanted|];
    var normal := NormalizeAll(window, ignoreIndent);
    forall k | 0 <= k < |wanted| ensures normal[k] == Normalize(lines[i + k], ignoreIndent) {
      assert window[k] == lines[i + k];
    }
    if Matches(lines, wanted, ignoreIndent, i) {
      assert forall k :: 0 <= k < |wanted| ==> normal[k] == wanted[k];
    }
  }

  lemma OneMoreRun(lines: seq<string>, wanted: seq<string>, ignoreIndent: bool, n: nat, spans: seq<Span>)
    requires wanted != [] && n + |wanted| <= |lines|
    ensures spans + Runs(lines, wanted, ignoreIndent, n)
            == (if Matches(lines, wanted, ignoreIndent, n) then spans + [LineSpan(lines, n, |wanted|)] else spans)
               + Runs(lines, wanted, ignoreIndent, n + 1)
  {
    var rest := Runs(lines, wanted, ignoreIndent, n + 1);
    var span := LineSpan(lines, n, |wanted|);
    assert spans + ([span] + rest) == (spans + [span]) + rest;
  }

  method FindLineTolerantSpans(text: string, search: string, ignoreIndent: bool) returns (spans: seq<Span>)
    ensures spans == TolerantSpans(text, search, ignoreIndent)
  {
    var wanted := Wanted(search, ignoreIndent);
    if AllEmpty(wanted) { return []; }
    var offsets := LineOffsets(text);
    spans := CollectRuns(Split(text), offsets, wanted, ignoreIndent);
  }

  method CollectRuns(lines: seq<string>, offsets: seq<nat>, wanted: seq<string>, ignoreIndent: bool)
    returns (spans: seq<Span>)
    requires wanted != [] && |offsets| == |lines|
    requires forall i :: 0 <= i < |offsets| ==> offsets[i] == Off(lines, i)
    ensures spans == Runs(lines, wanted, ignoreIndent, 0)
  {
    var width := |wanted|;
    spans := [];
    var index := 0;
    ghost var all := Runs(lines, wanted, ignoreIndent, index);
    while index + width <= |lines|
      invariant spans + Runs(lines, wanted, ignoreIndent, index) == all
    {
      OneMoreRun(lines, wanted, ignoreIndent, index, spans);
      if Matches(lines, wanted, ignoreIndent, index) {
        var last := index + width - 1;
        var span := Span(offsets[index], offsets[last] + |lines[last]|);
        assert span == LineSpan(lines, index, width);
        spans := spans + [span];
      }
      assert spans + Runs(lines, wanted, ignoreIndent, index + 1) == all;
      index := index + 1;
    }
  }

  /** The tolerant spans are exactly the matching runs of whole lines. */
  lemma TolerantSpansIff(text: string, search: string, ignoreIndent: bool, s: Span)
    ensures s in TolerantSpans(text, search, ignoreIndent) <==>
            && HasText(search)
            && IsRun(Split(text), Wanted(search, ignoreIndent), ignoreIndent, 0, s)
  {
    BlankSearchIff(search, ignoreIndent);
    RunsAreMatches(Split(text), Wanted(search, ignoreIndent), ignoreIndent, 0);
  }

  lemma RunIsLines(text: string, wanted: seq<string>, ignoreIndent: bool, i: nat)
    requires wanted != [] && Matches(Split(text), wanted, ignoreIndent, i)
    ensures IsLineRun(text, LineSpan(Split(text), i, |wanted|))
    ensures var s := LineSpan(Split(text), i, |wanted|);
            NormalizeAll(Split(text[s.start..s.end]), ignoreIndent) == wanted
  {
    JoinOfSplit(text);
    var lines := Split(text);
    var run := lines[i..i + |wanted|];
    var pre, post := LinesAt(lines, i, |wanted|);
    Middle(pre, Join(run), post);
    SplitOfJoin(run);
    MatchesWindow(lines, wanted, ignoreIndent, i);
  }

  lemma Middle(pre: string, mid: string, post: string)
    ensures (pre + mid + post)[|pre|..|pre| + |mid|] == mid
    ensures pre != "" ==> (pre + mid + post)[|pre| - 1] == pre[|pre| - 1]
    ensures post != "" ==> (pre + mid + post)[|pre| + |mid|] == post[0]
  {
  }

  /** A tolerant span starts and ends at line ends, and its lines equal the search lines up to blanks. */
  lemma TolerantSpansAreLines(text: string, search: string, ignoreIndent: bool, s: Span)
    requires s in TolerantSpans(text, search, ignoreIndent)
    ensures IsLineRun(text, s)
    ensures NormalizeAll(Split(text[s.start..s.end]), ignoreIndent) == Wanted(search, ignoreIndent)
  {
    TolerantSpansIff(text, search, ignoreIndent, s);
    var wanted := Wanted(search, ignoreIndent);
    var i: nat :| Matches(Split(text), wanted, ignoreIndent, i) && s == LineSpan(Split(text), i, |wanted|);
    RunIsLines(text, wanted, ignoreIndent, i);
  }
}
