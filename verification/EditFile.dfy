/** One edit of a file: the replacement moved to the indentation found, and exactly one span replaced. */
module EditFile {
  import opened Options
  import opened Text
  import opened SearchReplace

  // ------------------------------------------------------------ moving a block to another indentation

  /** The white space a line starts with. */
  function Lead(line: string): string {
    if line != [] && IsSpace(line[0]) then [line[0]] + Lead(line[1..]) else []
  }

  function IndentOf(lines: seq<string>): string {
    if lines == [] then "" else if HasText(lines[0]) then Lead(lines[0]) else IndentOf(lines[1..])
  }

  method FirstIndent(block: string) returns (indent: string)
    ensures indent == IndentOf(Split(block))
  {
    var lines := Split(block);
    var i := 0;
    while i < |lines|
      invariant 0 <= i <= |lines| && IndentOf(lines) == IndentOf(lines[i..])
    {
      if HasText(lines[i]) { return Lead(lines[i]); }
      assert lines[i..][1..] == lines[i + 1..];
      i := i + 1;
    }
    indent := "";
  }

  /** The indentation of a block is that of its first line with text, and none if there is no text. */
  lemma {:induction false} IndentOfTheFirst(lines: seq<string>, k: nat)
    requires k <= |lines| && forall j :: 0 <= j < k ==> !HasText(lines[j])
    ensures k == |lines| ==> IndentOf(lines) == ""
    ensures k < |lines| && HasText(lines[k]) ==> IndentOf(lines) == Lead(lines[k])
    decreases k
  {
    if k > 0 {
      assert forall j :: 0 <= j < k - 1 ==> lines[1..][j] == lines[j + 1];
      IndentOfTheFirst(lines[1..], k - 1);
    }
  }

  predicate IsIndent(s: string) {
    OneLine(s) && !HasText(s)
  }

  lemma {:induction false} LeadIsIndent(line: string)
    requires OneLine(line)
    ensures IsIndent(Lead(line)) && Lead(line) <= line && line == Lead(line) + LStrip(line)
  {
    if line != [] && IsSpace(line[0]) {
      LeadIsIndent(line[1..]);
      var rest := Lead(line[1..]);
      assert [line[0]] + line[1..] == line && line[0] in line;
      assert forall i :: 1 <= i < |rest| + 1 ==> ([line[0]] + rest)[i] == rest[i - 1];
    }
  }

  lemma {:induction false} IndentOfIsIndent(lines: seq<string>)
    requires forall l :: l in lines ==> OneLine(l)
    ensures IsIndent(IndentOf(lines))
  {
    if lines != [] {
      assert lines[0] in lines;
      LeadIsIndent(lines[0]);
      IndentOfIsIndent(lines[1..]);
    }
  }

  function Moved(line: string, source: string, target: string): string {
    if !HasText(line) then line
    else if source != "" && source <= line then target + line[|source|..]
    else if source == "" then target + line
    else line
  }

  function MovedLines(lines: seq<string>, source: string, target: string): (r: seq<string>)
    ensures |r| == |lines|
  {
    seq(|lines|, k requires 0 <= k < |lines| => Moved(lines[k], source, target))
  }

  function Reindented(block: string, source: string, target: string): string {
    Join(MovedLines(Split(block), source, target))
  }

  method ReindentReplacement(original: string, search: string, replacement: string) returns (r: string)
    ensures r == Reindented(replacement, IndentOf(Split(search)), IndentOf(Split(original)))
  {
    var target := FirstIndent(original);
    var source := FirstIndent(search);
    var lines := Split(replacement);
    if target == source {
      JoinOfSplit(replacement);
      forall k | 0 <= k < |lines| ensures Moved(lines[k], source, source) == lines[k] {
      }
      assert MovedLines(lines, source, target) == lines;
      return replacement;
    }
    var out: seq<string> := [];
    for i := 0 to |lines|
      invariant |out| == i && forall k :: 0 <= k < i ==> out[k] == Moved(lines[k], source, target)
    {
      if !HasText(lines[i]) { out := out + [lines[i]]; }
      else if source != "" && source <= lines[i] { out := out + [target + lines[i][|source|..]]; }
      else if source == "" { out := out + [target + lines[i]]; }
      else { out := out + [lines[i]]; }
    }
    assert out == MovedLines(lines, source, target);
    r := Join(out);
  }

  lemma HasTextAfterIndent(a: string, x: string)
    requires !HasText(a)
    ensures HasText(a + x) <==> HasText(x)
  {
    if HasText(a + x) {
      forall i | 0 <= i < |a| ensures IsSpace((a + x)[i]) { assert IsSpace(a[i]); }
      var i :| 0 <= i < |a + x| && !IsSpace((a + x)[i]);
      assert !IsSpace(x[i - |a|]);
    }
    if HasText(x) {
      var i :| 0 <= i < |x| && !IsSpace(x[i]);
      assert (a + x)[|a| + i] == x[i];
    }
  }

  /** Moving a line changes its indentation and nothing else. */
  lemma MovedKeepsText(line: string, source: string, target: string)
    requires OneLine(line) && IsIndent(source) && IsIndent(target)
    ensures OneLine(Moved(line, source, target))
    ensures LStrip(Moved(line, source, target)) == LStrip(line)
    ensures HasText(Moved(line, source, target)) == HasText(line)
  {
    if HasText(line) && source <= line {
      var rest := line[|source|..];
      assert line == source + rest;
      LStripPastIndent(source, rest);
      LStripPastIndent(target, rest);
      HasTextAfterIndent(source, rest);
      HasTextAfterIndent(target, rest);
      assert source == "" ==> rest == line;
    }
  }

  lemma MovedBack(line: string, source: string, target: string)
    requires OneLine(line) && IsIndent(source) && IsIndent(target)
    requires HasText(line) ==> source <= line
    ensures Moved(Moved(line, source, target), target, source) == line
  {
    MovedKeepsText(line, source, target);
    if HasText(line) {
      var rest := line[|source|..];
      assert line == source + rest;
      assert Moved(line, source, target) == target + rest;
      assert (target + rest)[|target|..] == rest;
    }
  }

  lemma LinesOfReindented(block: string, source: string, target: string)
    requires IsIndent(source) && IsIndent(target)
    ensures Split(Reindented(block, source, target)) == MovedLines(Split(block), source, target)
  {
    var lines := Split(block);
    var moved := MovedLines(lines, source, target);
    forall l | l in moved ensures OneLine(l) {
      var k :| 0 <= k < |moved| && moved[k] == l;
      assert lines[k] in lines;
      MovedKeepsText(lines[k], source, target);
    }
    SplitOfJoin(moved);
  }

  /** Reindenting keeps the number of lines and every line's text after its indentation. */
  lemma ReindentKeepsText(block: string, source: string, target: string, k: nat)
    requires IsIndent(source) && IsIndent(target) && k < |Split(block)|
    ensures |Split(Reindented(block, source, target))| == |Split(block)|
    ensures LStrip(Split(Reindented(block, source, target))[k]) == LStrip(Split(block)[k])
  {
    LinesOfReindented(block, source, target);
    assert Split(block)[k] in Split(block);
    MovedKeepsText(Split(block)[k], source, target);
  }

  /**
   Reindenting line by line: a line with text that starts with the source indentation starts with
   the target indentation instead, the rest kept; every other line stays.
   */
  lemma ReindentMoves(block: string, source: string, target: string, k: nat, rest: string)
    requires IsIndent(source) && IsIndent(target) && k < |Split(block)|
    ensures k < |Split(Reindented(block, source, target))|
    ensures var line, moved := Split(block)[k], Split(Reindented(block, source, target))[k];
      && (HasText(line) && line == source + rest ==> moved == target + rest)
      && (!HasText(line) || !(source <= line) ==> moved == line)
  {
    LinesOfReindented(block, source, target);
    var line := Split(block)[k];
    if line == source + rest { assert line[|source|..] == rest; }
  }

  /** A block whose text lines all start at `source` can be moved to `target` and back unchanged. */
  lemma ReindentRoundTrip(block: string, source: string, target: string)
    requires IsIndent(source) && IsIndent(target)
    requires forall l :: l in Split(block) && HasText(l) ==> source <= l
    ensures Reindented(Reindented(block, source, target), target, source) == block
  {
    LinesOfReindented(block, source, target);
    var lines := Split(block);
    var back := MovedLines(MovedLines(lines, source, target), target, source);
    forall k | 0 <= k < |lines| ensures back[k] == lines[k] {
      assert lines[k] in lines;
      MovedBack(lines[k], source, target);
    }
    assert back == lines;
    JoinOfSplit(block);
  }

  // ------------------------------------------------------------ the edit

  datatype Edit =
    | Edited(text: string)
    | EmptySearch
    | NotFound
    | Ambiguous(count: nat)
    | NoSuchOccurrence(count: nat)

  datatype Location = Location(spans: seq<Span>, moved: bool)

  /** Where the search text is: exact places first, then whole lines, then whole lines at any indentation. */
  function Locate(before: string, search: string): Location
    requires search != ""
  {
    var exact := Scan(before, search, 0);
    var blanks := TolerantSpans(before, search, false);
    var indents := TolerantSpans(before, search, true);
    if exact != [] || '\n' !in search then Location(exact, false)
    else if blanks != [] then Location(blanks, false)
    else Location(indents, indents != [])
  }

  /**
   Exact occurrences are preferred, and taken as they are; a search of one line has no other place;
   else whole lines equal up to trailing blanks, if there are any; else whole lines equal up to
   indentation, which alone are reindented.
   */
  lemma LocatePrefers(before: string, search: string, s: Span)
    requires search != ""
    ensures var at := Locate(before, search);
      && ((exists p: nat :: Occurs(before, search, p)) ==> at == Location(Scan(before, search, 0), false))
      && (!(exists p: nat :: Occurs(before, search, p)) ==>
            && ('\n' !in search ==> at.spans == [] && !at.moved)
            && ('\n' in search ==>
                  (s in at.spans <==> s in TolerantSpans(before, search, at.moved || TolerantSpans(before, search, false) == []))
                  && (at.moved <==> TolerantSpans(before, search, false) == [] && TolerantSpans(before, search, true) != [])))
  {
    ScanIsLeftmost(before, search, 0);
    var spans := Scan(before, search, 0);
    assert spans != [] ==> spans[0] in spans && Visible(before, search, spans, spans[0].start);
    if p: nat :| Occurs(before, search, p) { SomethingIsVisible(before, search, p); }
  }

  lemma {:induction false} LocatedWithin(before: string, search: string, s: Span)
    requires search != "" && s in Locate(before, search).spans
    ensures Within(s, before)
    ensures if Scan(before, search, 0) != [] then before[s.start..s.end] == search
            else IsLineRun(before, s) && '\n' in search
                 && exists ignoreIndent: bool ::
                      NormalizeAll(Split(before[s.start..s.end]), ignoreIndent) == Wanted(search, ignoreIndent)
    ensures Locate(before, search).moved ==>
              NormalizeAll(Split(before[s.start..s.end]), true) == Wanted(search, true)
  {
    if Scan(before, search, 0) != [] {
      ScanIsLeftmost(before, search, 0);
      assert Visible(before, search, Scan(before, search, 0), s.start);
    } else {
      var ignoreIndent := TolerantSpans(before, search, false) == [];
      TolerantSpansAreLines(before, search, ignoreIndent, s);
    }
  }

  method ApplyReplace(before: string, search: string, replacement: string, occurrence: Option<int>)
    returns (e: Edit)
    ensures e.EmptySearch? <==> search == ""
    ensures search != "" ==>
              var at := Locate(before, search);
              && (e.Edited? <==> if occurrence.None? then |at.spans| == 1 else 1 <= occurrence.value <= |at.spans|)
              && (e.Edited? ==>
                    var s := at.spans[if occurrence.None? then 0 else occurrence.value - 1];
                    Within(s, before) &&
                    e.text == before[..s.start]
                              + (if at.moved then Reindented(replacement, IndentOf(Split(search)),
                                                             IndentOf(Split(before[s.start..s.end])))
                                 else replacement)
                              + before[s.end..])
              && (e.NotFound? <==> at.spans == [])
              && (at.spans != [] && !e.Edited? ==>
                    e == if occurrence.None? then Ambiguous(|at.spans|) else NoSuchOccurrence(|at.spans|))
  {
    if search == "" { return EmptySearch; }
    var indentTolerant := false;
    var spans := Scan(before, search, 0);
    if spans == [] && '\n' in search {
      spans := FindLineTolerantSpans(before, search, false);
      if spans == [] {
        spans := FindLineTolerantSpans(before, search, true);
        indentTolerant := spans != [];
      }
    }
    assert Location(spans, indentTolerant) == Locate(before, search);
    if spans == [] { return NotFound; }
    var span: Span;
    if occurrence.None? {
      if |spans| > 1 { return Ambiguous(|spans|); }
      span := spans[0];
    } else {
      if occurrence.value < 1 || occurrence.value > |spans| { return NoSuchOccurrence(|spans|); }
      span := spans[occurrence.value - 1];
    }
    LocatedWithin(before, search, span);
    var text := replacement;
    if indentTolerant { text := ReindentReplacement(before[span.start..span.end], search, replacement); }
    e := Edited(before[..span.start] + text + before[span.end..]);
  }

  /** All occurrences begin inside the one at p. */
  ghost predicate OnlyAround(before: string, search: string, p: nat) {
    Occurs(before, search, p) && forall q: nat :: Occurs(before, search, q) ==> p <= q < p + |search|
  }

  lemma SomethingIsVisible(before: string, search: string, o: nat)
    requires search != "" && Occurs(before, search, o)
    ensures Scan(before, search, 0) != []
  {
    var spans := Scan(before, search, 0);
    ScanIsLeftmost(before, search, 0);
    if spans == [] { assert Visible(before, search, spans, o); }
  }

  lemma OneSpanIsAround(before: string, search: string)
    requires search != "" && |Scan(before, search, 0)| == 1
    ensures OnlyAround(before, search, Scan(before, search, 0)[0].start)
  {
    var spans := Scan(before, search, 0);
    ScanIsLeftmost(before, search, 0);
    var p := spans[0].start;
    assert spans[0] in spans && Visible(before, search, spans, p);
    forall q: nat | Occurs(before, search, q) ensures p <= q < p + |search| {
      if Visible(before, search, spans, q) { assert Span(q, q + |search|) in spans; }
    }
  }

  lemma AroundIsOneSpan(before: string, search: string, p: nat)
    requires search != "" && OnlyAround(before, search, p)
    ensures |Scan(before, search, 0)| == 1
  {
    var spans := Scan(before, search, 0);
    ScanIsLeftmost(before, search, 0);
    SomethingIsVisible(before, search, p);
    assert |spans| > 1 ==> spans[0].end <= spans[1].start;
    forall i | 0 <= i < |spans| ensures p <= spans[i].start < p + |search| {
      assert spans[i] in spans && Visible(before, search, spans, spans[i].start);
    }
  }

  /**
   The promise that an unnumbered edit needs a unique occurrence holds up to overlaps: where the
   search text occurs at all, the edit goes through exactly when every occurrence begins inside
   the first one.
   */
  lemma UnnumberedEditIff(before: string, search: string)
    requires search != "" && exists p: nat :: Occurs(before, search, p)
    ensures |Locate(before, search).spans| == 1
            <==> exists p: nat :: OnlyAround(before, search, p)
  {
    var o: nat :| Occurs(before, search, o);
    SomethingIsVisible(before, search, o);
    if |Scan(before, search, 0)| == 1 { OneSpanIsAround(before, search); }
    if p: nat :| OnlyAround(before, search, p) { AroundIsOneSpan(before, search, p); }
  }

  /** Overlapping copies are not seen as a second occurrence: two are there, and the edit goes through. */
  lemma OverlapGoesUnnoticed()
    ensures Occurs("aaa", "aa", 0) && Occurs("aaa", "aa", 1)
    ensures |Locate("aaa", "aa").spans| == 1
  {
    var before, search := "aaa", "aa";
    assert before[0..2] == search && before[1..3] == search;
    assert Occurs(before, search, 0) && Occurs(before, search, 1);
    assert OnlyAround(before, search, 0);
    UnnumberedEditIff(before, search);
  }
}
