/**
 * The read-only worker's paged reader: newline normalisation, line splitting,
 * the byte and line window, and the offsets that let a client walk a file.
 * Text is a sequence of bytes; a line's length is its byte count.
 */
module PagedReader {
  import opened Common

  // ----- Lines -----

  function NormalizeNewlines(text: string): string {
    ReplaceAll(ReplaceAll(text, "\r\n", "\n"), "\r", "\n")
  }

  /** One pass: a carriage return, with the newline after it if there is one,
      becomes one newline. */
  function UnixText(text: string): string {
    if text == "" then ""
    else if text[0] == '\r' then "\n" + UnixText(if |text| > 1 && text[1] == '\n' then text[2..] else text[1..])
    else [text[0]] + UnixText(text[1..])
  }

  lemma {:induction false} NormalizeIsUnixText(text: string)
    ensures NormalizeNewlines(text) == UnixText(text)
  {
    if text == "" {
    } else if |text| >= 2 && text[..2] == "\r\n" {
      NormalizeIsUnixText(text[2..]);
      ReplaceCons('\n', ReplaceAll(text[2..], "\r\n", "\n"));
    } else {
      if |text| >= 2 {
        assert text[..2] == [text[0], text[1]];
        assert !(text[0] == '\r' && text[1] == '\n');
        assert ReplaceAll(text, "\r\n", "\n") == [text[0]] + ReplaceAll(text[1..], "\r\n", "\n");
      } else {
        assert text == [text[0]] && text[1..] == "";
      }
      NormalizeIsUnixText(text[1..]);
      ReplaceCons(text[0], ReplaceAll(text[1..], "\r\n", "\n"));
    }
  }

  lemma ReplaceCons(c: char, rest: string)
    ensures ReplaceAll([c] + rest, "\r", "\n") == (if c == '\r' then "\n" else [c]) + ReplaceAll(rest, "\r", "\n")
  {
  }

  /** `strings.SplitAfter(text, "\n")` without a final empty piece. */
  function SplitAfterNewlines(text: string): (lines: seq<string>)
    ensures forall i :: 0 <= i < |lines| ==> lines[i] != ""
    ensures forall i :: 0 <= i < |lines| ==> forall j :: 0 <= j < |lines[i]| - 1 ==> lines[i][j] != '\n'
    ensures forall i :: 0 <= i < |lines| - 1 ==> lines[i][|lines[i]| - 1] == '\n'
  {
    if text == "" then []
    else
      var n := LineLength(text);
      [text[..n]] + SplitAfterNewlines(text[n..])
  }

  /** The first line, its newline included. */
  function LineLength(text: string): (n: nat)
    requires text != ""
    ensures 0 < n <= |text|
    ensures forall j :: 0 <= j < n - 1 ==> text[j] != '\n'
    ensures n < |text| ==> text[n - 1] == '\n'
  {
    if text[0] == '\n' || |text| == 1 then 1 else 1 + LineLength(text[1..])
  }

  /** `splitLinesKeepEnds`. */
  function SplitLines(text: string): seq<string> {
    SplitAfterNewlines(NormalizeNewlines(text))
  }

  function Flatten(lines: seq<string>): string {
    if lines == [] then "" else Flatten(lines[..|lines| - 1]) + lines[|lines| - 1]
  }

  lemma {:induction false} FlattenConcat(a: seq<string>, b: seq<string>)
    ensures Flatten(a + b) == Flatten(a) + Flatten(b)
  {
    if b == [] {
      assert a + b == a;
    } else {
      var front, last := b[..|b| - 1], b[|b| - 1];
      assert (a + b)[..|a + b| - 1] == a + front;
      FlattenConcat(a, front);
      ConcatAssociative(Flatten(a), Flatten(front), last);
    }
  }

  lemma FlattenOne(line: string)
    ensures Flatten([line]) == line
  {
    assert [line][..0] == [];
  }

  lemma SplitUnfold(text: string, n: nat)
    requires text != "" && n == LineLength(text)
    ensures SplitAfterNewlines(text) == [text[..n]] + SplitAfterNewlines(text[n..])
  {
  }

  lemma NothingSplit()
    ensures Flatten(SplitAfterNewlines("")) == ""
  {
  }

  /** Splitting loses nothing. */
  lemma {:induction false} FlattenSplit(text: string)
    ensures Flatten(SplitAfterNewlines(text)) == text
  {
    hide SplitAfterNewlines, Flatten, LineLength;
    if text == "" {
      NothingSplit();
    } else {
      var n := LineLength(text);
      FlattenSplit(text[n..]);
      SplitUnfold(text, n);
      FlattenConcat([text[..n]], SplitAfterNewlines(text[n..]));
      FlattenOne(text[..n]);
      assert text == text[..n] + text[n..];
    }
  }

  // ----- The window -----

  /** The first `k` lines are within both limits. */
  predicate Fits(lines: seq<string>, k: nat, maxLines: int, maxBytes: int)
    requires k <= |lines|
  {
    k <= maxLines && |Flatten(lines[..k])| <= maxBytes
  }

  /** How many lines a window takes, trying from `n` upwards. */
  function WindowCount(lines: seq<string>, maxLines: int, maxBytes: int, n: nat := 0): (k: nat)
    requires n <= |lines|
    ensures n <= k <= |lines|
    ensures n < k ==> Fits(lines, k, maxLines, maxBytes)
    ensures k < |lines| ==> !Fits(lines, k + 1, maxLines, maxBytes)
    decreases |lines| - n
  {
    if n < |lines| && Fits(lines, n + 1, maxLines, maxBytes) then WindowCount(lines, maxLines, maxBytes, n + 1) else n
  }

  lemma {:induction false} FlattenMonotone(lines: seq<string>, j: nat, k: nat)
    requires j <= k <= |lines|
    ensures |Flatten(lines[..j])| <= |Flatten(lines[..k])|
    ensures forall i :: j <= i < k ==> |lines[i]| <= |Flatten(lines[..k])|
  {
    if j < k {
      assert lines[..k][..k - 1] == lines[..k - 1];
      FlattenMonotone(lines, j, k - 1);
    }
  }

  /** A window is the longest prefix of lines within the limits. */
  lemma WindowIsLongest(lines: seq<string>, maxLines: int, maxBytes: int, k: nat)
    requires k <= |lines|
    ensures 0 < k && Fits(lines, k, maxLines, maxBytes) ==> k <= WindowCount(lines, maxLines, maxBytes)
    ensures 0 < k <= WindowCount(lines, maxLines, maxBytes) ==> Fits(lines, k, maxLines, maxBytes)
  {
    var n := WindowCount(lines, maxLines, maxBytes);
    if k <= n {
      FlattenMonotone(lines, k, n);
    } else {
      FlattenMonotone(lines, n + 1, k);
    }
  }

  method TruncateHeadLineWindow(lines: seq<string>, maxLines: int, maxBytes: int)
    returns (output: string, lineCount: nat, truncated: bool, firstLineTooLarge: bool)
    ensures lineCount == WindowCount(lines, maxLines, maxBytes)
    ensures output == Flatten(lines[..lineCount])
    ensures truncated <==> lineCount < |lines|
    ensures firstLineTooLarge <==> |lines| > 0 && maxLines > 0 && |lines[0]| > maxBytes
  {
    output := "";
    var outputBytes := 0;
    lineCount := 0;
    for i := 0 to |lines|
      invariant lineCount == i
      invariant output == Flatten(lines[..i]) && outputBytes == |output|
      invariant i > 0 ==> Fits(lines, i, maxLines, maxBytes) && |lines[0]| <= maxBytes
      invariant WindowCount(lines, maxLines, maxBytes) == WindowCount(lines, maxLines, maxBytes, i)
    {
      assert lines[..i + 1][..i] == lines[..i];
      var line := lines[i];
      if lineCount >= maxLines {
        return output, lineCount, true, false;
      }
      var lineBytes := |line|;
      if lineCount == 0 && lineBytes > maxBytes {
        return "", 0, true, true;
      }
      if outputBytes + lineBytes > maxBytes {
        return output, lineCount, true, false;
      }
      output := output + line;
      outputBytes := outputBytes + lineBytes;
      lineCount := lineCount + 1;
    }
    return output, lineCount, false, false;
  }

  // ----- One page -----

  datatype Page = Page(
    windowText: string,
    totalLines: nat,
    startLine: int,
    endLine: int,
    truncated: bool,
    nextOffset: Option<int>,
    firstLineExceedsMaxBytes: bool)

  datatype Limits = Limits(limit: Option<nat>, maxLines: int, maxBytes: int)

  function Selected(lines: seq<string>, start: nat, limit: Option<nat>): seq<string>
    requires start <= |lines|
  {
    if limit.Some? && limit.value < |lines| - start then lines[start..start + limit.value] else lines[start..]
  }

  function PageCount(lines: seq<string>, start: nat, w: Limits): nat
    requires start <= |lines|
  {
    WindowCount(Selected(lines, start, w.limit), w.maxLines, w.maxBytes)
  }

  /** The page from line index `start`, which is inside the file. */
  function PageAt(lines: seq<string>, start: nat, w: Limits): Page
    requires start < |lines|
  {
    var selected := Selected(lines, start, w.limit);
    var count := PageCount(lines, start, w);
    Page(Flatten(lines[start..start + count]),
         |lines|,
         start + 1,
         if count > 0 then start + count else start + 1,
         count < |selected|,
         if count < |selected| || (w.limit.Some? && start + count < |lines|) then Some(start + count + 1) else None,
         selected != [] && w.maxLines > 0 && |selected[0]| > w.maxBytes)
  }

  /** What a read request for `offset` yields, or the line count the offset is beyond. */
  function ReadPage(text: string, offset: Option<int>, w: Limits): Result<Page, nat>
    requires offset.Some? ==> offset.value >= 1
  {
    var lines := SplitLines(text);
    var startLine := if offset.Some? then offset.value else 1;
    if lines == [] then
      if startLine != 1 then Err(0) else Ok(Page("", 0, 1, 1, false, None, false))
    else if startLine - 1 >= |lines| then Err(|lines|)
    else Ok(PageAt(lines, startLine - 1, w))
  }

  method ExecuteRead(text: string, offset: Option<int>, w: Limits) returns (r: Result<Page, nat>)
    requires offset.Some? ==> offset.value >= 1
    ensures r == ReadPage(text, offset, w)
  {
    hide Flatten, WindowCount, SplitLines, Fits;
    var lines := SplitLines(text);
    if |lines| == 0 {
      var startLine := 1;
      if offset.Some? {
        startLine := offset.value;
      }
      if startLine != 1 {
        return Err(0);
      }
      return Ok(Page("", 0, 1, 1, false, None, false));
    }
    var startLine := 1;
    if offset.Some? {
      startLine := offset.value;
    }
    var startIndex := startLine - 1;
    if startIndex >= |lines| {
      return Err(|lines|);
    }
    var selected := lines[startIndex..];
    if w.limit.Some? && w.limit.value < |selected| {
      selected := selected[..w.limit.value];
    }
    assert selected == Selected(lines, startIndex, w.limit);
    var windowText, lineCount, truncated, firstLineTooLarge := TruncateHeadLineWindow(selected, w.maxLines, w.maxBytes);
    assert selected[..lineCount] == lines[startIndex..startIndex + lineCount];
    var endLine := startLine + lineCount - 1;
    var nextOffset := None;
    if truncated || (w.limit.Some? && startIndex + lineCount < |lines|) {
      nextOffset := Some(startIndex + lineCount + 1);
    }
    return Ok(Page(windowText, |lines|, startLine, if endLine > startLine then endLine else startLine,
                   truncated, nextOffset, firstLineTooLarge));
  }

  /** A page is the longest run of lines from its start that the limit, the
      line count and the byte count allow. */
  lemma PageIsLongest(lines: seq<string>, start: nat, w: Limits, k: nat)
    requires start + k <= |lines| && k > 0
    ensures k <= PageCount(lines, start, w)
       <==> (w.limit.Some? ==> k <= w.limit.value) && k <= w.maxLines && |Flatten(lines[start..start + k])| <= w.maxBytes
  {
    var selected := Selected(lines, start, w.limit);
    if k <= |selected| {
      assert selected[..k] == lines[start..start + k];
      WindowIsLongest(selected, w.maxLines, w.maxBytes, k);
    }
  }

  /** A page reports a next offset exactly when lines remain behind it, and
      that offset is the first of them. */
  lemma NextOffsetExact(lines: seq<string>, start: nat, w: Limits)
    requires start < |lines|
    ensures var rest := start + PageCount(lines, start, w);
            && rest <= |lines|
            && PageAt(lines, start, w).windowText == Flatten(lines[start..rest])
            && PageAt(lines, start, w).nextOffset == if rest < |lines| then Some(rest + 1) else None
  {
    hide Flatten, WindowCount;
  }

  /** What a page of a file with lines says about itself: the lines it holds by
      their numbers, whether more were asked for, and whether a long first line
      is the reason that there is nothing. */
  ghost predicate NamesItsLines(lines: seq<string>, page: Page, w: Limits)
    requires 1 <= page.startLine <= |lines|
  {
    var start := page.startLine - 1;
    var count := PageCount(lines, start, w);
    && (if count > 0 then
          page.endLine == start + count <= |lines| && page.windowText == Flatten(lines[start..page.endLine])
        else page.endLine == page.startLine && page.windowText == "")
    && (page.truncated <==> start + count < |lines| && (w.limit.Some? ==> count < w.limit.value))
    && (page.firstLineExceedsMaxBytes <==> w.limit != Some(0) && w.maxLines > 0 && |lines[start]| > w.maxBytes)
  }

  lemma SelectedSize(lines: seq<string>, start: nat, limit: Option<nat>)
    requires start < |lines|
    ensures var selected := Selected(lines, start, limit);
            && |selected| == (if limit.Some? && limit.value < |lines| - start then limit.value else |lines| - start)
            && (selected != [] ==> selected[0] == lines[start])
  {
  }

  lemma NothingTaken(lines: seq<string>)
    ensures lines == [] ==> Flatten(lines) == ""
  {
  }

  lemma PageNamesItsLines(lines: seq<string>, start: nat, w: Limits)
    requires start < |lines|
    ensures NamesItsLines(lines, PageAt(lines, start, w), w)
  {
    hide Flatten, WindowCount, Selected;
    SelectedSize(lines, start, w.limit);
    assert lines[start..start] == [];
    NothingTaken(lines[start..start]);
  }

  /** A read without an offset starts at the first line.  A read fails exactly
      when its offset is beyond the end, naming the number of lines; otherwise
      its page starts at the offset and names its lines. */
  lemma ReadExact(text: string, offset: Option<int>, w: Limits)
    requires offset.Some? ==> offset.value >= 1
    ensures offset.None? ==> ReadPage(text, offset, w) == ReadPage(text, Some(1), w)
    ensures var lines, r := SplitLines(text), ReadPage(text, offset, w);
            offset.Some? ==>
              if offset.value > 1 && offset.value > |lines| then r == Err(|lines|)
              else
                && r.Ok? && r.value.totalLines == |lines| && r.value.startLine == offset.value
                && if lines == [] then r.value == Page("", 0, 1, 1, false, None, false)
                   else NamesItsLines(lines, r.value, w)
  {
    hide Flatten, PageCount, WindowCount, SplitLines, Selected, NamesItsLines;
    var lines := SplitLines(text);
    if offset.Some? && offset.value <= |lines| {
      PageNamesItsLines(lines, offset.value - 1, w);
    }
  }

  // ----- Walking a file -----

  /** The text a client collects by following next offsets, at most `fuel`
      pages; none if it is not done by then or a request fails. */
  function Walk(text: string, offset: int, w: Limits, fuel: nat): Option<string>
    requires offset >= 1
    decreases fuel
  {
    if fuel == 0 then None
    else
      var r := ReadPage(text, Some(offset), w);
      if r.Err? then None
      else if r.value.nextOffset.None? then Some(r.value.windowText)
      else
        var rest := Walk(text, r.value.nextOffset.value, w, fuel - 1);
        if rest.None? then None else Some(r.value.windowText + rest.value)
  }

  /** Every page can take at least one line. */
  predicate Walkable(text: string, w: Limits) {
    SplitLines(text) == []
    || (w.maxLines >= 1 && w.limit != Some(0)
        && forall i :: 0 <= i < |SplitLines(text)| ==> |SplitLines(text)[i]| <= w.maxBytes)
  }

  lemma PageTakesLine(lines: seq<string>, start: nat, w: Limits)
    requires start < |lines| && w.maxLines >= 1 && w.limit != Some(0) && |lines[start]| <= w.maxBytes
    ensures 0 < PageCount(lines, start, w) <= |lines| - start
  {
    assert lines[start..start + 1] == [lines[start]] && [lines[start]][..0] == [];
    PageIsLongest(lines, start, w, 1);
  }

  /** A page never gets past a line that no page can take. */
  lemma PageStopsBefore(lines: seq<string>, start: nat, w: Limits, k: nat)
    requires start <= k < |lines|
    requires w.maxLines < 1 || w.limit == Some(0) || |lines[k]| > w.maxBytes
    ensures start + PageCount(lines, start, w) <= k
  {
    var through := lines[start..k + 1];
    FlattenMonotone(through, 0, |through|);
    assert through[..|through|] == through && through[k - start] == lines[k];
    PageIsLongest(lines, start, w, k - start + 1);
  }

  lemma {:induction false} WalkFrom(text: string, offset: int, w: Limits, fuel: nat)
    requires Walkable(text, w) && 1 <= offset <= |SplitLines(text)| && fuel > |SplitLines(text)| - offset
    ensures Walk(text, offset, w, fuel) == Some(Flatten(SplitLines(text)[offset - 1..]))
    decreases fuel
  {
    hide Flatten, PageCount, SplitLines, PageAt;
    var lines := SplitLines(text);
    var start := offset - 1;
    var count := PageCount(lines, start, w);
    NextOffsetExact(lines, start, w);
    PageTakesLine(lines, start, w);
    if start + count < |lines| {
      WalkFrom(text, start + count + 1, w, fuel - 1);
      assert lines[start..] == lines[start..start + count] + lines[start + count..];
      FlattenConcat(lines[start..start + count], lines[start + count..]);
    } else {
      assert lines[start..] == lines[start..start + count];
    }
  }

  lemma {:induction false} StuckBefore(text: string, offset: int, w: Limits, k: nat, fuel: nat)
    requires 1 <= offset <= k + 1 <= |SplitLines(text)|
    requires w.maxLines < 1 || w.limit == Some(0) || |SplitLines(text)[k]| > w.maxBytes
    ensures Walk(text, offset, w, fuel) == None
    decreases fuel
  {
    hide Flatten, PageCount, SplitLines, PageAt;
    if fuel > 0 {
      var lines := SplitLines(text);
      var start := offset - 1;
      var count := PageCount(lines, start, w);
      NextOffsetExact(lines, start, w);
      PageStopsBefore(lines, start, w, k);
      StuckBefore(text, start + count + 1, w, k, fuel - 1);
    }
  }

  /** Following next offsets from the start collects exactly the normalised
      text, in at most one page a line, if every page can take a line; and if
      some page cannot, no number of pages ever completes the walk. */
  lemma WalkReconstructs(text: string, w: Limits, fuel: nat)
    ensures Walkable(text, w) && fuel > |SplitLines(text)| ==> Walk(text, 1, w, fuel) == Some(UnixText(text))
    ensures !Walkable(text, w) ==> Walk(text, 1, w, fuel) == None
  {
    var lines := SplitLines(text);
    NormalizeIsUnixText(text);
    FlattenSplit(UnixText(text));
    if lines != [] {
      if Walkable(text, w) {
        if fuel > |lines| {
          WalkFrom(text, 1, w, fuel);
          assert lines[0..] == lines;
        }
      } else if w.maxLines < 1 || w.limit == Some(0) {
        StuckBefore(text, 1, w, 0, fuel);
      } else {
        var k :| 0 <= k < |lines| && |lines[k]| > w.maxBytes;
        StuckBefore(text, 1, w, k, fuel);
      }
    }
  }
}
