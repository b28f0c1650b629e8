/**
 * What a transcript means: its blocks and index bookkeeping, without any
 * render cache.  Every operation is a function on `State`; its contract says
 * that the bookkeeping invariant survives.  Rendering is defined from scratch.
 */
module TranscriptSpec {
  import opened Common

  // ----- Cells and the tool group -----

  /** `cachedRender` is the evictable render of a finished assistant answer;
      a `State` always holds it empty (see `StripCell`). */
  datatype Cell =
    | Raw(plain: string, rendered: string)
    | Assistant(plain: string, cachedRender: string)
    | UserTurn(prompt: string)
    | ToolGroupText(plain: string, rendered: string)

  /** The part of a tool event the transcript looks at; `phase` is the phase
      computed from the tool name and activity. */
  datatype ToolCall = ToolCall(id: string, phase: string, payload: string)

  datatype ToolStep = Started(call: ToolCall) | Updated(call: ToolCall) | Succeeded(call: ToolCall) | Failed(call: ToolCall)

  /** An active tool group is determined by its phase and the steps it took. */
  datatype ToolGroup = ToolGroup(phase: string, log: seq<ToolStep>) {
    predicate Knows(id: string) {
      exists i :: 0 <= i < |log| && log[i].Started? && log[i].call.id == id
    }
  }

  /** The styling code, left uninterpreted: text in, styled text out. */
  datatype Look = Look(
    markdown: string -> string,
    wrap: (string, int) -> string,
    userTurn: (string, int) -> string,
    userTurnPlain: string -> string,
    toolGroup: (ToolGroup, int) -> (string, string),
    note: (string, seq<string>, seq<string>) -> (string, string),
    omission: nat -> (string, string),
    error: (string, string) -> (string, string),
    separator: string -> string,
    activity: string -> string,
    trimSpace: string -> string,
    joinPrompts: seq<string> -> string,
    marker: int -> string,
    soft: string -> string,
    stripMarker: string -> string)

  function RawOf(text: (string, string)): Cell {
    Raw(text.0, text.1)
  }

  function CellPlain(L: Look, c: Cell): string {
    match c
    case UserTurn(prompt) => L.userTurnPlain(prompt)
    case _ => c.plain
  }

  function MarkdownText(L: Look, plain: string): string {
    L.markdown(TrimNewlineSuffix(plain)) + "\n"
  }

  /** A cell rendered at a width, ignoring any cached text. */
  function CellText(L: Look, c: Cell, width: int): string {
    match c
    case UserTurn(prompt) => L.userTurn(prompt, width)
    case Raw(_, rendered) => Fit(L, rendered, width)
    case ToolGroupText(_, rendered) => Fit(L, rendered, width)
    case Assistant(plain, _) => Fit(L, MarkdownText(L, plain), width)
  }

  function Fit(L: Look, text: string, width: int): string {
    if width > 0 then L.wrap(text, width) else text
  }

  /** The first `n` blocks rendered one after another. */
  function Concat(L: Look, blocks: seq<Cell>, n: int, width: int): string
    requires n <= |blocks|
  {
    if n <= 0 then "" else Concat(L, blocks, n - 1, width) + CellText(L, blocks[n - 1], width)
  }

  function GroupText(L: Look, group: Option<ToolGroup>, tick: int, width: int): string {
    if group.None? then "" else Fit(L, L.toolGroup(group.value, tick).1, width)
  }

  /** Everything rendered from scratch at a width. */
  function FullRender(L: Look, s: State, width: int): string {
    Concat(L, s.blocks, |s.blocks|, width) + GroupText(L, s.group, s.tick, width)
  }

  // ----- Streaming collector -----

  datatype Collector = Collector(buf: string, committedLines: nat, rendered: string)

  const EmptyCollector := Collector("", 0, "")

  function CommitCompleteLines(L: Look, c: Collector): (r: Collector)
    ensures r.buf == c.buf
  {
    var nl := LastNewline(c.buf);
    if nl < 0 then c
    else
      var text := L.markdown(c.buf[..nl]);
      var lines := CountNewlines(text);
      if lines > c.committedLines then c.(rendered := text, committedLines := lines) else c
  }

  /** What a collector has committed is some rendering with that many lines. */
  ghost predicate Consistent(c: Collector) {
    c.committedLines == CountNewlines(c.rendered)
  }

  function CompleteLines(c: Collector): string
    requires LastNewline(c.buf) >= 0
  {
    c.buf[..LastNewline(c.buf)]
  }

  /** The committed text is a fresh rendering of the complete lines exactly when
      that rendering has more lines than the text before, or is that text. */
  lemma CommitIsRerender(L: Look, c: Collector)
    requires Consistent(c) && LastNewline(c.buf) >= 0
    ensures var r, anew := CommitCompleteLines(L, c), L.markdown(CompleteLines(c));
            && Consistent(r) && r.committedLines >= c.committedLines
            && (r.rendered == anew <==> CountNewlines(anew) > CountNewlines(c.rendered) || c.rendered == anew)
  {
  }

  function LiveText(L: Look, tick: int, c: Collector): string {
    L.marker(tick)
    + (if c.rendered != "" then L.stripMarker(c.rendered) else "")
    + L.soft(c.buf[LastNewline(c.buf) + 1..])
  }

  // ----- State -----

  datatype Run = Run(start: int, end: int)

  const MaxCompletedRuns := 10

  datatype State = State(
    blocks: seq<Cell>,
    live: int,
    deltaBuf: string,
    collector: Option<Collector>,
    group: Option<ToolGroup>,
    runs: seq<Run>,
    runStart: int,
    omissionIdx: int,
    omitted: int,
    width: int,
    tick: int)

  const Initial := State([], -1, "", None, None, [], -1, -1, 0, 0, 0)

  /** Completed runs are non-empty, ordered, disjoint and inside the blocks,
      and each begins with the user turn that opened it. */
  ghost predicate RunsOk(s: State) {
    && (forall i :: 0 <= i < |s.runs| ==>
          0 <= s.runs[i].start < s.runs[i].end <= |s.blocks| && s.blocks[s.runs[i].start].UserTurn?)
    && (forall i, j :: 0 <= i < j < |s.runs| ==> s.runs[i].end <= s.runs[j].start)
  }

  /** Index `k` lies after every completed run, after the open run's first
      block and after the omission marker. */
  ghost predicate AfterTracked(s: State, k: int) {
    && (forall i :: 0 <= i < |s.runs| ==> s.runs[i].end <= k)
    && s.runStart < k
    && s.omissionIdx < k
  }

  ghost predicate LiveOk(s: State) {
    && -1 <= s.live < |s.blocks|
    && (s.live >= 0 ==>
          && s.blocks[s.live].Raw?
          && s.blocks[s.live].plain == s.deltaBuf
          && s.collector.Some? && s.collector.value.buf == s.deltaBuf
          && s.group.None?
          && AfterTracked(s, s.live))
  }

  ghost predicate OpenRunOk(s: State) {
    && -1 <= s.runStart < |s.blocks|
    && (s.runStart >= 0 ==>
          && s.blocks[s.runStart].UserTurn?
          && forall i :: 0 <= i < |s.runs| ==> s.runs[i].end <= s.runStart)
  }

  ghost predicate OmissionOk(L: Look, s: State) {
    && -1 <= s.omissionIdx < |s.blocks|
    && (s.omissionIdx < 0 <==> s.omitted == 0)
    && 0 <= s.omitted
    && (s.omissionIdx >= 0 ==>
          && s.blocks[s.omissionIdx] == RawOf(L.omission(s.omitted))
          && (s.runStart >= 0 ==> s.omissionIdx < s.runStart)
          && forall i :: 0 <= i < |s.runs| ==> s.omissionIdx < s.runs[i].start)
  }

  ghost predicate Stripped(blocks: seq<Cell>) {
    forall i :: 0 <= i < |blocks| && blocks[i].Assistant? ==> blocks[i].cachedRender == ""
  }

  /** The index bookkeeping invariant, apart from the number of runs. */
  ghost predicate Indexed(L: Look, s: State) {
    RunsOk(s) && LiveOk(s) && OpenRunOk(s) && OmissionOk(L, s) && Stripped(s.blocks)
  }

  ghost predicate Inv(L: Look, s: State) {
    Indexed(L, s) && |s.runs| <= MaxCompletedRuns
  }

  ghost predicate LiveLast(s: State) {
    s.live >= 0 ==> s.live == |s.blocks| - 1
  }

  // ----- Steps shared by the operations -----

  function Append(s: State, c: Cell): State {
    s.(blocks := s.blocks + [c])
  }

  /** A block put behind all others disturbs no index. */
  function Add(L: Look, s: State, c: Cell): (r: State)
    requires Inv(L, s) && (c.Assistant? ==> c.cachedRender == "")
    ensures Inv(L, r) && r.(blocks := s.blocks) == s
    ensures |r.blocks| == |s.blocks| + 1 && s.blocks <= r.blocks && r.blocks[|s.blocks|] == c
  {
    Append(s, c)
  }

  /** An active group becomes one block behind all others. */
  function EndToolGroup(L: Look, s: State): (r: State)
    requires Inv(L, s)
    ensures Inv(L, r) && r.group.None?
    ensures r.(blocks := s.blocks, group := s.group) == s && s.blocks <= r.blocks
    ensures if s.group.None? then r == s else |r.blocks| == |s.blocks| + 1 && r.blocks[|s.blocks|].ToolGroupText?
  {
    if s.group.None? then s
    else
      var text := L.toolGroup(s.group.value, s.tick);
      GroupGone(L, s);
      hide Inv;
      Add(L, s.(group := None), ToolGroupText(text.0, text.1))
  }

  lemma GroupGone(L: Look, s: State)
    requires Inv(L, s)
    ensures Inv(L, s.(group := None))
  {
  }

  function ResetCollector(c: Option<Collector>): Option<Collector> {
    if c.None? then None else Some(EmptyCollector)
  }

  function FinishedAnswer(markdown: string): Cell {
    Assistant(markdown + "\n", "")
  }

  function EndLive(L: Look, s: State): (r: State)
    requires Inv(L, s)
    ensures Inv(L, r) && r.live == -1
    ensures |r.blocks| == |s.blocks| && r.runs == s.runs && r.runStart == s.runStart && r.group == s.group
    ensures r.omissionIdx == s.omissionIdx && r.omitted == s.omitted
    ensures r.blocks == if s.live == -1 then s.blocks
                        else s.blocks[s.live := FinishedAnswer(TrimRightNewlines(s.deltaBuf))]
  {
    var blocks :=
      if s.live >= 0 then s.blocks[s.live := FinishedAnswer(TrimRightNewlines(s.blocks[s.live].plain))]
      else s.blocks;
    s.(blocks := blocks, live := -1, deltaBuf := "", collector := ResetCollector(s.collector))
  }

  function GapCell(L: Look, s: State): Option<Cell> {
    if s.blocks == [] then None
    else
      var last := CellPlain(L, s.blocks[|s.blocks| - 1]);
      if HasSuffix(last, "\n\n") then None
      else if HasSuffix(last, "\n") then Some(Raw("\n", "\n"))
      else Some(Raw("\n\n", "\n\n"))
  }

  function EnsureGap(L: Look, s: State): (r: State)
    requires Inv(L, s)
    ensures Inv(L, r) && s.blocks <= r.blocks && r.(blocks := s.blocks) == s
  {
    hide Inv;
    var gap := GapCell(L, s);
    if gap.None? then s else Add(L, s, gap.value)
  }

  /** Closing the tool group and the live answer, as every writer does first. */
  function Close(L: Look, s: State): (r: State)
    requires Inv(L, s)
    ensures Inv(L, r) && r.group.None? && r.live == -1
    ensures r.runs == s.runs && r.runStart == s.runStart && r.omissionIdx == s.omissionIdx && r.omitted == s.omitted
    ensures |s.blocks| <= |r.blocks|
  {
    hide Inv;
    EndLive(L, EndToolGroup(L, s))
  }

  // ----- Writers -----

  function WriteRenderedNote(L: Look, s: State, title: string, lines: seq<string>, rendered: seq<string>): (r: State)
    requires Inv(L, s)
    ensures Inv(L, r) && r.live == -1 && r.group.None? && r.runStart == s.runStart
    ensures r.runs == s.runs && r.omitted == s.omitted
  {
    hide Inv, EnsureGap, Close;
    Add(L, EnsureGap(L, Close(L, s)), RawOf(L.note(title, lines, rendered)))
  }

  function WriteNote(L: Look, s: State, title: string, lines: seq<string>): (r: State)
    requires Inv(L, s)
    ensures Inv(L, r) && r.live == -1 && r.group.None? && r.runStart == s.runStart
    ensures r.runs == s.runs && r.omitted == s.omitted
  {
    WriteRenderedNote(L, s, title, lines, lines)
  }

  /** Compaction notes close the transcript and leave the gap first; the note
      then finds nothing left to close. */
  function WriteCompactionNote(L: Look, s: State, title: string): (r: State)
    requires Inv(L, s)
    ensures Inv(L, r) && r.live == -1 && r.group.None? && r.runStart == s.runStart
    ensures r.runs == s.runs && r.omitted == s.omitted
  {
    hide Inv, EnsureGap, Close;
    WriteNote(L, EnsureGap(L, Close(L, s)), title, [])
  }

  function WriteLine(L: Look, s: State, line: string): (r: State)
    requires Inv(L, s)
    ensures Inv(L, r) && r.live == -1 && r.group.None? && r.runStart == s.runStart
    ensures r.runs == s.runs && r.omitted == s.omitted
  {
    hide Inv, Close;
    Add(L, Close(L, s), Raw(line + "\n", line + "\n"))
  }

  /** A user turn appended; it opens a run unless one is open. */
  function OpenRun(L: Look, s: State, prompt: string): (r: State)
    requires Inv(L, s) && s.live == -1
    ensures Inv(L, r) && r.live == -1 && r.runStart >= 0
    ensures r.runs == s.runs && r.omitted == s.omitted
  {
    Append(s, UserTurn(prompt)).(runStart := if s.runStart == -1 then |s.blocks| else s.runStart)
  }

  function WriteUserTurn(L: Look, s: State, prompt: string): (r: State)
    requires Inv(L, s)
    ensures Inv(L, r) && r.live == -1 && r.runStart >= 0
    ensures r.runs == s.runs && r.omitted == s.omitted
  {
    hide Inv, EnsureGap, Close;
    OpenRun(L, EnsureGap(L, Close(L, s)), prompt)
  }

  function WriteActivity(L: Look, s: State, text: string): (r: State)
    requires Inv(L, s)
    ensures Inv(L, r) && r.runStart == s.runStart && r.runs == s.runs && r.omitted == s.omitted
    ensures L.trimSpace(text) != "" ==> r.live == -1
    ensures L.trimSpace(text) == "" ==> r == s
  {
    hide Inv, EnsureGap, Close;
    var trimmed := L.trimSpace(text);
    if trimmed == "" then s
    else Add(L, EnsureGap(L, Close(L, s)), Raw("* " + trimmed + "\n", L.activity(trimmed)))
  }

  function WriteBanner(L: Look, s: State, plain: string, rendered: string): (r: State)
    requires Inv(L, s)
    ensures Inv(L, r)
    ensures LiveLast(s) ==> (LiveLast(r) <==> s.live < 0)
  {
    hide Inv;
    Add(L, s, Raw(plain, rendered))
  }

  // ----- Insertion before the open run -----

  function InsertAt<T>(xs: seq<T>, k: int, x: T): (r: seq<T>)
    requires 0 <= k <= |xs|
    ensures |r| == |xs| + 1 && r[k] == x
    ensures forall i :: 0 <= i < k ==> r[i] == xs[i]
    ensures forall i :: k <= i < |xs| ==> r[i + 1] == xs[i]
  {
    xs[..k] + [x] + xs[k..]
  }

  function ShiftRun(r: Run, delta: int): Run {
    Run(r.start + delta, r.end + delta)
  }

  /** `adjustTrackedIndexesAfterInsertion`: the omission index is not moved. */
  function AdjustInserted(s: State, index: int): (r: State)
    ensures |r.runs| == |s.runs|
    ensures forall i :: 0 <= i < |s.runs| ==>
              r.runs[i] == if s.runs[i].start >= index then ShiftRun(s.runs[i], 1) else s.runs[i]
  {
    s.(runs := seq(|s.runs|, i requires 0 <= i < |s.runs| =>
                     if s.runs[i].start >= index then ShiftRun(s.runs[i], 1) else s.runs[i]),
       live := if s.live >= index then s.live + 1 else s.live,
       runStart := if s.runStart >= index then s.runStart + 1 else s.runStart)
  }

  function InsertBeforeRun(L: Look, s: State, c: Cell): (r: State)
    requires Inv(L, s) && s.runStart >= 0 && c.Raw?
    ensures Inv(L, r)
    ensures LiveLast(s) ==> LiveLast(r)
    ensures r.omitted == s.omitted && r.runs == s.runs && r.runStart == s.runStart + 1
  {
    AdjustInserted(s.(blocks := InsertAt(s.blocks, s.runStart, c)), s.runStart)
  }

  function InsertNote(L: Look, s: State, title: string, lines: seq<string>): (r: State)
    requires Inv(L, s)
    ensures Inv(L, r)
    ensures LiveLast(s) ==> LiveLast(r)
    ensures |r.runs| == |s.runs| && r.omitted == s.omitted
    ensures s.runStart >= 0 ==> r.runs == s.runs && r.runStart == s.runStart + 1
  {
    hide Inv, WriteNote, InsertBeforeRun;
    if s.runStart < 0 then WriteNote(L, s, title, lines)
    else InsertBeforeRun(L, s, RawOf(L.note(title, lines, lines)))
  }

  // ----- Streaming -----

  predicate CanRebuild(s: State) {
    0 <= s.live < |s.blocks| && s.blocks[s.live].Raw? && s.collector.Some?
  }

  /** Only the rendered text of the live cell and the collector change. */
  function Rebuild(L: Look, s: State): (r: State)
    requires CanRebuild(s)
    ensures CanRebuild(r) && |r.blocks| == |s.blocks|
    ensures r.(blocks := s.blocks, collector := s.collector) == s
    ensures r.collector.value.buf == s.collector.value.buf
    ensures r.blocks == s.blocks[s.live := Raw(s.blocks[s.live].plain, r.blocks[s.live].rendered)]
  {
    var c := CommitCompleteLines(L, s.collector.value);
    s.(blocks := s.blocks[s.live := Raw(s.blocks[s.live].plain, LiveText(L, s.tick, c))],
       collector := Some(c))
  }

  lemma RestyledLiveKeepsInv(L: Look, s: State, text: string, c: Collector)
    requires Inv(L, s) && CanRebuild(s) && c.buf == s.collector.value.buf
    ensures Inv(L, s.(blocks := s.blocks[s.live := Raw(s.blocks[s.live].plain, text)], collector := Some(c)))
  {
  }

  lemma RebuildKeepsInv(L: Look, s: State)
    requires Inv(L, s) && CanRebuild(s)
    ensures Inv(L, Rebuild(L, s))
  {
    var c := CommitCompleteLines(L, s.collector.value);
    RestyledLiveKeepsInv(L, s, LiveText(L, s.tick, c), c);
  }

  /** A new live cell at the end of the blocks, not yet rendered. */
  function OpenLive(s: State, delta: string): State {
    Append(s, Raw(delta, "")).(live := |s.blocks|, deltaBuf := delta, collector := Some(Collector(delta, 0, "")))
  }

  function StartLive(L: Look, s: State, delta: string): (r: State)
    requires Inv(L, s) && s.live == -1 && s.group.None?
    ensures Inv(L, r) && CanRebuild(r) && LiveLast(r) && r.deltaBuf == delta
    ensures r.runs == s.runs && r.runStart == s.runStart && r.omitted == s.omitted
  {
    hide EnsureGap;
    OpenLive(EnsureGap(L, s), delta)
  }

  /** The live cell's plain text grows by a delta; its render is not touched. */
  function GrowLive(L: Look, s: State, delta: string): (r: State)
    requires Inv(L, s) && s.live >= 0
    ensures Inv(L, r) && CanRebuild(r) && |r.blocks| == |s.blocks| && r.live == s.live
    ensures r.deltaBuf == s.deltaBuf + delta
    ensures r.runs == s.runs && r.runStart == s.runStart && r.omitted == s.omitted
  {
    var buf := s.deltaBuf + delta;
    s.(deltaBuf := buf,
       collector := Some(s.collector.value.(buf := buf)),
       blocks := s.blocks[s.live := Raw(buf, s.blocks[s.live].rendered)])
  }

  function ExtendLive(L: Look, s: State, delta: string): (r: State)
    requires Inv(L, s) && s.group.None?
    ensures Inv(L, r) && CanRebuild(r)
    ensures r.deltaBuf == (if s.live >= 0 then s.deltaBuf else "") + delta
    ensures r.runs == s.runs && r.runStart == s.runStart && r.omitted == s.omitted
    ensures LiveLast(s) ==> LiveLast(r)
  {
    if s.live == -1 then StartLive(L, s, delta) else GrowLive(L, s, delta)
  }

  function AppendDelta(L: Look, s: State, delta: string): (r: State)
    requires Inv(L, s)
    ensures Inv(L, r) && r.live >= 0
    ensures r.deltaBuf == (if s.live >= 0 then s.deltaBuf else "") + delta
    ensures r.runs == s.runs && r.runStart == s.runStart && r.omitted == s.omitted
    ensures LiveLast(s) ==> LiveLast(r)
  {
    var u := ExtendLive(L, EndToolGroup(L, s), delta);
    RebuildKeepsInv(L, u);
    Rebuild(L, u)
  }

  function Refresh(L: Look, s: State): (r: State)
    requires Inv(L, s)
    ensures Inv(L, r) && |r.blocks| == |s.blocks|
    ensures r.(blocks := s.blocks, collector := s.collector) == s
    ensures forall i :: 0 <= i < |s.blocks| && i != s.live ==> r.blocks[i] == s.blocks[i]
  {
    if s.live >= 0 then
      RebuildKeepsInv(L, s);
      Rebuild(L, s)
    else s
  }

  /** A motion tick: the tick is set, then the live marker refreshed. */
  function Tick(L: Look, s: State, tick: int): (r: State)
    requires Inv(L, s)
    ensures Inv(L, r) && r.runs == s.runs && r.omitted == s.omitted && r.live == s.live
    ensures |r.blocks| == |s.blocks| && forall i :: 0 <= i < |s.blocks| && i != s.live ==> r.blocks[i] == s.blocks[i]
    ensures s.live >= 0 ==> r.blocks[s.live].plain == s.blocks[s.live].plain == s.deltaBuf
  {
    Refresh(L, s.(tick := tick))
  }

  // ----- Finishing an answer and closing a run -----

  /** The finished answer takes the live cell's place, or a new one. */
  function PlaceAnswer(L: Look, s: State, markdown: string): (r: State)
    requires Inv(L, s) && s.group.None?
    ensures Inv(L, r) && r.live == -1 && r.group.None? && r.runStart == s.runStart
    ensures r.runs == s.runs && r.omitted == s.omitted
  {
    var cell := FinishedAnswer(markdown);
    var blocks := if s.live != -1 then s.blocks[s.live := cell] else s.blocks + [cell];
    s.(blocks := blocks, live := -1, collector := ResetCollector(s.collector))
  }

  function FinishAssistant(L: Look, s: State, markdown: string): (r: State)
    requires Inv(L, s)
    ensures Inv(L, r) && r.live == -1 && r.group.None? && r.runStart == s.runStart
    ensures r.runs == s.runs && r.omitted == s.omitted
  {
    PlaceAnswer(L, EndToolGroup(L, s), markdown)
  }

  function WriteSeparator(L: Look, s: State, line: string): (r: State)
    requires Inv(L, s)
    ensures Inv(L, r) && s.blocks <= r.blocks && r.(blocks := s.blocks) == s
  {
    hide Inv, EnsureGap;
    if line == "" then s else Add(L, EnsureGap(L, s), Raw(line + "\n\n", L.separator(line)))
  }

  function AdjustRemoved(s: State, start: int, removed: int): State {
    if removed <= 0 then s
    else
      s.(live := if s.live >= start then s.live - removed else s.live,
         runStart := if s.runStart >= start then s.runStart - removed else s.runStart,
         omissionIdx := if s.omissionIdx >= start then s.omissionIdx - removed else s.omissionIdx)
  }

  /** The blocks `[start, end)` and the runs inside them taken out. */
  function RemoveRuns(s: State, excess: nat, start: int, end: int): State
    requires excess <= |s.runs| && 0 <= start <= end <= |s.blocks|
  {
    AdjustRemoved(
      s.(blocks := s.blocks[..start] + s.blocks[end..],
         runs := seq(|s.runs| - excess, i requires 0 <= i < |s.runs| - excess =>
                       ShiftRun(s.runs[i + excess], start - end))),
      start, end - start)
  }

  /** The omission marker inserted at `start`, or rewritten where it stands. */
  function MarkOmission(L: Look, s: State, start: int, omitted: nat): State
    requires 0 <= start <= |s.blocks| && -1 <= s.omissionIdx < |s.blocks|
  {
    var marker := RawOf(L.omission(omitted));
    if s.omissionIdx == -1 then
      AdjustInserted(s.(blocks := InsertAt(s.blocks, start, marker)), start)
      .(omissionIdx := start, omitted := omitted)
    else s.(blocks := s.blocks[s.omissionIdx := marker], omitted := omitted)
  }

  predicate TrimGuard(s: State) {
    var excess := |s.runs| - MaxCompletedRuns;
    excess > 0 && 0 <= s.runs[0].start < s.runs[excess - 1].end <= |s.blocks|
  }

  /** `trimCompletedRuns`. */
  function Trim(L: Look, s: State): State
    requires Indexed(L, s)
  {
    if !TrimGuard(s) then s
    else
      var excess := |s.runs| - MaxCompletedRuns;
      var start, end := s.runs[0].start, s.runs[excess - 1].end;
      var cut := RemoveRuns(s, excess, start, end);
      MarkOmission(L, cut, start, s.omitted + excess)
  }

  /** The open run recorded as completed, before trimming. */
  function CloseRun(s: State): State {
    s.(runs := s.runs + [Run(s.runStart, |s.blocks|)], runStart := -1)
  }

  function Finalize(L: Look, s: State): (r: State)
    requires Inv(L, s) && s.live == -1
    ensures Inv(L, r) && r.live == -1 && r.runStart == -1
    ensures r.omitted + |r.runs| == s.omitted + |s.runs| + if s.runStart >= 0 then 1 else 0
  {
    if s.runStart < 0 then s
    else if |s.blocks| <= s.runStart then s.(runStart := -1)
    else
      CloseRunKeepsIndexes(L, s);
      TrimKeepsIndexes(L, CloseRun(s));
      Trim(L, CloseRun(s))
  }

  function OldestCut(s: State): State
    requires RunsOk(s) && |s.runs| > 0
  {
    RemoveRuns(s, 1, s.runs[0].start, s.runs[0].end)
  }

  /** What taking out the oldest run leaves behind. */
  lemma RemoveRunsKeeps(L: Look, s: State, cut: State)
    requires Indexed(L, s) && |s.runs| > 0 && s.live == -1 && s.runStart == -1
    requires cut == RemoveRuns(s, 1, s.runs[0].start, s.runs[0].end)
    ensures RunsOk(cut) && |cut.runs| == |s.runs| - 1 && Stripped(cut.blocks)
    ensures forall i :: 0 <= i < |cut.runs| ==> cut.runs[i].start >= s.runs[0].start
    ensures cut == s.(blocks := cut.blocks, runs := cut.runs)
    ensures s.runs[0].start <= |cut.blocks| && cut.blocks[..s.runs[0].start] == s.blocks[..s.runs[0].start]
  {
    var start, end := s.runs[0].start, s.runs[0].end;
    forall i | 0 <= i < |cut.runs|
      ensures cut.runs[i] == ShiftRun(s.runs[i + 1], start - end) && end <= s.runs[i + 1].start
      ensures cut.blocks[cut.runs[i].start] == s.blocks[s.runs[i + 1].start]
    {
    }
  }

  lemma MarkOmissionKeeps(L: Look, s: State, start: int, omitted: nat)
    requires RunsOk(s) && Stripped(s.blocks) && s.live == -1 && s.runStart == -1 && omitted > 0
    requires 0 <= start <= |s.blocks| && -1 <= s.omissionIdx < start
    requires forall i :: 0 <= i < |s.runs| ==> s.runs[i].start >= start
    requires s.omissionIdx >= 0 ==> s.blocks[s.omissionIdx].Raw?
    ensures Indexed(L, MarkOmission(L, s, start, omitted))
    ensures |MarkOmission(L, s, start, omitted).runs| == |s.runs|
    ensures MarkOmission(L, s, start, omitted).live == -1 && MarkOmission(L, s, start, omitted).runStart == -1
  {
    var r := MarkOmission(L, s, start, omitted);
    if s.omissionIdx == -1 {
      forall i | 0 <= i < |s.runs|
        ensures r.runs[i] == ShiftRun(s.runs[i], 1) && r.blocks[r.runs[i].start] == s.blocks[s.runs[i].start]
      {
      }
    }
  }

  lemma CloseRunKeepsIndexes(L: Look, s: State)
    requires Inv(L, s) && s.live == -1 && s.runStart >= 0
    ensures Indexed(L, CloseRun(s)) && CloseRun(s).live == -1 && CloseRun(s).runStart == -1
    ensures |CloseRun(s).runs| == |s.runs| + 1
  {
  }

  lemma TrimOfEleven(L: Look, s: State)
    requires Indexed(L, s) && |s.runs| == MaxCompletedRuns + 1 && s.live == -1 && s.runStart == -1
    ensures RunsOk(OldestCut(s)) && |OldestCut(s).runs| == MaxCompletedRuns && Stripped(OldestCut(s).blocks)
    ensures OldestCut(s) == s.(blocks := OldestCut(s).blocks, runs := OldestCut(s).runs)
    ensures forall i :: 0 <= i < |OldestCut(s).runs| ==> OldestCut(s).runs[i].start >= s.runs[0].start
    ensures -1 <= s.omissionIdx < s.runs[0].start <= |OldestCut(s).blocks| && 0 <= s.omitted
    ensures s.omissionIdx >= 0 ==> OldestCut(s).blocks[s.omissionIdx] == s.blocks[s.omissionIdx]
    ensures Trim(L, s) == MarkOmission(L, OldestCut(s), s.runs[0].start, s.omitted + 1)
  {
    RemoveRunsKeeps(L, s, OldestCut(s));
  }

  lemma TrimKeepsIndexes(L: Look, s: State)
    requires Indexed(L, s) && |s.runs| <= MaxCompletedRuns + 1 && s.live == -1 && s.runStart == -1
    ensures Inv(L, Trim(L, s)) && Trim(L, s).live == -1 && Trim(L, s).runStart == -1
    ensures Trim(L, s).omitted + |Trim(L, s).runs| == s.omitted + |s.runs|
  {
    if |s.runs| == MaxCompletedRuns + 1 {
      TrimOfEleven(L, s);
      MarkOmissionKeeps(L, OldestCut(s), s.runs[0].start, s.omitted + 1);
    }
  }

  // ----- Tools -----

  /** The group a call joins: the active one when its phase fits. */
  function GroupFor(L: Look, s: State, call: ToolCall, hadLive: bool): (r: State)
    requires Inv(L, s) && s.live == -1
    ensures Inv(L, r) && r.live == -1
    ensures r.runs == s.runs && r.runStart == s.runStart && r.omitted == s.omitted
  {
    var t := if s.group.Some? && s.group.value.phase != call.phase then EnsureGap(L, EndToolGroup(L, s)) else s;
    if t.group.None? && !hadLive then EnsureGap(L, t) else t
  }

  function StartTool(L: Look, s: State, call: ToolCall): (r: State)
    requires Inv(L, s)
    ensures Inv(L, r) && r.live == -1 && r.group.Some?
    ensures r.runs == s.runs && r.runStart == s.runStart && r.omitted == s.omitted
  {
    var t := GroupFor(L, EndLive(L, s), call, s.live >= 0);
    var g := if t.group.None? then ToolGroup(call.phase, []) else t.group.value;
    t.(group := Some(g.(log := g.log + [Started(call)])))
  }

  /** `updateTool`, `finishTool` and `failTool`: ignored without a group or
      for a call the group never started. */
  function StepTool(s: State, step: ToolStep): (r: State)
    ensures r.(group := s.group) == s && (r.group.None? <==> s.group.None?)
  {
    if s.group.None? || !s.group.value.Knows(step.call.id) then s
    else s.(group := Some(s.group.value.(log := s.group.value.log + [step])))
  }

  lemma StepToolKeepsInv(L: Look, s: State, step: ToolStep)
    requires Inv(L, s)
    ensures Inv(L, StepTool(s, step))
  {
  }

  // ----- Runs of the model -----

  datatype RunEvent =
    | CompactionCompleted
    | InRunCompactionCompleted
    | CompactionWarning(message: string)
    | PromptBatchSubmitted(prompts: seq<string>)
    | TextDelta(delta: string)
    | ToolCallStarted(call: ToolCall)
    | ToolCallUpdated(call: ToolCall)
    | ToolCallSucceeded(call: ToolCall)
    | ToolCallFailed(call: ToolCall)
    | RunFailed(errorType: string, message: string)
    | RunSucceeded(outputText: string, separator: string)
    | Ignored

  datatype PreviewEntry =
    | Instructions(text: string)
    | User(text: string)
    | Activity(text: string)
    | Answer(text: string)
    | Failure(text: string)
    | Unknown

  datatype Preview = Preview(entries: seq<PreviewEntry>, truncated: bool)

  datatype Op =
    | Banner(plain: string, rendered: string)
    | Note(title: string, lines: seq<string>)
    | RenderedNote(title: string, lines: seq<string>, renderedLines: seq<string>)
    | NoteBeforeRun(title: string, lines: seq<string>)
    | UserPrompt(prompt: string)
    | Line(line: string)
    | ErrorMessage(message: string)
    | Event(event: RunEvent)
    | ShowPreview(preview: Preview)
    | Delta(delta: string)
    | SetWidth(width: int)
    | SetTick(tick: int)
    | Paint

  function WriteError(L: Look, s: State, message: string): (r: State)
    requires Inv(L, s)
    ensures Inv(L, r) && r.live == -1 && r.runStart == -1
    ensures TotalRuns(r) == TotalRuns(s) + Opened(s)
  {
    hide Inv, Close, Finalize;
    Finalize(L, Add(L, Close(L, s), RawOf(L.error("Error", message))))
  }

  function CompleteAssistant(L: Look, s: State, markdown: string): (r: State)
    requires Inv(L, s)
    ensures Inv(L, r) && r.live == -1 && r.runStart == -1
    ensures TotalRuns(r) == TotalRuns(s) + Opened(s)
  {
    hide Inv, Finalize, FinishAssistant;
    Finalize(L, FinishAssistant(L, s, markdown))
  }

  function CompleteRun(L: Look, s: State, outputText: string, separator: string): (r: State)
    requires Inv(L, s)
    ensures Inv(L, r) && r.live == -1 && r.runStart == -1
    ensures TotalRuns(r) == TotalRuns(s) + Opened(s)
  {
    hide Inv, Finalize, FinishAssistant, WriteSeparator;
    Finalize(L, WriteSeparator(L, FinishAssistant(L, s, outputText), separator))
  }

  /** A failure is noted unless the user cancelled the run. */
  function FailNote(L: Look, s: State, errorType: string, message: string): (r: State)
    requires Inv(L, s) && s.live == -1
    ensures Inv(L, r) && r.live == -1 && r.runStart == s.runStart && r.runs == s.runs && r.omitted == s.omitted
  {
    hide Inv;
    if errorType == "CancelledError" then s else Add(L, s, RawOf(L.error("Run failed", message)))
  }

  function FailRun(L: Look, s: State, errorType: string, message: string): (r: State)
    requires Inv(L, s)
    ensures Inv(L, r) && r.live == -1 && r.runStart == -1
    ensures TotalRuns(r) == TotalRuns(s) + Opened(s)
  {
    hide Inv, Finalize, FailNote, EndToolGroup, EndLive;
    Finalize(L, FailNote(L, EndToolGroup(L, EndLive(L, s)), errorType, message))
  }

  function ApplyToolEvent(L: Look, s: State, e: RunEvent): (r: State)
    requires Inv(L, s)
    ensures Inv(L, r) && TotalRuns(r) == TotalRuns(s)
    ensures LiveLast(s) ==> LiveLast(r)
  {
    hide Inv, StartTool;
    match e
    case ToolCallStarted(call) => StartTool(L, s, call)
    case ToolCallUpdated(call) => StepToolKeepsInv(L, s, Updated(call)); StepTool(s, Updated(call))
    case ToolCallSucceeded(call) => StepToolKeepsInv(L, s, Succeeded(call)); StepTool(s, Succeeded(call))
    case ToolCallFailed(call) => StepToolKeepsInv(L, s, Failed(call)); StepTool(s, Failed(call))
    case _ => s
  }

  function ApplyCompaction(L: Look, s: State, e: RunEvent): (r: State)
    requires Inv(L, s)
    ensures Inv(L, r) && TotalRuns(r) == TotalRuns(s)
    ensures LiveLast(s) ==> LiveLast(r)
  {
    hide Inv, WriteCompactionNote, WriteLine;
    match e
    case CompactionCompleted => WriteCompactionNote(L, s, "compacted")
    case InRunCompactionCompleted => WriteCompactionNote(L, s, "compacted (in-run)")
    case CompactionWarning(message) => WriteLine(L, WriteCompactionNote(L, s, "warning"), message)
    case _ => s
  }

  function ApplyEvent(L: Look, s: State, e: RunEvent): (r: State)
    requires Inv(L, s)
    ensures Inv(L, r)
    ensures TotalRuns(r) == TotalRuns(s) + if e.RunFailed? || e.RunSucceeded? then Opened(s) else 0
    ensures LiveLast(s) ==> LiveLast(r)
  {
    hide Inv, ApplyCompaction, WriteUserTurn, AppendDelta, FailRun, CompleteRun, ApplyToolEvent;
    match e
    case CompactionCompleted => ApplyCompaction(L, s, e)
    case InRunCompactionCompleted => ApplyCompaction(L, s, e)
    case CompactionWarning(_) => ApplyCompaction(L, s, e)
    case PromptBatchSubmitted(prompts) => WriteUserTurn(L, s, L.joinPrompts(prompts))
    case TextDelta(delta) => AppendDelta(L, s, delta)
    case RunFailed(errorType, message) => FailRun(L, s, errorType, message)
    case RunSucceeded(outputText, separator) => CompleteRun(L, s, outputText, separator)
    case _ => ApplyToolEvent(L, s, e)
  }

  function ApplyEntry(L: Look, s: State, e: PreviewEntry): (r: State)
    requires Inv(L, s)
    ensures Inv(L, r)
    ensures TotalRuns(r) == TotalRuns(s) + if e.Answer? || e.Failure? then Opened(s) else 0
    ensures LiveLast(s) ==> LiveLast(r)
  {
    hide Inv, InsertNote, WriteUserTurn, WriteActivity, CompleteAssistant, WriteError;
    match e
    case Instructions(text) => InsertNote(L, s, "instructions", [text])
    case User(text) => WriteUserTurn(L, s, text)
    case Activity(text) => WriteActivity(L, s, text)
    case Answer(text) => CompleteAssistant(L, s, text)
    case Failure(text) => WriteError(L, s, text)
    case Unknown => s
  }

  function ApplyEntries(L: Look, s: State, entries: seq<PreviewEntry>): (r: State)
    requires Inv(L, s)
    ensures Inv(L, r)
    ensures LiveLast(s) ==> LiveLast(r)
  {
    if entries == [] then s
    else ApplyEntry(L, ApplyEntries(L, s, entries[..|entries| - 1]), entries[|entries| - 1])
  }

  function ApplyPreview(L: Look, s: State, p: Preview): (r: State)
    requires Inv(L, s)
    ensures Inv(L, r)
    ensures LiveLast(s) ==> LiveLast(r)
  {
    if p.entries == [] then s
    else ApplyEntries(L, if p.truncated then WriteNote(L, s, "history", ["older history omitted"]) else s, p.entries)
  }

  function Resize(L: Look, s: State, width: int): (r: State)
    requires Inv(L, s)
    ensures Inv(L, r) && r.(width := s.width) == s
  {
    s.(width := width)
  }

  function Step(L: Look, s: State, op: Op): (r: State)
    requires Inv(L, s)
    ensures Inv(L, r)
    ensures LiveLast(s) ==> (LiveLast(r) <==> !(op.Banner? && s.live >= 0))
  {
    hide Indexed, WriteBanner, WriteNote, WriteRenderedNote, InsertNote, WriteUserTurn, WriteLine, WriteError, ApplyEvent,
         ApplyPreview, AppendDelta, Tick;
    match op
    case Banner(plain, rendered) => WriteBanner(L, s, plain, rendered)
    case Note(title, lines) => WriteNote(L, s, title, lines)
    case RenderedNote(title, lines, rendered) => WriteRenderedNote(L, s, title, lines, rendered)
    case NoteBeforeRun(title, lines) => InsertNote(L, s, title, lines)
    case UserPrompt(prompt) => WriteUserTurn(L, s, prompt)
    case Line(line) => WriteLine(L, s, line)
    case ErrorMessage(message) => WriteError(L, s, message)
    case Event(e) => ApplyEvent(L, s, e)
    case ShowPreview(p) => ApplyPreview(L, s, p)
    case Delta(delta) => AppendDelta(L, s, delta)
    case SetWidth(width) => Resize(L, s, width)
    case SetTick(tick) => Tick(L, s, tick)
    case Paint => s
  }

  function RunOps(L: Look, ops: seq<Op>): (r: State)
    ensures Inv(L, r)
  {
    if ops == [] then Initial else Step(L, RunOps(L, ops[..|ops| - 1]), ops[|ops| - 1])
  }

  /** What the paints of a run show when each one renders from scratch. */
  function Frames(L: Look, ops: seq<Op>): seq<string> {
    if ops == [] then []
    else
      var before := Frames(L, ops[..|ops| - 1]);
      var s := RunOps(L, ops[..|ops| - 1]);
      if ops[|ops| - 1].Paint? then before + [FullRender(L, s, s.width)] else before
  }

  // ----- Counting and conserving runs -----

  /** Runs ever finalised: retained plus omitted. */
  function TotalRuns(s: State): int {
    s.omitted + |s.runs|
  }

  function Opened(s: State): int {
    if s.runStart >= 0 then 1 else 0
  }

  /** All blocks except the omission marker. */
  function WithoutMarker(s: State): seq<Cell>
    requires -1 <= s.omissionIdx < |s.blocks|
  {
    if s.omissionIdx < 0 then s.blocks else s.blocks[..s.omissionIdx] + s.blocks[s.omissionIdx + 1..]
  }

  function RunBlocks(s: State, i: nat): seq<Cell>
    requires RunsOk(s) && i < |s.runs|
  {
    s.blocks[s.runs[i].start..s.runs[i].end]
  }

  /** Where block `k` of a state sits once the marker is left out. */
  function SansMarker(s: State, k: int): int {
    if 0 <= s.omissionIdx < k then k - 1 else k
  }

  /** An insertion leaves every run's blocks, the open run's first block and the
      live cell as they were, wherever it does not fall inside a run. */
  lemma InsertionKeepsBlocks(s: State, index: int, c: Cell, i: nat)
    requires RunsOk(s) && 0 <= index <= |s.blocks| && i < |s.runs|
    requires index <= s.runs[i].start || s.runs[i].end <= index
    ensures var r := AdjustInserted(s.(blocks := InsertAt(s.blocks, index, c)), index);
            && 0 <= r.runs[i].start < r.runs[i].end <= |r.blocks|
            && r.blocks[r.runs[i].start..r.runs[i].end] == RunBlocks(s, i)
            && (0 <= s.runStart < |s.blocks| ==> r.blocks[r.runStart] == s.blocks[s.runStart])
            && (0 <= s.live < |s.blocks| ==> r.blocks[r.live] == s.blocks[s.live])
  {
    hide RunsOk;
    assert 0 <= s.runs[i].start < s.runs[i].end <= |s.blocks| by {
      RunInside(s, i);
    }
    var blocks := InsertAt(s.blocks, index, c);
    assert forall k :: s.runs[i].start <= k < s.runs[i].end ==>
        blocks[if s.runs[i].start >= index then k + 1 else k] == s.blocks[k];
  }

  lemma RunInside(s: State, i: nat)
    requires RunsOk(s) && i < |s.runs|
    ensures 0 <= s.runs[i].start < s.runs[i].end <= |s.blocks|
  {
  }

  /** The tenth retained run is in place and an eleventh closes. */
  ghost predicate Overflows(L: Look, s: State) {
    Inv(L, s) && s.live == -1 && s.runStart >= 0 && |s.runs| == MaxCompletedRuns
  }

  lemma OverflowTrims(L: Look, s: State)
    requires Overflows(L, s)
    ensures var c := CloseRun(s);
            && RunsOk(c)
            && RunsOk(OldestCut(c)) && |OldestCut(c).runs| == MaxCompletedRuns
            && OldestCut(c) == c.(blocks := OldestCut(c).blocks, runs := OldestCut(c).runs)
            && s.omissionIdx < c.runs[0].start <= |OldestCut(c).blocks|
            && Finalize(L, s) == MarkOmission(L, OldestCut(c), c.runs[0].start, s.omitted + 1)
            && Inv(L, Finalize(L, s))
  {
    hide MarkOmission, RemoveRuns, Stripped, LiveOk, OmissionOk, RunsOk;
    CloseRunKeepsIndexes(L, s);
    TrimOfEleven(L, CloseRun(s));
    TrimKeepsIndexes(L, CloseRun(s));
    assert CloseRun(s).runs[0] == s.runs[0];
  }

  /** Closing an eleventh run removes exactly the oldest run's blocks; every
      other block but the omission marker keeps its identity and order. */
  lemma TrimRemovesOldest(L: Look, s: State)
    requires Overflows(L, s)
    ensures Finalize(L, s).omissionIdx >= 0 && Finalize(L, s).omitted == s.omitted + 1
    ensures Finalize(L, s).blocks[Finalize(L, s).omissionIdx] == RawOf(L.omission(s.omitted + 1))
    ensures WithoutMarker(Finalize(L, s))
         == WithoutMarker(s)[..SansMarker(s, s.runs[0].start)] + WithoutMarker(s)[SansMarker(s, s.runs[0].end)..]
  {
    OverflowTrims(L, s);
    var cut := OldestCut(CloseRun(s));
    CutWithoutMarker(s, cut, s.omissionIdx, s.runs[0].start, s.runs[0].end);
    MarkWithoutMarker(L, cut, s.runs[0].start, s.omitted + 1);
  }

  lemma CutWithoutMarker(s: State, cut: State, o: int, start: int, end: int)
    requires -1 <= o < start < end <= |s.blocks| && s.omissionIdx == cut.omissionIdx == o
    requires cut.blocks == s.blocks[..start] + s.blocks[end..]
    ensures o < |cut.blocks|
    ensures WithoutMarker(cut)
         == WithoutMarker(s)[..SansMarker(s, start)] + WithoutMarker(s)[SansMarker(s, end)..]
  {
    if o >= 0 {
      assert WithoutMarker(s)[..start - 1] == s.blocks[..o] + s.blocks[o + 1..start];
      assert WithoutMarker(s)[end - 1..] == s.blocks[end..];
      assert cut.blocks[..o] == s.blocks[..o];
      assert cut.blocks[o + 1..] == s.blocks[o + 1..start] + s.blocks[end..];
    }
  }

  lemma MarkWithoutMarker(L: Look, s: State, start: int, omitted: nat)
    requires -1 <= s.omissionIdx < start <= |s.blocks|
    ensures var r := MarkOmission(L, s, start, omitted);
            0 <= r.omissionIdx < |r.blocks| && WithoutMarker(r) == WithoutMarker(s)
  {
    var r := MarkOmission(L, s, start, omitted);
    if s.omissionIdx == -1 {
      assert r.blocks[..start] == s.blocks[..start] && r.blocks[start + 1..] == s.blocks[start..];
      assert s.blocks[..start] + s.blocks[start..] == s.blocks;
    } else {
      var o := s.omissionIdx;
      assert r.blocks[..o] == s.blocks[..o] && r.blocks[o + 1..] == s.blocks[o + 1..];
    }
  }

  /** Every retained run keeps its blocks, and the new run is the last one. */
  lemma TrimKeepsRetained(L: Look, s: State)
    requires Overflows(L, s)
    ensures |Finalize(L, s).runs| == MaxCompletedRuns
    ensures forall i :: 0 <= i < MaxCompletedRuns - 1 ==> RunBlocks(Finalize(L, s), i) == RunBlocks(s, i + 1)
    ensures RunBlocks(Finalize(L, s), MaxCompletedRuns - 1) == s.blocks[s.runStart..]
  {
    hide RemoveRuns, Stripped, LiveOk, OpenRunOk, Trim;
    OverflowTrims(L, s);
    var c := CloseRun(s);
    var cut := OldestCut(c);
    var r := Finalize(L, s);
    forall i | 0 <= i < MaxCompletedRuns
      ensures RunBlocks(r, i) == RunBlocks(c, i + 1)
    {
      assert c.runs[0].end <= c.runs[i + 1].start;
      CutKeepsRun(c, i);
      MarkKeepsRun(L, cut, c.runs[0].start, s.omitted + 1, i);
    }
    forall j | 0 < j < MaxCompletedRuns
      ensures RunBlocks(c, j) == RunBlocks(s, j)
    {
    }
    assert RunBlocks(c, MaxCompletedRuns) == s.blocks[s.runStart..];
  }

  lemma CutKeepsRun(s: State, i: nat)
    requires RunsOk(s) && i + 1 < |s.runs| && RunsOk(OldestCut(s))
    ensures |OldestCut(s).runs| == |s.runs| - 1 && OldestCut(s).runs[i].start >= s.runs[0].start
    ensures RunBlocks(OldestCut(s), i) == RunBlocks(s, i + 1)
  {
    assert s.runs[0].end <= s.runs[i + 1].start;
    assert OldestCut(s).runs[i] == ShiftRun(s.runs[i + 1], s.runs[0].start - s.runs[0].end);
  }

  lemma MarkKeepsRun(L: Look, s: State, start: int, omitted: nat, i: nat)
    requires -1 <= s.omissionIdx < start <= |s.blocks|
    requires RunsOk(s) && RunsOk(MarkOmission(L, s, start, omitted))
    requires i < |s.runs| == |MarkOmission(L, s, start, omitted).runs| && s.runs[i].start >= start
    ensures RunBlocks(MarkOmission(L, s, start, omitted), i) == RunBlocks(s, i)
  {
    var r := MarkOmission(L, s, start, omitted);
    if s.omissionIdx == -1 {
      assert r.runs[i] == ShiftRun(s.runs[i], 1);
      assert forall k :: s.runs[i].start <= k < s.runs[i].end ==> r.blocks[k + 1] == s.blocks[k];
    }
  }

  /** With fewer than ten retained runs nothing is removed at all. */
  lemma ShortHistoryKeepsBlocks(L: Look, s: State)
    requires Inv(L, s) && s.live == -1 && |s.runs| < MaxCompletedRuns
    ensures Finalize(L, s).blocks == s.blocks && Finalize(L, s).omitted == s.omitted
    ensures s.runs <= Finalize(L, s).runs
  {
  }

  // ----- What streaming and gaps come to -----

  /** An answer streamed in pieces. */
  function Stream(L: Look, s: State, deltas: seq<string>): (r: State)
    requires Inv(L, s)
    ensures Inv(L, r)
  {
    if deltas == [] then s
    else AppendDelta(L, Stream(L, s, deltas[..|deltas| - 1]), deltas[|deltas| - 1])
  }

  function Text(deltas: seq<string>): string {
    if deltas == [] then "" else Text(deltas[..|deltas| - 1]) + deltas[|deltas| - 1]
  }

  /** Where a streamed answer stands: behind what a gap and a closed tool group
      leave of the state before it. */
  function StreamBase(L: Look, s: State): (r: State)
    requires Inv(L, s)
    ensures Inv(L, r)
  {
    EnsureGap(L, EndToolGroup(L, s))
  }

  lemma FirstDelta(L: Look, s: State, delta: string)
    requires Inv(L, s) && s.live == -1
    ensures var r, base := AppendDelta(L, s, delta), StreamBase(L, s);
            && r.live == |base.blocks| == |r.blocks| - 1 && r.blocks[..r.live] == base.blocks
            && r.deltaBuf == delta && r.group.None?
  {
    hide Inv;
  }

  lemma NextDelta(L: Look, s: State, delta: string)
    requires Inv(L, s) && s.live >= 0
    ensures var r := AppendDelta(L, s, delta);
            && r.live == s.live && |r.blocks| == |s.blocks| && r.blocks[..r.live] == s.blocks[..s.live]
            && r.deltaBuf == s.deltaBuf + delta && r.group.None?
  {
    hide Inv, GrowLive, Rebuild;
    LiveHasNoGroup(L, s);
    var grown := GrowLive(L, s, delta);
    GrowKeepsPrefix(L, s, delta);
    var r := Rebuild(L, grown);
    assert AppendDelta(L, s, delta) == r;
    assert r.blocks[..r.live] == grown.blocks[..r.live];
  }

  lemma LiveHasNoGroup(L: Look, s: State)
    requires Inv(L, s) && s.live >= 0
    ensures s.group.None? && s.live < |s.blocks|
  {
  }

  lemma GrowKeepsPrefix(L: Look, s: State, delta: string)
    requires Inv(L, s) && s.live >= 0
    ensures var r := GrowLive(L, s, delta); r.blocks[..s.live] == s.blocks[..s.live] && r.group == s.group
  {
    hide RunsOk, OpenRunOk, OmissionOk, Stripped;
  }

  /** A streamed answer is one live block, however it was cut into deltas, and
      its text is theirs. */
  lemma {:induction false} StreamIsOneBlock(L: Look, s: State, deltas: seq<string>)
    requires Inv(L, s) && s.live == -1 && deltas != []
    ensures var r, base := Stream(L, s, deltas), StreamBase(L, s);
            && r.live == |base.blocks| == |r.blocks| - 1 && r.blocks[..r.live] == base.blocks
            && r.deltaBuf == Text(deltas) && r.group.None?
  {
    hide AppendDelta, StreamBase, Inv;
    var front, last := deltas[..|deltas| - 1], deltas[|deltas| - 1];
    if front == [] {
      FirstDelta(L, s, last);
      assert Text(front) + last == last;
    } else {
      StreamIsOneBlock(L, s, front);
      NextDelta(L, Stream(L, s, front), last);
    }
  }

  /** Streaming leaves no trace: the finished answer stands alone where the
      stream was, and an answer cut short keeps the streamed text. */
  lemma StreamingLeavesNoTrace(L: Look, s: State, deltas: seq<string>, markdown: string)
    requires Inv(L, s) && s.live == -1 && deltas != []
    ensures var r, base := Stream(L, s, deltas), StreamBase(L, s);
            && FinishAssistant(L, r, markdown).blocks == base.blocks + [FinishedAnswer(markdown)]
            && EndLive(L, r).blocks == base.blocks + [FinishedAnswer(TrimRightNewlines(Text(deltas)))]
  {
    hide Stream, StreamBase, TrimRightNewlines, Text;
    StreamIsOneBlock(L, s, deltas);
    var r, base := Stream(L, s, deltas), StreamBase(L, s);
    assert r.blocks[r.live].plain == r.deltaBuf;
    assert r.blocks == base.blocks + [r.blocks[r.live]];
  }

  /** All plain text, block after block. */
  function PlainText(L: Look, blocks: seq<Cell>): string {
    if blocks == [] then ""
    else PlainText(L, blocks[..|blocks| - 1]) + CellPlain(L, blocks[|blocks| - 1])
  }

  lemma PlainTextGrows(L: Look, blocks: seq<Cell>, c: Cell)
    ensures PlainText(L, blocks + [c]) == PlainText(L, blocks) + CellPlain(L, c)
  {
    assert (blocks + [c])[..|blocks|] == blocks;
  }

  lemma SuffixBehind(front: string, s: string, suffix: string)
    requires HasSuffix(s, suffix)
    ensures HasSuffix(front + s, suffix)
  {
    assert (front + s)[|front| + |s| - |suffix|..] == s[|s| - |suffix|..];
  }

  lemma NewlineTwice(s: string)
    requires HasSuffix(s, "\n")
    ensures HasSuffix(s + "\n", "\n\n")
  {
    assert s[|s| - 1..] == "\n";
    assert (s + "\n")[|s| - 1..] == s[|s| - 1..] + "\n";
  }

  /** Behind a gap the text so far ends in a blank line. */
  lemma GapSeparates(L: Look, s: State)
    requires Inv(L, s) && s.blocks != []
    ensures HasSuffix(PlainText(L, EnsureGap(L, s).blocks), "\n\n")
  {
    hide Inv, PlainText, HasSuffix, CellPlain;
    var front, cell := s.blocks[..|s.blocks| - 1], s.blocks[|s.blocks| - 1];
    var before, last := PlainText(L, front), CellPlain(L, cell);
    assert s.blocks == front + [cell];
    PlainTextGrows(L, front, cell);
    if HasSuffix(last, "\n\n") {
      SuffixBehind(before, last, "\n\n");
    } else if HasSuffix(last, "\n") {
      PlainTextGrows(L, s.blocks, Raw("\n", "\n"));
      GapPlain(L, "\n");
      SuffixBehind(before, last, "\n");
      NewlineTwice(before + last);
    } else {
      PlainTextGrows(L, s.blocks, Raw("\n\n", "\n\n"));
      GapPlain(L, "\n\n");
      SuffixBehind(before + last, "\n\n", "\n\n");
    }
  }

  lemma GapPlain(L: Look, gap: string)
    ensures CellPlain(L, Raw(gap, gap)) == gap
    ensures HasSuffix(gap, gap)
  {
  }

  /** A second gap adds nothing, except behind a text that ended in exactly one
      newline: there the first gap's own newline is taken for the text. */
  lemma GapTwice(L: Look, s: State)
    requires Inv(L, s)
    ensures EnsureGap(L, EnsureGap(L, s)) == EnsureGap(L, s)
            <==> s.blocks == []
                 || !HasSuffix(CellPlain(L, s.blocks[|s.blocks| - 1]), "\n")
                 || HasSuffix(CellPlain(L, s.blocks[|s.blocks| - 1]), "\n\n")
  {
    hide Inv;
    var r := EnsureGap(L, s);
    assert |EnsureGap(L, r).blocks| >= |r.blocks|;
  }

  // ----- Whole runs -----

  /** How many runs the first entries of a preview close. */
  function EntriesClose(L: Look, s: State, entries: seq<PreviewEntry>): nat
    requires Inv(L, s)
  {
    if entries == [] then 0
    else
      var front, last := entries[..|entries| - 1], entries[|entries| - 1];
      EntriesClose(L, s, front) + if last.Answer? || last.Failure? then Opened(ApplyEntries(L, s, front)) else 0
  }

  lemma {:induction false} EntriesCount(L: Look, s: State, entries: seq<PreviewEntry>)
    requires Inv(L, s)
    ensures TotalRuns(ApplyEntries(L, s, entries)) == TotalRuns(s) + EntriesClose(L, s, entries)
  {
    hide ApplyEntry, Inv;
    if entries != [] {
      EntriesCount(L, s, entries[..|entries| - 1]);
    }
  }

  /** Errors, answers and ended runs close the open run, if there is one. */
  function Closes(L: Look, s: State, op: Op): nat
    requires Inv(L, s)
  {
    match op
    case ErrorMessage(_) => Opened(s)
    case Event(e) => if e.RunFailed? || e.RunSucceeded? then Opened(s) else 0
    case ShowPreview(p) =>
      EntriesClose(L, if p.truncated then WriteNote(L, s, "history", ["older history omitted"]) else s, p.entries)
    case _ => 0
  }

  lemma PreviewCount(L: Look, s: State, p: Preview)
    requires Inv(L, s)
    ensures TotalRuns(ApplyPreview(L, s, p)) == TotalRuns(s) + Closes(L, s, ShowPreview(p))
  {
    hide WriteNote, ApplyEntries, Inv;
    var t := if p.truncated then WriteNote(L, s, "history", ["older history omitted"]) else s;
    if p.entries != [] {
      EntriesCount(L, t, p.entries);
    }
  }

  lemma StepCount(L: Look, s: State, op: Op)
    requires Inv(L, s)
    ensures TotalRuns(Step(L, s, op)) == TotalRuns(s) + Closes(L, s, op)
  {
    hide Inv, WriteNote, WriteRenderedNote, InsertNote, WriteUserTurn, WriteLine, WriteError, ApplyEvent, ApplyPreview,
         AppendDelta, Tick, EntriesClose;
    if op.ShowPreview? {
      PreviewCount(L, s, op.preview);
    }
  }

  function Finalised(L: Look, ops: seq<Op>): nat {
    if ops == [] then 0
    else Finalised(L, ops[..|ops| - 1]) + Closes(L, RunOps(L, ops[..|ops| - 1]), ops[|ops| - 1])
  }

  /** Retained and omitted runs together are all runs ever finalised. */
  lemma {:induction false} RunsAreCounted(L: Look, ops: seq<Op>)
    ensures TotalRuns(RunOps(L, ops)) == Finalised(L, ops)
  {
    hide Step, Closes, Inv;
    if ops != [] {
      RunsAreCounted(L, ops[..|ops| - 1]);
      StepCount(L, RunOps(L, ops[..|ops| - 1]), ops[|ops| - 1]);
    }
  }

  ghost predicate LastThroughout(L: Look, ops: seq<Op>) {
    LiveLast(RunOps(L, ops)) && (ops != [] ==> LastThroughout(L, ops[..|ops| - 1]))
  }

  /** No banner was written over a live answer. */
  ghost predicate BannersWait(L: Look, ops: seq<Op>) {
    ops != [] ==>
      && BannersWait(L, ops[..|ops| - 1])
      && (ops[|ops| - 1].Banner? ==> RunOps(L, ops[..|ops| - 1]).live < 0)
  }

  /** The live answer is the last block throughout a run exactly when no banner
      is written while one is live. */
  lemma {:induction false} LiveStaysLast(L: Look, ops: seq<Op>)
    ensures LastThroughout(L, ops) <==> BannersWait(L, ops)
  {
    hide Step, Inv;
    if ops != [] {
      LiveStaysLast(L, ops[..|ops| - 1]);
    }
  }

  /** A transcript whose only banner is its first entry, as the program writes it,
      keeps the live answer last throughout. */
  lemma {:induction false} BannerFirstKeepsLast(L: Look, ops: seq<Op>)
    requires forall i :: 0 < i < |ops| ==> !ops[i].Banner?
    ensures LastThroughout(L, ops)
  {
    hide Step, Inv, LastThroughout;
    BannerFirstWaits(L, ops);
    LiveStaysLast(L, ops);
  }

  lemma {:induction false} BannerFirstWaits(L: Look, ops: seq<Op>)
    requires forall i :: 0 < i < |ops| ==> !ops[i].Banner?
    ensures BannersWait(L, ops)
  {
    hide Step, Inv;
    if ops != [] {
      BannerFirstWaits(L, ops[..|ops| - 1]);
      assert |ops| == 1 ==> RunOps(L, ops[..0]) == Initial;
    }
  }

  /** A banner over a live answer would leave it behind. */
  lemma BannerOverLiveAnswer(L: Look, delta: string, plain: string, rendered: string)
    ensures !LiveLast(RunOps(L, [Delta(delta), Banner(plain, rendered)]))
  {
    hide Step, Inv, LiveLast;
    var first := [Delta(delta)];
    var both := [Delta(delta), Banner(plain, rendered)];
    assert both[..1] == first && first[..0] == [];
    DeltaLive(L, delta);
    assert RunOps(L, first) == Step(L, Initial, Delta(delta));
    assert RunOps(L, both) == Step(L, RunOps(L, first), both[1]);
    BannerLeavesBehind(L, RunOps(L, first), plain, rendered);
  }

  lemma DeltaLive(L: Look, delta: string)
    ensures Inv(L, Initial) && Step(L, Initial, Delta(delta)).live >= 0
  {
    hide AppendDelta;
  }

  lemma BannerLeavesBehind(L: Look, s: State, plain: string, rendered: string)
    requires Inv(L, s) && s.live >= 0
    ensures !LiveLast(Step(L, s, Banner(plain, rendered)))
  {
  }
}
