/**
 * The transcript as the program keeps it: mutable blocks, tracked indexes and
 * a render cache that is reused up to the first dirty block.  Every method is
 * proved to do to `Model()` what TranscriptSpec says, and to keep the cache
 * such that `Render` returns what rendering everything from scratch returns.
 */
module TranscriptCache {
  import opened Common
  import opened TranscriptSpec
  import Spec = TranscriptSpec

  function StripCell(c: Cell): Cell {
    if c.Assistant? then Assistant(c.plain, "") else c
  }

  /** `stripped` is `blocks` with every cached assistant render evicted. */
  ghost predicate Mirrors(blocks: seq<Cell>, stripped: seq<Cell>) {
    |stripped| == |blocks| && forall i :: 0 <= i < |blocks| ==> stripped[i] == StripCell(blocks[i])
  }

  lemma MirrorsInsert(blocks: seq<Cell>, stripped: seq<Cell>, i: int, c: Cell)
    requires Mirrors(blocks, stripped) && 0 <= i <= |blocks|
    ensures Mirrors(InsertAt(blocks, i, c), InsertAt(stripped, i, StripCell(c)))
  {
  }

  /** A cached assistant render is absent or is what a fresh one would be. */
  ghost predicate FaithfulCell(L: Look, c: Cell) {
    c.Assistant? && c.cachedRender != "" ==> c.cachedRender == MarkdownText(L, c.plain)
  }

  ghost predicate Faithful(L: Look, blocks: seq<Cell>) {
    forall i :: 0 <= i < |blocks| ==> FaithfulCell(L, blocks[i])
  }

  /** `cell.Render()`, which fills an empty cache. */
  function Rendered(L: Look, c: Cell): (r: (string, Cell))
    ensures FaithfulCell(L, c) ==> FaithfulCell(L, r.1)
    ensures StripCell(r.1) == StripCell(c)
  {
    match c
    case Raw(_, rendered) => (rendered, c)
    case ToolGroupText(_, rendered) => (rendered, c)
    case UserTurn(prompt) => (L.userTurn(prompt, 0), c)
    case Assistant(plain, cached) =>
      if cached != "" then (cached, c)
      else
        var text := MarkdownText(L, plain);
        (text, Assistant(plain, text))
  }

  lemma SamePlain(L: Look, c: Cell)
    ensures CellPlain(L, StripCell(c)) == CellPlain(L, c)
  {
  }

  /** Eviction is invisible: a faithful cell shows the same text either way. */
  lemma RenderedFits(L: Look, c: Cell, width: int)
    requires FaithfulCell(L, c)
    ensures !c.UserTurn? ==> Fit(L, Rendered(L, c).0, width) == CellText(L, StripCell(c), width)
  {
  }

  /** Cached offset `i` ends the text of the first `i` blocks. */
  ghost predicate CachesAt(L: Look, blocks: seq<Cell>, offsets: seq<int>, cache: string, width: int, i: int)
    requires 0 <= i < |offsets| && i <= |blocks|
  {
    offsets[i] == |Concat(L, blocks, i, width)| && Concat(L, blocks, i, width) <= cache
  }

  ghost predicate Caches(L: Look, blocks: seq<Cell>, offsets: seq<int>, cache: string, width: int, upTo: int)
    requires upTo <= |blocks|
  {
    forall i :: 0 <= i < |offsets| && i <= upTo ==> CachesAt(L, blocks, offsets, cache, width, i)
  }

  /** How many of `count` blocks a cache speaks for, looking no further than `n`. */
  function ValidLength(dirtyFrom: int, count: nat, n: int): int {
    var clean := if dirtyFrom == -1 then count else dirtyFrom;
    if n < clean then n else clean
  }

  /** Texts of shorter prefixes of the blocks are prefixes of longer ones. */
  lemma PrefixTexts(L: Look, blocks: seq<Cell>, k: int, i: int, width: int)
    requires 0 <= k <= i <= |blocks|
    ensures Concat(L, blocks, k, width) <= Concat(L, blocks, i, width)
  {
  }

  /** Only the first `n` blocks matter to the text of the first `n` blocks. */
  lemma {:induction false} ConcatAgrees(L: Look, a: seq<Cell>, b: seq<Cell>, n: int, width: int)
    requires n <= |a| && n <= |b|
    requires forall i :: 0 <= i < n ==> a[i] == b[i]
    ensures Concat(L, a, n, width) == Concat(L, b, n, width)
  {
    if n > 0 {
      ConcatAgrees(L, a, b, n - 1, width);
    }
  }

  /** Closing the tool group turns it into a block without changing what is
      shown, at any width. */
  lemma ClosingGroupShowsSame(L: Look, s: State, width: int)
    requires Inv(L, s)
    ensures FullRender(L, Spec.EndToolGroup(L, s), width) == FullRender(L, s, width)
  {
    hide Inv;
    var r := Spec.EndToolGroup(L, s);
    if s.group.Some? {
      ConcatAgrees(L, s.blocks, r.blocks, |s.blocks|, width);
      assert Concat(L, r.blocks, |r.blocks|, width)
          == Concat(L, r.blocks, |s.blocks|, width) + CellText(L, r.blocks[|s.blocks|], width);
    }
  }

  /** A cache stays good up to the first block that changed. */
  lemma CacheSurvives(L: Look, a: seq<Cell>, b: seq<Cell>, offsets: seq<int>, cache: string, width: int, k: int, n: int)
    requires n <= k <= |a| && n <= |b| && Caches(L, a, offsets, cache, width, k)
    requires forall i :: 0 <= i < n ==> a[i] == b[i]
    ensures Caches(L, b, offsets, cache, width, n)
  {
    forall i | 0 <= i < |offsets| && i <= n
      ensures CachesAt(L, b, offsets, cache, width, i)
    {
      assert CachesAt(L, a, offsets, cache, width, i);
      ConcatAgrees(L, a, b, i, width);
    }
  }

  /** A cache cut at a good offset still caches everything before it. */
  lemma CutCache(L: Look, blocks: seq<Cell>, offsets: seq<int>, cache: string, width: int, i: int, copied: seq<int>)
    requires 0 <= i <= |blocks| && i < |offsets| && Caches(L, blocks, offsets, cache, width, i)
    requires |copied| > i && copied[..i + 1] == offsets[..i + 1]
    ensures 0 <= offsets[i] <= |cache| && cache[..offsets[i]] == Concat(L, blocks, i, width)
    ensures Caches(L, blocks, copied, cache[..offsets[i]], width, i)
  {
    assert CachesAt(L, blocks, offsets, cache, width, i);
    forall k | 0 <= k <= i
      ensures CachesAt(L, blocks, copied, cache[..offsets[i]], width, k)
    {
      assert CachesAt(L, blocks, offsets, cache, width, k);
      assert copied[k] == copied[..i + 1][k];
      PrefixTexts(L, blocks, k, i, width);
    }
  }

  /** Rendering block `i` and recording its offset extends the cache by one. */
  lemma GrowCache(L: Look, blocks: seq<Cell>, offsets: seq<int>, cache: string, width: int, i: int)
    requires 0 <= i < |blocks| && |offsets| == |blocks| + 1
    requires cache == Concat(L, blocks, i, width) && Caches(L, blocks, offsets, cache, width, i - 1)
    ensures cache + CellText(L, blocks[i], width) == Concat(L, blocks, i + 1, width)
    ensures Caches(L, blocks, offsets[i := |cache|], cache + CellText(L, blocks[i], width), width, i)
  {
    var marked, grown := offsets[i := |cache|], cache + CellText(L, blocks[i], width);
    forall k | 0 <= k <= i
      ensures CachesAt(L, blocks, marked, grown, width, k)
    {
      if k < i {
        assert CachesAt(L, blocks, offsets, cache, width, k);
      }
    }
  }

  /** The last offset ends the blocks; the tool group's text follows it. */
  lemma SealCache(L: Look, blocks: seq<Cell>, offsets: seq<int>, cache: string, width: int, extra: string)
    requires |offsets| == |blocks| + 1
    requires cache == Concat(L, blocks, |blocks|, width) && Caches(L, blocks, offsets, cache, width, |blocks| - 1)
    ensures Caches(L, blocks, offsets[|blocks| := |cache|], cache + extra, width, |blocks|)
  {
    var marked, sealed := offsets[|blocks| := |cache|], cache + extra;
    forall k | 0 <= k <= |blocks|
      ensures CachesAt(L, blocks, marked, sealed, width, k)
    {
      if k < |blocks| {
        assert CachesAt(L, blocks, offsets, cache, width, k);
      }
    }
  }

  class Transcript {
    const look: Look
    var blocks: seq<Cell>
    var liveAssistantIdx: int
    var liveDeltaBuf: string
    var streamCollector: Option<Collector>
    var toolGroup: Option<ToolGroup>
    var completedRuns: seq<Run>
    var currentRunStart: int
    var omissionBlockIdx: int
    var omittedRunCount: int
    var renderedCache: string
    var renderOffsets: seq<int>
    var dirtyFrom: int
    var renderWidth: int
    var width: int
    var motionTick: int

    /** The transcript's meaning: its blocks without cached renders, its
        bookkeeping, and nothing of the render cache. */
    ghost var model: State

    ghost predicate Represents()
      reads this
    {
      && Mirrors(blocks, model.blocks)
      && model.live == liveAssistantIdx
      && model.deltaBuf == liveDeltaBuf
      && model.collector == streamCollector
      && model.group == toolGroup
      && model.runs == completedRuns
      && model.runStart == currentRunStart
      && model.omissionIdx == omissionBlockIdx
      && model.omitted == omittedRunCount
      && model.width == width
      && model.tick == motionTick
    }

    /** The cache speaks for the leading blocks that are clean and before `n`. */
    ghost predicate PrefixValidTo(n: int)
      reads this
    {
      && Represents()
      && -1 <= dirtyFrom <= |blocks|
      && Faithful(look, blocks)
      && Caches(look, model.blocks, renderOffsets, renderedCache, renderWidth, ValidLength(dirtyFrom, |blocks|, n))
    }

    ghost predicate PrefixValid()
      reads this
    {
      PrefixValidTo(|blocks|)
    }

    /** A clean cache is the full render at the width it was made for. */
    ghost predicate CacheValid()
      reads this
    {
      PrefixValid() && (dirtyFrom == -1 ==> renderedCache == FullRender(look, model, renderWidth))
    }

    ghost predicate Valid()
      reads this
    {
      CacheValid() && Inv(look, model)
    }

    constructor (look: Look)
      ensures Valid() && this.look == look && model == Initial
    {
      this.look := look;
      blocks, liveAssistantIdx, liveDeltaBuf, streamCollector, toolGroup := [], -1, "", None, None;
      completedRuns, currentRunStart, omissionBlockIdx, omittedRunCount := [], -1, -1, 0;
      renderedCache, renderOffsets, dirtyFrom, renderWidth := "", [], -1, 0;
      width, motionTick := 0, 0;
      model := Initial;
    }

    // ----- Rendering -----

    method Render() returns (text: string)
      requires Valid()
      modifies `blocks, `renderedCache, `renderOffsets, `renderWidth, `dirtyFrom
      ensures Valid()
      ensures text == FullRender(look, model, width)
      ensures dirtyFrom == -1 && renderWidth == width
    {
      if dirtyFrom == -1 {
        if renderWidth == width {
          return renderedCache;
        }
      }
      var startIndex := dirtyFrom;
      var prefix := "";
      var offsets := seq(|blocks| + 1, _ => 0);
      if startIndex > 0 && renderWidth == width && |renderOffsets| > startIndex {
        assert CachesAt(look, model.blocks, renderOffsets, renderedCache, width, startIndex);
        prefix := renderedCache[..renderOffsets[startIndex]];
        offsets := renderOffsets[..startIndex + 1] + offsets[startIndex + 1..];
        CutCache(look, model.blocks, renderOffsets, renderedCache, width, startIndex, offsets);
      } else {
        startIndex := 0;
      }
      var rendered;
      rendered, offsets := RenderBlocks(startIndex, prefix, offsets);
      var activeRendered := RenderToolGroup();
      StoreRender(rendered, activeRendered, offsets);
      DiscardImmutableRenderedBlocks();
      text := renderedCache;
    }

    method StoreRender(rendered: string, activeRendered: string, offsets: seq<int>)
      requires Represents() && Faithful(look, blocks) && |offsets| == |blocks| + 1
      requires rendered == Concat(look, model.blocks, |blocks|, width)
      requires Caches(look, model.blocks, offsets, rendered, width, |blocks| - 1)
      requires activeRendered == GroupText(look, toolGroup, motionTick, width)
      modifies `renderedCache, `renderOffsets, `renderWidth, `dirtyFrom
      ensures CacheValid()
      ensures dirtyFrom == -1 && renderWidth == width && renderedCache == rendered + activeRendered
    {
      hide Concat, CellText, GroupText;
      SealCache(look, model.blocks, offsets, rendered, width, activeRendered);
      renderedCache := rendered + activeRendered;
      renderOffsets := offsets[|blocks| := |rendered|];
      renderWidth := width;
      dirtyFrom := -1;
    }

    method RenderToolGroup() returns (text: string)
      ensures text == GroupText(look, toolGroup, motionTick, width)
    {
      text := "";
      if toolGroup.Some? {
        text := look.toolGroup(toolGroup.value, motionTick).1;
        if width > 0 {
          text := look.wrap(text, width);
        }
      }
    }

    /** The blocks from `startIndex` on, rendered behind the cached prefix. */
    method RenderBlocks(startIndex: int, prefix: string, reused: seq<int>) returns (rendered: string, offsets: seq<int>)
      requires Represents() && Faithful(look, blocks)
      requires 0 <= startIndex <= |blocks| && |reused| == |blocks| + 1
      requires prefix == Concat(look, model.blocks, startIndex, width)
      requires Caches(look, model.blocks, reused, prefix, width, startIndex - 1)
      modifies `blocks
      ensures Represents() && Faithful(look, blocks)
      ensures rendered == Concat(look, model.blocks, |blocks|, width) && |offsets| == |blocks| + 1
      ensures Caches(look, model.blocks, offsets, rendered, width, |blocks| - 1)
    {
      rendered, offsets := prefix, reused;
      var i := startIndex;
      while i < |blocks|
        modifies `blocks
        invariant startIndex <= i <= |blocks| && |offsets| == |blocks| + 1
        invariant Represents() && Faithful(look, blocks)
        invariant rendered == Concat(look, model.blocks, i, width)
        invariant Caches(look, model.blocks, offsets, rendered, width, i - 1)
      {
        var blockRendered := RenderBlock(i);
        GrowCache(look, model.blocks, offsets, rendered, width, i);
        offsets := offsets[i := |rendered|];
        rendered := rendered + blockRendered;
        i := i + 1;
      }
    }

    /** One block at the current width; the block may cache its render. */
    method RenderBlock(i: int) returns (text: string)
      requires Represents() && Faithful(look, blocks) && 0 <= i < |blocks|
      modifies `blocks
      ensures Represents() && Faithful(look, blocks)
      ensures text == CellText(look, model.blocks[i], width)
    {
      var cell := blocks[i];
      var r := Rendered(look, cell);
      RenderedFits(look, cell, width);
      text := r.0;
      blocks := blocks[i := r.1];
      if cell.UserTurn? {
        text := look.userTurn(cell.prompt, width);
      } else if width > 0 {
        text := look.wrap(text, width);
      }
    }

    method DiscardImmutableRenderedBlocks()
      requires CacheValid()
      modifies `blocks
      ensures CacheValid()
      ensures forall i :: 0 <= i < |blocks| && i != liveAssistantIdx && blocks[i].Assistant? ==> blocks[i].cachedRender == ""
    {
      for i := 0 to |blocks|
        modifies `blocks
        invariant |blocks| == old(|blocks|) && Represents() && Faithful(look, blocks)
        invariant forall k :: 0 <= k < i && k != liveAssistantIdx && blocks[k].Assistant? ==> blocks[k].cachedRender == ""
      {
        if i != liveAssistantIdx && blocks[i].Assistant? {
          blocks := blocks[i := Assistant(blocks[i].plain, "")];
        }
      }
    }

    // ----- Block primitives -----

    /** The first dirty block is the earlier one of the two, so a cache that was
        right up to `index` is right up to wherever it is still trusted. */
    method MarkDirty(index: int)
      requires -1 <= dirtyFrom
      modifies `dirtyFrom
      ensures index < 0 ==> dirtyFrom == old(dirtyFrom)
      ensures index >= 0 ==> 0 <= dirtyFrom <= index && (old(dirtyFrom) >= 0 ==> dirtyFrom <= old(dirtyFrom))
      ensures dirtyFrom == index || dirtyFrom == old(dirtyFrom)
      ensures 0 <= index <= |blocks| && old(PrefixValidTo(index)) ==> PrefixValid()
    {
      if index < 0 {
        return;
      }
      if dirtyFrom == -1 || index < dirtyFrom {
        dirtyFrom := index;
      }
    }

    method AppendBlock(block: Cell) returns (index: int)
      requires PrefixValid() && FaithfulCell(look, block)
      modifies `blocks, `dirtyFrom, `model
      ensures model == Append(old(model), StripCell(block)) && index == |old(blocks)|
      ensures PrefixValid() && dirtyFrom >= 0
    {
      blocks := blocks + [block];
      index := |blocks| - 1;
      MarkDirty(index);
      model := Append(model, StripCell(block));
      CacheSurvives(look, old(model.blocks), model.blocks, renderOffsets, renderedCache, renderWidth,
                    if old(dirtyFrom) == -1 then index else old(dirtyFrom), dirtyFrom);
    }

    method ReplaceBlock(index: int, block: Cell)
      requires 0 <= index < |blocks| && PrefixValidTo(index) && FaithfulCell(look, block)
      modifies `blocks, `dirtyFrom, `model
      ensures model == old(model).(blocks := old(model).blocks[index := StripCell(block)])
      ensures PrefixValid() && dirtyFrom >= 0
    {
      blocks := blocks[index := block];
      MarkDirty(index);
      model := model.(blocks := model.blocks[index := StripCell(block)]);
      CacheSurvives(look, old(model.blocks), model.blocks, renderOffsets, renderedCache, renderWidth,
                    ValidLength(old(dirtyFrom), |blocks|, index), dirtyFrom);
    }

    method InsertBlock(position: int, block: Cell)
      requires PrefixValid() && FaithfulCell(look, block) && 0 <= position <= |blocks|
      modifies `blocks, `dirtyFrom, `model
      ensures model == old(model).(blocks := InsertAt(old(model).blocks, position, StripCell(block)))
      ensures PrefixValid() && dirtyFrom >= 0
    {
      var index := position;
      if index < 0 {
        index := 0;
      }
      if index > |blocks| {
        index := |blocks|;
      }
      MirrorsInsert(blocks, model.blocks, index, block);
      assert Faithful(look, InsertAt(blocks, index, block));
      blocks := InsertAt(blocks, index, block);
      MarkDirty(index);
      model := model.(blocks := InsertAt(model.blocks, index, StripCell(block)));
      CacheSurvives(look, old(model.blocks), model.blocks, renderOffsets, renderedCache, renderWidth,
                    if old(dirtyFrom) == -1 then |blocks| - 1 else old(dirtyFrom), dirtyFrom);
    }

    // ----- Closing what is open -----

    method EndToolGroup()
      requires Valid()
      modifies this
      ensures model == Spec.EndToolGroup(look, old(model))
      ensures Valid()
    {
      if toolGroup.None? {
        return;
      }
      var text := look.toolGroup(toolGroup.value, motionTick);
      toolGroup := None;
      model := model.(group := None);
      var _ := AppendBlock(ToolGroupText(text.0, text.1));
    }

    method EndLiveAssistant()
      requires Valid()
      modifies this
      ensures model == Spec.EndLive(look, old(model))
      ensures Valid()
    {
      if liveAssistantIdx >= 0 {
        var markdown := TrimRightNewlines(CellPlain(look, blocks[liveAssistantIdx]));
        FinishedAnswerFaithful(look, markdown);
        ReplaceBlock(liveAssistantIdx, CachedAnswer(look, markdown));
      }
      ForgetLive();
    }

    method ForgetLive()
      requires CacheValid()
      modifies `liveAssistantIdx, `liveDeltaBuf, `streamCollector, `model
      ensures CacheValid()
      ensures model == old(model).(live := -1, deltaBuf := "", collector := ResetCollector(old(model).collector))
    {
      liveAssistantIdx := -1;
      liveDeltaBuf := "";
      streamCollector := ResetCollector(streamCollector);
      model := model.(live := -1, deltaBuf := "", collector := ResetCollector(model.collector));
    }

    method BlockGap() returns (gap: Option<Cell>)
      requires Represents()
      ensures gap == GapCell(look, model)
    {
      hide HasSuffix, CellPlain, StripCell;
      if |blocks| == 0 {
        return None;
      }
      var last := CellPlain(look, blocks[|blocks| - 1]);
      SamePlain(look, blocks[|blocks| - 1]);
      assert last == CellPlain(look, model.blocks[|blocks| - 1]);
      if HasSuffix(last, "\n\n") {
        return None;
      }
      if HasSuffix(last, "\n") {
        return Some(Raw("\n", "\n"));
      }
      return Some(Raw("\n\n", "\n\n"));
    }

    method EnsureBlockGap()
      requires Valid()
      modifies `blocks, `dirtyFrom, `model
      ensures model == EnsureGap(look, old(model))
      ensures Valid()
    {
      var gap := BlockGap();
      if gap.Some? {
        var _ := AppendBlock(gap.value);
      }
    }

    method CloseOpen()
      requires Valid()
      modifies this
      ensures model == Close(look, old(model))
      ensures Valid()
    {
      EndToolGroup();
      EndLiveAssistant();
    }

    // ----- Writers -----

    method WriteStartupBanner(plain: string, rendered: string)
      requires Valid()
      modifies this
      ensures model == WriteBanner(look, old(model), plain, rendered)
      ensures Valid()
    {
      var _ := AppendBlock(Raw(plain, rendered));
    }

    method WriteRenderedNote(title: string, plainLines: seq<string>, renderedLines: seq<string>)
      requires Valid()
      modifies this
      ensures model == Spec.WriteRenderedNote(look, old(model), title, plainLines, renderedLines)
      ensures Valid()
    {
      hide Spec.EnsureGap, Spec.Close;
      CloseOpen();
      EnsureBlockGap();
      var _ := AppendBlock(RawOf(look.note(title, plainLines, renderedLines)));
    }

    method WriteNote(title: string, lines: seq<string>)
      requires Valid()
      modifies this
      ensures model == Spec.WriteNote(look, old(model), title, lines)
      ensures Valid()
    {
      WriteRenderedNote(title, lines, lines);
    }

    method WriteCompactionNote(title: string)
      requires Valid()
      modifies this
      ensures model == Spec.WriteCompactionNote(look, old(model), title)
      ensures Valid()
    {
      CloseOpen();
      EnsureBlockGap();
      WriteNote(title, []);
    }

    method WriteLine(line: string)
      requires Valid()
      modifies this
      ensures model == Spec.WriteLine(look, old(model), line)
      ensures Valid()
    {
      hide Spec.Close;
      CloseOpen();
      var _ := AppendBlock(Raw(line + "\n", line + "\n"));
    }

    method WriteUserTurn(prompt: string)
      requires Valid()
      modifies this
      ensures model == Spec.WriteUserTurn(look, old(model), prompt)
      ensures Valid()
    {
      hide Spec.EnsureGap, Spec.Close, Spec.OpenRun;
      CloseOpen();
      EnsureBlockGap();
      AppendUserTurn(prompt);
    }

    method AppendUserTurn(prompt: string)
      requires Valid() && liveAssistantIdx == -1
      modifies this
      ensures model == OpenRun(look, old(model), prompt)
      ensures Valid()
    {
      var index := AppendBlock(UserTurn(prompt));
      if currentRunStart == -1 {
        currentRunStart := index;
        model := model.(runStart := index);
      }
    }

    method WriteActivityPreview(text: string)
      requires Valid()
      modifies this
      ensures model == WriteActivity(look, old(model), text)
      ensures Valid()
    {
      hide Spec.EnsureGap, Spec.Close;
      var trimmed := look.trimSpace(text);
      if trimmed == "" {
        return;
      }
      CloseOpen();
      EnsureBlockGap();
      var _ := AppendBlock(Raw("* " + trimmed + "\n", look.activity(trimmed)));
    }

    method WriteRunSeparator(line: string)
      requires Valid()
      modifies this
      ensures model == WriteSeparator(look, old(model), line)
      ensures Valid()
    {
      hide Spec.EnsureGap;
      if line == "" {
        return;
      }
      EnsureBlockGap();
      var _ := AppendBlock(Raw(line + "\n\n", look.separator(line)));
    }

    method InsertNoteBeforeCurrentRun(title: string, lines: seq<string>)
      requires Valid()
      modifies this
      ensures model == InsertNote(look, old(model), title, lines)
      ensures Valid()
    {
      hide Spec.WriteNote, Spec.InsertBeforeRun;
      if currentRunStart < 0 {
        WriteNote(title, lines);
        return;
      }
      InsertBeforeCurrentRun(RawOf(look.note(title, lines, lines)));
    }

    method InsertBeforeCurrentRun(block: Cell)
      requires Valid() && currentRunStart >= 0 && block.Raw?
      modifies this
      ensures model == InsertBeforeRun(look, old(model), block)
      ensures Valid()
    {
      var index := currentRunStart;
      InsertBlock(index, block);
      AdjustTrackedIndexesAfterInsertion(index);
    }

    method AdjustTrackedIndexesAfterInsertion(index: int)
      requires PrefixValid() && dirtyFrom >= 0
      modifies `completedRuns, `liveAssistantIdx, `currentRunStart, `model
      ensures model == AdjustInserted(old(model), index)
      ensures PrefixValid()
    {
      for i := 0 to |completedRuns|
        modifies `completedRuns
        invariant |completedRuns| == old(|completedRuns|)
        invariant forall k :: 0 <= k < |completedRuns| ==>
                    completedRuns[k] == if k < i then AdjustInserted(old(model), index).runs[k] else old(completedRuns)[k]
      {
        if completedRuns[i].start >= index {
          completedRuns := completedRuns[i := ShiftRun(completedRuns[i], 1)];
        }
      }
      if liveAssistantIdx >= index {
        liveAssistantIdx := liveAssistantIdx + 1;
      }
      if currentRunStart >= index {
        currentRunStart := currentRunStart + 1;
      }
      model := AdjustInserted(model, index);
      assert completedRuns == model.runs;
    }

    // ----- Streaming -----

    method AppendAssistantDelta(delta: string)
      requires Valid()
      modifies this
      ensures model == AppendDelta(look, old(model), delta)
      ensures Valid()
    {
      hide Spec.EndToolGroup, Spec.StartLive, Spec.GrowLive, Spec.Rebuild;
      EndToolGroup();
      if liveAssistantIdx == -1 {
        StartLiveAssistant(delta);
      } else {
        GrowLiveAssistant(delta);
      }
      RebuildLiveAssistantRendered();
    }

    /** A live cell not yet rendered, at the end of the blocks. */
    method StartLiveAssistant(delta: string)
      requires Valid() && liveAssistantIdx == -1 && toolGroup.None?
      modifies this
      ensures model == StartLive(look, old(model), delta)
      ensures PrefixValid()
    {
      hide Spec.EnsureGap, Spec.OpenLive;
      EnsureBlockGap();
      OpenLiveCell(delta);
    }

    method OpenLiveCell(delta: string)
      requires PrefixValid()
      modifies `blocks, `dirtyFrom, `liveAssistantIdx, `liveDeltaBuf, `streamCollector, `model
      ensures model == OpenLive(old(model), delta)
      ensures PrefixValid() && dirtyFrom >= 0
    {
      var index := AppendBlock(Raw(delta, ""));
      ResetStream();
      liveDeltaBuf := liveDeltaBuf + delta;
      streamCollector := Some(streamCollector.value.(buf := streamCollector.value.buf + delta));
      liveAssistantIdx := index;
      model := model.(live := index, deltaBuf := delta, collector := Some(Collector(delta, 0, "")));
    }

    method ResetStream()
      modifies `liveDeltaBuf, `streamCollector
      ensures liveDeltaBuf == "" && streamCollector == Some(EmptyCollector)
    {
      if streamCollector.None? {
        streamCollector := Some(EmptyCollector);
      }
      liveDeltaBuf := "";
      streamCollector := ResetCollector(streamCollector);
    }

    /** The live cell's plain text grows; its render is rebuilt afterwards. */
    method GrowLiveAssistant(delta: string)
      requires Valid() && liveAssistantIdx >= 0
      modifies this
      ensures liveAssistantIdx == old(liveAssistantIdx) && PrefixValidTo(liveAssistantIdx)
      ensures model == GrowLive(look, old(model), delta)
    {
      assert CanRebuild(model) && model.collector.value.buf == model.deltaBuf;
      hide Spec.Indexed;
      liveDeltaBuf := liveDeltaBuf + delta;
      streamCollector := Some(streamCollector.value.(buf := streamCollector.value.buf + delta));
      blocks := blocks[liveAssistantIdx := Raw(liveDeltaBuf, blocks[liveAssistantIdx].rendered)];
      model := GrowLive(look, model, delta);
      CacheSurvives(look, old(model.blocks), model.blocks, renderOffsets, renderedCache, renderWidth,
                    ValidLength(dirtyFrom, |blocks|, |blocks|), ValidLength(dirtyFrom, |blocks|, liveAssistantIdx));
    }

    method RebuildLiveAssistantRendered()
      requires CanRebuild(model) && PrefixValidTo(model.live)
      modifies `blocks, `streamCollector, `dirtyFrom, `model
      ensures model == Rebuild(look, old(model))
      ensures PrefixValid() && dirtyFrom >= 0
    {
      hide CommitCompleteLines, LiveText;
      var cell := blocks[liveAssistantIdx];
      var committed := CommitCompleteLines(look, streamCollector.value);
      streamCollector := Some(committed);
      model := model.(collector := streamCollector);
      ReplaceBlock(liveAssistantIdx, Raw(cell.plain, LiveText(look, motionTick, committed)));
    }

    method RefreshLiveMarker()
      requires PrefixValid() && Inv(look, model)
      requires toolGroup.None? && liveAssistantIdx < 0 ==> CacheValid()
      modifies this
      ensures model == Refresh(look, old(model))
      ensures Valid()
    {
      if liveAssistantIdx >= 0 {
        RebuildKeepsInv(look, model);
        RebuildLiveAssistantRendered();
      }
      if toolGroup.Some? {
        MarkActiveToolGroupDirty();
      }
    }

    method MarkActiveToolGroupDirty()
      requires PrefixValid()
      modifies `dirtyFrom
      ensures PrefixValid() && dirtyFrom >= 0
    {
      MarkDirty(|blocks|);
    }

    /** The motion tick of the update loop: set the tick, then refresh. */
    method SetMotionTick(tick: int)
      requires Valid()
      modifies this
      ensures model == Tick(look, old(model), tick)
      ensures Valid()
    {
      motionTick := tick;
      model := model.(tick := tick);
      RefreshLiveMarker();
    }

    method SetWindowWidth(w: int)
      requires Valid()
      modifies `width, `model
      ensures model == old(model).(width := w)
      ensures Valid()
    {
      width := w;
      model := model.(width := w);
    }

    // ----- Tools -----

    method StartTool(call: ToolCall)
      requires Valid()
      modifies this
      ensures model == Spec.StartTool(look, old(model), call)
      ensures Valid()
    {
      hide Spec.EndLive, Spec.GroupFor;
      var hadLiveAssistant := liveAssistantIdx >= 0;
      EndLiveAssistant();
      JoinToolGroup(call, hadLiveAssistant);
      if toolGroup.None? {
        toolGroup := Some(ToolGroup(call.phase, []));
      }
      toolGroup := Some(toolGroup.value.(log := toolGroup.value.log + [Started(call)]));
      model := model.(group := toolGroup);
      MarkActiveToolGroupDirty();
    }

    /** Ends a group of another phase and leaves the gap before a new one. */
    method JoinToolGroup(call: ToolCall, hadLiveAssistant: bool)
      requires Valid() && liveAssistantIdx == -1
      modifies this
      ensures model == GroupFor(look, old(model), call, hadLiveAssistant)
      ensures Valid()
    {
      hide Spec.EnsureGap, Spec.EndToolGroup;
      if toolGroup.Some? && toolGroup.value.phase != call.phase {
        EndToolGroup();
        EnsureBlockGap();
      }
      if toolGroup.None? {
        if !hadLiveAssistant {
          EnsureBlockGap();
        }
      }
    }

    method StepTool(step: ToolStep)
      requires Valid()
      modifies this
      ensures model == Spec.StepTool(old(model), step)
      ensures Valid()
    {
      StepToolKeepsInv(look, model, step);
      if toolGroup.None? {
        return;
      }
      if !toolGroup.value.Knows(step.call.id) {
        return;
      }
      toolGroup := Some(toolGroup.value.(log := toolGroup.value.log + [step]));
      model := model.(group := toolGroup);
      MarkActiveToolGroupDirty();
    }

    // ----- Finishing an answer and closing a run -----

    method FinishAssistant(markdown: string)
      requires Valid()
      modifies this
      ensures model == Spec.FinishAssistant(look, old(model), markdown)
      ensures Valid()
    {
      hide Spec.EndToolGroup, Spec.PlaceAnswer;
      EndToolGroup();
      PlaceAnswer(markdown);
    }

    /** The finished answer takes the live cell's place, or a new one. */
    method PlaceAnswer(markdown: string)
      requires Valid() && toolGroup.None?
      modifies this
      ensures model == Spec.PlaceAnswer(look, old(model), markdown)
      ensures Valid()
    {
      FinishedAnswerFaithful(look, markdown);
      var liveIdx := liveAssistantIdx;
      if liveIdx != -1 {
        ReplaceBlock(liveIdx, CachedAnswer(look, markdown));
      } else {
        var _ := AppendBlock(CachedAnswer(look, markdown));
      }
      DropLive();
    }

    method DropLive()
      requires CacheValid()
      modifies `liveAssistantIdx, `streamCollector, `model
      ensures model == old(model).(live := -1, collector := ResetCollector(old(model).collector))
      ensures CacheValid()
    {
      if streamCollector.Some? {
        streamCollector := Some(EmptyCollector);
      }
      liveAssistantIdx := -1;
      model := model.(live := -1, collector := streamCollector);
    }

    method FinalizeCurrentRun()
      requires Valid() && liveAssistantIdx == -1
      modifies this
      ensures model == Finalize(look, old(model))
      ensures Valid()
    {
      hide Spec.Trim, Spec.CloseRun;
      if currentRunStart < 0 {
        return;
      }
      var end := |blocks|;
      if end <= currentRunStart {
        // Never reached: an open run holds at least its own user turn.
        assert false;
      }
      CloseRunKeepsIndexes(look, model);
      RecordRun(end);
      TrimKeepsIndexes(look, model);
      TrimCompletedRuns();
    }

    method RecordRun(end: int)
      requires CacheValid() && end == |blocks|
      modifies `completedRuns, `currentRunStart, `model
      ensures model == CloseRun(old(model))
      ensures CacheValid()
    {
      completedRuns := completedRuns + [Run(currentRunStart, end)];
      currentRunStart := -1;
      model := CloseRun(model);
    }

    method TrimCompletedRuns()
      requires CacheValid() && Indexed(look, model) && |model.runs| <= MaxCompletedRuns + 1
      requires model.live == -1 && model.runStart == -1
      modifies this
      ensures model == Trim(look, old(model))
      ensures CacheValid()
    {
      hide Spec.RemoveRuns, Spec.MarkOmission, Spec.LiveOk, Spec.OmissionOk, Spec.OpenRunOk, Spec.Stripped, FullRender;
      var excess := |completedRuns| - MaxCompletedRuns;
      if excess <= 0 {
        return;
      }
      var dropStart := completedRuns[0].start;
      var dropEnd := completedRuns[excess - 1].end;
      if dropStart < 0 || dropEnd > |blocks| || dropStart >= dropEnd {
        return;
      }
      TrimOfEleven(look, model);
      CutRuns(excess, dropStart, dropEnd);
      WriteOmissionMarker(dropStart, excess);
    }

    /** The blocks and runs taken out and the tracked indexes moved down. */
    method CutRuns(excess: nat, dropStart: int, dropEnd: int)
      requires PrefixValid() && 0 < excess <= |completedRuns| && 0 <= dropStart < dropEnd <= |blocks|
      modifies this
      ensures model == RemoveRuns(old(model), excess, dropStart, dropEnd)
      ensures PrefixValid() && dirtyFrom >= 0
    {
      var removed := dropEnd - dropStart;
      RemoveBlocks(dropStart, dropEnd);
      completedRuns := RetainedRuns(excess, removed);
      model := model.(runs := completedRuns);
      AdjustTrackedIndexesAfterRemoval(dropStart, removed);
      assert model.runs == RemoveRuns(old(model), excess, dropStart, dropEnd).runs;
    }

    method RemoveBlocks(dropStart: int, dropEnd: int)
      requires PrefixValid() && 0 <= dropStart <= dropEnd <= |blocks|
      modifies `blocks, `renderedCache, `renderOffsets, `dirtyFrom, `model
      ensures model == old(model).(blocks := old(model).blocks[..dropStart] + old(model).blocks[dropEnd..])
      ensures PrefixValid() && dirtyFrom >= 0
    {
      blocks := blocks[..dropStart] + blocks[dropEnd..];
      InvalidateRenderCache(dropStart);
      model := model.(blocks := model.blocks[..dropStart] + model.blocks[dropEnd..]);
    }

    method RetainedRuns(excess: nat, removed: int) returns (retained: seq<Run>)
      requires excess <= |completedRuns|
      ensures |retained| == |completedRuns| - excess
      ensures forall k :: 0 <= k < |retained| ==> retained[k] == ShiftRun(completedRuns[k + excess], -removed)
    {
      retained := completedRuns[excess..];
      for i := 0 to |retained|
        invariant |retained| == |completedRuns| - excess
        invariant forall k :: 0 <= k < |retained| ==>
                    retained[k] == if k < i then ShiftRun(completedRuns[k + excess], -removed) else completedRuns[k + excess]
      {
        retained := retained[i := ShiftRun(retained[i], -removed)];
      }
    }

    /** No offset is left to be trusted, so the cache is right whatever has
        become of the blocks, and the next render starts from scratch. */
    method InvalidateRenderCache(index: int)
      requires -1 <= dirtyFrom
      modifies `renderedCache, `renderOffsets, `dirtyFrom
      ensures renderOffsets == []
      ensures index >= 0 ==> 0 <= dirtyFrom <= index
      ensures dirtyFrom == index || dirtyFrom == old(dirtyFrom)
      ensures Represents() && Faithful(look, blocks) && 0 <= index <= |blocks| ==> PrefixValid()
    {
      renderedCache := "";
      renderOffsets := [];
      MarkDirty(index);
    }

    method AdjustTrackedIndexesAfterRemoval(start: int, removed: int)
      requires PrefixValid() && dirtyFrom >= 0
      modifies `liveAssistantIdx, `currentRunStart, `omissionBlockIdx, `model
      ensures model == AdjustRemoved(old(model), start, removed)
      ensures PrefixValid()
    {
      if removed <= 0 {
        return;
      }
      if liveAssistantIdx >= start {
        liveAssistantIdx := liveAssistantIdx - removed;
      }
      if currentRunStart >= start {
        currentRunStart := currentRunStart - removed;
      }
      if omissionBlockIdx >= start {
        omissionBlockIdx := omissionBlockIdx - removed;
      }
      model := AdjustRemoved(model, start, removed);
    }

    method InsertOmissionMarker(dropStart: int)
      requires PrefixValid() && omittedRunCount >= 0 && 0 <= dropStart <= |blocks|
      modifies `blocks, `dirtyFrom, `completedRuns, `liveAssistantIdx, `currentRunStart, `omissionBlockIdx, `model
      ensures var inserted := InsertAt(old(model).blocks, dropStart, RawOf(look.omission(old(model).omitted)));
              model == AdjustInserted(old(model).(blocks := inserted), dropStart).(omissionIdx := dropStart)
      ensures PrefixValid() && dirtyFrom >= 0
    {
      hide Spec.AdjustInserted;
      InsertBlock(dropStart, RawOf(look.omission(omittedRunCount)));
      AdjustTrackedIndexesAfterInsertion(dropStart);
      omissionBlockIdx := dropStart;
      model := model.(omissionIdx := dropStart);
    }

    method WriteOmissionMarker(dropStart: int, excess: nat)
      requires PrefixValid() && dirtyFrom >= 0 && omittedRunCount >= 0
      requires 0 <= dropStart <= |blocks| && -1 <= omissionBlockIdx < |blocks|
      modifies this
      ensures model == MarkOmission(look, old(model), dropStart, old(model).omitted + excess)
      ensures PrefixValid() && dirtyFrom >= 0
    {
      omittedRunCount := omittedRunCount + excess;
      model := model.(omitted := omittedRunCount);
      if omissionBlockIdx == -1 {
        InsertOmissionMarker(dropStart);
        return;
      }
      ReplaceBlock(omissionBlockIdx, RawOf(look.omission(omittedRunCount)));
    }

    method WriteError(message: string)
      requires Valid()
      modifies this
      ensures model == Spec.WriteError(look, old(model), message)
      ensures Valid()
    {
      hide Spec.Close, Spec.Finalize;
      CloseOpen();
      var _ := AppendBlock(RawOf(look.error("Error", message)));
      FinalizeCurrentRun();
    }

    method CompleteAssistant(markdown: string)
      requires Valid()
      modifies this
      ensures model == Spec.CompleteAssistant(look, old(model), markdown)
      ensures Valid()
    {
      hide Spec.FinishAssistant, Spec.Finalize;
      FinishAssistant(markdown);
      FinalizeCurrentRun();
    }

    method CompleteRunSucceeded(outputText: string, separator: string)
      requires Valid()
      modifies this
      ensures model == CompleteRun(look, old(model), outputText, separator)
      ensures Valid()
    {
      hide Spec.FinishAssistant, Spec.WriteSeparator, Spec.Finalize;
      FinishAssistant(outputText);
      WriteRunSeparator(separator);
      FinalizeCurrentRun();
    }

    method FailCurrentRun(errorType: string, message: string)
      requires Valid()
      modifies this
      ensures model == FailRun(look, old(model), errorType, message)
      ensures Valid()
    {
      hide Spec.EndLive, Spec.EndToolGroup, Spec.FailNote, Spec.Finalize;
      EndLiveAssistant();
      EndToolGroup();
      NoteFailure(errorType, message);
      FinalizeCurrentRun();
    }

    method NoteFailure(errorType: string, message: string)
      requires Valid() && liveAssistantIdx == -1
      modifies this
      ensures model == FailNote(look, old(model), errorType, message)
      ensures Valid()
    {
      if errorType != "CancelledError" {
        var _ := AppendBlock(RawOf(look.error("Run failed", message)));
      }
    }

    // ----- Dispatch -----

    method NoteCompaction(event: RunEvent)
      requires Valid()
      modifies this
      ensures model == ApplyCompaction(look, old(model), event)
      ensures Valid()
    {
      hide Spec.WriteCompactionNote, Spec.WriteLine;
      match event
      case CompactionCompleted => WriteCompactionNote("compacted");
      case InRunCompactionCompleted => WriteCompactionNote("compacted (in-run)");
      case CompactionWarning(message) =>
        WriteCompactionNote("warning");
        WriteLine(message);
      case _ =>
    }

    method ApplyToolCallEvent(event: RunEvent)
      requires Valid()
      modifies this
      ensures model == ApplyToolEvent(look, old(model), event)
      ensures Valid()
    {
      hide Spec.StartTool, Spec.StepTool;
      match event
      case ToolCallStarted(call) => StartTool(call);
      case ToolCallUpdated(call) => StepTool(Updated(call));
      case ToolCallSucceeded(call) => StepTool(Succeeded(call));
      case ToolCallFailed(call) => StepTool(Failed(call));
      case _ =>
    }

    method ApplyRunEvent(event: RunEvent)
      requires Valid()
      modifies this
      ensures model == ApplyEvent(look, old(model), event)
      ensures Valid()
    {
      hide Spec.ApplyCompaction, Spec.WriteUserTurn, Spec.AppendDelta, Spec.FailRun, Spec.CompleteRun, Spec.ApplyToolEvent;
      match event
      case CompactionCompleted => NoteCompaction(event);
      case InRunCompactionCompleted => NoteCompaction(event);
      case CompactionWarning(_) => NoteCompaction(event);
      case PromptBatchSubmitted(prompts) => WriteUserTurn(look.joinPrompts(prompts));
      case TextDelta(delta) => AppendAssistantDelta(delta);
      case RunFailed(errorType, message) => FailCurrentRun(errorType, message);
      case RunSucceeded(outputText, separator) => CompleteRunSucceeded(outputText, separator);
      case _ => ApplyToolCallEvent(event);
    }

    method ApplyPreviewEntry(entry: PreviewEntry)
      requires Valid()
      modifies this
      ensures model == ApplyEntry(look, old(model), entry)
      ensures Valid()
    {
      hide Spec.InsertNote, Spec.WriteUserTurn, Spec.WriteActivity, Spec.CompleteAssistant, Spec.WriteError;
      match entry
      case Instructions(text) => InsertNoteBeforeCurrentRun("instructions", [text]);
      case User(text) => WriteUserTurn(text);
      case Activity(text) => WriteActivityPreview(text);
      case Answer(text) => CompleteAssistant(text);
      case Failure(text) => WriteError(text);
      case Unknown =>
    }

    method ApplySessionPreview(preview: Preview)
      requires Valid()
      modifies this
      ensures model == ApplyPreview(look, old(model), preview)
      ensures Valid()
    {
      hide Spec.WriteNote, Spec.ApplyEntry, Spec.ApplyEntries, Inv, CacheValid;
      if |preview.entries| == 0 {
        return;
      }
      if preview.truncated {
        WriteNote("history", ["older history omitted"]);
      }
      ghost var start := model;
      NoEntries(start);
      for i := 0 to |preview.entries|
        invariant Valid() && Inv(look, start) && model == ApplyEntries(look, start, preview.entries[..i])
      {
        NextEntry(start, preview.entries, i);
        ApplyPreviewEntry(preview.entries[i]);
      }
      assert preview.entries[..|preview.entries|] == preview.entries;
    }

    lemma NoEntries(s: State)
      requires Inv(look, s)
      ensures ApplyEntries(look, s, []) == s
    {
    }

    lemma NextEntry(s: State, entries: seq<PreviewEntry>, i: nat)
      requires Inv(look, s) && i < |entries|
      ensures ApplyEntries(look, s, entries[..i + 1]) == ApplyEntry(look, ApplyEntries(look, s, entries[..i]), entries[i])
    {
      hide Spec.ApplyEntry, Inv;
      assert entries[..i + 1][..i] == entries[..i];
    }

    /** One step of the update loop; only `Paint` produces a frame. */
    method Perform(op: Op) returns (frame: Option<string>)
      requires Valid()
      modifies this
      ensures model == Step(look, old(model), op)
      ensures Valid()
      ensures frame == if op.Paint? then Some(FullRender(look, old(model), old(model).width)) else None
    {
      hide Spec.WriteBanner, Spec.WriteNote, Spec.WriteRenderedNote, Spec.InsertNote, Spec.WriteUserTurn, Spec.WriteLine,
           Spec.WriteError, Spec.ApplyEvent, Spec.ApplyPreview, Spec.AppendDelta, Spec.Tick, Inv, FullRender, Caches,
           Faithful, Mirrors;
      frame := None;
      match op
      case Banner(plain, rendered) => WriteStartupBanner(plain, rendered);
      case Note(title, lines) => WriteNote(title, lines);
      case RenderedNote(title, lines, rendered) => WriteRenderedNote(title, lines, rendered);
      case NoteBeforeRun(title, lines) => InsertNoteBeforeCurrentRun(title, lines);
      case UserPrompt(prompt) => WriteUserTurn(prompt);
      case Line(line) => WriteLine(line);
      case ErrorMessage(message) => WriteError(message);
      case Event(e) => ApplyRunEvent(e);
      case ShowPreview(p) => ApplySessionPreview(p);
      case Delta(delta) => AppendAssistantDelta(delta);
      case SetWidth(w) => SetWindowWidth(w);
      case SetTick(tick) => SetMotionTick(tick);
      case Paint =>
        var text := Render();
        frame := Some(text);
    }
  }

  /** After any sequence of operations, width changes and repaints, the cached
      transcript has shown exactly what rendering from scratch would show. */
  method Replay(look: Look, ops: seq<Op>) returns (frames: seq<string>)
    ensures frames == Frames(look, ops)
  {
    hide Spec.Step;
    var t := new Transcript(look);
    frames := [];
    for i := 0 to |ops|
      invariant t.look == look && t.Valid() && fresh(t)
      invariant t.model == RunOps(look, ops[..i]) && frames == Frames(look, ops[..i])
    {
      assert ops[..i + 1][..i] == ops[..i];
      var frame := t.Perform(ops[i]);
      if frame.Some? {
        frames := frames + [frame.value];
      }
    }
    assert ops[..|ops|] == ops;
  }

  /** A just finished answer, with its render already cached. */
  function CachedAnswer(L: Look, markdown: string): Cell {
    Assistant(markdown + "\n", L.markdown(markdown) + "\n")
  }

  lemma FinishedAnswerFaithful(L: Look, markdown: string)
    ensures FaithfulCell(L, CachedAnswer(L, markdown))
    ensures StripCell(CachedAnswer(L, markdown)) == FinishedAnswer(markdown)
  {
  }
}
