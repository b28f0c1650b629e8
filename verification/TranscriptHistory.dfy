/**
 * What a transcript comes to show over whole runs: the conversation of user
 * turns and finished answers, the block each writer leaves, and what becomes of
 * tool groups and failures.
 */
module TranscriptHistory {
  import opened Common
  import opened TranscriptSpec

  // ----- The conversation -----

  datatype Turn = Asked(prompt: string) | Answered(text: string)

  function TurnOf(c: Cell): seq<Turn> {
    match c
    case UserTurn(prompt) => [Asked(prompt)]
    case Assistant(plain, _) => [Answered(TrimNewlineSuffix(plain))]
    case _ => []
  }

  /** The user turns and finished answers among the blocks, in order. */
  function Turns(blocks: seq<Cell>): seq<Turn> {
    if blocks == [] then [] else Turns(blocks[..|blocks| - 1]) + TurnOf(blocks[|blocks| - 1])
  }

  lemma TurnsSnoc(blocks: seq<Cell>, c: Cell)
    ensures Turns(blocks + [c]) == Turns(blocks) + TurnOf(c)
  {
    assert (blocks + [c])[..|blocks|] == blocks;
  }

  lemma NoTurns()
    ensures Turns([]) == []
  {
  }

  lemma {:induction false} TurnsAppend(a: seq<Cell>, b: seq<Cell>)
    ensures Turns(a + b) == Turns(a) + Turns(b)
    decreases |b|
  {
    hide Turns;
    if b == [] {
      NoTurns();
      assert a + b == a;
    } else {
      var front, c := b[..|b| - 1], b[|b| - 1];
      assert b == front + [c];
      ConcatAssociative(a, front, [c]);
      TurnsAppend(a, front);
      TurnsSnoc(a + front, c);
      TurnsSnoc(front, c);
      ConcatAssociative(Turns(a), Turns(front), TurnOf(c));
    }
  }

  /** One block replaced by another. */
  lemma TurnsReplaced(blocks: seq<Cell>, i: nat, c: Cell)
    requires i < |blocks|
    ensures Turns(blocks) == Turns(blocks[..i]) + TurnOf(blocks[i]) + Turns(blocks[i + 1..])
    ensures Turns(blocks[i := c]) == Turns(blocks[..i]) + TurnOf(c) + Turns(blocks[i + 1..])
  {
    hide Turns;
    assert blocks == blocks[..i] + [blocks[i]] + blocks[i + 1..];
    TurnsAppend(blocks[..i] + [blocks[i]], blocks[i + 1..]);
    TurnsSnoc(blocks[..i], blocks[i]);
    assert blocks[i := c] == blocks[..i] + [c] + blocks[i + 1..];
    TurnsAppend(blocks[..i] + [c], blocks[i + 1..]);
    TurnsSnoc(blocks[..i], c);
  }

  /** A raw block in place of another, or put in between, adds no turn. */
  lemma RawReplaced(blocks: seq<Cell>, i: nat, c: Cell)
    requires i < |blocks| && blocks[i].Raw? && c.Raw?
    ensures Turns(blocks[i := c]) == Turns(blocks)
  {
    hide Turns;
    TurnsReplaced(blocks, i, c);
  }

  lemma RawInserted(blocks: seq<Cell>, i: nat, c: Cell)
    requires i <= |blocks| && c.Raw?
    ensures Turns(InsertAt(blocks, i, c)) == Turns(blocks)
  {
    hide Turns;
    assert blocks == blocks[..i] + blocks[i..];
    TurnsAppend(blocks[..i], blocks[i..]);
    TurnsSnoc(blocks[..i], c);
    TurnsAppend(blocks[..i] + [c], blocks[i..]);
  }

  /** The last block replaced. */
  lemma LastReplaced(blocks: seq<Cell>, c: Cell)
    requires blocks != [] && blocks[|blocks| - 1].Raw?
    ensures Turns(blocks[|blocks| - 1 := c]) == Turns(blocks) + TurnOf(c)
  {
    hide Turns;
    TurnsReplaced(blocks, |blocks| - 1, c);
    NoTurns();
    assert blocks[|blocks|..] == [];
    assert Turns(blocks[..|blocks| - 1]) + [] + [] == Turns(blocks[..|blocks| - 1]);
    assert Turns(blocks[..|blocks| - 1]) + TurnOf(c) + [] == Turns(blocks[..|blocks| - 1]) + TurnOf(c);
  }

  // ----- What each operation adds -----

  /** The answer a writer cuts short: what was streamed so far. */
  function CutShort(s: State): seq<Turn> {
    if s.live >= 0 then [Answered(TrimRightNewlines(s.deltaBuf))] else []
  }

  lemma FinishedTurn(markdown: string)
    ensures TurnOf(FinishedAnswer(markdown)) == [Answered(markdown)]
  {
    assert (markdown + "\n")[..|markdown|] == markdown;
    assert (markdown + "\n")[|markdown|..] == "\n";
  }

  lemma AddedTurns(L: Look, s: State, c: Cell)
    requires Inv(L, s) && (c.Assistant? ==> c.cachedRender == "")
    ensures Turns(Add(L, s, c).blocks) == Turns(s.blocks) + TurnOf(c)
  {
    hide Turns, Inv;
    TurnsSnoc(s.blocks, c);
  }

  lemma GroupTurns(L: Look, s: State)
    requires Inv(L, s)
    ensures Turns(EndToolGroup(L, s).blocks) == Turns(s.blocks)
    ensures EndToolGroup(L, s).live == s.live && EndToolGroup(L, s).deltaBuf == s.deltaBuf
    ensures LiveLast(s) ==> LiveLast(EndToolGroup(L, s))
  {
    hide Turns, Stripped, RunsOk, OpenRunOk, OmissionOk;
    var r := EndToolGroup(L, s);
    if s.group.Some? {
      TurnsSnoc(s.blocks, r.blocks[|s.blocks|]);
      assert r.blocks == s.blocks + [r.blocks[|s.blocks|]];
    }
  }

  lemma EndLiveTurns(L: Look, s: State)
    requires Inv(L, s) && LiveLast(s)
    ensures Turns(EndLive(L, s).blocks) == Turns(s.blocks) + CutShort(s)
  {
    hide Turns, Stripped, RunsOk, OpenRunOk, OmissionOk, FinishedAnswer, TrimRightNewlines;
    if s.live >= 0 {
      LastReplaced(s.blocks, FinishedAnswer(TrimRightNewlines(s.deltaBuf)));
      FinishedTurn(TrimRightNewlines(s.deltaBuf));
    }
  }

  lemma GapTurns(L: Look, s: State)
    requires Inv(L, s)
    ensures Turns(EnsureGap(L, s).blocks) == Turns(s.blocks)
  {
    hide Turns, Inv;
    var gap := GapCell(L, s);
    if gap.Some? {
      AddedTurns(L, s, gap.value);
    }
  }

  lemma CloseTurns(L: Look, s: State)
    requires Inv(L, s) && LiveLast(s)
    ensures Turns(Close(L, s).blocks) == Turns(s.blocks) + CutShort(s)
  {
    hide Turns, Inv, EndToolGroup, EndLive, TrimRightNewlines;
    GroupTurns(L, s);
    EndLiveTurns(L, EndToolGroup(L, s));
  }

  lemma GapCloseTurns(L: Look, s: State)
    requires Inv(L, s) && LiveLast(s)
    ensures Turns(EnsureGap(L, Close(L, s)).blocks) == Turns(s.blocks) + CutShort(s)
  {
    hide Turns, Inv, EnsureGap, Close, CutShort;
    CloseTurns(L, s);
    GapTurns(L, Close(L, s));
  }

  lemma NoteTurns(L: Look, s: State, title: string, lines: seq<string>, rendered: seq<string>)
    requires Inv(L, s) && LiveLast(s)
    ensures Turns(WriteRenderedNote(L, s, title, lines, rendered).blocks) == Turns(s.blocks) + CutShort(s)
  {
    hide Turns, Inv, EnsureGap, Close, CutShort, Add;
    GapCloseTurns(L, s);
    AddedTurns(L, EnsureGap(L, Close(L, s)), RawOf(L.note(title, lines, rendered)));
  }

  lemma CompactionTurns(L: Look, s: State, title: string)
    requires Inv(L, s) && LiveLast(s)
    ensures Turns(WriteCompactionNote(L, s, title).blocks) == Turns(s.blocks) + CutShort(s)
  {
    hide Turns, Inv, EnsureGap, Close, WriteRenderedNote;
    var t := EnsureGap(L, Close(L, s));
    GapCloseTurns(L, s);
    NoteTurns(L, t, title, [], []);
    assert CutShort(t) == [];
    assert Turns(t.blocks) + [] == Turns(t.blocks);
  }

  lemma LineTurns(L: Look, s: State, line: string)
    requires Inv(L, s) && LiveLast(s)
    ensures Turns(WriteLine(L, s, line).blocks) == Turns(s.blocks) + CutShort(s)
  {
    hide Turns, Inv, Close, CutShort, Add;
    CloseTurns(L, s);
    AddedTurns(L, Close(L, s), Raw(line + "\n", line + "\n"));
  }

  lemma UserTurns(L: Look, s: State, prompt: string)
    requires Inv(L, s) && LiveLast(s)
    ensures Turns(WriteUserTurn(L, s, prompt).blocks) == Turns(s.blocks) + CutShort(s) + [Asked(prompt)]
  {
    hide Turns, Inv, EnsureGap, Close, CutShort;
    GapCloseTurns(L, s);
    TurnsSnoc(EnsureGap(L, Close(L, s)).blocks, UserTurn(prompt));
  }

  lemma ActivityTurns(L: Look, s: State, text: string)
    requires Inv(L, s) && LiveLast(s)
    ensures Turns(WriteActivity(L, s, text).blocks)
         == Turns(s.blocks) + if L.trimSpace(text) == "" then [] else CutShort(s)
  {
    hide Turns, Inv, EnsureGap, Close, CutShort, Add;
    var trimmed := L.trimSpace(text);
    if trimmed != "" {
      GapCloseTurns(L, s);
      AddedTurns(L, EnsureGap(L, Close(L, s)), Raw("* " + trimmed + "\n", L.activity(trimmed)));
    }
  }

  lemma PlaceTurns(L: Look, s: State, markdown: string)
    requires Inv(L, s) && s.group.None? && LiveLast(s)
    ensures Turns(PlaceAnswer(L, s, markdown).blocks) == Turns(s.blocks) + [Answered(markdown)]
  {
    hide Turns, Stripped, RunsOk, OpenRunOk, OmissionOk, FinishedAnswer;
    FinishedTurn(markdown);
    if s.live != -1 {
      LastReplaced(s.blocks, FinishedAnswer(markdown));
    } else {
      TurnsSnoc(s.blocks, FinishedAnswer(markdown));
    }
  }

  lemma FinishTurns(L: Look, s: State, markdown: string)
    requires Inv(L, s) && LiveLast(s)
    ensures Turns(FinishAssistant(L, s, markdown).blocks) == Turns(s.blocks) + [Answered(markdown)]
  {
    hide Turns, Inv, EndToolGroup, PlaceAnswer;
    GroupTurns(L, s);
    PlaceTurns(L, EndToolGroup(L, s), markdown);
  }

  lemma SeparatorTurns(L: Look, s: State, line: string)
    requires Inv(L, s)
    ensures Turns(WriteSeparator(L, s, line).blocks) == Turns(s.blocks)
  {
    hide Turns, Inv, EnsureGap, Add;
    if line != "" {
      GapTurns(L, s);
      AddedTurns(L, EnsureGap(L, s), Raw(line + "\n\n", L.separator(line)));
    }
  }

  lemma InsertTurns(L: Look, s: State, title: string, lines: seq<string>)
    requires Inv(L, s) && LiveLast(s)
    ensures Turns(InsertNote(L, s, title, lines).blocks) == Turns(s.blocks) + if s.runStart < 0 then CutShort(s) else []
  {
    hide Turns, RunsOk, LiveOk, OmissionOk, Stripped, WriteRenderedNote, CutShort;
    if s.runStart < 0 {
      NoteTurns(L, s, title, lines, lines);
    } else {
      RawInserted(s.blocks, s.runStart, RawOf(L.note(title, lines, lines)));
    }
  }

  /** Restyling the live cell changes no turn. */
  lemma RebuildTurns(L: Look, s: State)
    requires CanRebuild(s)
    ensures Turns(Rebuild(L, s).blocks) == Turns(s.blocks)
  {
    hide Turns, CommitCompleteLines, LiveText;
    RawReplaced(s.blocks, s.live, Rebuild(L, s).blocks[s.live]);
  }

  lemma DeltaTurns(L: Look, s: State, delta: string)
    requires Inv(L, s)
    ensures Turns(AppendDelta(L, s, delta).blocks) == Turns(s.blocks)
  {
    hide Turns, Inv, EndToolGroup, Rebuild, ExtendLive;
    GroupTurns(L, s);
    var t := EndToolGroup(L, s);
    ExtendTurns(L, t, delta);
    RebuildTurns(L, ExtendLive(L, t, delta));
  }

  lemma ExtendTurns(L: Look, s: State, delta: string)
    requires Inv(L, s) && s.group.None?
    ensures Turns(ExtendLive(L, s, delta).blocks) == Turns(s.blocks)
  {
    hide Turns, EnsureGap, RunsOk, OpenRunOk, OmissionOk, Stripped;
    if s.live == -1 {
      GapTurns(L, s);
      TurnsSnoc(EnsureGap(L, s).blocks, Raw(delta, ""));
    } else {
      RawReplaced(s.blocks, s.live, Raw(s.deltaBuf + delta, s.blocks[s.live].rendered));
    }
  }

  lemma TickTurns(L: Look, s: State, tick: int)
    requires Inv(L, s)
    ensures Turns(Tick(L, s, tick).blocks) == Turns(s.blocks)
  {
    hide Turns, Rebuild, RunsOk, OpenRunOk, OmissionOk, Stripped;
    if s.live >= 0 {
      RebuildTurns(L, s.(tick := tick));
    }
  }

  lemma JoinTurns(L: Look, s: State, call: ToolCall, hadLive: bool)
    requires Inv(L, s) && s.live == -1
    ensures Turns(GroupFor(L, s, call, hadLive).blocks) == Turns(s.blocks)
  {
    hide Turns, Inv, EnsureGap, EndToolGroup;
    if s.group.Some? && s.group.value.phase != call.phase {
      GroupTurns(L, s);
      GapTurns(L, EndToolGroup(L, s));
      GapTurns(L, EnsureGap(L, EndToolGroup(L, s)));
    } else {
      GapTurns(L, s);
    }
  }

  lemma ToolTurns(L: Look, s: State, call: ToolCall)
    requires Inv(L, s) && LiveLast(s)
    ensures Turns(StartTool(L, s, call).blocks) == Turns(s.blocks) + CutShort(s)
  {
    hide Turns, Inv, EndLive, GroupFor, CutShort;
    EndLiveTurns(L, s);
    JoinTurns(L, EndLive(L, s), call, s.live >= 0);
  }

  // ----- Trimming -----

  /** Closing the open run would trim the oldest one. */
  predicate FullHistory(s: State) {
    s.runStart >= 0 && |s.runs| == MaxCompletedRuns
  }

  /** The turns that closing the open run takes away. */
  function TrimmedTurns(L: Look, s: State): seq<Turn>
    requires Inv(L, s)
  {
    if FullHistory(s) then Turns(RunBlocks(s, 0)) else []
  }

  ghost predicate CutOut(all: seq<Turn>, front: seq<Turn>, cut: seq<Turn>, back: seq<Turn>, rest: seq<Turn>) {
    all == front + cut + back && rest == front + back
  }

  /** One stretch left out, and nothing else. */
  ghost predicate Without(all: seq<Turn>, cut: seq<Turn>, rest: seq<Turn>) {
    exists front, back :: CutOut(all, front, cut, back, rest)
  }

  lemma NothingCut(all: seq<Turn>)
    ensures Without(all, [], all)
  {
    assert all == all + [] + [] && all == all + [];
    assert CutOut(all, all, [], [], all);
  }

  lemma MarkTurns(L: Look, s: State, start: int, omitted: nat)
    requires 0 <= start <= |s.blocks| && -1 <= s.omissionIdx < |s.blocks|
    requires s.omissionIdx >= 0 ==> s.blocks[s.omissionIdx].Raw?
    ensures Turns(MarkOmission(L, s, start, omitted).blocks) == Turns(s.blocks)
  {
    hide Turns;
    if s.omissionIdx == -1 {
      RawInserted(s.blocks, start, RawOf(L.omission(omitted)));
    } else {
      RawReplaced(s.blocks, s.omissionIdx, RawOf(L.omission(omitted)));
    }
  }

  lemma FinalizeTurns(L: Look, s: State)
    requires Inv(L, s) && s.live == -1
    ensures Without(Turns(s.blocks), TrimmedTurns(L, s), Turns(Finalize(L, s).blocks))
    ensures Finalize(L, s).omitted == s.omitted + if FullHistory(s) then 1 else 0
  {
    hide Turns, Finalize, Trim, LiveOk, OpenRunOk, Stripped;
    if FullHistory(s) {
      FullFinalizeTurns(L, s);
    } else {
      ShortHistoryFinal(L, s);
      NothingCut(Turns(s.blocks));
    }
  }

  lemma ShortHistoryFinal(L: Look, s: State)
    requires Inv(L, s) && s.live == -1 && !FullHistory(s)
    ensures Finalize(L, s).blocks == s.blocks && Finalize(L, s).omitted == s.omitted
  {
    hide Trim, MarkOmission, RemoveRuns;
    if |s.runs| < MaxCompletedRuns {
      ShortHistoryKeepsBlocks(L, s);
    }
  }

  lemma FullFinalizeTurns(L: Look, s: State)
    requires Inv(L, s) && s.live == -1 && FullHistory(s)
    ensures Without(Turns(s.blocks), Turns(RunBlocks(s, 0)), Turns(Finalize(L, s).blocks))
    ensures Finalize(L, s).omitted == s.omitted + 1
  {
    hide Turns, Trim, MarkOmission, LiveOk, OpenRunOk, Stripped, Without, WithoutMarker;
    OverflowTrims(L, s);
    TrimRemovesOldest(L, s);
    var cut, start, end := OldestCut(CloseRun(s)), s.runs[0].start, s.runs[0].end;
    MarkTurns(L, cut, start, s.omitted + 1);
    assert cut.blocks == s.blocks[..start] + s.blocks[end..];
    CutTurns(s.blocks, start, end);
  }

  lemma CutTurns(blocks: seq<Cell>, start: nat, end: nat)
    requires start <= end <= |blocks|
    ensures Without(Turns(blocks), Turns(blocks[start..end]), Turns(blocks[..start] + blocks[end..]))
  {
    hide Turns, Without;
    assert blocks == blocks[..start] + blocks[start..end] + blocks[end..];
    MiddleTurns(blocks[..start], blocks[start..end], blocks[end..]);
  }

  lemma MiddleTurns(a: seq<Cell>, b: seq<Cell>, c: seq<Cell>)
    ensures Without(Turns(a + b + c), Turns(b), Turns(a + c))
  {
    hide Turns;
    TurnsAppend(a, b);
    TurnsAppend(a + b, c);
    TurnsAppend(a, c);
    assert CutOut(Turns(a + b + c), Turns(a), Turns(b), Turns(c), Turns(a + c));
  }

  /** The oldest run's blocks are the same before and after what is written at
      the end of the open run. */
  predicate SameOldest(s: State, t: State) {
    && t.runs == s.runs && t.runStart == s.runStart && t.omitted == s.omitted
    && (s.runs != [] && 0 <= s.runs[0].start <= s.runs[0].end <= |s.blocks| ==>
          s.runs[0].end <= |t.blocks|
          && t.blocks[s.runs[0].start..s.runs[0].end] == s.blocks[s.runs[0].start..s.runs[0].end])
  }

  lemma SameOldestTurns(L: Look, s: State, t: State)
    requires Inv(L, s) && Inv(L, t) && SameOldest(s, t)
    ensures TrimmedTurns(L, t) == TrimmedTurns(L, s) && FullHistory(t) == FullHistory(s)
  {
    hide Turns;
  }

  lemma EndLiveOldest(L: Look, s: State)
    requires Inv(L, s)
    ensures SameOldest(s, EndLive(L, s))
  {
    hide TrimRightNewlines, FinishedAnswer, Stripped, OmissionOk;
  }

  lemma GrownOldest(s: State, t: State)
    requires t.runs == s.runs && t.runStart == s.runStart && t.omitted == s.omitted && s.blocks <= t.blocks
    ensures SameOldest(s, t)
  {
  }

  lemma OldestChain(s: State, t: State, u: State)
    requires SameOldest(s, t) && SameOldest(t, u)
    ensures SameOldest(s, u)
  {
  }

  lemma CloseOldest(L: Look, s: State)
    requires Inv(L, s)
    ensures SameOldest(s, Close(L, s))
  {
    hide Inv, SameOldest, EndToolGroup, EndLive;
    var t := EndToolGroup(L, s);
    GrownOldest(s, t);
    EndLiveOldest(L, t);
    OldestChain(s, t, EndLive(L, t));
  }

  lemma FinishOldest(L: Look, s: State, markdown: string)
    requires Inv(L, s)
    ensures SameOldest(s, FinishAssistant(L, s, markdown))
  {
    hide Inv, SameOldest, EndToolGroup, PlaceAnswer;
    var t := EndToolGroup(L, s);
    GrownOldest(s, t);
    PlaceOldest(L, t, markdown);
    OldestChain(s, t, PlaceAnswer(L, t, markdown));
  }

  lemma PlaceOldest(L: Look, s: State, markdown: string)
    requires Inv(L, s) && s.group.None?
    ensures SameOldest(s, PlaceAnswer(L, s, markdown))
  {
    hide FinishedAnswer, Stripped, OmissionOk;
  }

  // ----- Operations that close a run -----

  /** A state about to be closed shows `shown` and will lose what `s` would. */
  ghost predicate Closing(L: Look, s: State, t: State, says: seq<Turn>) {
    Inv(L, s) && Inv(L, t) && t.live == -1 && SameOldest(s, t) && Turns(t.blocks) == Turns(s.blocks) + says
  }

  lemma ClosedTurns(L: Look, s: State, t: State, says: seq<Turn>)
    requires Closing(L, s, t, says)
    ensures Without(Turns(s.blocks) + says, TrimmedTurns(L, s), Turns(Finalize(L, t).blocks))
    ensures Finalize(L, t).omitted == s.omitted + if FullHistory(s) then 1 else 0
  {
    hide Turns, Inv, Finalize, TrimmedTurns;
    FinalizeTurns(L, t);
    SameOldestTurns(L, s, t);
  }

  lemma ErrorTurns(L: Look, s: State, message: string)
    requires Inv(L, s) && LiveLast(s)
    ensures Without(Turns(s.blocks) + CutShort(s), TrimmedTurns(L, s), Turns(WriteError(L, s, message).blocks))
    ensures WriteError(L, s, message).omitted == s.omitted + if FullHistory(s) then 1 else 0
  {
    hide Turns, Inv, Finalize, TrimmedTurns, Close, Add, SameOldest, CutShort, FullHistory, Without;
    var t := Add(L, Close(L, s), RawOf(L.error("Error", message)));
    CloseTurns(L, s);
    AddedTurns(L, Close(L, s), RawOf(L.error("Error", message)));
    CloseOldest(L, s);
    GrownOldest(Close(L, s), t);
    OldestChain(s, Close(L, s), t);
    ClosedTurns(L, s, t, CutShort(s));
  }

  lemma AnswerTurns(L: Look, s: State, markdown: string)
    requires Inv(L, s) && LiveLast(s)
    ensures Without(Turns(s.blocks) + [Answered(markdown)], TrimmedTurns(L, s), Turns(CompleteAssistant(L, s, markdown).blocks))
    ensures CompleteAssistant(L, s, markdown).omitted == s.omitted + if FullHistory(s) then 1 else 0
  {
    hide Turns, Inv, Finalize, TrimmedTurns, FinishAssistant, SameOldest, FullHistory, Without;
    FinishTurns(L, s, markdown);
    FinishOldest(L, s, markdown);
    ClosedTurns(L, s, FinishAssistant(L, s, markdown), [Answered(markdown)]);
  }

  lemma CompleteTurns(L: Look, s: State, outputText: string, separator: string)
    requires Inv(L, s) && LiveLast(s)
    ensures Without(Turns(s.blocks) + [Answered(outputText)], TrimmedTurns(L, s),
                    Turns(CompleteRun(L, s, outputText, separator).blocks))
    ensures CompleteRun(L, s, outputText, separator).omitted == s.omitted + if FullHistory(s) then 1 else 0
  {
    hide Turns, Inv, Finalize, TrimmedTurns, FinishAssistant, WriteSeparator, SameOldest, FullHistory, Without;
    var t := FinishAssistant(L, s, outputText);
    var u := WriteSeparator(L, t, separator);
    FinishTurns(L, s, outputText);
    SeparatorTurns(L, t, separator);
    FinishOldest(L, s, outputText);
    GrownOldest(t, u);
    OldestChain(s, t, u);
    ClosedTurns(L, s, u, [Answered(outputText)]);
  }

  lemma FailTurns(L: Look, s: State, errorType: string, message: string)
    requires Inv(L, s) && LiveLast(s)
    ensures Without(Turns(s.blocks) + CutShort(s), TrimmedTurns(L, s), Turns(FailRun(L, s, errorType, message).blocks))
    ensures FailRun(L, s, errorType, message).omitted == s.omitted + if FullHistory(s) then 1 else 0
  {
    hide Turns, Inv, Finalize, TrimmedTurns, EndLive, EndToolGroup, FailNote, SameOldest, FullHistory, Without, CutShort;
    var t := EndLive(L, s);
    var u := EndToolGroup(L, t);
    var v := FailNote(L, u, errorType, message);
    EndLiveTurns(L, s);
    GroupTurns(L, t);
    FailNoteTurns(L, u, errorType, message);
    EndLiveOldest(L, s);
    GrownOldest(t, u);
    OldestChain(s, t, u);
    GrownOldest(u, v);
    OldestChain(s, u, v);
    ClosedTurns(L, s, v, CutShort(s));
  }

  lemma FailNoteTurns(L: Look, s: State, errorType: string, message: string)
    requires Inv(L, s) && s.live == -1
    ensures Turns(FailNote(L, s, errorType, message).blocks) == Turns(s.blocks)
    ensures s.blocks <= FailNote(L, s, errorType, message).blocks
  {
    hide Turns, Inv, Add;
    if errorType != "CancelledError" {
      AddedTurns(L, s, RawOf(L.error("Run failed", message)));
    }
  }

  // ----- Events, previews and operations -----

  /** The turns one run event says. */
  function EventSays(L: Look, s: State, e: RunEvent): seq<Turn> {
    match e
    case CompactionCompleted => CutShort(s)
    case InRunCompactionCompleted => CutShort(s)
    case CompactionWarning(_) => CutShort(s)
    case PromptBatchSubmitted(prompts) => CutShort(s) + [Asked(L.joinPrompts(prompts))]
    case ToolCallStarted(_) => CutShort(s)
    case RunFailed(_, _) => CutShort(s)
    case RunSucceeded(outputText, _) => [Answered(outputText)]
    case _ => []
  }

  function EventTrims(L: Look, s: State, e: RunEvent): seq<Turn>
    requires Inv(L, s)
  {
    if e.RunFailed? || e.RunSucceeded? then TrimmedTurns(L, s) else []
  }

  /** The state moves on by saying some turns and trimming some. */
  ghost predicate MovesOn(s: State, r: State, says: seq<Turn>, trims: seq<Turn>) {
    && Without(Turns(s.blocks) + says, trims, Turns(r.blocks))
    && s.omitted <= r.omitted && (r.omitted == s.omitted ==> trims == [])
  }

  lemma JustSays(s: State, r: State, says: seq<Turn>)
    requires Turns(r.blocks) == Turns(s.blocks) + says && r.omitted == s.omitted
    ensures MovesOn(s, r, says, [])
  {
    hide Turns, Without;
    NothingCut(Turns(r.blocks));
  }

  lemma ClosesSaying(L: Look, s: State, r: State, says: seq<Turn>)
    requires Inv(L, s) && Without(Turns(s.blocks) + says, TrimmedTurns(L, s), Turns(r.blocks))
    requires r.omitted == s.omitted + if FullHistory(s) then 1 else 0
    ensures MovesOn(s, r, says, TrimmedTurns(L, s))
  {
    hide Turns, Without, Inv;
  }

  lemma CompactionEventTurns(L: Look, s: State, e: RunEvent)
    requires Inv(L, s) && LiveLast(s) && (e.CompactionCompleted? || e.InRunCompactionCompleted? || e.CompactionWarning?)
    ensures Turns(ApplyCompaction(L, s, e).blocks) == Turns(s.blocks) + CutShort(s)
  {
    hide Turns, Inv, WriteCompactionNote, WriteLine;
    match e
    case CompactionCompleted => CompactionTurns(L, s, "compacted");
    case InRunCompactionCompleted => CompactionTurns(L, s, "compacted (in-run)");
    case CompactionWarning(message) =>
      var t := WriteCompactionNote(L, s, "warning");
      CompactionTurns(L, s, "warning");
      LineTurns(L, t, message);
      assert CutShort(t) == [] && Turns(t.blocks) + [] == Turns(t.blocks);
  }

  lemma EventTurns(L: Look, s: State, e: RunEvent)
    requires Inv(L, s) && LiveLast(s)
    ensures MovesOn(s, ApplyEvent(L, s, e), EventSays(L, s, e), EventTrims(L, s, e))
  {
    hide Turns, Inv, MovesOn, Without, CutShort, TrimmedTurns, ApplyCompaction, WriteUserTurn, AppendDelta, FailRun,
         CompleteRun, StartTool, LiveLast, FullHistory;
    var r := ApplyEvent(L, s, e);
    match e
    case RunFailed(errorType, message) =>
      FailTurns(L, s, errorType, message);
      ClosesSaying(L, s, r, CutShort(s));
    case RunSucceeded(outputText, separator) =>
      CompleteTurns(L, s, outputText, separator);
      ClosesSaying(L, s, r, [Answered(outputText)]);
    case _ =>
      QuietEventTurns(L, s, e);
      JustSays(s, r, EventSays(L, s, e));
  }

  lemma QuietEventTurns(L: Look, s: State, e: RunEvent)
    requires Inv(L, s) && LiveLast(s) && !e.RunFailed? && !e.RunSucceeded?
    ensures var r := ApplyEvent(L, s, e); Turns(r.blocks) == Turns(s.blocks) + EventSays(L, s, e) && r.omitted == s.omitted
  {
    hide Turns, Inv, CutShort, ApplyCompaction, WriteUserTurn, AppendDelta, StartTool, LiveLast;
    assert Turns(s.blocks) + [] == Turns(s.blocks);
    match e
    case PromptBatchSubmitted(prompts) =>
      UserTurns(L, s, L.joinPrompts(prompts));
      ConcatAssociative(Turns(s.blocks), CutShort(s), [Asked(L.joinPrompts(prompts))]);
    case TextDelta(delta) =>
      DeltaTurns(L, s, delta);
    case ToolCallStarted(call) => ToolTurns(L, s, call);
    case CompactionCompleted =>
      CompactionEventTurns(L, s, e);
      CompactionOmits(L, s, e);
    case InRunCompactionCompleted =>
      CompactionEventTurns(L, s, e);
      CompactionOmits(L, s, e);
    case CompactionWarning(_) =>
      CompactionEventTurns(L, s, e);
      CompactionOmits(L, s, e);
    case _ =>
  }

  lemma CompactionOmits(L: Look, s: State, e: RunEvent)
    requires Inv(L, s)
    ensures ApplyCompaction(L, s, e).omitted == s.omitted
  {
    hide Inv, WriteCompactionNote, WriteLine;
  }

  function EntrySays(L: Look, s: State, e: PreviewEntry): seq<Turn> {
    match e
    case Instructions(_) => if s.runStart < 0 then CutShort(s) else []
    case User(text) => CutShort(s) + [Asked(text)]
    case Activity(text) => if L.trimSpace(text) == "" then [] else CutShort(s)
    case Answer(text) => [Answered(text)]
    case Failure(_) => CutShort(s)
    case Unknown => []
  }

  function EntryTrims(L: Look, s: State, e: PreviewEntry): seq<Turn>
    requires Inv(L, s)
  {
    if e.Answer? || e.Failure? then TrimmedTurns(L, s) else []
  }

  lemma EntryTurns(L: Look, s: State, e: PreviewEntry)
    requires Inv(L, s) && LiveLast(s)
    ensures MovesOn(s, ApplyEntry(L, s, e), EntrySays(L, s, e), EntryTrims(L, s, e))
  {
    hide Turns, Inv, MovesOn, Without, CutShort, TrimmedTurns, InsertNote, WriteUserTurn, WriteActivity,
         CompleteAssistant, WriteError, LiveLast, FullHistory;
    var r := ApplyEntry(L, s, e);
    assert Turns(s.blocks) + [] == Turns(s.blocks);
    match e
    case Answer(text) =>
      AnswerTurns(L, s, text);
      ClosesSaying(L, s, r, [Answered(text)]);
    case Failure(text) =>
      ErrorTurns(L, s, text);
      ClosesSaying(L, s, r, CutShort(s));
    case Instructions(text) =>
      InsertTurns(L, s, "instructions", [text]);
      JustSays(s, r, EntrySays(L, s, e));
    case User(text) =>
      UserTurns(L, s, text);
      ConcatAssociative(Turns(s.blocks), CutShort(s), [Asked(text)]);
      JustSays(s, r, EntrySays(L, s, e));
    case Activity(text) =>
      ActivityTurns(L, s, text);
      JustSays(s, r, EntrySays(L, s, e));
    case Unknown => JustSays(s, r, []);
  }

  // ----- Whole runs -----

  /** What is shown is what was said, in order, less what was trimmed. */
  ghost predicate Kept(shown: seq<Turn>, said: seq<Turn>, trimmed: seq<Turn>) {
    Subsequence(shown, said) && multiset(shown) + multiset(trimmed) == multiset(said)
  }

  lemma KeptStep(shown: seq<Turn>, said: seq<Turn>, trimmed: seq<Turn>, says: seq<Turn>, trims: seq<Turn>, after: seq<Turn>)
    requires Kept(shown, said, trimmed) && Without(shown + says, trims, after)
    ensures Kept(after, said + says, trimmed + trims)
  {
    hide Subsequence;
    var front, back :| CutOut(shown + says, front, trims, back, after);
    SubsequenceAppend(shown, said, says);
    SubsequenceCut(front, trims, back, said + says);
    assert multiset(shown + says) == multiset(shown) + multiset(says) == multiset(after) + multiset(trims);
    assert multiset(said + says) == multiset(said) + multiset(says);
    assert multiset(trimmed + trims) == multiset(trimmed) + multiset(trims);
    SumsMove(multiset(shown), multiset(trimmed), multiset(said), multiset(says), multiset(trims), multiset(after));
  }

  lemma SumsMove(shown: multiset<Turn>, trimmed: multiset<Turn>, said: multiset<Turn>, says: multiset<Turn>,
                 trims: multiset<Turn>, after: multiset<Turn>)
    requires shown + trimmed == said && shown + says == after + trims
    ensures after + (trimmed + trims) == said + says
  {
    assert after + (trimmed + trims) == (after + trims) + trimmed == (shown + says) + trimmed;
    assert (shown + says) + trimmed == (shown + trimmed) + says;
  }

  /** What was said and trimmed up to a state. */
  datatype Record = Record(said: seq<Turn>, trimmed: seq<Turn>)

  ghost predicate Faithful(s: State, record: Record) {
    Kept(Turns(s.blocks), record.said, record.trimmed) && (s.omitted == 0 ==> record.trimmed == [])
  }

  function Extend(record: Record, says: seq<Turn>, trims: seq<Turn>): Record {
    Record(record.said + says, record.trimmed + trims)
  }

  lemma FaithfulStep(s: State, record: Record, r: State, says: seq<Turn>, trims: seq<Turn>)
    requires Faithful(s, record) && 0 <= s.omitted && MovesOn(s, r, says, trims)
    ensures Faithful(r, Extend(record, says, trims))
  {
    hide Turns, Without, Kept;
    KeptStep(Turns(s.blocks), record.said, record.trimmed, says, trims, Turns(r.blocks));
  }

  function EntriesRecord(L: Look, s: State, record: Record, entries: seq<PreviewEntry>): Record
    requires Inv(L, s)
  {
    if entries == [] then record
    else
      var front, e := entries[..|entries| - 1], entries[|entries| - 1];
      var t := ApplyEntries(L, s, front);
      Extend(EntriesRecord(L, s, record, front), EntrySays(L, t, e), EntryTrims(L, t, e))
  }

  lemma OmittedNat(L: Look, s: State)
    requires Inv(L, s)
    ensures 0 <= s.omitted
  {
  }

  lemma {:induction false} EntriesFaithful(L: Look, s: State, record: Record, entries: seq<PreviewEntry>)
    requires Inv(L, s) && LiveLast(s) && Faithful(s, record)
    ensures Faithful(ApplyEntries(L, s, entries), EntriesRecord(L, s, record, entries))
  {
    hide Inv, LiveLast, Faithful, ApplyEntry, EntrySays, EntryTrims, MovesOn;
    if entries != [] {
      var front, e := entries[..|entries| - 1], entries[|entries| - 1];
      var t := ApplyEntries(L, s, front);
      EntriesFaithful(L, s, record, front);
      EntryTurns(L, t, e);
      OmittedNat(L, t);
      FaithfulStep(t, EntriesRecord(L, s, record, front), ApplyEntry(L, t, e), EntrySays(L, t, e), EntryTrims(L, t, e));
    }
  }

  /** A preview's record: a note first, if history was cut, then its entries. */
  function PreviewRecord(L: Look, s: State, record: Record, p: Preview): Record
    requires Inv(L, s)
  {
    if p.entries == [] then record
    else if p.truncated then
      EntriesRecord(L, WriteNote(L, s, "history", ["older history omitted"]), Extend(record, CutShort(s), []), p.entries)
    else EntriesRecord(L, s, record, p.entries)
  }

  lemma PreviewFaithful(L: Look, s: State, record: Record, p: Preview)
    requires Inv(L, s) && LiveLast(s) && Faithful(s, record)
    ensures Faithful(ApplyPreview(L, s, p), PreviewRecord(L, s, record, p))
  {
    hide Inv, Faithful, ApplyEntries, EntriesRecord, WriteRenderedNote, MovesOn, Turns, CutShort;
    if p.entries != [] {
      if p.truncated {
        var lines := ["older history omitted"];
        var t := WriteNote(L, s, "history", lines);
        NoteTurns(L, s, "history", lines, lines);
        JustSays(s, t, CutShort(s));
        OmittedNat(L, s);
        FaithfulStep(s, record, t, CutShort(s), []);
        EntriesFaithful(L, t, Extend(record, CutShort(s), []), p.entries);
      } else {
        EntriesFaithful(L, s, record, p.entries);
      }
    }
  }

  /** The turns an operation says and trims, added to the record. */
  function OpRecord(L: Look, s: State, record: Record, op: Op): Record
    requires Inv(L, s)
  {
    match op
    case Note(_, _) => Extend(record, CutShort(s), [])
    case RenderedNote(_, _, _) => Extend(record, CutShort(s), [])
    case NoteBeforeRun(_, _) => Extend(record, if s.runStart < 0 then CutShort(s) else [], [])
    case UserPrompt(prompt) => Extend(record, CutShort(s) + [Asked(prompt)], [])
    case Line(_) => Extend(record, CutShort(s), [])
    case ErrorMessage(_) => Extend(record, CutShort(s), TrimmedTurns(L, s))
    case Event(e) => Extend(record, EventSays(L, s, e), EventTrims(L, s, e))
    case ShowPreview(p) => PreviewRecord(L, s, record, p)
    case _ => record
  }

  lemma WriterTurns(L: Look, s: State, op: Op)
    requires Inv(L, s) && LiveLast(s)
    requires op.Note? || op.RenderedNote? || op.NoteBeforeRun? || op.UserPrompt? || op.Line? || op.ErrorMessage?
    ensures var e := OpRecord(L, s, Record([], []), op); MovesOn(s, Step(L, s, op), e.said, e.trimmed)
  {
    hide Turns, Inv, MovesOn, Without, CutShort, TrimmedTurns, WriteRenderedNote, InsertNote, WriteUserTurn, WriteLine,
         WriteError, LiveLast, FullHistory;
    var r := Step(L, s, op);
    assert forall x: seq<Turn> :: [] + x == x;
    match op
    case Note(title, lines) =>
      NoteTurns(L, s, title, lines, lines);
      JustSays(s, r, CutShort(s));
    case RenderedNote(title, lines, rendered) =>
      NoteTurns(L, s, title, lines, rendered);
      JustSays(s, r, CutShort(s));
    case NoteBeforeRun(title, lines) =>
      InsertTurns(L, s, title, lines);
      JustSays(s, r, if s.runStart < 0 then CutShort(s) else []);
    case UserPrompt(prompt) =>
      UserTurns(L, s, prompt);
      ConcatAssociative(Turns(s.blocks), CutShort(s), [Asked(prompt)]);
      JustSays(s, r, CutShort(s) + [Asked(prompt)]);
    case Line(line) =>
      LineTurns(L, s, line);
      JustSays(s, r, CutShort(s));
    case ErrorMessage(message) =>
      ErrorTurns(L, s, message);
      ClosesSaying(L, s, r, CutShort(s));
  }

  lemma QuietOpTurns(L: Look, s: State, op: Op)
    requires Inv(L, s) && (op.Banner? || op.Delta? || op.SetWidth? || op.SetTick? || op.Paint?)
    ensures Turns(Step(L, s, op).blocks) == Turns(s.blocks) && Step(L, s, op).omitted == s.omitted
  {
    hide Turns, Inv, AppendDelta, Tick;
    match op
    case Banner(plain, rendered) => AddedTurns(L, s, Raw(plain, rendered));
    case Delta(delta) => DeltaTurns(L, s, delta);
    case SetTick(tick) => TickTurns(L, s, tick);
    case _ =>
  }

  lemma ExtendParts(record: Record, says: seq<Turn>, trims: seq<Turn>)
    ensures Extend(Record([], []), says, trims) == Record(says, trims)
  {
    assert [] + says == says && [] + trims == trims;
  }

  lemma OpFaithful(L: Look, s: State, record: Record, op: Op)
    requires Inv(L, s) && LiveLast(s) && Faithful(s, record)
    ensures Faithful(Step(L, s, op), OpRecord(L, s, record, op))
  {
    hide Turns, Inv, LiveLast, Step, MovesOn, Faithful, PreviewRecord, EventSays, EventTrims, CutShort, TrimmedTurns;
    OmittedNat(L, s);
    match op
    case Event(e) =>
      EventTurns(L, s, e);
      StepIsEvent(L, s, e);
      FaithfulStep(s, record, Step(L, s, op), EventSays(L, s, e), EventTrims(L, s, e));
    case ShowPreview(p) =>
      PreviewFaithful(L, s, record, p);
      StepIsPreview(L, s, p);
    case Note(_, _) => WriterFaithful(L, s, record, op);
    case RenderedNote(_, _, _) => WriterFaithful(L, s, record, op);
    case NoteBeforeRun(_, _) => WriterFaithful(L, s, record, op);
    case UserPrompt(_) => WriterFaithful(L, s, record, op);
    case Line(_) => WriterFaithful(L, s, record, op);
    case ErrorMessage(_) => WriterFaithful(L, s, record, op);
    case _ =>
      QuietOpTurns(L, s, op);
      SameShown(s, record, Step(L, s, op));
  }

  lemma SameShown(s: State, record: Record, r: State)
    requires Faithful(s, record) && Turns(r.blocks) == Turns(s.blocks) && r.omitted == s.omitted
    ensures Faithful(r, record)
  {
    hide Turns, Kept;
  }

  lemma StepIsEvent(L: Look, s: State, e: RunEvent)
    requires Inv(L, s)
    ensures Step(L, s, Event(e)) == ApplyEvent(L, s, e)
  {
    hide ApplyEvent, Inv;
  }

  lemma StepIsPreview(L: Look, s: State, p: Preview)
    requires Inv(L, s)
    ensures Step(L, s, ShowPreview(p)) == ApplyPreview(L, s, p)
  {
    hide ApplyPreview, Inv;
  }

  lemma WriterFaithful(L: Look, s: State, record: Record, op: Op)
    requires Inv(L, s) && LiveLast(s) && Faithful(s, record)
    requires op.Note? || op.RenderedNote? || op.NoteBeforeRun? || op.UserPrompt? || op.Line? || op.ErrorMessage?
    ensures Faithful(Step(L, s, op), OpRecord(L, s, record, op))
  {
    hide Turns, Inv, LiveLast, Step, MovesOn, Faithful, CutShort, TrimmedTurns;
    var e := OpRecord(L, s, Record([], []), op);
    OmittedNat(L, s);
    WriterTurns(L, s, op);
    FaithfulStep(s, record, Step(L, s, op), e.said, e.trimmed);
    assert forall x: seq<Turn> :: [] + x == x;
  }

  /** Everything said and trimmed over a run of operations. */
  function RunRecord(L: Look, ops: seq<Op>): Record {
    if ops == [] then Record([], [])
    else OpRecord(L, RunOps(L, ops[..|ops| - 1]), RunRecord(L, ops[..|ops| - 1]), ops[|ops| - 1])
  }

  /** Over any run in which no banner is written over a live answer, the
      conversation shown is what was said, in order, less exactly what was
      trimmed; and as long as no run is omitted it is all that was said. */
  lemma {:induction false} ConversationKept(L: Look, ops: seq<Op>)
    requires BannersWait(L, ops)
    ensures var s, record := RunOps(L, ops), RunRecord(L, ops);
            && Kept(Turns(s.blocks), record.said, record.trimmed)
            && (s.omitted == 0 ==> Turns(s.blocks) == record.said)
  {
    hide Turns, Inv, Kept;
    LiveStaysLast(L, ops);
    RunFaithful(L, ops);
    if RunOps(L, ops).omitted == 0 {
      NothingTrimmed(Turns(RunOps(L, ops).blocks), RunRecord(L, ops).said);
    }
  }

  lemma NothingTrimmed(shown: seq<Turn>, said: seq<Turn>)
    requires Kept(shown, said, [])
    ensures shown == said
  {
    SubsequenceWhole(shown, said);
    assert |multiset(shown)| == |multiset(said)|;
  }

  lemma {:induction false} RunFaithful(L: Look, ops: seq<Op>)
    requires LastThroughout(L, ops)
    ensures Faithful(RunOps(L, ops), RunRecord(L, ops))
  {
    hide Inv, Step, OpRecord, Faithful;
    if ops == [] {
      EmptyFaithful();
    } else {
      var prefix := ops[..|ops| - 1];
      RunFaithful(L, prefix);
      LastBefore(L, prefix);
      OpFaithful(L, RunOps(L, prefix), RunRecord(L, prefix), ops[|ops| - 1]);
    }
  }

  lemma LastBefore(L: Look, ops: seq<Op>)
    requires LastThroughout(L, ops)
    ensures LiveLast(RunOps(L, ops))
  {
  }

  lemma EmptyFaithful()
    ensures Faithful(Initial, Record([], []))
  {
  }

  // ----- Previews -----

  /** The turns of a stored session. */
  function PreviewTurns(entries: seq<PreviewEntry>): seq<Turn> {
    if entries == [] then []
    else
      PreviewTurns(entries[..|entries| - 1])
      + match entries[|entries| - 1]
        case User(text) => [Asked(text)]
        case Answer(text) => [Answered(text)]
        case _ => []
  }

  lemma EntryEndsLive(L: Look, s: State, e: PreviewEntry)
    requires Inv(L, s) && s.live == -1
    ensures ApplyEntry(L, s, e).live == -1
  {
    hide Inv, WriteRenderedNote, WriteUserTurn, WriteActivity, CompleteAssistant, WriteError;
  }

  lemma {:induction false} EntriesSay(L: Look, s: State, record: Record, entries: seq<PreviewEntry>)
    requires Inv(L, s) && s.live == -1
    ensures ApplyEntries(L, s, entries).live == -1
    ensures EntriesRecord(L, s, record, entries).said == record.said + PreviewTurns(entries)
  {
    hide Inv, ApplyEntry, EntryTrims;
    if entries == [] {
      assert record.said + [] == record.said;
    } else {
      var front, e := entries[..|entries| - 1], entries[|entries| - 1];
      var t := ApplyEntries(L, s, front);
      EntriesSay(L, s, record, front);
      EntryEndsLive(L, t, e);
      assert EntrySays(L, t, e) == (match e case User(text) => [Asked(text)] case Answer(text) => [Answered(text)] case _ => []);
      ConcatAssociative(record.said, PreviewTurns(front), EntrySays(L, t, e));
    }
  }

  /** A preview shows exactly its user turns and answers, in order, behind the
      conversation so far, less the runs trimmed; all of it if none is omitted. */
  lemma PreviewShows(L: Look, s: State, p: Preview) returns (trimmed: seq<Turn>)
    requires Inv(L, s) && s.live == -1
    ensures var r := ApplyPreview(L, s, p);
            && Kept(Turns(r.blocks), Turns(s.blocks) + PreviewTurns(p.entries), trimmed)
            && (r.omitted == 0 ==> Turns(r.blocks) == Turns(s.blocks) + PreviewTurns(p.entries))
  {
    hide Inv, Turns, Kept, ApplyPreview, EntriesRecord, WriteRenderedNote;
    var record := Record(Turns(s.blocks), []);
    StartsFaithful(s);
    PreviewFaithful(L, s, record, p);
    trimmed := PreviewRecord(L, s, record, p).trimmed;
    assert Turns(s.blocks) + [] == Turns(s.blocks);
    if p.entries == [] {
      NoPreviewTurns();
    } else if p.truncated {
      EntriesSay(L, WriteNote(L, s, "history", ["older history omitted"]), Extend(record, [], []), p.entries);
    } else {
      EntriesSay(L, s, record, p.entries);
    }
    if ApplyPreview(L, s, p).omitted == 0 {
      NothingTrimmed(Turns(ApplyPreview(L, s, p).blocks), Turns(s.blocks) + PreviewTurns(p.entries));
    }
  }

  lemma NoPreviewTurns()
    ensures PreviewTurns([]) == []
  {
  }

  lemma StartsFaithful(s: State)
    ensures Faithful(s, Record(Turns(s.blocks), []))
  {
    hide Turns;
    var turns := Turns(s.blocks);
    SubsequenceAppend([], [], turns);
    assert [] + turns == turns;
  }

  // ----- Where answers stand -----

  /** A finished answer is the last block. It takes the place of the live one, or
      stands right behind what closing the tool group left. */
  lemma AnswerPlaced(L: Look, s: State, markdown: string)
    requires Inv(L, s) && LiveLast(s)
    ensures FinishAssistant(L, s, markdown).blocks
         == (if s.live >= 0 then s.blocks[..s.live] else EndToolGroup(L, s).blocks) + [FinishedAnswer(markdown)]
  {
    hide RunsOk, OpenRunOk, OmissionOk, Stripped, FinishedAnswer;
    if s.live >= 0 {
      assert s.group.None?;
      assert s.blocks[s.live := FinishedAnswer(markdown)] == s.blocks[..s.live] + [FinishedAnswer(markdown)];
    }
  }

  /** Streaming first makes no difference to an answer behind the same base; that
      base has the gap that an answer without streaming does not ask for. */
  lemma StreamedOrNot(L: Look, s: State, deltas: seq<string>, markdown: string)
    requires Inv(L, s) && s.live == -1 && deltas != []
    ensures FinishAssistant(L, Stream(L, s, deltas), markdown).blocks == FinishAssistant(L, StreamBase(L, s), markdown).blocks
    ensures FinishAssistant(L, Stream(L, s, deltas), markdown).blocks == FinishAssistant(L, s, markdown).blocks
       <==> GapCell(L, EndToolGroup(L, s)).None?
  {
    hide Inv, Stream, FinishAssistant, EndToolGroup;
    StreamingLeavesNoTrace(L, s, deltas, markdown);
    var closed := EndToolGroup(L, s);
    var base := StreamBase(L, s);
    BaseStands(L, s);
    AnswerPlaced(L, s, markdown);
    AnswerPlaced(L, base, markdown);
    EndedGroup(L, base);
    assert GapCell(L, closed).Some? ==> |base.blocks| == |closed.blocks| + 1;
  }

  lemma BaseStands(L: Look, s: State)
    requires Inv(L, s) && s.live == -1
    ensures StreamBase(L, s).live == -1 && StreamBase(L, s).group.None?
    ensures EndToolGroup(L, s).live == -1
  {
    hide Inv;
  }

  lemma EndedGroup(L: Look, s: State)
    requires Inv(L, s) && s.group.None?
    ensures EndToolGroup(L, s) == s
  {
    hide Inv;
  }

  /** Closing a run never touches the last block. */
  lemma FinalizeKeepsLast(L: Look, s: State)
    requires Inv(L, s) && s.live == -1 && s.blocks != []
    ensures var r := Finalize(L, s); r.blocks != [] && r.blocks[|r.blocks| - 1] == s.blocks[|s.blocks| - 1]
  {
    hide Finalize, Trim, LiveOk, Stripped;
    if FullHistory(s) {
      OverflowTrims(L, s);
      OpenRunBehind(L, s);
    } else {
      ShortHistoryFinal(L, s);
    }
  }

  lemma OpenRunBehind(L: Look, s: State)
    requires Inv(L, s) && FullHistory(s)
    ensures 0 <= s.runs[0].start < s.runs[0].end <= s.runStart < |s.blocks|
  {
  }

  ghost predicate EndsWith(s: State, c: Cell) {
    s.blocks != [] && s.blocks[|s.blocks| - 1] == c
  }

  /** Answers that close their run stay the last block, or are followed by the
      run's summary line. */
  lemma AnswersLast(L: Look, s: State, markdown: string, separator: string)
    requires Inv(L, s) && LiveLast(s)
    ensures EndsWith(CompleteAssistant(L, s, markdown), FinishedAnswer(markdown))
    ensures EndsWith(CompleteRun(L, s, markdown, separator),
                     if separator == "" then FinishedAnswer(markdown) else Raw(separator + "\n\n", L.separator(separator)))
  {
    hide Inv, FinishAssistant, Finalize, FinishedAnswer, EnsureGap, Add;
    AnswerPlaced(L, s, markdown);
    var t := FinishAssistant(L, s, markdown);
    FinalizeKeepsLast(L, t);
    FinalizeKeepsLast(L, WriteSeparator(L, t, separator));
    if separator != "" {
      AddEnds(L, EnsureGap(L, t), Raw(separator + "\n\n", L.separator(separator)));
    }
  }

  lemma AddEnds(L: Look, s: State, c: Cell)
    requires Inv(L, s) && (c.Assistant? ==> c.cachedRender == "")
    ensures EndsWith(Add(L, s, c), c) && s.blocks <= Add(L, s, c).blocks
  {
    hide Inv;
  }

  // ----- The block each writer leaves -----

  /** Every writer adds its block behind what closing left: notes, user turns,
      activity and summary lines after a gap, plain lines without. */
  lemma WritersLeaveTheirBlock(L: Look, s: State, title: string, lines: seq<string>, rendered: seq<string>, text: string)
    requires Inv(L, s)
    ensures var spaced := EnsureGap(L, Close(L, s)).blocks;
            && WriteRenderedNote(L, s, title, lines, rendered).blocks == spaced + [RawOf(L.note(title, lines, rendered))]
            && WriteUserTurn(L, s, text).blocks == spaced + [UserTurn(text)]
            && (L.trimSpace(text) != "" ==>
                  WriteActivity(L, s, text).blocks
                  == spaced + [Raw("* " + L.trimSpace(text) + "\n", L.activity(L.trimSpace(text)))])
    ensures WriteLine(L, s, text).blocks == Close(L, s).blocks + [Raw(text + "\n", text + "\n")]
    ensures WriteBanner(L, s, title, text).blocks == s.blocks + [Raw(title, text)]
    ensures WriteSeparator(L, s, text).blocks
         == if text == "" then s.blocks else EnsureGap(L, s).blocks + [Raw(text + "\n\n", L.separator(text))]
  {
    hide Inv, Close, EnsureGap, Add;
    var closed := Close(L, s);
    var spaced := EnsureGap(L, closed);
    AddedLast(L, spaced, RawOf(L.note(title, lines, rendered)));
    AddedLast(L, closed, Raw(text + "\n", text + "\n"));
    AddedLast(L, spaced, Raw("* " + L.trimSpace(text) + "\n", L.activity(L.trimSpace(text))));
    AddedLast(L, s, Raw(title, text));
    AddedLast(L, EnsureGap(L, s), Raw(text + "\n\n", L.separator(text)));
  }

  lemma AddedLast(L: Look, s: State, c: Cell)
    requires Inv(L, s) && c.Raw?
    ensures Add(L, s, c).blocks == s.blocks + [c]
  {
    hide Inv;
  }

  /** A user turn opens a run at its own block, unless one is open. */
  lemma UserTurnOpensRun(L: Look, s: State, text: string)
    requires Inv(L, s)
    ensures var r := WriteUserTurn(L, s, text);
            r.runStart == if s.runStart == -1 then |r.blocks| - 1 else s.runStart
  {
    hide Inv, Close, EnsureGap;
  }

  /** Compaction leaves its note last. */
  lemma CompactionsLeaveNotes(L: Look, s: State)
    requires Inv(L, s)
    ensures EndsWith(ApplyEvent(L, s, CompactionCompleted), RawOf(L.note("compacted", [], [])))
    ensures EndsWith(ApplyEvent(L, s, InRunCompactionCompleted), RawOf(L.note("compacted (in-run)", [], [])))
  {
    hide Inv, Close, EnsureGap, WriteNote, EndsWith;
    var spaced := EnsureGap(L, Close(L, s));
    NoteLast(L, spaced, "compacted");
    NoteLast(L, spaced, "compacted (in-run)");
  }

  /** A compaction warning leaves its note and then its message. */
  lemma WarningsAreShown(L: Look, s: State, message: string)
    requires Inv(L, s)
    ensures var r := ApplyEvent(L, s, CompactionWarning(message));
            && |r.blocks| > 1 && r.blocks[|r.blocks| - 1] == Raw(message + "\n", message + "\n")
            && r.blocks[|r.blocks| - 2] == RawOf(L.note("warning", [], []))
  {
    hide Inv, Close, EnsureGap, WriteNote, WriteLine;
    var spaced := EnsureGap(L, Close(L, s));
    NoteLast(L, spaced, "warning");
    var warned := WriteNote(L, spaced, "warning", []);
    LineLast(L, warned, message);
    assert ApplyEvent(L, s, CompactionWarning(message)) == WriteLine(L, warned, message);
  }

  lemma LineLast(L: Look, s: State, line: string)
    requires Inv(L, s) && s.group.None? && s.live == -1
    ensures WriteLine(L, s, line).blocks == s.blocks + [Raw(line + "\n", line + "\n")]
  {
    hide Inv, Close, Add;
    NothingToClose(L, s);
    AddedLast(L, Close(L, s), Raw(line + "\n", line + "\n"));
  }

  lemma NoteLast(L: Look, s: State, title: string)
    requires Inv(L, s)
    ensures EndsWith(WriteNote(L, s, title, []), RawOf(L.note(title, [], [])))
    ensures WriteNote(L, s, title, []).group.None? && WriteNote(L, s, title, []).live == -1
  {
    hide Inv, Close, EnsureGap, WriteRenderedNote;
    WritersLeaveTheirBlock(L, s, title, [], [], "");
  }

  lemma NothingToClose(L: Look, s: State)
    requires Inv(L, s) && s.group.None? && s.live == -1
    ensures Close(L, s).blocks == s.blocks
  {
    hide Inv;
  }

  /** A note before the open run stands right before its user turn. */
  lemma InsertedNoteStands(L: Look, s: State, title: string, lines: seq<string>)
    requires Inv(L, s) && s.runStart >= 0
    ensures var r := InsertNote(L, s, title, lines);
            && |r.blocks| == |s.blocks| + 1 && r.blocks[s.runStart] == RawOf(L.note(title, lines, lines))
            && r.blocks[..s.runStart] == s.blocks[..s.runStart] && r.blocks[s.runStart + 1..] == s.blocks[s.runStart..]
  {
    hide RunsOk, LiveOk, OmissionOk, Stripped, WriteRenderedNote;
  }

  /** An error stays the last block. */
  lemma ErrorsLast(L: Look, s: State, message: string)
    requires Inv(L, s)
    ensures EndsWith(WriteError(L, s, message), RawOf(L.error("Error", message)))
  {
    hide Inv, Close, Finalize, Add;
    var t := Add(L, Close(L, s), RawOf(L.error("Error", message)));
    AddEnds(L, Close(L, s), RawOf(L.error("Error", message)));
    FinalizeKeepsLast(L, t);
  }

  /** Exactly a failure that is no cancellation leaves an error, as the last
      block; a cancelled run ends as closing leaves it. */
  lemma FailuresLeaveErrors(L: Look, s: State, errorType: string, message: string)
    requires Inv(L, s)
    ensures var closed := EndToolGroup(L, EndLive(L, s));
            var r := FailRun(L, s, errorType, message);
            if errorType == "CancelledError" then r == Finalize(L, closed)
            else EndsWith(r, RawOf(L.error("Run failed", message)))
  {
    hide Inv, EndLive, EndToolGroup, Finalize, Add;
    var closed := EndToolGroup(L, EndLive(L, s));
    AddEnds(L, closed, RawOf(L.error("Run failed", message)));
    FinalizeKeepsLast(L, Add(L, closed, RawOf(L.error("Run failed", message))));
  }

  // ----- Tool groups -----

  /** A call joins the active group of its phase, or opens a group of its own; a
      group of another phase stays as a block. */
  lemma CallsJoinOrOpen(L: Look, s: State, call: ToolCall)
    requires Inv(L, s)
    ensures var r := StartTool(L, s, call);
            && r.group.Some? && r.group.value.phase == call.phase && r.group.value.Knows(call.id)
            && if s.group.Some? && s.group.value.phase == call.phase then
                 r.blocks == s.blocks && r.group.value.log == s.group.value.log + [Started(call)]
               else
                 && r.group.value.log == [Started(call)]
                 && (s.group.Some? ==>
                       && |s.blocks| < |r.blocks| && s.blocks <= r.blocks
                       && r.blocks[|s.blocks|] == ToolGroupText(L.toolGroup(s.group.value, s.tick).0, L.toolGroup(s.group.value, s.tick).1))
  {
    hide RunsOk, OpenRunOk, OmissionOk, Stripped, GapCell, TrimRightNewlines;
    var r := StartTool(L, s, call);
    var log := r.group.value.log;
    assert log[|log| - 1] == Started(call);
  }

  /** A new group stands behind the answer it ends, or else behind a gap. */
  lemma NewGroupsAreSpaced(L: Look, s: State, call: ToolCall)
    requires Inv(L, s) && !(s.group.Some? && s.group.value.phase == call.phase)
    ensures var r := StartTool(L, s, call);
            if s.live >= 0 then r.blocks == EndLive(L, s).blocks
            else r.blocks == [] || HasSuffix(PlainText(L, r.blocks), "\n\n")
  {
    hide RunsOk, OpenRunOk, OmissionOk, Stripped, EnsureGap, PlainText, HasSuffix, TrimRightNewlines;
    if s.live < 0 {
      var t := EndLive(L, s);
      var u := if t.group.Some? then EnsureGap(L, EndToolGroup(L, t)) else t;
      assert StartTool(L, s, call).blocks == EnsureGap(L, u).blocks;
      if u.blocks != [] {
        GapSeparates(L, u);
      } else {
        NoGapAtStart(L, u);
      }
    }
  }

  lemma NoGapAtStart(L: Look, s: State)
    requires Inv(L, s) && s.blocks == []
    ensures EnsureGap(L, s) == s
  {
    hide Inv;
  }

  /** A step of a call the group knows is logged last; any other changes nothing. */
  lemma StepsAreLogged(s: State, step: ToolStep)
    ensures var r := StepTool(s, step);
            if s.group.Some? && s.group.value.Knows(step.call.id) then
              && r.(group := s.group) == s && r.group.Some? && r.group.value.phase == s.group.value.phase
              && r.group.value.log == s.group.value.log + [step]
            else r == s
  {
  }

  /** Each tool event is logged as what it is. */
  lemma ToolEventsAreLogged(L: Look, s: State, call: ToolCall)
    requires Inv(L, s)
    ensures ApplyEvent(L, s, ToolCallStarted(call)) == StartTool(L, s, call)
    ensures forall e :: e in [ToolCallUpdated(call), ToolCallSucceeded(call), ToolCallFailed(call)] ==>
              var r := ApplyEvent(L, s, e);
              var step := if e.ToolCallUpdated? then Updated(call) else if e.ToolCallSucceeded? then Succeeded(call) else Failed(call);
              if s.group.Some? && s.group.value.Knows(call.id) then
                r.group.Some? && r.group.value.log == s.group.value.log + [step] && r.blocks == s.blocks
              else r == s
  {
    hide Inv, StartTool;
  }

  /** A run's last event leaves its outcome: the answer and summary line of a
      success, the message of a failure. */
  lemma OutcomesAreShown(L: Look, s: State, text: string, extra: string)
    requires Inv(L, s)
    ensures LiveLast(s) ==>
              EndsWith(ApplyEvent(L, s, RunSucceeded(text, extra)),
                       if extra == "" then FinishedAnswer(text) else Raw(extra + "\n\n", L.separator(extra)))
    ensures extra != "CancelledError" ==> EndsWith(ApplyEvent(L, s, RunFailed(extra, text)), RawOf(L.error("Run failed", text)))
  {
    hide Inv, FailRun, CompleteRun, FinishedAnswer, EndLive, EndToolGroup, Finalize;
    if LiveLast(s) {
      AnswersLast(L, s, text, extra);
    }
    FailuresLeaveErrors(L, s, extra, text);
  }

  // ----- Previews -----

  /** Each preview entry leaves its own block last. */
  lemma EntriesAreShown(L: Look, s: State, text: string)
    requires Inv(L, s)
    ensures EndsWith(ApplyEntry(L, s, User(text)), UserTurn(text))
    ensures LiveLast(s) ==> EndsWith(ApplyEntry(L, s, Answer(text)), FinishedAnswer(text))
    ensures EndsWith(ApplyEntry(L, s, Failure(text)), RawOf(L.error("Error", text)))
    ensures L.trimSpace(text) != "" ==>
              EndsWith(ApplyEntry(L, s, PreviewEntry.Activity(text)),
                       Raw("* " + L.trimSpace(text) + "\n", L.activity(L.trimSpace(text))))
  {
    hide Inv, LiveLast, EndsWith, FinishedAnswer, CompleteAssistant, WriteError, WriteUserTurn, WriteActivity;
    UserAndActivityLast(L, s, text);
    ErrorsLast(L, s, text);
    if LiveLast(s) {
      AnswersLast(L, s, text, "");
    }
  }

  lemma UserAndActivityLast(L: Look, s: State, text: string)
    requires Inv(L, s)
    ensures EndsWith(WriteUserTurn(L, s, text), UserTurn(text))
    ensures L.trimSpace(text) != "" ==>
              EndsWith(WriteActivity(L, s, text), Raw("* " + L.trimSpace(text) + "\n", L.activity(L.trimSpace(text))))
  {
    hide Inv, Close, EnsureGap, WriteUserTurn, WriteActivity;
    WritersLeaveTheirBlock(L, s, "", [], [], text);
  }

  /** Instructions stand right before the open run, or else last; an entry of an
      unknown kind changes nothing. */
  lemma InstructionsAreShown(L: Look, s: State, text: string)
    requires Inv(L, s)
    ensures ApplyEntry(L, s, Unknown) == s
    ensures var r := ApplyEntry(L, s, Instructions(text));
            if s.runStart >= 0 then
              && s.runStart < |s.blocks| && |r.blocks| == |s.blocks| + 1
              && r.blocks[..s.runStart] == s.blocks[..s.runStart] && r.blocks[s.runStart + 1..] == s.blocks[s.runStart..]
              && r.blocks[s.runStart] == RawOf(L.note("instructions", [text], [text]))
            else EndsWith(r, RawOf(L.note("instructions", [text], [text])))
  {
    hide Inv, Close, EnsureGap, WriteRenderedNote, InsertBeforeRun;
    if s.runStart >= 0 {
      InsertedNoteStands(L, s, "instructions", [text]);
      StartInside(L, s);
    } else {
      WritersLeaveTheirBlock(L, s, "instructions", [text], [text], "");
    }
  }

  lemma StartInside(L: Look, s: State)
    requires Inv(L, s)
    ensures s.runStart < |s.blocks|
  {
  }

  /** A preview without entries shows nothing; one cut short says so first. */
  lemma CutPreviewsSaySo(L: Look, s: State, entries: seq<PreviewEntry>)
    requires Inv(L, s)
    ensures ApplyPreview(L, s, Preview([], true)) == s
    ensures entries != [] ==>
              var noted := WriteNote(L, s, "history", ["older history omitted"]);
              && EndsWith(noted, RawOf(L.note("history", ["older history omitted"], ["older history omitted"])))
              && ApplyPreview(L, s, Preview(entries, true)) == ApplyPreview(L, noted, Preview(entries, false))
  {
    hide Inv, Close, EnsureGap, WriteRenderedNote, ApplyEntries;
    WritersLeaveTheirBlock(L, s, "history", ["older history omitted"], ["older history omitted"], "");
  }

  // ----- The live marker -----

  /** The complete lines as they were last rendered, without that rendering's
      own marker. */
  function Committed(L: Look, c: Collector): string {
    var done := CommitCompleteLines(L, c).rendered;
    if done == "" then "" else L.stripMarker(done)
  }

  /** The live cell's text is the marker, what is committed, and the unfinished
      line as it is; with no complete line yet, the whole text is that line. */
  ghost predicate ShowsLive(L: Look, tick: int, c: Collector, text: string) {
    && L.marker(tick) <= text
    && text == (L.marker(tick) + Committed(L, c)) + L.soft(c.buf[LastNewline(c.buf) + 1..])
    && (LastNewline(c.buf) < 0 && c.rendered == "" ==> text == L.marker(tick) + L.soft(c.buf))
  }

  /** The text of a marker, a middle and an end, whichever of them is empty. */
  lemma Parts(marker: string, middle: string, end: string)
    ensures marker <= (marker + middle) + end
    ensures middle == "" ==> (marker + middle) + end == marker + end
  {
    if middle == "" {
      assert marker + middle == marker;
    }
  }

  lemma NothingCommitted(L: Look, c: Collector)
    ensures LastNewline(c.buf) < 0 ==> CommitCompleteLines(L, c) == c && c.buf[LastNewline(c.buf) + 1..] == c.buf
  {
    hide LastNewline, CountNewlines;
  }

  lemma LiveTextShows(L: Look, tick: int, c: Collector)
    ensures ShowsLive(L, tick, c, LiveText(L, tick, CommitCompleteLines(L, c)))
  {
    hide LastNewline, CommitCompleteLines;
    NothingCommitted(L, c);
    Parts(L.marker(tick), Committed(L, c), L.soft(c.buf[LastNewline(c.buf) + 1..]));
  }

  lemma RebuildShows(L: Look, s: State)
    requires CanRebuild(s)
    ensures var r := Rebuild(L, s);
            r.blocks[s.live].Raw? && ShowsLive(L, s.tick, s.collector.value, r.blocks[s.live].rendered)
  {
    hide CommitCompleteLines, LiveText, ShowsLive;
    LiveTextShows(L, s.tick, s.collector.value);
  }

  /** While an answer is live, a tick shows in its marker, and a text without a
      complete line shows behind it as it is. */
  lemma TickShows(L: Look, s: State, tick: int)
    requires Inv(L, s) && s.live >= 0
    ensures var r := Tick(L, s, tick);
            r.blocks[s.live].Raw? && ShowsLive(L, tick, s.collector.value, r.blocks[s.live].rendered)
  {
    hide Rebuild, ShowsLive, RunsOk, OpenRunOk, OmissionOk, Stripped, AfterTracked;
    RebuildShows(L, s.(tick := tick));
  }

  /** A delta shows in the same way, behind what was streamed before it. */
  lemma DeltaShows(L: Look, s: State, delta: string)
    requires Inv(L, s)
    ensures var r := AppendDelta(L, s, delta);
            && 0 <= r.live < |r.blocks| && r.blocks[r.live].Raw? && r.collector.Some?
            && r.collector.value.buf == r.blocks[r.live].plain == (if s.live >= 0 then s.deltaBuf else "") + delta
            && exists c: Collector :: c.buf == r.deltaBuf && (s.live < 0 ==> c.rendered == "")
                                      && ShowsLive(L, r.tick, c, r.blocks[r.live].rendered)
  {
    hide Rebuild, ShowsLive, RunsOk, OpenRunOk, OmissionOk, Stripped, AfterTracked;
    var u := ExtendLive(L, EndToolGroup(L, s), delta);
    RebuildShows(L, u);
    assert u.collector.value.buf == u.deltaBuf;
  }
}
