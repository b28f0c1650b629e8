/**
 * The follow-up and steer queues of a session: what one step does to a
 * session, what it sends out, and what every run of steps keeps.
 */
module FollowUpSpec {
  import opened Common

  datatype Kind = Next | Later

  datatype Batch = Batch(kind: Kind, prompts: seq<string>)

  /** One session's share of the queue state. Tasks, boundary targets and
      emitters are opaque handles. */
  datatype Session = Session(
    active: bool,
    task: Option<int>,
    steers: seq<string>,
    followUps: seq<Batch>,
    target: Option<int>,
    emitter: Option<int>,
    submitter: Option<int>)

  const Fresh := Session(false, None, [], [], None, None, None)

  datatype View = View(next: seq<string>, later: seq<string>)

  const EmptyView := View([], [])

  datatype Out =
    | QueueState(to: int, view: View)
    | Attached(target: int, prompts: seq<string>)
    | Submitted(to: int, prompts: seq<string>)
    | Cancelled(task: int)

  datatype Reply = Done | Count(count: nat) | Taken(batch: Option<seq<string>>) | Refused

  datatype Op =
    | Activate(task: int, emitter: int, submitter: Option<int>)
    | Deactivate
    | Enqueue(prompt: string, mode: string)
    | OpenBoundary(target: int)
    | SubmitBoundary
    | CloseBoundary
    | Downgrade
    | Take
    | Interrupt(promote: bool)

  datatype Outcome = Outcome(session: Session, outs: seq<Out>, reply: Reply)

  /** The prompts of all batches of one kind, in order. */
  function PromptsOf(kind: Kind, batches: seq<Batch>): seq<string> {
    if batches == [] then []
    else OwnPrompts(kind, batches[0]) + PromptsOf(kind, batches[1..])
  }

  function OwnPrompts(kind: Kind, batch: Batch): seq<string> {
    if batch.kind == kind then batch.prompts else []
  }

  /** `_build_queue_state_event_locked`. */
  function ViewOf(s: Session): View {
    View(s.steers, PromptsOf(Later, s.followUps))
  }

  /** The queue state is sent to the emitter when it differs from before. */
  function Report(before: Session, after: Session): seq<Out> {
    if after.emitter.Some? && ViewOf(before) != ViewOf(after)
    then [QueueState(after.emitter.value, ViewOf(after))] else []
  }

  function AppendLater(batches: seq<Batch>, prompt: string): seq<Batch> {
    if batches != [] && batches[|batches| - 1].kind == Later then
      batches[|batches| - 1 := Batch(Later, batches[|batches| - 1].prompts + [prompt])]
    else batches + [Batch(Later, [prompt])]
  }

  /** Pending steers moved to the front of the follow-ups as one batch. */
  function Promote(s: Session): Session {
    if s.steers == [] then s
    else s.(steers := [], followUps := [Batch(Next, s.steers)] + s.followUps)
  }

  function Step(s: Session, op: Op): Outcome {
    match op
    case Activate(task, emitter, submitter) =>
      var t := s.(active := true, task := Some(task), emitter := Some(emitter),
                  submitter := if submitter.Some? then submitter else s.submitter);
      Outcome(t, if ViewOf(t) != EmptyView then [QueueState(emitter, ViewOf(t))] else [], Done)
    case Deactivate =>
      Outcome(s.(active := false, task := None, target := None, emitter := None, submitter := None),
              if s.emitter.Some? && ViewOf(s) != EmptyView then [QueueState(s.emitter.value, EmptyView)] else [],
              Done)
    case Enqueue(prompt, mode) =>
      if !s.active then Outcome(s, [], Refused)
      else if mode == "next" then
        var t := s.(steers := s.steers + [prompt]);
        Outcome(t, Report(s, t), Count(|t.steers|))
      else
        var t := s.(followUps := AppendLater(s.followUps, prompt));
        Outcome(t, Report(s, t), Count(|t.followUps[|t.followUps| - 1].prompts|))
    case OpenBoundary(target) =>
      if s.target.Some? then Outcome(s, [], Refused)
      else Outcome(s.(target := Some(target)), [], Done)
    case SubmitBoundary =>
      if s.target.None? then Outcome(s, [], Refused)
      else if s.steers == [] then Outcome(s, [], Done)
      else
        var t := s.(steers := []);
        Outcome(t,
                [Attached(s.target.value, s.steers)] + Report(s, t)
                + (if s.submitter.Some? then [Submitted(s.submitter.value, s.steers)] else []),
                Done)
    case CloseBoundary => Outcome(s.(target := None), [], Done)
    case Downgrade => Outcome(Promote(s), Report(s, Promote(s)), Done)
    case Take =>
      if s.followUps == [] then Outcome(s, [], Taken(None))
      else
        var t := s.(followUps := s.followUps[1..]);
        Outcome(t, Report(s, t), Taken(Some(s.followUps[0].prompts)))
    case Interrupt(promote) =>
      if !s.active || s.task.None? then Outcome(s, [], Refused)
      else
        var t := if promote then Promote(s) else s;
        Outcome(t, [Cancelled(s.task.value)] + Report(s, t), Count(if promote then |s.steers| else 0))
  }

  // ----- Runs -----

  /** A session after a run of steps, and everything it sent out. */
  datatype History = History(session: Session, outs: seq<Out>)

  function Run(ops: seq<Op>): History {
    if ops == [] then History(Fresh, [])
    else
      var before := Run(ops[..|ops| - 1]);
      var o := Step(before.session, ops[|ops| - 1]);
      History(o.session, before.outs + o.outs)
  }

  /** The last queue state sent, if any. */
  function LastView(outs: seq<Out>): Option<View> {
    if outs == [] then None
    else if outs[|outs| - 1].QueueState? then Some(outs[|outs| - 1].view)
    else LastView(outs[..|outs| - 1])
  }

  /** What the client shows: the last queue state sent, at first nothing. */
  function ClientView(outs: seq<Out>): View {
    if LastView(outs).Some? then LastView(outs).value else EmptyView
  }

  /** Next batches first, then at most one later batch; none is empty. */
  ghost predicate Shape(batches: seq<Batch>) {
    && (forall i :: 0 <= i < |batches| ==> batches[i].prompts != [])
    && (forall i :: 0 <= i < |batches| - 1 ==> batches[i].kind == Next)
  }

  /** Activity, run task and emitter registrations always coincide. */
  ghost predicate Registered(s: Session) {
    && (s.active <==> s.task.Some?)
    && (s.active <==> s.emitter.Some?)
    && (s.submitter.Some? ==> s.active)
  }

  ghost predicate Inv(s: Session) {
    Shape(s.followUps) && Registered(s)
  }

  lemma {:induction false} PromptsOfSnoc(kind: Kind, batches: seq<Batch>, last: Batch)
    ensures PromptsOf(kind, batches + [last]) == PromptsOf(kind, batches) + OwnPrompts(kind, last)
  {
    if batches != [] {
      assert (batches + [last])[1..] == batches[1..] + [last];
      PromptsOfSnoc(kind, batches[1..], last);
    }
  }

  lemma {:induction false} NoLater(batches: seq<Batch>)
    requires forall i :: 0 <= i < |batches| ==> batches[i].kind == Next
    ensures PromptsOf(Later, batches) == []
  {
    if batches != [] {
      NoLater(batches[1..]);
    }
  }

  /** A later prompt joins the last batch or starts it, which then holds all
      later prompts; the next batches are untouched. */
  lemma AppendLaterShape(batches: seq<Batch>, prompt: string)
    requires Shape(batches)
    ensures Shape(AppendLater(batches, prompt))
    ensures PromptsOf(Later, AppendLater(batches, prompt)) == PromptsOf(Later, batches) + [prompt]
    ensures var r := AppendLater(batches, prompt); r[|r| - 1].prompts == PromptsOf(Later, r)
    ensures PromptsOf(Next, AppendLater(batches, prompt)) == PromptsOf(Next, batches)
  {
    hide PromptsOf;
    var n := |batches|;
    if n > 0 && batches[n - 1].kind == Later {
      var front, last := batches[..n - 1], batches[n - 1];
      assert batches == front + [last];
      assert AppendLater(batches, prompt) == front + [Batch(Later, last.prompts + [prompt])];
      NoLater(front);
      LastBatch(front, last);
      LastBatch(front, Batch(Later, last.prompts + [prompt]));
    } else {
      NoLater(batches);
      LastBatch(batches, Batch(Later, [prompt]));
    }
  }

  lemma LastBatch(front: seq<Batch>, last: Batch)
    requires last.kind == Later
    ensures PromptsOf(Later, front + [last]) == PromptsOf(Later, front) + last.prompts
    ensures PromptsOf(Next, front + [last]) == PromptsOf(Next, front)
  {
    PromptsOfSnoc(Later, front, last);
    PromptsOfSnoc(Next, front, last);
  }

  lemma StepKeepsInv(s: Session, op: Op)
    requires Inv(s)
    ensures Inv(Step(s, op).session)
  {
    if op.Enqueue? {
      AppendLaterShape(s.followUps, op.prompt);
    }
  }

  /** Every reachable session has the queue shape and coinciding registrations. */
  lemma {:induction false} RunInv(ops: seq<Op>)
    ensures Inv(Run(ops).session)
  {
    if ops != [] {
      RunInv(ops[..|ops| - 1]);
      StepKeepsInv(Run(ops[..|ops| - 1]).session, ops[|ops| - 1]);
    }
  }

  /** `interrupt` refuses exactly inactive sessions: its check for a missing
      run task never decides. */
  lemma {:induction false} InterruptRefusesInactiveOnly(ops: seq<Op>, promote: bool)
    ensures Step(Run(ops).session, Interrupt(promote)).reply == Refused <==> !Run(ops).session.active
  {
    RunInv(ops);
  }

  /** The count `enqueue` returns is the length of the list it joined. */
  lemma EnqueueCount(ops: seq<Op>, prompt: string, mode: string)
    requires Run(ops).session.active
    ensures var o := Step(Run(ops).session, Enqueue(prompt, mode));
            o.reply == Count(if mode == "next" then |ViewOf(o.session).next| else |ViewOf(o.session).later|)
  {
    RunInv(ops);
    AppendLaterShape(Run(ops).session.followUps, prompt);
  }

  // ----- The client's view -----

  lemma {:induction false} LastViewAppend(outs: seq<Out>, more: seq<Out>)
    ensures LastView(outs + more) == if LastView(more).Some? then LastView(more) else LastView(outs)
  {
    if more == [] {
      assert outs + more == outs;
    } else {
      assert (outs + more)[..|outs + more| - 1] == outs + more[..|more| - 1];
      LastViewAppend(outs, more[..|more| - 1]);
    }
  }

  lemma LastViewOne(out: Out)
    ensures LastView([out]) == if out.QueueState? then Some(out.view) else None
  {
    assert [out][..0] == [];
  }

  /** What the client should show. */
  function Shown(s: Session): View {
    if s.active then ViewOf(s) else EmptyView
  }

  /** Messages that take the client from one view to the other. */
  ghost predicate Tells(outs: seq<Out>, was: View, now: View) {
    LastView(outs) == Some(now) || (LastView(outs) == None && was == now)
  }

  lemma ReportTells(s: Session, t: Session)
    requires Registered(s) && t.active == s.active && t.emitter == s.emitter
    ensures Tells(Report(s, t), Shown(s), Shown(t))
  {
    hide ViewOf;
    if t.emitter.Some? {
      LastViewOne(QueueState(t.emitter.value, ViewOf(t)));
    }
  }

  lemma NoiseTells(outs: seq<Out>, before: Out, report: seq<Out>, after: seq<Out>, was: View, now: View)
    requires outs == [before] + report + after && Tells(report, was, now)
    requires !before.QueueState? && |after| <= 1 && (|after| == 1 ==> !after[0].QueueState?)
    ensures Tells(outs, was, now)
  {
    hide LastView;
    LastViewOne(before);
    LastViewAppend([before], report);
    LastViewAppend([before] + report, after);
    if |after| == 1 {
      LastViewOne(after[0]);
      assert after == [after[0]];
    } else {
      assert [before] + report + after == [before] + report;
    }
  }

  /** What one step sends is the new view, or nothing when it is unchanged. */
  lemma StepView(s: Session, op: Op)
    requires Inv(s)
    ensures var o := Step(s, op); Tells(o.outs, Shown(s), Shown(o.session))
  {
    hide PromptsOf, AppendLater, Promote, Shape, LastView, Report;
    var o := Step(s, op);
    NothingTold();
    match op
    case Activate(_, emitter, _) => LastViewOne(QueueState(emitter, ViewOf(o.session)));
    case Deactivate =>
      if s.emitter.Some? {
        LastViewOne(QueueState(s.emitter.value, EmptyView));
      }
    case SubmitBoundary =>
      if s.target.Some? && s.steers != [] {
        ReportTells(s, o.session);
        NoiseTells(o.outs, Attached(s.target.value, s.steers), Report(s, o.session),
                   if s.submitter.Some? then [Submitted(s.submitter.value, s.steers)] else [], Shown(s), Shown(o.session));
      }
    case Interrupt(promote) =>
      if s.active {
        InterruptedSession(s, promote);
        ReportTells(s, o.session);
        assert [Cancelled(s.task.value)] + Report(s, o.session) + [] == [Cancelled(s.task.value)] + Report(s, o.session);
        NoiseTells(o.outs, Cancelled(s.task.value), Report(s, o.session), [], Shown(s), Shown(o.session));
      }
    case Downgrade =>
      InterruptedSession(s, true);
      ReportTells(s, o.session);
    case _ => ReportTells(s, o.session);
  }

  lemma NothingTold()
    ensures LastView([]) == None
  {
  }

  lemma InterruptedSession(s: Session, promote: bool)
    ensures var t := if promote then Promote(s) else s; t.active == s.active && t.emitter == s.emitter
  {
  }

  /** While a session is active the client shows its queues as they are, and
      nothing while it is inactive, after every step of every run. */
  lemma {:induction false} ClientViewCurrent(ops: seq<Op>)
    ensures var h := Run(ops);
            ClientView(h.outs) == if h.session.active then ViewOf(h.session) else EmptyView
  {
    hide Step, Inv, ViewOf;
    if ops != [] {
      var prefix, op := ops[..|ops| - 1], ops[|ops| - 1];
      ClientViewCurrent(prefix);
      RunInv(prefix);
      var s := Run(prefix).session;
      LastViewAppend(Run(prefix).outs, Step(s, op).outs);
      StepView(s, op);
    }
  }

  // ----- Conservation -----

  function ReplyOf(ops: seq<Op>): Reply
    requires ops != []
  {
    Step(Run(ops[..|ops| - 1]).session, ops[|ops| - 1]).reply
  }

  /** The prompts a message hands to the running task. */
  function AttachedBy(outs: seq<Out>): seq<string> {
    if outs == [] then []
    else AttachedBy(outs[..|outs| - 1]) + if outs[|outs| - 1].Attached? then outs[|outs| - 1].prompts else []
  }

  /** The prompts a reply says were accepted, or returns as taken. */
  function AcceptedBy(next: bool, op: Op, reply: Reply): seq<string> {
    if op.Enqueue? && reply != Refused && (op.mode == "next") == next then [op.prompt] else []
  }

  function TakenBy(reply: Reply): seq<string> {
    if reply.Taken? && reply.batch.Some? then reply.batch.value else []
  }

  function Accepted(next: bool, ops: seq<Op>): seq<string> {
    if ops == [] then []
    else Accepted(next, ops[..|ops| - 1]) + AcceptedBy(next, ops[|ops| - 1], ReplyOf(ops))
  }

  function AllTaken(ops: seq<Op>): seq<string> {
    if ops == [] then [] else AllTaken(ops[..|ops| - 1]) + TakenBy(ReplyOf(ops))
  }

  /** Whether the next batch to be taken is of a kind. */
  predicate Front(kind: Kind, s: Session) {
    s.followUps != [] && s.followUps[0].kind == kind
  }

  /** The replies that returned batches of one kind. */
  function TakenOf(kind: Kind, ops: seq<Op>): seq<string> {
    if ops == [] then []
    else
      TakenOf(kind, ops[..|ops| - 1]) + if Front(kind, Run(ops[..|ops| - 1]).session) then TakenBy(ReplyOf(ops)) else []
  }

  /** What was observed of a session: prompts accepted, attached and taken. */
  datatype Ledger = Ledger(acceptedNext: seq<string>, acceptedLater: seq<string>, attached: seq<string>,
                           takenNext: seq<string>, takenLater: seq<string>, taken: seq<string>)

  function Observed(ops: seq<Op>): Ledger {
    Ledger(Accepted(true, ops), Accepted(false, ops), AttachedBy(Run(ops).outs), TakenOf(Next, ops), TakenOf(Later, ops),
           AllTaken(ops))
  }

  /** One step's messages and reply added. */
  function Entry(l: Ledger, s: Session, op: Op, o: Outcome): Ledger {
    Ledger(l.acceptedNext + AcceptedBy(true, op, o.reply), l.acceptedLater + AcceptedBy(false, op, o.reply),
           l.attached + AttachedBy(o.outs),
           l.takenNext + (if Front(Next, s) then TakenBy(o.reply) else []),
           l.takenLater + (if Front(Later, s) then TakenBy(o.reply) else []),
           l.taken + TakenBy(o.reply))
  }

  lemma {:induction false} AttachedAppend(outs: seq<Out>, more: seq<Out>)
    ensures AttachedBy(outs + more) == AttachedBy(outs) + AttachedBy(more)
  {
    if more == [] {
      assert outs + more == outs;
    } else {
      assert (outs + more)[..|outs + more| - 1] == outs + more[..|more| - 1];
      AttachedAppend(outs, more[..|more| - 1]);
    }
  }

  lemma ObservedStep(ops: seq<Op>)
    requires ops != []
    ensures var before := Run(ops[..|ops| - 1]);
            Observed(ops) == Entry(Observed(ops[..|ops| - 1]), before.session, ops[|ops| - 1],
                                   Step(before.session, ops[|ops| - 1]))
  {
    hide Step, AttachedBy, AcceptedBy, TakenBy;
    var before := Run(ops[..|ops| - 1]);
    AttachedAppend(before.outs, Step(before.session, ops[|ops| - 1]).outs);
  }

  /** The steers that have left the queue: accepted and no longer waiting. */
  function Left(l: Ledger, s: Session): seq<string>
    requires |s.steers| <= |l.acceptedNext|
  {
    l.acceptedNext[..|l.acceptedNext| - |s.steers|]
  }

  ghost predicate Balanced(l: Ledger, s: Session) {
    && |s.steers| <= |l.acceptedNext|
    && l.acceptedNext == Left(l, s) + s.steers
    && Subsequence(l.attached, Left(l, s))
    && multiset(Left(l, s)) == multiset(l.attached) + multiset(l.takenNext) + multiset(PromptsOf(Next, s.followUps))
    && l.acceptedLater == l.takenLater + PromptsOf(Later, s.followUps)
    && multiset(l.taken) == multiset(l.takenNext) + multiset(l.takenLater)
  }

  /** A step that neither accepts, attaches nor takes a prompt, and moves none. */
  lemma IdleBalanced(l: Ledger, s: Session, op: Op)
    requires Balanced(l, s)
    requires var o := Step(s, op);
             && AcceptedBy(true, op, o.reply) == AcceptedBy(false, op, o.reply) == [] == AttachedBy(o.outs)
             && TakenBy(o.reply) == [] && o.session.steers == s.steers && o.session.followUps == s.followUps
    ensures Balanced(Entry(l, s, op, Step(s, op)), Step(s, op).session)
  {
    hide Step, PromptsOf, Subsequence, AttachedBy, AcceptedBy, TakenBy;
    assert Entry(l, s, op, Step(s, op)) == l;
  }

  lemma EnqueueBalanced(l: Ledger, s: Session, prompt: string, mode: string)
    requires Balanced(l, s) && Inv(s)
    ensures var op := Enqueue(prompt, mode); Balanced(Entry(l, s, op, Step(s, op)), Step(s, op).session)
  {
    hide PromptsOf, AppendLater, Subsequence;
    var op := Enqueue(prompt, mode);
    var o := Step(s, op);
    NothingAttached(o.outs);
    if o.reply == Refused {
      IdleBalanced(l, s, op);
    } else if mode == "next" {
      var e := Entry(l, s, op, o);
      assert e == l.(acceptedNext := l.acceptedNext + [prompt]);
      assert Left(e, o.session) == Left(l, s);
    } else {
      AppendLaterShape(s.followUps, prompt);
      var e := Entry(l, s, op, o);
      assert e == l.(acceptedLater := l.acceptedLater + [prompt]);
      assert Left(e, o.session) == Left(l, s);
    }
  }

  lemma {:induction false} NothingAttached(outs: seq<Out>)
    requires forall i :: 0 <= i < |outs| ==> !outs[i].Attached?
    ensures AttachedBy(outs) == []
  {
    if outs != [] {
      NothingAttached(outs[..|outs| - 1]);
    }
  }

  lemma SubmitBalanced(l: Ledger, s: Session)
    requires Balanced(l, s)
    ensures Balanced(Entry(l, s, SubmitBoundary, Step(s, SubmitBoundary)), Step(s, SubmitBoundary).session)
  {
    hide PromptsOf, Subsequence, AttachedBy, Report, Balanced, Entry;
    var o := Step(s, SubmitBoundary);
    if s.target.None? || s.steers == [] {
      NothingAttached(o.outs);
      IdleBalanced(l, s, SubmitBoundary);
    } else {
      SubmitAttaches(s);
      SubmittedEntry(l, s, o);
      LeftBalanced(l, s, o.session);
    }
  }

  lemma SubmitAttaches(s: Session)
    requires s.target.Some? && s.steers != []
    ensures AttachedBy(Step(s, SubmitBoundary).outs) == s.steers
  {
    hide AttachedBy, ViewOf;
    var o := Step(s, SubmitBoundary);
    var rest := Report(s, o.session) + if s.submitter.Some? then [Submitted(s.submitter.value, s.steers)] else [];
    NothingAttached(rest);
    OneAttached(s.target.value, s.steers);
    AttachedAppend([Attached(s.target.value, s.steers)], rest);
    assert o.outs == [Attached(s.target.value, s.steers)] + rest;
  }

  lemma SubmittedEntry(l: Ledger, s: Session, o: Outcome)
    requires AttachedBy(o.outs) == s.steers && o.reply == Done
    ensures Entry(l, s, SubmitBoundary, o) == l.(attached := l.attached + s.steers)
  {
    hide AttachedBy;
  }

  /** All waiting steers attached at once. */
  lemma LeftBalanced(l: Ledger, s: Session, after: Session)
    requires Balanced(l, s) && after.steers == [] && after.followUps == s.followUps
    ensures Balanced(l.(attached := l.attached + s.steers), after)
  {
    hide PromptsOf, Subsequence;
    var left, grown := Left(l, s), l.(attached := l.attached + s.steers);
    assert Left(grown, after) == l.acceptedNext == left + s.steers;
    assert grown.acceptedNext == Left(grown, after) + after.steers;
    assert multiset(left + s.steers) == multiset(left) + multiset(s.steers);
    SubsequenceAppend(l.attached, left, s.steers);
  }

  lemma OneAttached(target: int, prompts: seq<string>)
    ensures AttachedBy([Attached(target, prompts)]) == prompts
  {
    assert AttachedBy([Attached(target, prompts)]) == AttachedBy([]) + prompts;
  }

  /** Promoting moves the waiting steers to the front of the batches. */
  lemma PromoteBalanced(l: Ledger, s: Session)
    requires Balanced(l, s)
    ensures Balanced(l, Promote(s))
  {
    hide PromptsOf, Subsequence;
    if s.steers != [] {
      PrependNext(s.steers, s.followUps);
      assert Left(l, Promote(s)) == Left(l, s) + s.steers;
      SubsequenceAppend(l.attached, Left(l, s), s.steers);
    }
  }

  lemma PrependNext(prompts: seq<string>, batches: seq<Batch>)
    ensures PromptsOf(Later, [Batch(Next, prompts)] + batches) == PromptsOf(Later, batches)
    ensures PromptsOf(Next, [Batch(Next, prompts)] + batches) == prompts + PromptsOf(Next, batches)
  {
    assert ([Batch(Next, prompts)] + batches)[1..] == batches;
  }

  lemma PromotedBalanced(l: Ledger, s: Session, op: Op)
    requires Balanced(l, s) && (op.Downgrade? || op.Interrupt?)
    ensures Balanced(Entry(l, s, op, Step(s, op)), Step(s, op).session)
  {
    hide PromptsOf, Subsequence, Balanced;
    var o := Step(s, op);
    NothingAttached(o.outs);
    EntryUnchanged(l, s, op, o);
    PromoteBalanced(l, s);
  }

  lemma EntryUnchanged(l: Ledger, s: Session, op: Op, o: Outcome)
    requires AttachedBy(o.outs) == [] && !op.Enqueue? && !o.reply.Taken?
    ensures Entry(l, s, op, o) == l
  {
  }

  lemma TakeBalanced(l: Ledger, s: Session)
    requires Balanced(l, s)
    ensures Balanced(Entry(l, s, Take, Step(s, Take)), Step(s, Take).session)
  {
    hide Subsequence, PromptsOf, Balanced, Report;
    var o := Step(s, Take);
    assert forall i :: 0 <= i < |o.outs| ==> !o.outs[i].Attached? by {
      ReportsOnly(s, o.session);
    }
    NothingAttached(o.outs);
    if s.followUps == [] {
      IdleBalanced(l, s, Take);
    } else {
      var prompts := s.followUps[0].prompts;
      assert Entry(l, s, Take, o)
          == l.(takenNext := l.takenNext + OwnPrompts(Next, s.followUps[0]),
                takenLater := l.takenLater + OwnPrompts(Later, s.followUps[0]), taken := l.taken + prompts);
      FirstTaken(l, s, o.session);
    }
  }

  lemma ReportsOnly(before: Session, after: Session)
    ensures forall i :: 0 <= i < |Report(before, after)| ==> Report(before, after)[i].QueueState?
  {
  }

  lemma FirstTaken(l: Ledger, s: Session, after: Session)
    requires Balanced(l, s) && s.followUps != [] && after.steers == s.steers && after.followUps == s.followUps[1..]
    ensures Balanced(l.(takenNext := l.takenNext + OwnPrompts(Next, s.followUps[0]),
                        takenLater := l.takenLater + OwnPrompts(Later, s.followUps[0]),
                        taken := l.taken + s.followUps[0].prompts), after)
  {
    hide Subsequence, PromptsOf;
    var first, rest := s.followUps[0], s.followUps[1..];
    FirstPrompts(Next, s.followUps);
    FirstPrompts(Later, s.followUps);
    ConcatAssociative(l.takenLater, OwnPrompts(Later, first), PromptsOf(Later, rest));
    if first.kind == Next {
      assert OwnPrompts(Later, first) == [];
    } else {
      assert OwnPrompts(Next, first) == [];
    }
  }

  lemma FirstPrompts(kind: Kind, batches: seq<Batch>)
    requires batches != []
    ensures PromptsOf(kind, batches) == OwnPrompts(kind, batches[0]) + PromptsOf(kind, batches[1..])
  {
  }

  lemma StepBalanced(l: Ledger, s: Session, op: Op)
    requires Balanced(l, s) && Inv(s)
    ensures Balanced(Entry(l, s, op, Step(s, op)), Step(s, op).session)
  {
    hide Balanced, Inv, Entry, PromptsOf, Promote, AppendLater;
    match op
    case Enqueue(prompt, mode) => EnqueueBalanced(l, s, prompt, mode);
    case SubmitBoundary => SubmitBalanced(l, s);
    case Take => TakeBalanced(l, s);
    case Downgrade => PromotedBalanced(l, s, op);
    case Interrupt(_) => PromotedBalanced(l, s, op);
    case _ =>
      NothingAttached(Step(s, op).outs);
      IdleBalanced(l, s, op);
  }

  /** Nothing is lost, duplicated or reordered. The steers still waiting are the
      last ones accepted; of those before, the attached ones are in the order
      accepted and the others are in batches taken or still queued; and later
      prompts are taken in the order accepted. */
  lemma {:induction false} RunBalanced(ops: seq<Op>)
    ensures Balanced(Observed(ops), Run(ops).session)
  {
    hide Balanced, Step, Inv, Entry;
    if ops == [] {
      NothingObserved();
    } else {
      var prefix, op := ops[..|ops| - 1], ops[|ops| - 1];
      RunBalanced(prefix);
      RunInv(prefix);
      ObservedStep(ops);
      StepBalanced(Observed(prefix), Run(prefix).session, op);
    }
  }

  lemma NothingObserved()
    ensures Balanced(Observed([]), Run([]).session)
  {
    hide Step;
    assert Run([]) == History(Fresh, []);
    assert Observed([]) == Ledger([], [], [], [], [], []);
    EmptyBalanced();
  }

  lemma EmptyBalanced()
    ensures Balanced(Ledger([], [], [], [], [], []), Fresh)
  {
    assert Left(Ledger([], [], [], [], [], []), Fresh) == [];
  }

  /** Over any run the accepted prompts are, as a multiset, those in the messages
      that attach, those in the replies that return a batch, and those queued. */
  lemma PromptsConserved(ops: seq<Op>)
    ensures multiset(Accepted(true, ops) + Accepted(false, ops))
         == multiset(AttachedBy(Run(ops).outs)) + multiset(AllTaken(ops)) + multiset(Queued(Run(ops).session))
  {
    hide Run, Accepted, AllTaken, TakenOf, AttachedBy, PromptsOf, Subsequence;
    RunBalanced(ops);
    var l, s := Observed(ops), Run(ops).session;
    assert multiset(l.acceptedNext) == multiset(Left(l, s)) + multiset(s.steers);
  }

  function Queued(s: Session): seq<string> {
    s.steers + PromptsOf(Next, s.followUps) + PromptsOf(Later, s.followUps)
  }

  // ----- Queues and registrations read off the run -----

  lemma RunSnoc(ops: seq<Op>, op: Op)
    ensures var o := Step(Run(ops).session, op);
            Run(ops + [op]) == History(o.session, Run(ops).outs + o.outs)
  {
    assert (ops + [op])[..|ops|] == ops;
  }

  /** The steers waiting after a run: those accepted since the last one that was
      attached at a boundary or moved away. */
  function Waiting(ops: seq<Op>): seq<string> {
    if ops == [] then []
    else
      var before, op := Waiting(ops[..|ops| - 1]), ops[|ops| - 1];
      match op
      case Enqueue(_, _) => before + AcceptedBy(true, op, ReplyOf(ops))
      case SubmitBoundary => if ReplyOf(ops) == Refused then before else []
      case Interrupt(promote) => if promote && ReplyOf(ops) != Refused then [] else before
      case Downgrade => []
      case _ => before
  }

  lemma {:induction false} WaitingIsSteers(ops: seq<Op>)
    ensures Run(ops).session.steers == Waiting(ops)
  {
    hide AppendLater, ViewOf, Report;
    if ops != [] {
      WaitingIsSteers(ops[..|ops| - 1]);
    }
  }

  /** The run task since the last activation, while active. */
  function TaskOf(ops: seq<Op>): Option<int> {
    if ops == [] then None
    else
      match ops[|ops| - 1]
      case Activate(task, _, _) => Some(task)
      case Deactivate => None
      case _ => TaskOf(ops[..|ops| - 1])
  }

  function EmitterOf(ops: seq<Op>): Option<int> {
    if ops == [] then None
    else
      match ops[|ops| - 1]
      case Activate(_, emitter, _) => Some(emitter)
      case Deactivate => None
      case _ => EmitterOf(ops[..|ops| - 1])
  }

  /** Whom submitted batches are announced to: an activation that names nobody
      keeps the one before. */
  function SubmitterOf(ops: seq<Op>): Option<int> {
    if ops == [] then None
    else
      match ops[|ops| - 1]
      case Activate(_, _, submitter) => if submitter.Some? then submitter else SubmitterOf(ops[..|ops| - 1])
      case Deactivate => None
      case _ => SubmitterOf(ops[..|ops| - 1])
  }

  /** The boundary that is open: the first opened since the last was closed. */
  function BoundaryOf(ops: seq<Op>): Option<int> {
    if ops == [] then None
    else
      var before := BoundaryOf(ops[..|ops| - 1]);
      match ops[|ops| - 1]
      case OpenBoundary(target) => if before.None? then Some(target) else before
      case CloseBoundary => None
      case Deactivate => None
      case _ => before
  }

  /** What one step makes of the registrations. */
  lemma StepRegisters(s: Session, op: Op)
    ensures var t := Step(s, op).session;
            match op
            case Activate(task, emitter, submitter) =>
              && t.active && t.task == Some(task) && t.emitter == Some(emitter) && t.target == s.target
              && t.submitter == if submitter.Some? then submitter else s.submitter
            case Deactivate => !t.active && t.task == t.emitter == t.submitter == t.target == None
            case OpenBoundary(target) =>
              && t == s.(target := t.target) && t.target == if s.target.None? then Some(target) else s.target
            case CloseBoundary => t == s.(target := None)
            case _ => t == s.(steers := t.steers, followUps := t.followUps)
  {
    hide AppendLater, ViewOf, Report, Promote;
    PromoteKeepsRegistrations(s);
  }

  lemma {:induction false} RegistrationsAreLast(ops: seq<Op>)
    ensures var s := Run(ops).session;
            && s.active == TaskOf(ops).Some? && s.task == TaskOf(ops)
            && s.emitter == EmitterOf(ops) && s.submitter == SubmitterOf(ops) && s.target == BoundaryOf(ops)
  {
    hide Step;
    if ops != [] {
      var prefix, op := ops[..|ops| - 1], ops[|ops| - 1];
      RegistrationsAreLast(prefix);
      StepRegisters(Run(prefix).session, op);
    }
  }

  lemma PromoteKeepsRegistrations(s: Session)
    ensures Promote(s) == s.(steers := Promote(s).steers, followUps := Promote(s).followUps)
  {
  }

  /** The messages of one step other than queue states. */
  function Deeds(outs: seq<Out>): seq<Out> {
    if outs == [] then []
    else Deeds(outs[..|outs| - 1]) + if outs[|outs| - 1].QueueState? then [] else [outs[|outs| - 1]]
  }

  lemma {:induction false} DeedsAppend(outs: seq<Out>, more: seq<Out>)
    ensures Deeds(outs + more) == Deeds(outs) + Deeds(more)
  {
    if more == [] {
      assert outs + more == outs;
    } else {
      assert (outs + more)[..|outs + more| - 1] == outs + more[..|more| - 1];
      DeedsAppend(outs, more[..|more| - 1]);
    }
  }

  lemma {:induction false} NoDeeds(outs: seq<Out>)
    requires forall i :: 0 <= i < |outs| ==> outs[i].QueueState?
    ensures Deeds(outs) == []
  {
    if outs != [] {
      NoDeeds(outs[..|outs| - 1]);
    }
  }

  lemma OneDeed(out: Out)
    requires !out.QueueState?
    ensures Deeds([out]) == [out]
  {
    assert Deeds([out]) == Deeds([]) + [out];
  }

  lemma DeedAndReport(deed: Out, before: Session, after: Session, more: seq<Out>)
    requires !deed.QueueState? && |more| <= 1 && (|more| == 1 ==> !more[0].QueueState?)
    ensures Deeds([deed] + Report(before, after) + more) == [deed] + more
  {
    hide Deeds;
    ReportsOnly(before, after);
    NoDeeds(Report(before, after));
    OneDeed(deed);
    DeedsAppend([deed], Report(before, after));
    DeedsAppend([deed] + Report(before, after), more);
    if |more| == 1 {
      OneDeed(more[0]);
      assert more == [more[0]];
    } else {
      NoDeeds(more);
    }
  }

  /** A submit is refused exactly without an open boundary. Otherwise the waiting
      steers, if any, are attached there and announced, and nobody waits. */
  lemma SubmitExact(ops: seq<Op>)
    ensures var all := ops + [SubmitBoundary];
            var o := Step(Run(ops).session, SubmitBoundary);
            && (ReplyOf(all) == Refused <==> BoundaryOf(ops).None?)
            && Deeds(o.outs)
               == (if BoundaryOf(ops).None? || Waiting(ops) == [] then []
                   else [Attached(BoundaryOf(ops).value, Waiting(ops))]
                        + if SubmitterOf(ops).Some? then [Submitted(SubmitterOf(ops).value, Waiting(ops))] else [])
            && Waiting(all) == if BoundaryOf(ops).None? then Waiting(ops) else []
  {
    hide Report, Deeds, Run;
    var all := ops + [SubmitBoundary];
    assert all[..|ops|] == ops;
    RegistrationsAreLast(ops);
    WaitingIsSteers(ops);
    NoDeeds([]);
    var s := Run(ops).session;
    if s.target.Some? && s.steers != [] {
      DeedAndReport(Attached(s.target.value, s.steers), s, s.(steers := []),
                    if s.submitter.Some? then [Submitted(s.submitter.value, s.steers)] else []);
    }
  }

  /** A boundary opens exactly when none is open. */
  lemma OpenExact(ops: seq<Op>, target: int)
    ensures var all := ops + [OpenBoundary(target)];
            && (ReplyOf(all) == Refused <==> BoundaryOf(ops).Some?)
            && BoundaryOf(all) == if BoundaryOf(ops).Some? then BoundaryOf(ops) else Some(target)
  {
    assert (ops + [OpenBoundary(target)])[..|ops|] == ops;
    RegistrationsAreLast(ops);
  }

  /** An interrupt of an active session cancels its own run task, and only that. */
  lemma InterruptCancels(ops: seq<Op>, promote: bool)
    ensures var all := ops + [Interrupt(promote)];
            var o := Step(Run(ops).session, Interrupt(promote));
            && Deeds(o.outs) == (if TaskOf(ops).Some? then [Cancelled(TaskOf(ops).value)] else [])
            && ReplyOf(all) == (if TaskOf(ops).None? then Refused else Count(if promote then |Waiting(ops)| else 0))
  {
    hide Report, Deeds, Run, Promote;
    var all := ops + [Interrupt(promote)];
    assert all[..|ops|] == ops;
    RegistrationsAreLast(ops);
    WaitingIsSteers(ops);
    NoDeeds([]);
    var s := Run(ops).session;
    if s.task.Some? {
      var t := if promote then Promote(s) else s;
      DeedAndReport(Cancelled(s.task.value), s, t, []);
      assert [Cancelled(s.task.value)] + Report(s, t) + [] == [Cancelled(s.task.value)] + Report(s, t);
    }
  }

  // ----- What promoting steers comes to -----

  /** A step that moves the waiting steers to the follow-ups. */
  predicate Moves(ops: seq<Op>, op: Op) {
    op == Downgrade || (op == Interrupt(true) && TaskOf(ops).Some?)
  }

  /** Queueing needs an active run, and nothing else. */
  lemma EnqueueExact(ops: seq<Op>, prompt: string, mode: string)
    ensures var all := ops + [Enqueue(prompt, mode)];
            && (ReplyOf(all) == Refused <==> TaskOf(ops).None?)
            && (ReplyOf(all) == Refused ==> Run(all) == Run(ops))
            && (ReplyOf(all) != Refused && mode == "next" ==> Waiting(all) == Waiting(ops) + [prompt])
  {
    hide Report, PromptsOf, AppendLater;
    assert (ops + [Enqueue(prompt, mode)])[..|ops|] == ops;
    RegistrationsAreLast(ops);
    assert Run(ops).outs + [] == Run(ops).outs;
  }

  /** Queue states go to the emitter of the run, that of a deactivation to the
      one it takes away. */
  lemma ReportsGoToEmitter(ops: seq<Op>, op: Op, out: Out)
    requires out in Step(Run(ops).session, op).outs && out.QueueState?
    ensures Some(out.to) == EmitterOf(if op.Deactivate? then ops else ops + [op])
  {
    hide PromptsOf, AppendLater, ViewOf, Run;
    assert (ops + [op])[..|ops|] == ops;
    RegistrationsAreLast(ops);
  }

  /** All queued follow-up prompts, in the order of their batches. */
  function Batched(batches: seq<Batch>): seq<string> {
    if batches == [] then [] else batches[0].prompts + Batched(batches[1..])
  }

  /** After downgrading, or an interrupt that promotes, no steer waits; if any
      did, the next batch taken is exactly those, in the order accepted. */
  lemma MovedSteersComeNext(ops: seq<Op>, op: Op)
    requires Moves(ops, op)
    ensures Waiting(ops + [op]) == []
    ensures var taken := ReplyOf(ops + [op] + [Take]);
            Waiting(ops) != [] ==> taken == Reply.Taken(Some(Waiting(ops)))
    ensures Batched(Run(ops + [op]).session.followUps) == Waiting(ops) + Batched(Run(ops).session.followUps)
  {
    hide Report, ViewOf, AppendLater, PromptsOf, Waiting;
    assert (ops + [op])[..|ops|] == ops;
    assert (ops + [op] + [Take])[..|ops + [op]|] == ops + [op];
    RegistrationsAreLast(ops);
    WaitingIsSteers(ops);
    WaitingIsSteers(ops + [op]);
    var s := Run(ops).session;
    assert Run(ops + [op]).session == Promote(s);
    if s.steers != [] {
      assert ([Batch(Next, s.steers)] + s.followUps)[1..] == s.followUps;
    }
  }

  function Takes(n: nat): seq<Op> {
    seq(n, _ => Take)
  }

  lemma TakeOnce(ops: seq<Op>)
    ensures var s, t := Run(ops).session, Run(ops + [Take]).session;
            && t.steers == s.steers
            && t.followUps == (if s.followUps == [] then [] else s.followUps[1..])
            && ReplyOf(ops + [Take]) == Reply.Taken(if s.followUps == [] then None else Some(s.followUps[0].prompts))
            && AllTaken(ops + [Take]) + Batched(t.followUps) == AllTaken(ops) + Batched(s.followUps)
  {
    hide Report, ViewOf, Run;
    RunSnoc(ops, Take);
    assert (ops + [Take])[..|ops|] == ops;
  }

  /** Taking batches returns them front first and loses none. */
  lemma {:induction false} TakesKeepOrder(ops: seq<Op>, n: nat)
    ensures var s, t := Run(ops).session, Run(ops + Takes(n)).session;
            && t.steers == s.steers
            && t.followUps == (if n <= |s.followUps| then s.followUps[n..] else [])
            && AllTaken(ops + Takes(n)) + Batched(t.followUps) == AllTaken(ops) + Batched(s.followUps)
  {
    hide Run, AllTaken, Batched;
    if n == 0 {
      assert ops + Takes(0) == ops;
    } else {
      TakesKeepOrder(ops, n - 1);
      TakeOnce(ops + Takes(n - 1));
      assert ops + Takes(n) == ops + Takes(n - 1) + [Take];
    }
  }

  /** Downgrading and then taking until nothing is left returns every queued
      prompt: first the steers in the order accepted, then the batches in order.
      Nothing stays queued, and it takes one request more than there are batches. */
  lemma DowngradeThenDrain(ops: seq<Op>, n: nat)
    ensures var all := ops + [Downgrade] + Takes(n + 1);
            && (ReplyOf(all) == Reply.Taken(None) <==> n >= |Run(ops + [Downgrade]).session.followUps|)
            && (ReplyOf(all) == Reply.Taken(None) ==>
                  && Queued(Run(all).session) == []
                  && AllTaken(all) == AllTaken(ops) + Waiting(ops) + Batched(Run(ops).session.followUps))
  {
    hide Run, AllTaken, Batched, Waiting;
    var down := ops + [Downgrade];
    MovedSteersComeNext(ops, Downgrade);
    WaitingIsSteers(down);
    TakesKeepOrder(down, n);
    TakeOnce(down + Takes(n));
    assert down + Takes(n + 1) == down + Takes(n) + [Take];
    DowngradeTakesNothing(ops);
    NoneBatched();
    if n >= |Run(down).session.followUps| {
      assert Run(down + Takes(n)).session.followUps == [];
      assert AllTaken(down + Takes(n)) + [] == AllTaken(down + Takes(n));
      ConcatAssociative(AllTaken(ops), Waiting(ops), Batched(Run(ops).session.followUps));
    }
  }

  lemma NoneBatched()
    ensures Batched([]) == [] && PromptsOf(Next, []) == [] && PromptsOf(Later, []) == []
  {
  }

  lemma DowngradeTakesNothing(ops: seq<Op>)
    ensures AllTaken(ops + [Downgrade]) == AllTaken(ops)
  {
    assert (ops + [Downgrade])[..|ops|] == ops;
  }
}
