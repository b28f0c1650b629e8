/**
 * The queue state of all sessions as the program keeps it: dictionaries keyed
 * by session id that each method updates.  The object remembers, as a ghost,
 * the steps each session took; `Valid` says that every session is where the
 * run of its own steps leaves it, and was sent exactly what that run sends.
 */
module FollowUpState {
  import opened Common
  import opened FollowUpSpec
  import Spec = FollowUpSpec

  ghost function Recorded(history: map<string, seq<Op>>, id: string, op: Op): map<string, seq<Op>> {
    history[id := GetSeq(history, id) + [op]]
  }

  class State {
    var activeSessions: set<string>
    var activeRunTasks: map<string, int>
    var followUpQueues: map<string, seq<Batch>>
    var steerQueues: map<string, seq<string>>
    var steerTargets: map<string, int>
    var queueEmitters: map<string, int>
    var submittedEmitters: map<string, int>
    var outbox: map<string, seq<Out>>
    ghost var history: map<string, seq<Op>>

    ghost function At(id: string): Session
      reads this
    {
      Session(id in activeSessions, Get(activeRunTasks, id), GetSeq(steerQueues, id), GetSeq(followUpQueues, id),
              Get(steerTargets, id), Get(queueEmitters, id), Get(submittedEmitters, id))
    }

    ghost predicate Tracks(id: string)
      reads this
    {
      At(id) == Run(GetSeq(history, id)).session && GetSeq(outbox, id) == Run(GetSeq(history, id)).outs
    }

    ghost predicate Valid()
      reads this
    {
      forall id: string :: Tracks(id)
    }

    constructor ()
      ensures Valid() && history == map[]
    {
      activeSessions, activeRunTasks, followUpQueues, steerQueues := {}, map[], map[], map[];
      steerTargets, queueEmitters, submittedEmitters, outbox, history := map[], map[], map[], map[], map[];
    }

    function BuildQueueState(id: string): (v: View)
      reads this
      ensures v == ViewOf(At(id))
    {
      View(GetSeq(steerQueues, id), PromptsOf(Later, GetSeq(followUpQueues, id)))
    }

    /** Closes a step: the session moved and sent what the step says, and every
        other session is as its own history says. */
    ghost method Record(id: string, op: Op)
      requires var h := Run(GetSeq(history, id));
               var o := Spec.Step(h.session, op);
               At(id) == o.session && GetSeq(outbox, id) == h.outs + o.outs
      requires forall other: string :: other != id ==> Tracks(other)
      modifies `history
      ensures history == Recorded(old(history), id, op)
      ensures Valid()
    {
      hide Run, Spec.Step;
      RunSnoc(GetSeq(history, id), op);
      history := Recorded(history, id, op);
      forall other: string
        ensures Tracks(other)
      {
        if other != id {
          assert old(Tracks(other));
        }
      }
    }

    method Send(id: string, out: Out)
      modifies `outbox
      ensures GetSeq(outbox, id) == old(GetSeq(outbox, id)) + [out]
      ensures forall other: string :: other != id ==> GetSeq(outbox, other) == old(GetSeq(outbox, other))
    {
      outbox := outbox[id := GetSeq(outbox, id) + [out]];
    }

    /** `if emitter is not None and previous_event != event: await emitter(event)`. */
    method SendIfChanged(id: string, previous: View)
      modifies `outbox
      ensures GetSeq(outbox, id) == old(GetSeq(outbox, id))
              + if id in queueEmitters && previous != ViewOf(At(id)) then [QueueState(queueEmitters[id], ViewOf(At(id)))] else []
      ensures forall other: string :: other != id ==> GetSeq(outbox, other) == old(GetSeq(outbox, other))
    {
      var event := BuildQueueState(id);
      if id in queueEmitters && previous != event {
        Send(id, QueueState(queueEmitters[id], event));
      }
    }

    method Activate(id: string, runTask: int, emitQueueState: int, emitSubmitted: Option<int>)
      requires Valid()
      modifies this
      ensures history == Recorded(old(history), id, Op.Activate(runTask, emitQueueState, emitSubmitted))
      ensures Valid()
    {
      hide PromptsOf, AppendLater, Run;
      assert Tracks(id);
      Register(id, runTask, emitQueueState, emitSubmitted);
      var event := BuildQueueState(id);
      if event.next != [] || event.later != [] {
        Send(id, QueueState(emitQueueState, event));
      }
      forall other: string | other != id
        ensures Tracks(other)
      {
        assert old(Tracks(other));
      }
      Record(id, Op.Activate(runTask, emitQueueState, emitSubmitted));
    }

    method Deactivate(id: string)
      requires Valid()
      modifies this
      ensures history == Recorded(old(history), id, Op.Deactivate)
      ensures Valid()
    {
      hide PromptsOf, AppendLater, Run;
      assert Tracks(id);
      var previous := BuildQueueState(id);
      var emitter := Get(queueEmitters, id);
      Unregister(id);
      if emitter.Some? && (previous.next != [] || previous.later != []) {
        Send(id, QueueState(emitter.value, EmptyView));
      }
      forall other: string | other != id
        ensures Tracks(other)
      {
        assert old(Tracks(other));
      }
      Record(id, Op.Deactivate);
    }

    method Enqueue(id: string, prompt: string, mode: string) returns (reply: Reply)
      requires Valid()
      modifies this
      ensures history == Recorded(old(history), id, Op.Enqueue(prompt, mode))
      ensures reply == Spec.Step(old(At(id)), Op.Enqueue(prompt, mode)).reply
      ensures Valid()
    {
      hide PromptsOf, AppendLater, Run;
      assert Tracks(id);
      if id !in activeSessions {
        reply := Refused;
      } else {
        var previous := BuildQueueState(id);
        if mode == "next" {
          steerQueues := steerQueues[id := GetSeq(steerQueues, id) + [prompt]];
          reply := Count(|steerQueues[id]|);
        } else {
          var count := AppendFollowUp(id, prompt);
          reply := Count(count);
        }
        SendIfChanged(id, previous);
      }
      forall other: string | other != id
        ensures Tracks(other)
      {
        assert old(Tracks(other));
      }
      Record(id, Op.Enqueue(prompt, mode));
    }

    method ActivateSteerBoundary(id: string, attach: int) returns (reply: Reply)
      requires Valid()
      modifies this
      ensures history == Recorded(old(history), id, OpenBoundary(attach))
      ensures reply == Spec.Step(old(At(id)), OpenBoundary(attach)).reply
      ensures Valid()
    {
      hide PromptsOf, AppendLater, Run;
      assert Tracks(id);
      var previous := BuildQueueState(id);
      if id in steerTargets {
        reply := Refused;
      } else {
        steerTargets := steerTargets[id := attach];
        SendIfChanged(id, previous);
        reply := Done;
      }
      forall other: string | other != id
        ensures Tracks(other)
      {
        assert old(Tracks(other));
      }
      Record(id, OpenBoundary(attach));
    }

    method SubmitActiveSteerBoundary(id: string) returns (reply: Reply)
      requires Valid()
      modifies this
      ensures history == Recorded(old(history), id, SubmitBoundary)
      ensures reply == Spec.Step(old(At(id)), SubmitBoundary).reply
      ensures Valid()
    {
      hide PromptsOf, AppendLater, Run;
      assert Tracks(id);
      var previous := BuildQueueState(id);
      if id !in steerTargets {
        reply := Refused;
      } else {
        var submitted := DrainPendingSteers(id);
        if submitted != [] {
          SendSubmitted(id, previous, submitted);
        }
        reply := Done;
      }
      forall other: string | other != id
        ensures Tracks(other)
      {
        assert old(Tracks(other));
      }
      Record(id, SubmitBoundary);
    }

    /** The attach call, the changed queue state and the submitted batch. */
    method SendSubmitted(id: string, previous: View, submitted: seq<string>)
      requires id in steerTargets && submitted != [] && previous != ViewOf(At(id))
      modifies `outbox
      ensures GetSeq(outbox, id) == old(GetSeq(outbox, id))
              + ([Attached(steerTargets[id], submitted)]
                 + (if id in queueEmitters then [QueueState(queueEmitters[id], ViewOf(At(id)))] else [])
                 + (if id in submittedEmitters then [Submitted(submittedEmitters[id], submitted)] else []))
      ensures forall other: string :: other != id ==> GetSeq(outbox, other) == old(GetSeq(outbox, other))
    {
      hide ViewOf;
      ghost var attached := [Attached(steerTargets[id], submitted)];
      ghost var reported := if id in queueEmitters then [QueueState(queueEmitters[id], ViewOf(At(id)))] else [];
      Send(id, Attached(steerTargets[id], submitted));
      SendIfChanged(id, previous);
      ConcatAssociative(old(GetSeq(outbox, id)), attached, reported);
      if id in submittedEmitters {
        ConcatAssociative(old(GetSeq(outbox, id)), attached + reported, [Submitted(submittedEmitters[id], submitted)]);
        Send(id, Submitted(submittedEmitters[id], submitted));
      }
    }

    method DeactivateSteerBoundary(id: string)
      requires Valid()
      modifies this
      ensures history == Recorded(old(history), id, CloseBoundary)
      ensures Valid()
    {
      hide PromptsOf, AppendLater, Run;
      assert Tracks(id);
      var previous := BuildQueueState(id);
      steerTargets := steerTargets - {id};
      SendIfChanged(id, previous);
      forall other: string | other != id
        ensures Tracks(other)
      {
        assert old(Tracks(other));
      }
      Record(id, CloseBoundary);
    }

    method DowngradePendingSteersToFollowUps(id: string)
      requires Valid()
      modifies this
      ensures history == Recorded(old(history), id, Downgrade)
      ensures Valid()
    {
      hide PromptsOf, AppendLater, Run;
      assert Tracks(id);
      var previous := BuildQueueState(id);
      var promoted := PromotePendingSteers(id);
      if promoted > 0 {
        SendIfChanged(id, previous);
      }
      forall other: string | other != id
        ensures Tracks(other)
      {
        assert old(Tracks(other));
      }
      Record(id, Downgrade);
    }

    method TakeNextFollowUpBatch(id: string) returns (reply: Reply)
      requires Valid()
      modifies this
      ensures history == Recorded(old(history), id, Take)
      ensures reply == Spec.Step(old(At(id)), Take).reply
      ensures Valid()
    {
      hide PromptsOf, AppendLater, Run;
      assert Tracks(id);
      var queue := GetSeq(followUpQueues, id);
      if queue == [] {
        reply := Taken(None);
      } else {
        var previous := BuildQueueState(id);
        var batch := queue[0];
        followUpQueues := if |queue| == 1 then followUpQueues - {id} else followUpQueues[id := queue[1..]];
        SendIfChanged(id, previous);
        reply := Taken(Some(batch.prompts));
      }
      forall other: string | other != id
        ensures Tracks(other)
      {
        assert old(Tracks(other));
      }
      Record(id, Take);
    }

    method Interrupt(id: string, promoteQueuedSteer: bool) returns (reply: Reply)
      requires Valid()
      modifies this
      ensures history == Recorded(old(history), id, Op.Interrupt(promoteQueuedSteer))
      ensures reply == Spec.Step(old(At(id)), Op.Interrupt(promoteQueuedSteer)).reply
      ensures Valid()
    {
      hide PromptsOf, AppendLater, Run, ViewOf, Promote;
      assert Tracks(id);
      if id !in activeSessions {
        reply := Refused;
      } else if id !in activeRunTasks {
        reply := Refused;
      } else {
        var promoted := CancelRun(id, promoteQueuedSteer);
        reply := Count(promoted);
      }
      forall other: string | other != id
        ensures Tracks(other)
      {
        assert old(Tracks(other));
      }
      Record(id, Op.Interrupt(promoteQueuedSteer));
    }

    /** The run task cancelled, after steers were promoted if asked. */
    method CancelRun(id: string, promote: bool) returns (promoted: nat)
      requires id in activeRunTasks
      modifies `steerQueues, `followUpQueues, `outbox
      ensures At(id) == (if promote then Promote(old(At(id))) else old(At(id)))
      ensures promoted == if promote then |old(At(id)).steers| else 0
      ensures GetSeq(outbox, id)
              == old(GetSeq(outbox, id)) + ([Cancelled(activeRunTasks[id])] + Report(old(At(id)), At(id)))
      ensures forall other: string :: other != id ==>
                At(other) == old(At(other)) && GetSeq(outbox, other) == old(GetSeq(outbox, other))
    {
      hide PromptsOf, ViewOf, Promote;
      var previous := BuildQueueState(id);
      promoted := 0;
      if promote {
        promoted := PromotePendingSteers(id);
      }
      Send(id, Cancelled(activeRunTasks[id]));
      SendIfChanged(id, previous);
      ConcatAssociative(old(GetSeq(outbox, id)), [Cancelled(activeRunTasks[id])], Report(old(At(id)), At(id)));
    }

    method Register(id: string, runTask: int, emitQueueState: int, emitSubmitted: Option<int>)
      modifies `activeSessions, `activeRunTasks, `queueEmitters, `submittedEmitters
      ensures At(id) == old(At(id)).(active := true, task := Some(runTask), emitter := Some(emitQueueState),
                          submitter := if emitSubmitted.Some? then emitSubmitted else old(At(id)).submitter)
      ensures forall other: string :: other != id ==> At(other) == old(At(other))
    {
      activeSessions := activeSessions + {id};
      activeRunTasks := activeRunTasks[id := runTask];
      queueEmitters := queueEmitters[id := emitQueueState];
      if emitSubmitted.Some? {
        submittedEmitters := submittedEmitters[id := emitSubmitted.value];
      }
    }

    /** Forgets a session's registrations and any empty queue it left behind. */
    method Unregister(id: string)
      modifies `activeSessions, `activeRunTasks, `steerTargets, `queueEmitters, `submittedEmitters, `followUpQueues, `steerQueues
      ensures At(id) == old(At(id)).(active := false, task := None, target := None, emitter := None, submitter := None)
      ensures forall other: string :: other != id ==> At(other) == old(At(other))
      ensures id in followUpQueues ==> followUpQueues[id] != []
      ensures id in steerQueues ==> steerQueues[id] != []
    {
      activeSessions := activeSessions - {id};
      activeRunTasks := activeRunTasks - {id};
      steerTargets := steerTargets - {id};
      queueEmitters := queueEmitters - {id};
      submittedEmitters := submittedEmitters - {id};
      DropEmptyQueues(id);
    }

    method DropEmptyQueues(id: string)
      modifies `followUpQueues, `steerQueues
      ensures forall k: string :: GetSeq(followUpQueues, k) == old(GetSeq(followUpQueues, k))
      ensures forall k: string :: GetSeq(steerQueues, k) == old(GetSeq(steerQueues, k))
      ensures id in followUpQueues ==> followUpQueues[id] != []
      ensures id in steerQueues ==> steerQueues[id] != []
    {
      if GetSeq(followUpQueues, id) == [] {
        followUpQueues := followUpQueues - {id};
      }
      if GetSeq(steerQueues, id) == [] {
        steerQueues := steerQueues - {id};
      }
    }

    /** The pending steers drained and, if there are any, put in front of the
        follow-ups as one batch. */
    method PromotePendingSteers(id: string) returns (count: nat)
      modifies `steerQueues, `followUpQueues
      ensures At(id) == Promote(old(At(id))) && count == |old(At(id)).steers|
      ensures forall other: string :: other != id ==> At(other) == old(At(other))
    {
      var prompts := DrainPendingSteers(id);
      if prompts != [] {
        PrependFollowUps(id, prompts);
      }
      return |prompts|;
    }

    /** The pending steers, popped one by one from the left. */
    method DrainPendingSteers(id: string) returns (prompts: seq<string>)
      modifies `steerQueues
      ensures prompts == old(GetSeq(steerQueues, id))
      ensures At(id) == old(At(id)).(steers := [])
      ensures forall other: string :: other != id ==> At(other) == old(At(other))
    {
      prompts := [];
      var queue := GetSeq(steerQueues, id);
      if queue != [] {
        while queue != []
          invariant prompts + queue == old(GetSeq(steerQueues, id))
          decreases |queue|
        {
          prompts, queue := prompts + [queue[0]], queue[1..];
        }
        steerQueues := steerQueues - {id};
      }
    }

    method PrependFollowUps(id: string, prompts: seq<string>)
      modifies `followUpQueues
      ensures followUpQueues == old(followUpQueues)[id := [Batch(Next, prompts)] + old(GetSeq(followUpQueues, id))]
    {
      followUpQueues := followUpQueues[id := [Batch(Next, prompts)] + GetSeq(followUpQueues, id)];
    }

    method AppendFollowUp(id: string, prompt: string) returns (count: nat)
      modifies `followUpQueues
      ensures followUpQueues == old(followUpQueues)[id := AppendLater(old(GetSeq(followUpQueues, id)), prompt)]
      ensures var queue := followUpQueues[id]; count == |queue[|queue| - 1].prompts|
    {
      var followUps := GetSeq(followUpQueues, id);
      if |followUps| > 0 && followUps[|followUps| - 1].kind == Later {
        var last := followUps[|followUps| - 1];
        followUpQueues := followUpQueues[id := followUps[|followUps| - 1 := Batch(Later, last.prompts + [prompt])]];
        return |last.prompts| + 1;
      }
      followUpQueues := followUpQueues[id := followUps + [Batch(Later, [prompt])]];
      return 1;
    }
  }
}
