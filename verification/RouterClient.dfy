/**
 * The client object behind the router: its fields, and a method for each
 * section it runs without interruption.  The object remembers, as a ghost, the
 * steps taken; `Valid` says it is where that run leaves the state machine, so
 * what holds of every run holds of it.
 */
module RouterClient {
  import opened Common
  import opened Router
  import Spec = Router

  datatype Registration = Registered | Refused(error: string) | Hung

  class RpcClient {
    var requestID: nat
    var waiters: set<Id>
    var channels: map<Id, Channel>
    var pendingEnvelopes: map<Id, seq<Item>>
    var terminalErr: Option<string>
    var dispatcher: Phase
    ghost var dispatched: map<Id, seq<Item>>
    ghost var consumed: map<Id, seq<Item>>
    ghost var actions: seq<Action>

    ghost function State(): Spec.Client
      reads this
    {
      Spec.Client(requestID, waiters, channels, pendingEnvelopes, terminalErr, dispatcher, dispatched, consumed)
    }

    ghost predicate Valid()
      reads this
    {
      State() == Run(actions)
    }

    constructor ()
      ensures Valid() && actions == []
    {
      requestID, waiters, channels, pendingEnvelopes := 0, {}, map[], map[];
      terminalErr, dispatcher, dispatched, consumed, actions := None, Idle, map[], map[], [];
    }

    /** Closes a section: the state moved as the step says. */
    ghost method Record(before: Spec.Client, a: Action)
      requires before == Run(actions) && State() == Step(before, a)
      modifies `actions
      ensures Valid() && actions == old(actions) + [a]
    {
      hide Run, Step;
      RunConcat(actions, a);
      actions := actions + [a];
    }

    method NextRequestID() returns (id: Id)
      requires Valid() && !dispatcher.Crashed?
      modifies this
      ensures Valid() && actions == old(actions) + [Issue]
      ensures id == RequestId(requestID) && Issued(State(), id)
      ensures id !in channels && id !in waiters
    {
      hide Run;
      RunInv(actions);
      IdsFresh(State());
      ghost var before := State();
      requestID := requestID + 1;
      id := RequestId(requestID);
      Record(before, Issue);
    }

    /** What came early moves into the new channel; more than it holds would
        leave the caller waiting under the lock. */
    method RegisterWaiter(id: Id) returns (r: Registration)
      requires Valid() && !dispatcher.Crashed? && Issued(State(), id) && id !in channels
      modifies this
      ensures Valid() && actions == old(actions) + [Register(id)]
      ensures r == if old(terminalErr).Some? then Refused(old(terminalErr).value)
                   else if |GetSeq(old(pendingEnvelopes), id)| > ChannelCapacity then Hung else Registered
      ensures r.Registered? ==> id in waiters && channels[id].buffer == GetSeq(old(pendingEnvelopes), id)
    {
      hide Run, Issued;
      ghost var before := State();
      if terminalErr.Some? {
        r := Refused(terminalErr.value);
      } else {
        var pending := GetSeq(pendingEnvelopes, id);
        if |pending| > ChannelCapacity {
          r := Hung;
        } else {
          var buffer := [];
          for i := 0 to |pending|
            invariant buffer == pending[..i]
          {
            buffer := buffer + [pending[i]];
          }
          assert buffer == pending;
          channels := channels[id := Channel(buffer, Open)];
          pendingEnvelopes := pendingEnvelopes - {id};
          waiters := waiters + {id};
          r := Registered;
        }
      }
      Record(before, Register(id));
    }

    /** One turn of the dispatch loop up to where it unlocks. */
    method DispatchNext(id: Id, envelope: Envelope)
      requires Valid() && dispatcher == Idle
      modifies this
      ensures Valid() && actions == old(actions) + [Read(id, envelope)]
      ensures id.text == "" ==>
                && dispatcher == Failing("backend emitted envelope without request id", old(waiters)) && waiters == {}
                && terminalErr == Some("backend emitted envelope without request id")
      ensures id.text != "" && id in old(waiters) ==>
                dispatcher == Sending(id, Value(envelope)) && pendingEnvelopes == old(pendingEnvelopes)
      ensures id.text != "" && id !in old(waiters) ==>
                && dispatcher == Idle
                && pendingEnvelopes == old(pendingEnvelopes)[id := old(GetSeq(pendingEnvelopes, id)) + [Value(envelope)]]
    {
      hide Run;
      RunInv(actions);
      ghost var before := State();
      if id.text == "" {
        FailAllWaiters(MissingId());
      } else {
        dispatched := Push(dispatched, id, Value(envelope));
        if id !in waiters {
          pendingEnvelopes := Push(pendingEnvelopes, id, Value(envelope));
        } else {
          dispatcher := Sending(id, Value(envelope));
        }
      }
      Record(before, Read(id, envelope));
    }

    method DispatchError(error: string)
      requires Valid() && dispatcher == Idle
      modifies this
      ensures Valid() && actions == old(actions) + [ReadFailed(error)]
      ensures dispatcher == Failing(error, old(waiters)) && waiters == {} && terminalErr == Some(error)
    {
      hide Run;
      RunInv(actions);
      ghost var before := State();
      FailAllWaiters(error);
      Record(before, ReadFailed(error));
    }

    /** The locked part: the waiters are taken over, to be told one by one. */
    method FailAllWaiters(error: string)
      modifies `terminalErr, `dispatcher, `waiters
      ensures State() == BeginFail(old(State()), error)
    {
      if terminalErr.None? {
        terminalErr := Some(error);
      }
      dispatcher := Failing(error, waiters);
      waiters := {};
    }

    /** The send after the lookup, once there is room. */
    method SendToWaiter()
      requires Valid() && dispatcher.Sending? && HasRoom(State(), dispatcher.id)
      modifies this
      ensures Valid() && actions == old(actions) + [Send]
      ensures old(dispatcher.id !in waiters) ==> dispatcher.Crashed?
      ensures old(dispatcher.id in waiters) ==>
                dispatcher == Idle
                && channels == old(Deliver(channels, dispatcher.id, dispatcher.item, channels[dispatcher.id].status))
    {
      hide Run;
      RunInv(actions);
      SendCrashesOrphan(State());
      ghost var before := State();
      if channels[dispatcher.id].status != Open {
        dispatcher := Crashed;
      } else {
        channels := Deliver(channels, dispatcher.id, dispatcher.item, Open);
        dispatcher := Idle;
      }
      Record(before, Send);
    }

    /** Telling one of the waiters taken over: its channel is never closed yet. */
    method FailWaiter(id: Id)
      requires Valid() && dispatcher.Failing? && id in dispatcher.rest && HasRoom(State(), id)
      modifies this
      ensures Valid() && actions == old(actions) + [FailNext(id)]
      ensures dispatcher == Failing(old(dispatcher.error), old(dispatcher.rest) - {id})
      ensures channels == old(Deliver(channels, id, Failure(dispatcher.error), ClosedByFailure))
    {
      hide Run;
      RunInv(actions);
      AwaitedAreOpen(State(), id);
      ghost var before := State();
      channels := Deliver(channels, id, Failure(dispatcher.error), ClosedByFailure);
      dispatcher := Failing(dispatcher.error, dispatcher.rest - {id});
      Record(before, FailNext(id));
    }

    /** One receive by the caller, when something is buffered. */
    method AwaitEnvelope(id: Id) returns (item: Item)
      requires Valid() && !dispatcher.Crashed? && id in channels && channels[id].buffer != []
      modifies this
      ensures Valid() && actions == old(actions) + [Receive(id)]
      ensures item == old(channels[id].buffer[0]) && GetSeq(consumed, id) == old(GetSeq(consumed, id)) + [item]
    {
      hide Run;
      ghost var before := State();
      item := channels[id].buffer[0];
      channels := channels[id := Channel(channels[id].buffer[1..], channels[id].status)];
      consumed := Push(consumed, id, item);
      Record(before, Receive(id));
    }

    /** The cleanup a registration hands out; a waiter already failed is gone
        from the map, so nothing is closed twice. */
    method Cleanup(id: Id)
      requires Valid() && !dispatcher.Crashed?
      modifies this
      ensures Valid() && actions == old(actions) + [Action.Cleanup(id)]
      ensures id !in waiters && !dispatcher.Crashed?
    {
      hide Run;
      RunInv(actions);
      ghost var before := State();
      if id in waiters {
        AwaitedAreOpen(State(), id);
        waiters := waiters - {id};
        channels := channels[id := Channel(channels[id].buffer, ClosedByCleanup)];
      }
      Record(before, Action.Cleanup(id));
    }

    lemma AwaitedAreOpen(c: Spec.Client, id: Id)
      requires Sound(c) && (id in c.waiters || (c.phase.Failing? && id in c.phase.rest))
      ensures id in c.channels && c.channels[id].status == Open
    {
    }
  }
}
