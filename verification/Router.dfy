/**
 * The RPC client's envelope router as a state machine: one reader thread
 * dispatches envelopes, callers register, receive and clean up, in any
 * interleaving.  The dispatcher's lookup and its send are two steps, and so
 * are the failure of the backend and telling each waiter about it.
 */
module Router {
  import opened Common
  import opened Decimal

  /** A request id as it appears on the wire. */
  datatype Id = Id(text: string)

  datatype Envelope =
    | EventEnvelope(event: string)
    | ResponseEnvelope(sessionId: Option<string>)
    | ErrorEnvelope(errorType: string, message: string)
    | OtherEnvelope

  datatype Item = Value(envelope: Envelope) | Failure(error: string)

  const ChannelCapacity := 32

  /** A waiter channel; what closed it, if anything did. */
  datatype Status = Open | ClosedByFailure | ClosedByCleanup

  datatype Channel = Channel(buffer: seq<Item>, status: Status)

  datatype Phase =
    | Idle
    | Sending(id: Id, item: Item)
    | Failing(error: string, rest: set<Id>)
    | Stopped
    | Crashed

  /** `channels` holds one channel for each id ever registered, `waiters` the
      ids in the client's map.  `dispatched` and `consumed` record what the
      backend emitted for an id and what its caller received. */
  datatype Client = Client(
    nextId: nat,
    waiters: set<Id>,
    channels: map<Id, Channel>,
    pending: map<Id, seq<Item>>,
    terminalErr: Option<string>,
    phase: Phase,
    dispatched: map<Id, seq<Item>>,
    consumed: map<Id, seq<Item>>)

  const Started := Client(0, {}, map[], map[], None, Idle, map[], map[])

  function RequestId(n: nat): Id {
    Id("go-" + Numeral(n))
  }

  /** Ids handed out so far. */
  predicate Issued(c: Client, id: Id) {
    exists n :: 0 < n <= c.nextId && id == RequestId(n)
  }

  datatype Action =
    | Issue
    | Register(id: Id)
    | Read(id: Id, envelope: Envelope)
    | ReadFailed(error: string)
    | Send
    | FailNext(id: Id)
    | FailDone
    | Receive(id: Id)
    | Cleanup(id: Id)

  function Push(m: map<Id, seq<Item>>, id: Id, item: Item): map<Id, seq<Item>> {
    m[id := GetSeq(m, id) + [item]]
  }

  /** The locked part of `failAllWaiters`; every path into it ends the loop. */
  function BeginFail(c: Client, error: string): Client {
    c.(terminalErr := if c.terminalErr.None? then Some(error) else c.terminalErr,
       phase := Failing(error, c.waiters),
       waiters := {})
  }

  function HasRoom(c: Client, id: Id): bool {
    id in c.channels && |c.channels[id].buffer| < ChannelCapacity
  }

  function Deliver(channels: map<Id, Channel>, id: Id, item: Item, status: Status): map<Id, Channel>
    requires id in channels
  {
    channels[id := Channel(channels[id].buffer + [item], status)]
  }

  /** `registerWaiter`: refused after a failure; pending envelopes move into
      the new channel, which must hold them all or the caller hangs. */
  function DoRegister(c: Client, id: Id): Client {
    if !Issued(c, id) || id in c.channels || c.terminalErr.Some? || |GetSeq(c.pending, id)| > ChannelCapacity then c
    else
      c.(waiters := c.waiters + {id},
         channels := c.channels[id := Channel(GetSeq(c.pending, id), Open)],
         pending := c.pending - {id})
  }

  function MissingId(): string {
    "backend emitted envelope without request id"
  }

  /** The dispatcher takes one envelope and looks its waiter up. */
  function DoRead(c: Client, id: Id, envelope: Envelope): Client {
    if c.phase != Idle then c
    else if id.text == "" then BeginFail(c, MissingId())
    else Dispatch(c, id, Value(envelope))
  }

  /** A waiter's envelope awaits its send; any other is kept pending. */
  function Dispatch(c: Client, id: Id, item: Item): Client {
    if id in c.waiters then c.(dispatched := Push(c.dispatched, id, item), phase := Sending(id, item))
    else c.(dispatched := Push(c.dispatched, id, item), pending := Push(c.pending, id, item))
  }

  /** The dispatcher's send: it waits for room, and panics on a closed channel. */
  function DoSend(c: Client): Client {
    if !c.phase.Sending? || c.phase.id !in c.channels then c
    else if c.channels[c.phase.id].status != Open then c.(phase := Crashed)
    else if !HasRoom(c, c.phase.id) then c
    else c.(phase := Idle, channels := Deliver(c.channels, c.phase.id, c.phase.item, Open))
  }

  /** `failAllWaiters` after the lock: one waiter is told and closed. */
  function DoFailNext(c: Client, id: Id): Client {
    if !c.phase.Failing? || id !in c.phase.rest || id !in c.channels then c
    else if c.channels[id].status != Open then c.(phase := Crashed)
    else if !HasRoom(c, id) then c
    else c.(phase := Failing(c.phase.error, c.phase.rest - {id}),
            channels := Deliver(c.channels, id, Failure(c.phase.error), ClosedByFailure))
  }

  function DoReceive(c: Client, id: Id): Client {
    if id !in c.channels || c.channels[id].buffer == [] then c
    else
      var ch := c.channels[id];
      c.(channels := c.channels[id := ch.(buffer := ch.buffer[1..])],
         consumed := Push(c.consumed, id, ch.buffer[0]))
  }

  function DoCleanup(c: Client, id: Id): Client {
    if id !in c.waiters || id !in c.channels then c
    else if c.channels[id].status != Open then c.(phase := Crashed)
    else c.(waiters := c.waiters - {id}, channels := c.channels[id := c.channels[id].(status := ClosedByCleanup)])
  }

  /** One atomic step. A step that is blocked, or that its thread is not at,
      changes nothing; using a closed channel crashes the client for good. */
  function Step(c: Client, a: Action): Client {
    if c.phase.Crashed? then c
    else
      match a
      case Issue => c.(nextId := c.nextId + 1)
      case Register(id) => DoRegister(c, id)
      case Read(id, envelope) => DoRead(c, id, envelope)
      case ReadFailed(error) => if c.phase != Idle then c else BeginFail(c, error)
      case Send => DoSend(c)
      case FailNext(id) => DoFailNext(c, id)
      case FailDone => if c.phase.Failing? && c.phase.rest == {} then c.(phase := Stopped) else c
      case Receive(id) => DoReceive(c, id)
      case Cleanup(id) => DoCleanup(c, id)
  }

  function Run(actions: seq<Action>): Client {
    if actions == [] then Started else Step(Run(actions[..|actions| - 1]), actions[|actions| - 1])
  }

  // ----- The invariant -----

  /** The envelope for `id` that has been looked up but not yet sent. */
  function InFlight(c: Client, id: Id): seq<Item> {
    if c.phase.Sending? && c.phase.id == id then [c.phase.item] else []
  }

  function Held(c: Client, id: Id): seq<Item> {
    GetSeq(c.consumed, id) + if id in c.channels then c.channels[id].buffer else []
  }

  /** Where the envelopes dispatched for one id are. */
  ghost predicate Delivered(c: Client, id: Id) {
    var d := GetSeq(c.dispatched, id);
    if id !in c.channels then d == GetSeq(c.pending, id) && Held(c, id) == []
    else
      match c.channels[id].status
      case Open => d == Held(c, id) + InFlight(c, id) && GetSeq(c.pending, id) == []
      case ClosedByFailure =>
        c.terminalErr.Some? && Held(c, id) == d + [Failure(c.terminalErr.value)] && GetSeq(c.pending, id) == []
      case ClosedByCleanup => Held(c, id) <= d
  }

  /** Open channels are exactly the waiters and those about to be failed. */
  ghost predicate Tracked(c: Client) {
    && (forall id :: id in c.channels && c.channels[id].status == Open <==>
          id in c.waiters || (c.phase.Failing? && id in c.phase.rest))
    && (forall id :: id in c.channels ==> Issued(c, id))
    && (forall id :: id in c.channels ==> |c.channels[id].buffer| <= ChannelCapacity)
  }

  ghost predicate PhaseOk(c: Client) {
    && (c.phase == Idle || c.phase.Sending? ==> c.terminalErr.None?)
    && (c.phase.Sending? ==> c.phase.id in c.channels && c.channels[c.phase.id].status != ClosedByFailure)
    && (c.phase.Failing? ==> c.terminalErr == Some(c.phase.error))
    && (c.terminalErr.Some? ==> c.waiters == {} && (c.phase.Failing? || c.phase.Stopped?))
  }

  ghost predicate Inv(c: Client) {
    Sound(c) && forall id :: Delivered(c, id)
  }

  lemma IdsFresh(c: Client)
    requires Tracked(c)
    ensures RequestId(c.nextId + 1) !in c.channels
  {
    forall n | 0 < n <= c.nextId
      ensures RequestId(n) != RequestId(c.nextId + 1)
    {
      if RequestId(n) == RequestId(c.nextId + 1) {
        assert RequestId(n).text[3..] == Numeral(n) && RequestId(c.nextId + 1).text[3..] == Numeral(c.nextId + 1);
        NumeralInjective(n, c.nextId + 1);
      }
    }
  }

  ghost predicate Sound(c: Client) {
    Tracked(c) && PhaseOk(c)
  }

  lemma RegisterSound(c: Client, id: Id)
    requires Sound(c) && !c.phase.Crashed?
    ensures Sound(DoRegister(c, id))
  {
  }

  lemma BeginFailSound(c: Client, error: string)
    requires Sound(c) && c.phase == Idle
    ensures Sound(BeginFail(c, error))
  {
  }

  lemma ReadSound(c: Client, id: Id, envelope: Envelope)
    requires Sound(c) && !c.phase.Crashed?
    ensures Sound(DoRead(c, id, envelope))
  {
    hide BeginFail, MissingId;
    if c.phase == Idle && id.text == "" {
      BeginFailSound(c, MissingId());
    }
  }

  lemma SendSound(c: Client)
    requires Sound(c) && !c.phase.Crashed?
    ensures Sound(DoSend(c))
  {
  }

  lemma FailNextSound(c: Client, id: Id)
    requires Sound(c) && !c.phase.Crashed?
    ensures Sound(DoFailNext(c, id))
  {
  }

  lemma ReceiveSound(c: Client, id: Id)
    requires Sound(c) && !c.phase.Crashed?
    ensures Sound(DoReceive(c, id))
  {
  }

  lemma CleanupSound(c: Client, id: Id)
    requires Sound(c) && !c.phase.Crashed?
    ensures Sound(DoCleanup(c, id))
  {
  }

  lemma StepSound(c: Client, a: Action)
    requires Sound(c)
    ensures Sound(Step(c, a))
  {
    hide DoRegister, DoRead, DoSend, DoFailNext, DoReceive, DoCleanup, BeginFail;
    if !c.phase.Crashed? {
      match a
      case Register(id) => RegisterSound(c, id);
      case Read(id, envelope) => ReadSound(c, id, envelope);
      case Send => SendSound(c);
      case FailNext(id) => FailNextSound(c, id);
      case Receive(id) => ReceiveSound(c, id);
      case Cleanup(id) => CleanupSound(c, id);
      case ReadFailed(error) =>
        if c.phase == Idle {
          BeginFailSound(c, error);
        }
      case _ =>
    }
  }

  /** A step that touches nothing of an id leaves its envelopes where they are. */
  lemma UntouchedDelivered(c: Client, d: Client, id: Id)
    requires Delivered(c, id)
    requires (id in c.channels <==> id in d.channels) && (id in c.channels ==> c.channels[id] == d.channels[id])
    requires GetSeq(c.dispatched, id) == GetSeq(d.dispatched, id) && GetSeq(c.consumed, id) == GetSeq(d.consumed, id)
    requires GetSeq(c.pending, id) == GetSeq(d.pending, id)
    requires id in c.channels && c.channels[id].status == Open ==> InFlight(c, id) == InFlight(d, id)
    requires c.terminalErr.Some? ==> c.terminalErr == d.terminalErr
    ensures Delivered(d, id)
  {
  }

  lemma DispatchDelivered(c: Client, id: Id, item: Item)
    requires Sound(c) && Delivered(c, id) && c.phase == Idle
    ensures Delivered(Dispatch(c, id, item), id)
  {
    hide Issued;
    var d := Dispatch(c, id, item);
    assert GetSeq(d.dispatched, id) == GetSeq(c.dispatched, id) + [item];
    assert Held(d, id) == Held(c, id);
  }

  lemma ReadDelivered(c: Client, id: Id, envelope: Envelope)
    requires Sound(c) && Delivered(c, id)
    ensures Delivered(DoRead(c, id, envelope), id)
  {
    hide Delivered, Tracked, Dispatch, BeginFail, MissingId;
    if c.phase == Idle && id.text != "" {
      DispatchDelivered(c, id, Value(envelope));
    } else {
      FailElsewhere(c, MissingId(), id);
    }
  }

  lemma SendDelivered(c: Client, id: Id)
    requires Sound(c) && Delivered(c, id)
    ensures Delivered(DoSend(c), id)
  {
    hide Tracked;
    var d := DoSend(c);
    if d != c && c.phase.id == id && c.channels[id].status == Open {
      assert Held(d, id) == Held(c, id) + [c.phase.item];
    } else {
      UntouchedDelivered(c, d, id);
    }
  }

  lemma FailNextDelivered(c: Client, id: Id)
    requires Sound(c) && Delivered(c, id)
    ensures Delivered(DoFailNext(c, id), id)
  {
  }

  lemma ReceiveDelivered(c: Client, id: Id)
    requires Delivered(c, id)
    ensures Delivered(DoReceive(c, id), id)
  {
    if id in c.channels && c.channels[id].buffer != [] {
      var buffer := c.channels[id].buffer;
      assert [buffer[0]] + buffer[1..] == buffer;
      assert Held(DoReceive(c, id), id) == Held(c, id);
    }
  }

  lemma RegisterDelivered(c: Client, id: Id)
    requires Sound(c) && Delivered(c, id)
    ensures Delivered(DoRegister(c, id), id)
  {
  }

  lemma CleanupDelivered(c: Client, id: Id)
    requires Sound(c) && Delivered(c, id)
    ensures Delivered(DoCleanup(c, id), id)
  {
  }

  /** A step about another id, or about none. */
  lemma ElsewhereDelivered(c: Client, a: Action, id: Id)
    requires Sound(c) && Delivered(c, id) && !c.phase.Crashed? && !a.Send?
    requires (a.Register? || a.Read? || a.FailNext? || a.Receive? || a.Cleanup?) ==> a.id != id
    ensures Delivered(Step(c, a), id)
  {
    hide Delivered, Tracked, PhaseOk, DoRegister, DoRead, DoFailNext, DoReceive, DoCleanup, BeginFail;
    match a
    case Register(other) => RegisterElsewhere(c, other, id);
    case Read(other, envelope) => ReadElsewhere(c, other, envelope, id);
    case FailNext(other) => FailNextElsewhere(c, other, id);
    case Receive(other) => ReceiveElsewhere(c, other, id);
    case Cleanup(other) => CleanupElsewhere(c, other, id);
    case ReadFailed(error) => FailElsewhere(c, error, id);
    case _ => UntouchedDelivered(c, Step(c, a), id);
  }

  lemma RegisterElsewhere(c: Client, other: Id, id: Id)
    requires Delivered(c, id) && other != id
    ensures Delivered(DoRegister(c, other), id)
  {
  }

  lemma FailNextElsewhere(c: Client, other: Id, id: Id)
    requires Delivered(c, id) && other != id
    ensures Delivered(DoFailNext(c, other), id)
  {
    hide Delivered;
    UntouchedDelivered(c, DoFailNext(c, other), id);
  }

  lemma ReceiveElsewhere(c: Client, other: Id, id: Id)
    requires Delivered(c, id) && other != id
    ensures Delivered(DoReceive(c, other), id)
  {
    hide Delivered;
    UntouchedDelivered(c, DoReceive(c, other), id);
  }

  lemma CleanupElsewhere(c: Client, other: Id, id: Id)
    requires Sound(c) && Delivered(c, id) && other != id
    ensures Delivered(DoCleanup(c, other), id)
  {
  }

  lemma ReadElsewhere(c: Client, other: Id, envelope: Envelope, id: Id)
    requires Sound(c) && Delivered(c, id) && other != id
    ensures Delivered(DoRead(c, other, envelope), id)
  {
    hide Delivered, Tracked, Dispatch, BeginFail, MissingId;
    if c.phase == Idle && other.text != "" {
      DispatchElsewhere(c, other, Value(envelope), id);
    } else {
      FailElsewhere(c, MissingId(), id);
    }
  }

  lemma FailElsewhere(c: Client, error: string, id: Id)
    requires Sound(c) && Delivered(c, id)
    ensures c.phase == Idle ==> Delivered(BeginFail(c, error), id)
  {
  }

  lemma DispatchElsewhere(c: Client, other: Id, item: Item, id: Id)
    requires Sound(c) && Delivered(c, id) && other != id && c.phase == Idle
    ensures Delivered(Dispatch(c, other, item), id)
  {
    hide Delivered, Tracked;
    UntouchedDelivered(c, Dispatch(c, other, item), id);
  }

  lemma StepDelivered(c: Client, a: Action, id: Id)
    requires Sound(c) && Delivered(c, id)
    ensures Delivered(Step(c, a), id)
  {
    hide DoRegister, DoRead, DoSend, DoFailNext, DoReceive, DoCleanup, Delivered;
    if !c.phase.Crashed? {
      if !a.Send? && ((a.Register? || a.Read? || a.FailNext? || a.Receive? || a.Cleanup?) ==> a.id != id) {
        ElsewhereDelivered(c, a, id);
      } else {
        match a
        case Read(_, envelope) => ReadDelivered(c, id, envelope);
        case Send => SendDelivered(c, id);
        case FailNext(_) => FailNextDelivered(c, id);
        case Receive(_) => ReceiveDelivered(c, id);
        case Register(_) => RegisterDelivered(c, id);
        case Cleanup(_) => CleanupDelivered(c, id);
      }
    }
  }

  lemma StepKeepsInv(c: Client, a: Action)
    requires Inv(c)
    ensures Inv(Step(c, a))
  {
    StepSound(c, a);
    forall id
      ensures Delivered(Step(c, a), id)
    {
      StepDelivered(c, a, id);
    }
  }

  /** In every interleaving, what was dispatched for an id is what its caller
      consumed, then what its channel buffers, then what is in flight; all of
      it pending before registration; followed by one failure after shutdown. */
  lemma {:induction false} RunInv(actions: seq<Action>)
    ensures Inv(Run(actions))
  {
    if actions != [] {
      RunInv(actions[..|actions| - 1]);
      StepKeepsInv(Run(actions[..|actions| - 1]), actions[|actions| - 1]);
    }
  }

  /** What the backend emitted for an id: its envelopes that the dispatch loop was
      there to take. */
  function Emitted(actions: seq<Action>, id: Id): seq<Item> {
    if actions == [] then []
    else
      var a := actions[|actions| - 1];
      Emitted(actions[..|actions| - 1], id)
      + if a.Read? && a.id == id && id.text != "" && Run(actions[..|actions| - 1]).phase == Idle then [Value(a.envelope)]
        else []
  }

  lemma StepDispatches(c: Client, a: Action, id: Id)
    ensures GetSeq(Step(c, a).dispatched, id)
         == GetSeq(c.dispatched, id)
            + if a.Read? && a.id == id && id.text != "" && c.phase == Idle then [Value(a.envelope)] else []
  {
    hide MissingId, Issued;
    assert GetSeq(c.dispatched, id) + [] == GetSeq(c.dispatched, id);
  }

  /** The record of dispatched envelopes is what the backend emitted. */
  lemma {:induction false} DispatchedIsEmitted(actions: seq<Action>, id: Id)
    ensures GetSeq(Run(actions).dispatched, id) == Emitted(actions, id)
  {
    hide Step;
    if actions != [] {
      var init, last := actions[..|actions| - 1], actions[|actions| - 1];
      DispatchedIsEmitted(init, id);
      StepDispatches(Run(init), last, id);
    }
  }

  /** In every interleaving, what the backend emitted for an id is pending until
      its caller registers; then it is what the caller consumed, what its channel
      buffers and what is in flight. A failure adds one error at the end, and a
      cleanup leaves the rest unread. */
  lemma NothingLost(actions: seq<Action>, id: Id)
    ensures var c, emitted := Run(actions), Emitted(actions, id);
            if id !in c.channels then
              emitted == GetSeq(c.pending, id) && GetSeq(c.consumed, id) == []
            else
              var held := GetSeq(c.consumed, id) + c.channels[id].buffer;
              && (GetSeq(c.pending, id) == [] || c.channels[id].status == ClosedByCleanup)
              && (match c.channels[id].status
                  case Open => emitted == held + InFlight(c, id)
                  case ClosedByFailure => c.terminalErr.Some? && held == emitted + [Failure(c.terminalErr.value)]
                  case ClosedByCleanup => held <= emitted)
  {
    hide Run, Emitted, Sound;
    RunInv(actions);
    DispatchedIsEmitted(actions, id);
    assert Delivered(Run(actions), id);
  }

  lemma RunConcat(first: seq<Action>, a: Action)
    ensures Run(first + [a]) == Step(Run(first), a)
  {
  }

  // ----- Shutdown -----

  lemma StepAfterFailure(c: Client, a: Action)
    requires Inv(c) && c.terminalErr.Some?
    ensures Step(c, a).terminalErr == c.terminalErr && Step(c, a).waiters == {}
    ensures Step(c, a).channels.Keys == c.channels.Keys
  {
  }

  lemma FailedHasNoWaiters(c: Client)
    requires Inv(c) && c.terminalErr.Some?
    ensures c.waiters == {}
  {
  }

  /** The terminal error never changes, and no waiter is registered after it. */
  lemma {:induction false} FailureIsFinal(actions: seq<Action>, more: seq<Action>)
    requires Run(actions).terminalErr.Some?
    ensures Run(actions + more).terminalErr == Run(actions).terminalErr
    ensures Run(actions + more).waiters == {} && Run(actions + more).channels.Keys == Run(actions).channels.Keys
  {
    hide Step, Inv;
    RunInv(actions);
    if more == [] {
      assert actions + more == actions;
      FailedHasNoWaiters(Run(actions));
    } else {
      var init, last := more[..|more| - 1], more[|more| - 1];
      FailureIsFinal(actions, init);
      RunInv(actions + init);
      StepAfterFailure(Run(actions + init), last);
      assert actions + more == (actions + init) + [last];
      RunConcat(actions + init, last);
    }
  }

  /** Each of `ids` is still to be failed or has been failed. */
  ghost predicate Doomed(c: Client, ids: set<Id>) {
    forall id :: id in ids ==>
      id in c.channels && (c.channels[id].status == ClosedByFailure || (c.phase.Failing? && id in c.phase.rest))
  }

  lemma StepDoomed(c: Client, a: Action, ids: set<Id>)
    requires Inv(c) && c.terminalErr.Some? && Doomed(c, ids)
    ensures Doomed(Step(c, a), ids)
  {
  }

  /** The error with which an action at the dispatch loop fails the client: its
      reader's, or an envelope without an id. */
  function FailureOf(a: Action): Option<string> {
    match a
    case ReadFailed(error) => Some(error)
    case Read(id, _) => if id.text == "" then Some(MissingId()) else None
    case _ => None
  }

  /** Once the dispatcher has stopped, every waiter there was when the client
      failed has been told exactly once, after all its envelopes, and closed. */
  lemma {:induction false} EveryWaiterIsTold(actions: seq<Action>, failure: Action, more: seq<Action>)
    requires Run(actions).phase == Idle && FailureOf(failure).Some?
    ensures var c, d := Run(actions), Run(actions + [failure] + more);
      && Doomed(d, c.waiters)
      && d.terminalErr == FailureOf(failure)
      && (d.phase.Stopped? ==> forall id :: id in c.waiters ==>
            id in d.channels && d.channels[id].status == ClosedByFailure
            && Held(d, id) == Emitted(actions + [failure] + more, id) + [Failure(FailureOf(failure).value)])
  {
    hide Step, Inv, Doomed, FailureOf, Emitted;
    var failed := actions + [failure];
    var c, d := Run(actions), Run(failed + more);
    RunConcat(actions, failure);
    RunInv(actions);
    RunInv(failed + more);
    FailureDooms(c, failure);
    FailureIsFinal(failed, more);
    if more == [] {
      assert failed + more == failed;
    } else {
      var init, last := more[..|more| - 1], more[|more| - 1];
      EveryWaiterIsTold(actions, failure, init);
      FailureIsFinal(failed, init);
      RunInv(failed + init);
      StepDoomed(Run(failed + init), last, c.waiters);
      assert failed + more == (failed + init) + [last];
      RunConcat(failed + init, last);
    }
    DoomedAreTold(d, c.waiters);
    forall id
      ensures GetSeq(d.dispatched, id) == Emitted(failed + more, id)
    {
      DispatchedIsEmitted(failed + more, id);
    }
  }

  lemma FailureDooms(c: Client, failure: Action)
    requires Inv(c) && c.phase == Idle && FailureOf(failure).Some?
    ensures Doomed(Step(c, failure), c.waiters)
    ensures Step(c, failure).terminalErr == FailureOf(failure)
  {
    hide MissingId, Delivered;
  }

  lemma DoomedAreTold(d: Client, ids: set<Id>)
    requires Inv(d) && Doomed(d, ids)
    ensures d.phase.Stopped? ==> forall id :: id in ids ==>
              id in d.channels && d.channels[id].status == ClosedByFailure
              && d.terminalErr.Some? && Held(d, id) == GetSeq(d.dispatched, id) + [Failure(d.terminalErr.value)]
  {
    hide Held, Tracked, PhaseOk;
    assert forall id :: id in ids ==> Delivered(d, id);
  }

  // ----- Steps that are not blocked -----

  /** An envelope for a registered caller whose channel has room is delivered: it
      is read, sent, and buffered behind everything emitted before. */
  lemma ReadIsDelivered(actions: seq<Action>, id: Id, envelope: Envelope)
    requires Run(actions).phase == Idle && id in Run(actions).waiters && HasRoom(Run(actions), id)
    ensures var all := actions + [Read(id, envelope)] + [Send];
            var c := Run(all);
            && c.phase == Idle && id in c.waiters && id in c.channels && InFlight(c, id) == []
            && c.channels[id].buffer == Run(actions).channels[id].buffer + [Value(envelope)]
            && GetSeq(c.consumed, id) + c.channels[id].buffer == Emitted(all, id) == Emitted(actions, id) + [Value(envelope)]
  {
    hide Run, MissingId, Issued;
    var read := actions + [Read(id, envelope)];
    RunInv(actions);
    WaiterNamed(Run(actions), id);
    RunConcat(actions, Read(id, envelope));
    RunConcat(read, Send);
    NothingLost(read + [Send], id);
    EmittedSnoc(actions, Read(id, envelope), id);
    EmittedSnoc(read, Send, id);
  }

  /** Ids that were handed out have a text. */
  lemma WaiterNamed(c: Client, id: Id)
    requires Inv(c) && id in c.waiters
    ensures id.text != "" && id in c.channels && c.channels[id].status == Open
  {
    hide Numeral, Delivered;
    assert Issued(c, id);
  }

  lemma EmittedSnoc(actions: seq<Action>, a: Action, id: Id)
    ensures Emitted(actions + [a], id)
         == Emitted(actions, id)
            + if a.Read? && a.id == id && id.text != "" && Run(actions).phase == Idle then [Value(a.envelope)] else []
  {
    hide Run;
    assert (actions + [a])[..|actions|] == actions;
  }

  function Receives(id: Id, n: nat): seq<Action> {
    seq(n, _ => Receive(id))
  }

  /** A caller that receives as often as its channel holds items has consumed
      them, in order. */
  lemma {:induction false} ReceivesConsume(actions: seq<Action>, id: Id, n: nat)
    requires !Run(actions).phase.Crashed? && id in Run(actions).channels && n <= |Run(actions).channels[id].buffer|
    ensures var c, d := Run(actions), Run(actions + Receives(id, n));
            && d.phase == c.phase && id in d.channels
            && d.channels[id].status == c.channels[id].status && d.channels[id].buffer == c.channels[id].buffer[n..]
            && GetSeq(d.consumed, id) == GetSeq(c.consumed, id) + c.channels[id].buffer[..n]
            && Emitted(actions + Receives(id, n), id) == Emitted(actions, id)
  {
    hide Run, Emitted;
    var buffer := Run(actions).channels[id].buffer;
    if n == 0 {
      assert actions + Receives(id, 0) == actions;
      assert buffer[..0] == [];
    } else {
      var before := actions + Receives(id, n - 1);
      ReceivesConsume(actions, id, n - 1);
      assert actions + Receives(id, n) == before + [Receive(id)];
      RunConcat(before, Receive(id));
      EmittedSnoc(before, Receive(id), id);
      assert buffer[..n] == buffer[..n - 1] + [buffer[n - 1]];
      ConcatAssociative(GetSeq(Run(actions).consumed, id), buffer[..n - 1], [buffer[n - 1]]);
    }
  }

  /** So a caller that keeps receiving gets everything the backend emitted. */
  lemma EverythingArrives(actions: seq<Action>, id: Id)
    requires !Run(actions).phase.Crashed? && id in Run(actions).channels && Run(actions).channels[id].status == Open
    requires InFlight(Run(actions), id) == []
    ensures var n := |Run(actions).channels[id].buffer|;
            GetSeq(Run(actions + Receives(id, n)).consumed, id) == Emitted(actions, id)
  {
    hide Run, Emitted, InFlight;
    var buffer := Run(actions).channels[id].buffer;
    ReceivesConsume(actions, id, |buffer|);
    NothingLost(actions, id);
    assert buffer[..|buffer|] == buffer;
    assert GetSeq(Run(actions).consumed, id) + buffer + [] == GetSeq(Run(actions).consumed, id) + buffer;
  }

  /** Telling a waiter whose channel has room closes it, with the error behind
      everything the backend emitted. */
  lemma FailNextTells(actions: seq<Action>, id: Id)
    requires var c := Run(actions); c.phase.Failing? && id in c.phase.rest && HasRoom(c, id)
    ensures var all := actions + [FailNext(id)];
            var c, d := Run(actions), Run(all);
            && d.phase == Failing(c.phase.error, c.phase.rest - {id})
            && id in d.channels && d.channels[id].status == ClosedByFailure
            && d.channels[id].buffer == c.channels[id].buffer + [Failure(c.phase.error)]
            && GetSeq(d.consumed, id) + d.channels[id].buffer == Emitted(all, id) + [Failure(c.phase.error)]
            && forall other :: other != id && other in c.channels ==> other in d.channels && d.channels[other] == c.channels[other]
  {
    hide Run, Issued, Delivered, Emitted;
    RunInv(actions);
    RunInv(actions + [FailNext(id)]);
    RunConcat(actions, FailNext(id));
    NothingLost(actions + [FailNext(id)], id);
  }

  /** A shutdown whose waiters all have room runs to its end. */
  lemma {:induction false} ShutdownEnds(actions: seq<Action>) returns (more: seq<Action>)
    requires var c := Run(actions); c.phase.Failing? && forall id :: id in c.phase.rest ==> HasRoom(c, id)
    ensures Run(actions + more).phase.Stopped?
    decreases |Run(actions).phase.rest|
  {
    hide Run, Emitted;
    var c := Run(actions);
    if c.phase.rest == {} {
      more := [FailDone];
      RunConcat(actions, FailDone);
    } else {
      var id :| id in c.phase.rest;
      FailNextTells(actions, id);
      var rest := ShutdownEnds(actions + [FailNext(id)]);
      more := [FailNext(id)] + rest;
      assert actions + more == actions + [FailNext(id)] + rest;
    }
  }

  // ----- The send that can panic -----

  /** The dispatcher is about to send on a channel its caller has closed. */
  predicate Orphaned(c: Client) {
    c.phase.Sending? && c.phase.id !in c.waiters
  }

  /** Some caller cleaned up between the dispatcher's lookup and its send. */
  ghost predicate Overtaken(actions: seq<Action>) {
    exists i :: 0 <= i < |actions| && Overtakes(actions, i)
  }

  ghost predicate Overtakes(actions: seq<Action>, i: int)
    requires 0 <= i < |actions|
  {
    var c := Run(actions[..i]);
    actions[i].Cleanup? && c.phase.Sending? && c.phase.id == actions[i].id && actions[i].id in c.waiters
  }

  lemma StepOrphans(c: Client, a: Action)
    requires Sound(c)
    ensures (Orphaned(Step(c, a)) || Step(c, a).phase.Crashed?)
       <==> (Orphaned(c) || c.phase.Crashed?
             || (a.Cleanup? && c.phase.Sending? && c.phase.id == a.id && a.id in c.waiters))
    ensures Step(c, a).phase.Crashed? && !c.phase.Crashed? ==> a.Send? && Orphaned(c)
  {
    hide DoRegister, DoRead, DoSend, DoFailNext, DoReceive, DoCleanup, Sound;
    if !c.phase.Crashed? {
      match a
      case Register(id) => RegisterOrphansNone(c, id);
      case Read(id, envelope) => ReadOrphansNone(c, id, envelope);
      case FailNext(id) => FailNextOrphansNone(c, id);
      case Receive(id) => ReceiveOrphansNone(c, id);
      case Send => SendCrashesOrphan(c);
      case Cleanup(id) => CleanupOrphans(c, id);
      case _ =>
    }
  }

  lemma RegisterOrphansNone(c: Client, id: Id)
    requires Sound(c) && !c.phase.Crashed?
    ensures Orphaned(DoRegister(c, id)) == Orphaned(c) && !DoRegister(c, id).phase.Crashed?
  {
  }

  lemma ReadOrphansNone(c: Client, id: Id, envelope: Envelope)
    requires !c.phase.Crashed?
    ensures Orphaned(DoRead(c, id, envelope)) == Orphaned(c) && !DoRead(c, id, envelope).phase.Crashed?
  {
    hide MissingId, Push;
  }

  lemma FailNextOrphansNone(c: Client, id: Id)
    requires Sound(c) && !c.phase.Crashed?
    ensures Orphaned(DoFailNext(c, id)) == Orphaned(c) && !DoFailNext(c, id).phase.Crashed?
  {
  }

  lemma ReceiveOrphansNone(c: Client, id: Id)
    requires !c.phase.Crashed?
    ensures Orphaned(DoReceive(c, id)) == Orphaned(c) && !DoReceive(c, id).phase.Crashed?
  {
  }

  lemma SendCrashesOrphan(c: Client)
    requires Sound(c) && !c.phase.Crashed?
    ensures Orphaned(DoSend(c)) || DoSend(c).phase.Crashed? <==> Orphaned(c)
    ensures DoSend(c).phase.Crashed? <==> Orphaned(c)
  {
  }

  lemma CleanupOrphans(c: Client, id: Id)
    requires Sound(c) && !c.phase.Crashed?
    ensures !DoCleanup(c, id).phase.Crashed?
    ensures Orphaned(DoCleanup(c, id)) <==> Orphaned(c) || (c.phase.Sending? && c.phase.id == id && id in c.waiters)
  {
  }

  lemma OvertakenSnoc(init: seq<Action>, last: Action)
    ensures Overtaken(init + [last]) <==> Overtaken(init) || Overtakes(init + [last], |init|)
  {
    hide Run;
    var actions := init + [last];
    forall i | 0 <= i < |init|
      ensures Overtakes(init, i) <==> Overtakes(actions, i)
    {
      assert init[..i] == actions[..i];
    }
    if Overtaken(init) {
      var i :| 0 <= i < |init| && Overtakes(init, i);
      assert Overtakes(actions, i);
    }
    if Overtaken(actions) {
      var i :| 0 <= i < |actions| && Overtakes(actions, i);
      assert i < |init| ==> Overtakes(init, i);
    }
  }

  /** A run is about to panic, or has, exactly when a cleanup overtook a send;
      nothing else ever uses a closed channel. */
  lemma {:induction false} CrashIffOvertaken(actions: seq<Action>)
    ensures (Orphaned(Run(actions)) || Run(actions).phase.Crashed?) <==> Overtaken(actions)
  {
    hide Step, Overtaken, Inv;
    if actions == [] {
      NeverOvertakenYet();
    } else {
      var init, last := actions[..|actions| - 1], actions[|actions| - 1];
      assert actions == init + [last];
      CrashIffOvertaken(init);
      RunInv(init);
      StepOrphans(Run(init), last);
      OvertakenSnoc(init, last);
    }
  }

  lemma NeverOvertakenYet()
    ensures !Overtaken([])
  {
  }

  /** Such a run exists: a caller gives up just as its response arrives. */
  lemma CleanupCanOvertakeSend()
    ensures var id := RequestId(1);
            Run([Issue] + [Register(id)] + [Read(id, OtherEnvelope)] + [Cleanup(id)] + [Send]).phase.Crashed?
  {
    hide Run, Numeral;
    var id := RequestId(1);
    assert id.text[0] == 'g';
    assert [] + [Issue] == [Issue];
    NothingRunYet();
    RunConcat([], Issue);
    RunConcat([Issue], Register(id));
    RunConcat([Issue] + [Register(id)], Read(id, OtherEnvelope));
    RunConcat([Issue] + [Register(id)] + [Read(id, OtherEnvelope)], Cleanup(id));
    RunConcat([Issue] + [Register(id)] + [Read(id, OtherEnvelope)] + [Cleanup(id)], Send);
    OneCallerGivesUp(id);
  }

  lemma NothingRunYet()
    ensures Run([]) == Started
  {
  }

  lemma OneCallerGivesUp(id: Id)
    requires id == RequestId(1) && id.text != ""
    ensures Step(Step(Step(Step(Step(Started, Issue), Register(id)), Read(id, OtherEnvelope)), Cleanup(id)), Send).phase.Crashed?
  {
    hide Numeral;
    var c0 := Step(Started, Issue);
    assert Issued(c0, id);
    var c1 := Step(c0, Register(id));
    assert id in c1.waiters && id in c1.channels;
    var c2 := Step(c1, Read(id, OtherEnvelope));
    assert c2.phase == Sending(id, Value(OtherEnvelope));
    var c3 := Step(c2, Cleanup(id));
    assert c3.channels[id].status == ClosedByCleanup;
  }

  // ----- StreamRun -----

  datatype StreamResult = Finished | StreamFailed(reason: string)

  predicate IsEvent(item: Item) {
    item.Value? && item.envelope.EventEnvelope?
  }

  /** The events an item sequence starts with, up to the first other item. */
  function LeadingEvents(items: seq<Item>): (events: seq<string>)
    ensures |events| <= |items|
    ensures forall i :: 0 <= i < |events| ==> IsEvent(items[i]) && items[i].envelope.event == events[i]
    ensures |events| < |items| ==> !IsEvent(items[|events|])
  {
    if items == [] || !IsEvent(items[0]) then []
    else [items[0].envelope.event] + LeadingEvents(items[1..])
  }

  /** What the first item that is no event makes of the call. */
  function Verdict(item: Item, sessionId: string): StreamResult
    requires !IsEvent(item)
  {
    match item
    case Failure(error) => StreamFailed(error)
    case Value(ResponseEnvelope(response)) =>
      if response.None? then StreamFailed("malformed response")
      else if response.value != sessionId then StreamFailed("unexpected session_id for run.start: " + response.value)
      else Finished
    case Value(ErrorEnvelope(errorType, message)) => StreamFailed(errorType + ": " + message)
    case _ => StreamFailed("unexpected envelope for run.start")
  }

  /** The sink took every event so far, each time given all it was handed. */
  predicate Took(sink: seq<string> -> Option<string>, handed: seq<string>) {
    forall k :: 0 < k <= |handed| ==> sink(handed[..k]).None?
  }

  lemma TookNext(sink: seq<string> -> Option<string>, handed: seq<string>, event: string)
    requires Took(sink, handed)
    ensures Took(sink, handed + [event]) <==> sink(handed + [event]).None?
  {
    var more := handed + [event];
    assert more[..|more|] == more;
    assert forall k :: 0 < k <= |handed| ==> more[..k] == handed[..k];
  }

  /** The sink has taken all leading events, the context is not done, and the item
      behind them is there to be received. */
  predicate AtEnd(items: seq<Item>, patience: nat, sink: seq<string> -> Option<string>, handed: seq<string>) {
    handed == LeadingEvents(items) && |handed| < |items| && |handed| < patience && Took(sink, handed)
  }

  /** The loop of `StreamRun` over what its waiter yields: `items`, then the
      closed channel.  The context ends after `patience` receives, and `sink`
      may refuse an event, given all it has been handed. */
  method StreamRun(items: seq<Item>, closedError: string, patience: nat, sessionId: string, sink: seq<string> -> Option<string>)
    returns (handed: seq<string>, result: StreamResult)
    ensures handed <= LeadingEvents(items) && |handed| <= patience
    ensures handed != [] ==> Took(sink, handed[..|handed| - 1])
    ensures result == Finished
       <==> AtEnd(items, patience, sink, handed) && items[|handed|] == Value(ResponseEnvelope(Some(sessionId)))
    ensures AtEnd(items, patience, sink, handed) ==>
              match items[|handed|]
              case Failure(error) => result == StreamFailed(error)
              case Value(ErrorEnvelope(errorType, message)) => result == StreamFailed(errorType + ": " + message)
              case Value(ResponseEnvelope(Some(other))) =>
                other != sessionId ==> result == StreamFailed("unexpected session_id for run.start: " + other)
              case Value(ResponseEnvelope(None)) => result == StreamFailed("malformed response")
              case Value(OtherEnvelope) => result == StreamFailed("unexpected envelope for run.start")
              case Value(EventEnvelope(_)) => true
    ensures !AtEnd(items, patience, sink, handed) ==>
              if !Took(sink, handed) then sink(handed).Some? && result == StreamFailed(sink(handed).value)
              else if |handed| == patience then result == StreamFailed("context done")
              else |handed| == |items| && result == StreamFailed(closedError)
  {
    hide LeadingEvents, Took;
    handed := [];
    NothingTaken(sink);
    while true
      invariant |handed| <= |items| && |handed| <= patience && handed <= LeadingEvents(items) && Took(sink, handed)
      decreases |items| - |handed|
    {
      if handed != [] {
        TookBefore(sink, handed);
      }
      if |handed| == patience {
        return handed, StreamFailed("context done");
      }
      if |handed| == |items| {
        return handed, StreamFailed(closedError);
      }
      var item := items[|handed|];
      if !IsEvent(item) {
        return handed, Verdict(item, sessionId);
      }
      TookNext(sink, handed, item.envelope.event);
      ghost var before := handed;
      handed := handed + [item.envelope.event];
      assert handed[..|handed| - 1] == before;
      var refusal := sink(handed);
      if refusal.Some? {
        return handed, StreamFailed(refusal.value);
      }
    }
  }

  lemma NothingTaken(sink: seq<string> -> Option<string>)
    ensures Took(sink, [])
  {
  }

  lemma TookBefore(sink: seq<string> -> Option<string>, handed: seq<string>)
    requires handed != [] && Took(sink, handed)
    ensures Took(sink, handed[..|handed| - 1])
  {
    var before := handed[..|handed| - 1];
    assert forall k :: 0 < k <= |before| ==> before[..k] == handed[..k];
  }

  lemma {:induction false} LeadingEventsPrefix(items: seq<Item>, more: seq<Item>)
    requires |LeadingEvents(items)| < |items|
    ensures LeadingEvents(items + more) == LeadingEvents(items)
  {
    if IsEvent(items[0]) {
      assert (items + more)[1..] == items[1..] + more;
      LeadingEventsPrefix(items[1..], more);
    }
  }

  /** A caller that has received the item ending its stream has received exactly
      the events the backend emitted before that item. */
  lemma StreamSeesEmittedEvents(actions: seq<Action>, id: Id)
    requires var c := Run(actions);
             id in c.channels && |LeadingEvents(GetSeq(c.consumed, id))| < |GetSeq(c.consumed, id)|
             && GetSeq(c.consumed, id)[|LeadingEvents(GetSeq(c.consumed, id))|].Value?
    ensures LeadingEvents(GetSeq(Run(actions).consumed, id)) == LeadingEvents(Emitted(actions, id))
  {
    hide Run, LeadingEvents, Sound, Step, Emitted;
    RunInv(actions);
    DispatchedIsEmitted(actions, id);
    var c := Run(actions);
    var got, all := GetSeq(c.consumed, id), GetSeq(c.dispatched, id);
    var n := |LeadingEvents(got)|;
    ConsumedWasDispatched(c, id, n);
    var upTo := got[..n + 1];
    assert all == upTo + all[n + 1..] && got == upTo + got[n + 1..];
    LeadingEventsAt(got, n);
    LeadingEventsPrefix(upTo, all[n + 1..]);
    LeadingEventsPrefix(upTo, got[n + 1..]);
  }

  lemma ConsumedWasDispatched(c: Client, id: Id, n: nat)
    requires Inv(c) && id in c.channels && n < |GetSeq(c.consumed, id)| && GetSeq(c.consumed, id)[n].Value?
    ensures GetSeq(c.consumed, id)[..n + 1] <= GetSeq(c.dispatched, id)
  {
    hide Sound;
    var got, all := GetSeq(c.consumed, id), GetSeq(c.dispatched, id);
    assert Delivered(c, id);
    if c.channels[id].status == ClosedByFailure {
      assert got <= all + [Failure(c.terminalErr.value)];
    } else {
      assert got <= all;
    }
  }

  lemma {:induction false} LeadingEventsAt(items: seq<Item>, n: nat)
    requires n == |LeadingEvents(items)| < |items|
    ensures |LeadingEvents(items[..n + 1])| == n
  {
    if n > 0 {
      LeadingEventsAt(items[1..], n - 1);
      assert items[..n + 1][1..] == items[1..][..n];
    }
  }
}
