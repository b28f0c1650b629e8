/**
 * Onboarding questions as rows of a table: published or started as pending,
 * then completed by an answer or abandoned. A unique index allows one pending
 * row per session. The steps here are the transactions on the table.
 */
module OnboardingSpec {
  import opened Common

  // ----- Questions -----

  datatype Snippet = Snippet(path: string, startLine: int, endLine: int, text: string)

  datatype Mcq = Mcq(prompt: string, options: seq<string>, correctIndex: int, explanation: string,
                     generatorVersion: string)

  datatype Error =
    | NoPackets
    | BlankPacket
    | RepeatedPacket
    | BlankSnippetPath
    | BadSnippetSpan
    | BlankSnippet
    | BlankPrompt
    | WrongOptionCount
    | BlankOption
    | RepeatedOption
    | BadIndex
    | BlankExplanation
    | BlankVersion
    | PendingLiveQuestion
    | NotFound
    | NotPending
    | Disappeared
    | NotPersisted
    | IntegrityError

  predicate White(c: char) {
    c == ' ' || '\t' <= c <= '\r'
  }

  /** `s.strip()`. */
  function Strip(s: string): (r: string)
    ensures r == "" || (!White(r[0]) && !White(r[|r| - 1]))
  {
    if s == "" then ""
    else if White(s[0]) then Strip(s[1..])
    else if White(s[|s| - 1]) then Strip(s[..|s| - 1])
    else s
  }

  /** `s.lower()`. */
  function Lower(s: string): (r: string)
    ensures |r| == |s|
  {
    seq(|s|, i requires 0 <= i < |s| => if 'A' <= s[i] <= 'Z' then s[i] + 32 as char else s[i])
  }

  predicate Blank(s: string) {
    Strip(s) == ""
  }

  function Normal(option: string): string {
    Lower(Strip(option))
  }

  function OptionsError(options: seq<string>): Option<Error> {
    if |options| != 4 then Some(WrongOptionCount)
    else if exists i :: 0 <= i < |options| && Blank(options[i]) then Some(BlankOption)
    else if exists i, j :: 0 <= i < j < |options| && Normal(options[i]) == Normal(options[j]) then Some(RepeatedOption)
    else None
  }

  function IndexError(index: int): Option<Error> {
    if 0 <= index < 4 then None else Some(BadIndex)
  }

  function McqError(q: Mcq): Option<Error> {
    if Blank(q.prompt) then Some(BlankPrompt)
    else if OptionsError(q.options).Some? then OptionsError(q.options)
    else if IndexError(q.correctIndex).Some? then IndexError(q.correctIndex)
    else if Blank(q.explanation) then Some(BlankExplanation)
    else if Blank(q.generatorVersion) then Some(BlankVersion)
    else None
  }

  function GeneratedError(snippet: Snippet, q: Mcq): Option<Error> {
    if Blank(snippet.path) then Some(BlankSnippetPath)
    else if snippet.startLine <= 0 || snippet.endLine < snippet.startLine then Some(BadSnippetSpan)
    else if Blank(snippet.text) then Some(BlankSnippet)
    else McqError(q)
  }

  function PublishedError(packets: seq<string>, q: Mcq): Option<Error> {
    if packets == [] then Some(NoPackets)
    else if exists i :: 0 <= i < |packets| && Blank(packets[i]) then Some(BlankPacket)
    else if exists i, j :: 0 <= i < j < |packets| && packets[i] == packets[j] then Some(RepeatedPacket)
    else McqError(q)
  }

  function Stripped(options: seq<string>): (r: seq<string>)
    ensures |r| == |options| && forall i :: 0 <= i < |r| ==> r[i] == Strip(options[i])
  {
    seq(|options|, i requires 0 <= i < |options| => Strip(options[i]))
  }

  /** Options that were valid when stored are valid when read back. */
  lemma StrippedStayValid(options: seq<string>)
    requires OptionsError(options).None?
    ensures OptionsError(Stripped(options)).None?
  {
  }

  // ----- Rows -----

  datatype Status = Pending | Completed | Abandoned

  datatype Row = Row(session: string, run: Option<string>, status: Status, snippet: Option<Snippet>,
                     packets: seq<string>, question: Mcq, answer: Option<int>, isCorrect: Option<bool>,
                     completedAt: Option<string>)

  type Table = map<string, Row>

  function NewRow(session: string, run: Option<string>, snippet: Option<Snippet>, packets: seq<string>, q: Mcq): Row {
    Row(session, run, Pending, snippet, packets, q, None, None, None)
  }

  ghost predicate PendingFor(t: Table, session: string, id: string) {
    id in t && t[id].session == session && t[id].status.Pending?
  }

  /** What the unique index demands. */
  ghost predicate OnePending(t: Table) {
    forall a, b :: a in t && b in t && t[a].status.Pending? && t[b].status.Pending? && t[a].session == t[b].session
                   ==> a == b
  }

  /** What is stored was validated, and answers are there exactly for completed
      rows, marked right exactly when they are. */
  ghost predicate SoundRow(row: Row) {
    && OptionsError(row.question.options).None? && IndexError(row.question.correctIndex).None?
    && (row.answer.Some? <==> row.status.Completed?)
    && row.isCorrect == (if row.answer.Some? then Some(row.answer.value == row.question.correctIndex) else None)
    && (row.completedAt.None? <==> row.status.Pending?)
  }

  ghost predicate Inv(t: Table) {
    OnePending(t) && forall id :: id in t ==> SoundRow(t[id])
  }

  // ----- Transactions -----

  /** An insert is refused when the id is taken or the index would be violated. */
  ghost predicate Refused(t: Table, id: string, row: Row) {
    id in t || exists other :: PendingFor(t, row.session, other)
  }

  ghost function InsertPending(t: Table, id: string, row: Row): Result<Table, Error> {
    if Refused(t, id, row) then Err(IntegrityError) else Ok(t[id := row])
  }

  function Abandon(row: Row, now: string): Row {
    row.(status := Abandoned, completedAt := Some(now))
  }

  function AbandonPending(t: Table, session: string, now: string): Table {
    map id | id in t :: if t[id].session == session && t[id].status.Pending? then Abandon(t[id], now) else t[id]
  }

  ghost function Publish(t: Table, session: string, run: string, id: string, packets: seq<string>, q: Mcq, now: string):
    Result<Table, Error>
  {
    if PublishedError(packets, q).Some? then Err(PublishedError(packets, q).value)
    else InsertPending(AbandonPending(t, session, now), id, NewRow(session, Some(run), None, packets, q))
  }

  /** The insert at the end of a start. The check for a pending row came before
      it, outside the write transaction. */
  ghost function StartInsert(t: Table, session: string, id: string, snippet: Snippet, q: Mcq): Result<Table, Error> {
    if GeneratedError(snippet, q).Some? then Err(GeneratedError(snippet, q).value)
    else InsertPending(t, id, NewRow(session, None, Some(snippet), [], q))
  }

  function Complete(row: Row, selected: int, now: string): Row {
    row.(status := Completed, answer := Some(selected),
         isCorrect := Some(selected == row.question.correctIndex), completedAt := Some(now))
  }

  /** The reads of a submit, before its write transaction begins. */
  function SubmitError(t: Table, session: string, id: string, selected: int): Option<Error> {
    if IndexError(selected).Some? then IndexError(selected)
    else if id !in t || t[id].session != session then Some(NotFound)
    else if !t[id].status.Pending? then Some(NotPending)
    else
      var options := Stripped(t[id].question.options);
      if OptionsError(options).Some? then OptionsError(options) else IndexError(t[id].question.correctIndex)
  }

  /** The update of a submit, which only a row still pending matches. The question
      is the one the reads saw, as rows never change theirs. */
  function RecordAnswer(t: Table, session: string, id: string, selected: int, now: string): Table {
    if IndexError(selected).None? && id in t && t[id].session == session && t[id].status.Pending? then
      t[id := Complete(t[id], selected, now)]
    else t
  }

  datatype SubmitResult = SubmitResult(id: string, selected: int, correctIndex: int, correctOption: string,
                                       isCorrect: bool, explanation: string)

  /** What a submit reports after its update, from the row as it is then and the
      question read before. */
  function SubmitReply(t: Table, session: string, id: string, selected: int, q: Mcq): Result<SubmitResult, Error>
    requires 0 <= q.correctIndex < |q.options|
  {
    if id !in t || t[id].session != session then Err(Disappeared)
    else if !t[id].status.Completed? then Err(NotPersisted)
    else
      Ok(SubmitResult(id, selected, q.correctIndex, Strip(q.options[q.correctIndex]), selected == q.correctIndex,
                      t[id].question.explanation))
  }

  function AbandonOne(t: Table, session: string, id: string, now: string): Table {
    if id in t && t[id].session == session && t[id].status.Pending? then t[id := Abandon(t[id], now)] else t
  }

  // ----- Runs -----

  datatype Op =
    | DoPublish(session: string, run: string, id: string, packets: seq<string>, question: Mcq, now: string)
    | DoStartInsert(session: string, id: string, snippet: Snippet, question: Mcq)
    | DoSubmit(session: string, id: string, selected: int, now: string)
    | DoAbandon(session: string, id: string, now: string)

  ghost function Outcome(t: Table, op: Op): Result<Table, Error> {
    match op
    case DoPublish(session, run, id, packets, question, now) => Publish(t, session, run, id, packets, question, now)
    case DoStartInsert(session, id, snippet, question) => StartInsert(t, session, id, snippet, question)
    case DoSubmit(session, id, selected, now) => Ok(RecordAnswer(t, session, id, selected, now))
    case DoAbandon(session, id, now) => Ok(AbandonOne(t, session, id, now))
  }

  /** A failed transaction is rolled back. */
  ghost function Step(t: Table, op: Op): Table {
    var r := Outcome(t, op);
    if r.Ok? then r.value else t
  }

  ghost function Run(t: Table, ops: seq<Op>): Table
    decreases |ops|
  {
    if ops == [] then t else Run(Step(t, ops[0]), ops[1..])
  }

  lemma InsertKeepsInv(t: Table, id: string, row: Row)
    requires Inv(t) && SoundRow(row) && InsertPending(t, id, row).Ok?
    ensures Inv(InsertPending(t, id, row).value)
  {
    hide SoundRow;
    var u := t[id := row];
    forall a, b | a in u && b in u && u[a].status.Pending? && u[b].status.Pending? && u[a].session == u[b].session
      ensures a == b
    {
      assert !PendingFor(t, row.session, a) && !PendingFor(t, row.session, b);
    }
  }

  lemma AbandonKeepsInv(t: Table, session: string, now: string)
    requires Inv(t)
    ensures Inv(AbandonPending(t, session, now))
    ensures forall id :: !PendingFor(AbandonPending(t, session, now), session, id)
  {
    hide OptionsError, IndexError;
  }

  /** No transaction, failed or not, lets a session have two pending rows. */
  lemma StepKeepsInv(t: Table, op: Op)
    requires Inv(t)
    ensures Inv(Step(t, op))
  {
    hide OptionsError, IndexError, PublishedError, GeneratedError, AbandonPending, Stripped;
    match op
    case DoPublish(session, run, id, packets, question, now) =>
      AbandonKeepsInv(t, session, now);
      if PublishedError(packets, question).None? {
        PublishedIsSound(packets, question);
        var row := NewRow(session, Some(run), None, packets, question);
        if !Refused(AbandonPending(t, session, now), id, row) {
          InsertKeepsInv(AbandonPending(t, session, now), id, row);
        }
      }
    case DoStartInsert(session, id, snippet, question) =>
      if GeneratedError(snippet, question).None? {
        GeneratedIsSound(snippet, question);
        var row := NewRow(session, None, Some(snippet), [], question);
        if !Refused(t, id, row) {
          InsertKeepsInv(t, id, row);
        }
      }
    case DoSubmit(session, id, selected, now) =>
    case DoAbandon(session, id, now) =>
  }

  lemma PublishedIsSound(packets: seq<string>, q: Mcq)
    requires PublishedError(packets, q).None?
    ensures OptionsError(q.options).None? && IndexError(q.correctIndex).None?
  {
  }

  lemma GeneratedIsSound(snippet: Snippet, q: Mcq)
    requires GeneratedError(snippet, q).None?
    ensures OptionsError(q.options).None? && IndexError(q.correctIndex).None?
  {
  }

  /** Every reachable table has at most one pending row per session and only
      sound rows. */
  lemma {:induction false} RunKeepsInv(t: Table, ops: seq<Op>)
    requires Inv(t)
    ensures Inv(Run(t, ops))
    decreases |ops|
  {
    hide Inv, Step;
    if ops != [] {
      StepKeepsInv(t, ops[0]);
      RunKeepsInv(Step(t, ops[0]), ops[1..]);
    }
  }

  // ----- Which inserts are refused -----

  /** Publishing a valid question is refused only for a taken id: the index is
      never in its way. Afterwards it is the session's pending row. */
  lemma PublishSupersedes(t: Table, session: string, run: string, id: string, packets: seq<string>, q: Mcq, now: string)
    requires Inv(t)
    ensures var r := Publish(t, session, run, id, packets, q, now);
            && (r.Ok? <==> PublishedError(packets, q).None? && id !in t)
            && (r.Ok? ==> forall other :: PendingFor(r.value, session, other) <==> other == id)
  {
  }

  /** A start's insert of a valid question under a new id is refused exactly when
      the session has a pending row by then, so never right after the check. */
  lemma StartRefusedIffOvertaken(t: Table, session: string, id: string, snippet: Snippet, q: Mcq)
    requires GeneratedError(snippet, q).None? && id !in t
    ensures StartInsert(t, session, id, snippet, q).Err? <==> exists other :: PendingFor(t, session, other)
  {
    hide GeneratedError;
  }

  /** Two starts can both find nothing pending; the second to insert is refused. */
  lemma SecondStartIsRefused(t: Table, session: string, a: string, b: string, snippet: Snippet, q: Mcq,
                             snippet': Snippet, q': Mcq)
    requires GeneratedError(snippet, q).None? && GeneratedError(snippet', q').None?
    requires a !in t && b !in t && !exists other :: PendingFor(t, session, other)
    ensures var u := Step(t, DoStartInsert(session, a, snippet, q));
            && PendingFor(u, session, a)
            && StartInsert(u, session, b, snippet', q') == Err(IntegrityError)
            && Step(u, DoStartInsert(session, b, snippet', q')) == u
  {
    hide GeneratedError;
    var u := Step(t, DoStartInsert(session, a, snippet, q));
    assert PendingFor(u, session, a);
  }

  // ----- What becomes of an attempt -----

  /** How a row may differ later: its question never changes, and once it is not
      pending nothing does. */
  ghost predicate Later(before: Row, after: Row) {
    && after.session == before.session && after.run == before.run && after.snippet == before.snippet
    && after.packets == before.packets && after.question == before.question
    && (after == before || (before.status.Pending? && !after.status.Pending?))
  }

  lemma StepIsLater(t: Table, op: Op, id: string)
    requires id in t
    ensures id in Step(t, op) && Later(t[id], Step(t, op)[id])
  {
    hide OptionsError, IndexError, PublishedError, GeneratedError, Stripped;
  }

  /** Over any run rows never vanish, and completed and abandoned rows never
      change again. */
  lemma {:induction false} FinishedRowsStay(t: Table, ops: seq<Op>, id: string)
    requires id in t
    ensures id in Run(t, ops) && Later(t[id], Run(t, ops)[id])
    ensures !t[id].status.Pending? ==> Run(t, ops)[id] == t[id]
    decreases |ops|
  {
    hide Step;
    if ops != [] {
      StepIsLater(t, ops[0], id);
      FinishedRowsStay(Step(t, ops[0]), ops[1..], id);
    }
  }

  /** The transactions that end a pending attempt. */
  ghost predicate Ends(t: Table, op: Op, session: string, id: string) {
    match op
    case DoPublish(s, _, _, _, _, _) => s == session && Outcome(t, op).Ok?
    case DoStartInsert(_, _, _, _) => false
    case DoSubmit(s, i, selected, _) => s == session && i == id && IndexError(selected).None?
    case DoAbandon(s, i, _) => s == session && i == id
  }

  ghost predicate EndedDuring(t: Table, ops: seq<Op>, session: string, id: string)
    decreases |ops|
  {
    ops != [] && (Ends(t, ops[0], session, id) || EndedDuring(Step(t, ops[0]), ops[1..], session, id))
  }

  lemma StepEnds(t: Table, op: Op, session: string, id: string)
    requires Inv(t) && PendingFor(t, session, id)
    ensures PendingFor(Step(t, op), session, id) <==> !Ends(t, op, session, id)
  {
    hide PublishedError, GeneratedError, OptionsError, IndexError;
  }

  /** An attempt stays the session's pending one, unchanged, until it is answered
      or abandoned or another question is published: exactly then it ends. */
  lemma {:induction false} PendingUntilEnded(t: Table, ops: seq<Op>, session: string, id: string)
    requires Inv(t) && PendingFor(t, session, id)
    ensures PendingFor(Run(t, ops), session, id) <==> !EndedDuring(t, ops, session, id)
    ensures !EndedDuring(t, ops, session, id) ==> Run(t, ops)[id] == t[id]
    decreases |ops|
  {
    hide Inv, Step, Ends;
    FinishedRowsStay(t, ops, id);
    if ops != [] {
      var u := Step(t, ops[0]);
      StepEnds(t, ops[0], session, id);
      StepKeepsInv(t, ops[0]);
      if Ends(t, ops[0], session, id) {
        StepIsLater(t, ops[0], id);
        FinishedRowsStay(u, ops[1..], id);
      } else {
        PendingUntilEnded(u, ops[1..], session, id);
      }
    }
  }

  /** The first answer recorded stays on record over any further run, and every
      submit that reads the row afterwards is refused. */
  lemma FirstAnswerCounts(t: Table, session: string, id: string, selected: int, now: string, ops: seq<Op>, again: int)
    requires Inv(t) && PendingFor(t, session, id) && IndexError(selected).None? && IndexError(again).None?
    ensures var u := Step(t, DoSubmit(session, id, selected, now));
            && SubmitError(t, session, id, selected).None?
            && id in Run(u, ops) && Run(u, ops)[id] == Complete(t[id], selected, now)
            && SubmitError(Run(u, ops), session, id, again) == Some(NotPending)
  {
    hide Inv, Run, OptionsError, Stripped;
    PendingIsAnswerable(t, session, id);
    FinishedRowsStay(Step(t, DoSubmit(session, id, selected, now)), ops, id);
  }

  /** A submit whose reads succeeded on `t` and whose update comes after a run of
      other transactions. The answer is recorded exactly when nothing has ended
      the attempt since; success is reported exactly when it is not abandoned, and
      tells the answer on record exactly when none came in between but an equal
      one. */
  lemma DelayedAnswer(t: Table, ops: seq<Op>, session: string, id: string, selected: int, now: string)
    requires Inv(t) && SubmitError(t, session, id, selected).None?
    ensures id in t && 0 <= t[id].question.correctIndex < |t[id].question.options|
    ensures var u := Run(t, ops);
            var v := Step(u, DoSubmit(session, id, selected, now));
            var reply := SubmitReply(v, session, id, selected, t[id].question);
            && id in u && id in v
            && v == (if EndedDuring(t, ops, session, id) then u else u[id := Complete(t[id], selected, now)])
            && (reply.Ok? <==> !u[id].status.Abandoned?)
            && (reply.Err? ==> reply.error == NotPersisted)
            && (reply.Ok? ==> (v[id].answer == Some(reply.value.selected)
                               <==> !EndedDuring(t, ops, session, id) || u[id].answer == Some(selected)))
  {
    hide Run, EndedDuring, OptionsError;
    PendingUntilEnded(t, ops, session, id);
    FinishedRowsStay(t, ops, id);
    RunKeepsInv(t, ops);
    FourOptions(t[id].question.options);
  }

  lemma FourOptions(options: seq<string>)
    requires OptionsError(options).None? || OptionsError(Stripped(options)).None?
    ensures |options| == 4
  {
  }

  /** Two submits that both read the row while it was pending: the second is told
      it answered, with its own choice, though the first answer is on record. */
  lemma OverlappingAnswersBothReported(t: Table, session: string, id: string, first: int, second: int, now: string, later: string)
    requires Inv(t) && SubmitError(t, session, id, first).None? && SubmitError(t, session, id, second).None?
    requires first != second
    ensures id in t && 0 <= t[id].question.correctIndex < |t[id].question.options|
    ensures var u := Run(t, [DoSubmit(session, id, first, now)]);
            var v := Step(u, DoSubmit(session, id, second, later));
            var reply := SubmitReply(v, session, id, second, t[id].question);
            && v == u && id in v && v[id].answer == Some(first)
            && reply.Ok? && reply.value.selected == second
            && reply.value.isCorrect == (second == t[id].question.correctIndex)
  {
    hide OptionsError;
    DelayedAnswer(t, [DoSubmit(session, id, first, now)], session, id, second, later);
    OneStepRun(t, DoSubmit(session, id, first, now));
  }

  /** An attempt abandoned between a submit's reads and its update fails it. */
  lemma AbandonedAnswerFails(t: Table, session: string, id: string, selected: int, now: string, later: string)
    requires Inv(t) && SubmitError(t, session, id, selected).None?
    ensures id in t && 0 <= t[id].question.correctIndex < |t[id].question.options|
    ensures var u := Run(t, [DoAbandon(session, id, now)]);
            var v := Step(u, DoSubmit(session, id, selected, later));
            v == u && SubmitReply(v, session, id, selected, t[id].question) == Err(NotPersisted)
  {
    hide OptionsError;
    DelayedAnswer(t, [DoAbandon(session, id, now)], session, id, selected, later);
    OneStepRun(t, DoAbandon(session, id, now));
  }

  lemma OneStepRun(t: Table, op: Op)
    ensures Run(t, [op]) == Step(t, op)
  {
    hide Step;
    assert [op][1..] == [];
  }

  lemma PendingIsAnswerable(t: Table, session: string, id: string)
    requires Inv(t) && PendingFor(t, session, id)
    ensures OptionsError(Stripped(t[id].question.options)).None? && IndexError(t[id].question.correctIndex).None?
  {
    StrippedStayValid(t[id].question.options);
  }

  // ----- What is stored -----

  /** A published question is stored as given, and the session's pending row, if
      any, is abandoned; nothing else changes. */
  lemma PublishStores(t: Table, session: string, run: string, id: string, packets: seq<string>, q: Mcq, now: string)
    requires Publish(t, session, run, id, packets, q, now).Ok?
    ensures var u := Publish(t, session, run, id, packets, q, now).value;
            && u.Keys == t.Keys + {id} && id !in t
            && u[id].question == q && u[id].session == session && u[id].run == Some(run) && u[id].packets == packets
            && u[id].snippet == None && u[id].status == Pending && u[id].answer == None && u[id].completedAt == None
            && forall other :: other in t ==>
                 if PendingFor(t, session, other) then
                   && Later(t[other], u[other]) && u[other].status == Abandoned && u[other].completedAt == Some(now)
                   && u[other].answer == t[other].answer && u[other].isCorrect == t[other].isCorrect
                 else u[other] == t[other]
  {
    hide PublishedError;
  }

  /** A started question is stored as given, with its snippet; nothing else
      changes. */
  lemma StartStores(t: Table, session: string, id: string, snippet: Snippet, q: Mcq)
    requires StartInsert(t, session, id, snippet, q).Ok?
    ensures var u := StartInsert(t, session, id, snippet, q).value;
            && u.Keys == t.Keys + {id} && id !in t
            && u[id].question == q && u[id].session == session && u[id].run == None && u[id].packets == []
            && u[id].snippet == Some(snippet) && u[id].status == Pending && u[id].answer == None
            && u[id].completedAt == None
            && forall other :: other in t ==> u[other] == t[other]
  {
    hide GeneratedError;
  }

  /** What a submit is told about a question. */
  predicate Judges(reply: Result<SubmitResult, Error>, id: string, selected: int, q: Mcq) {
    && 0 <= q.correctIndex < |q.options|
    && reply.Ok? && reply.value.id == id && reply.value.selected == selected
    && reply.value.correctIndex == q.correctIndex
    && reply.value.correctOption == Strip(q.options[q.correctIndex])
    && (reply.value.isCorrect <==> selected == q.correctIndex)
    && reply.value.explanation == q.explanation
  }

  /** While an attempt stands, any valid answer is judged by its question and
      recorded with that judgement. */
  lemma AnswerIsJudged(t: Table, ops: seq<Op>, session: string, id: string, selected: int, now: string)
    requires Inv(t) && PendingFor(t, session, id) && !EndedDuring(t, ops, session, id) && 0 <= selected < 4
    ensures var u, q := Run(t, ops), t[id].question;
            var v := RecordAnswer(u, session, id, selected, now);
            && id in u && u[id].question == q && 0 <= q.correctIndex < |q.options|
            && SubmitError(u, session, id, selected).None?
            && Judges(SubmitReply(v, session, id, selected, u[id].question), id, selected, q)
            && id in v && v[id].answer == Some(selected) && v[id].isCorrect == Some(selected == q.correctIndex)
            && v[id].status == Completed && v[id].completedAt == Some(now)
            && forall other :: other in u && other != id ==> other in v && v[other] == u[other]
  {
    hide Run, EndedDuring, OptionsError, Stripped, Inv, Strip;
    RunKeepsInv(t, ops);
    PendingUntilEnded(t, ops, session, id);
    PendingIsAnswerable(Run(t, ops), session, id);
    FourOptions(Run(t, ops)[id].question.options);
  }

  /** A published question judges answers as it was given, until its attempt ends. */
  lemma PublishedQuestionJudges(t: Table, session: string, run: string, id: string, packets: seq<string>, q: Mcq,
                                now: string, ops: seq<Op>, selected: int, later: string)
    requires Inv(t) && Publish(t, session, run, id, packets, q, now).Ok? && 0 <= selected < 4
    requires !EndedDuring(Publish(t, session, run, id, packets, q, now).value, ops, session, id)
    ensures var u := Run(Publish(t, session, run, id, packets, q, now).value, ops);
            && id in u && u[id].question == q && 0 <= q.correctIndex < |q.options|
            && Judges(SubmitReply(RecordAnswer(u, session, id, selected, later), session, id, selected, q), id, selected, q)
  {
    hide Run, EndedDuring, Inv, Publish, Judges, SubmitReply, RecordAnswer;
    PublishStores(t, session, run, id, packets, q, now);
    PublishKeepsInv(t, session, run, id, packets, q, now);
    AnswerIsJudged(Publish(t, session, run, id, packets, q, now).value, ops, session, id, selected, later);
  }

  lemma PublishKeepsInv(t: Table, session: string, run: string, id: string, packets: seq<string>, q: Mcq, now: string)
    requires Inv(t) && Publish(t, session, run, id, packets, q, now).Ok?
    ensures Inv(Publish(t, session, run, id, packets, q, now).value)
  {
    hide Publish, Inv;
    StepKeepsInv(t, DoPublish(session, run, id, packets, q, now));
  }

  lemma StartKeepsInv(t: Table, session: string, id: string, snippet: Snippet, q: Mcq)
    requires Inv(t) && StartInsert(t, session, id, snippet, q).Ok?
    ensures Inv(StartInsert(t, session, id, snippet, q).value)
  {
    hide StartInsert, Inv;
    StepKeepsInv(t, DoStartInsert(session, id, snippet, q));
  }

  /** So does a started one. */
  lemma StartedQuestionJudges(t: Table, session: string, id: string, snippet: Snippet, q: Mcq, ops: seq<Op>,
                              selected: int, later: string)
    requires Inv(t) && StartInsert(t, session, id, snippet, q).Ok? && 0 <= selected < 4
    requires !EndedDuring(StartInsert(t, session, id, snippet, q).value, ops, session, id)
    ensures var u := Run(StartInsert(t, session, id, snippet, q).value, ops);
            && id in u && u[id].question == q && 0 <= q.correctIndex < |q.options|
            && Judges(SubmitReply(RecordAnswer(u, session, id, selected, later), session, id, selected, q), id, selected, q)
  {
    hide Run, EndedDuring, Inv, StartInsert, Judges, SubmitReply, RecordAnswer;
    StartStores(t, session, id, snippet, q);
    StartKeepsInv(t, session, id, snippet, q);
    AnswerIsJudged(StartInsert(t, session, id, snippet, q).value, ops, session, id, selected, later);
  }

  // ----- What is accepted -----

  predicate AllWhite(s: string) {
    forall i :: 0 <= i < |s| ==> White(s[i])
  }

  /** Stripping takes white space from both ends and nothing else. */
  lemma {:induction false} StripCuts(s: string) returns (i: nat, j: nat)
    ensures i <= j <= |s| && Strip(s) == s[i..j] && AllWhite(s[..i]) && AllWhite(s[j..])
  {
    hide White;
    if s == "" {
      i, j := 0, 0;
    } else if White(s[0]) {
      var a, b := StripCuts(s[1..]);
      i, j := a + 1, b + 1;
      FrontAdded(s, a, b);
    } else if White(s[|s| - 1]) {
      i, j := StripCuts(s[..|s| - 1]);
      BackAdded(s, i, j);
    } else {
      i, j := 0, |s|;
    }
  }

  lemma WhiteJoined(a: string, b: string)
    requires AllWhite(a) && AllWhite(b)
    ensures AllWhite(a + b)
  {
    hide White;
  }

  lemma SliceBehindFirst(s: string, a: nat, b: nat)
    requires a <= b <= |s| - 1
    ensures s[a + 1..b + 1] == s[1..][a..b]
  {
    var tail, cut := s[1..], s[a + 1..b + 1];
    assert |cut| == |tail[a..b]|;
    forall k | 0 <= k < b - a
      ensures cut[k] == tail[a..b][k]
    {
      assert cut[k] == s[a + 1 + k] == tail[a + k];
    }
  }

  lemma FrontAdded(s: string, a: nat, b: nat)
    requires s != "" && a <= b <= |s| - 1 && White(s[0]) && AllWhite(s[1..][..a]) && AllWhite(s[1..][b..])
    ensures s[a + 1..b + 1] == s[1..][a..b] && AllWhite(s[..a + 1]) && AllWhite(s[b + 1..])
  {
    assert AllWhite([s[0]]);
    WhiteJoined([s[0]], s[1..][..a]);
    hide AllWhite;
    SliceBehindFirst(s, 0, a);
    SliceBehindFirst(s, b, |s| - 1);
    SliceBehindFirst(s, a, b);
    assert s[..a + 1] == [s[0]] + s[1..a + 1];
    assert s[1..][..a] == s[1..][0..a];
    assert s[b + 1..] == s[b + 1..|s|] && s[1..][b..] == s[1..][b..|s| - 1];
  }

  lemma BackAdded(s: string, i: nat, j: nat)
    requires s != "" && i <= j <= |s| - 1 && White(s[|s| - 1])
    requires AllWhite(s[..|s| - 1][..i]) && AllWhite(s[..|s| - 1][j..])
    ensures s[i..j] == s[..|s| - 1][i..j] && AllWhite(s[..i]) && AllWhite(s[j..])
  {
    assert AllWhite([s[|s| - 1]]);
    WhiteJoined(s[..|s| - 1][j..], [s[|s| - 1]]);
    hide AllWhite;
    assert s[..i] == s[..|s| - 1][..i];
    assert s[j..] == s[..|s| - 1][j..] + [s[|s| - 1]];
    assert s[i..j] == s[..|s| - 1][i..j];
  }

  lemma BlankIsWhite(s: string)
    ensures Blank(s) <==> AllWhite(s)
  {
    var i, j := StripCuts(s);
    assert s == s[..i] + s[i..j] + s[j..];
    if i < j {
      assert Strip(s)[0] == s[i];
    }
  }

  /** Exactly these questions can be asked. */
  predicate Askable(q: Mcq) {
    && !AllWhite(q.prompt) && !AllWhite(q.explanation) && !AllWhite(q.generatorVersion)
    && 0 <= q.correctIndex < 4 == |q.options|
    && (forall i :: 0 <= i < 4 ==> !AllWhite(q.options[i]))
    && (forall i, j :: 0 <= i < j < 4 ==> Lower(Strip(q.options[i])) != Lower(Strip(q.options[j])))
  }

  lemma AskableIsValid(q: Mcq)
    ensures McqError(q).None? <==> Askable(q)
  {
    hide AllWhite, Strip, Lower;
    BlankIsWhite(q.prompt);
    BlankIsWhite(q.explanation);
    BlankIsWhite(q.generatorVersion);
    forall i | 0 <= i < |q.options|
      ensures Blank(q.options[i]) <==> AllWhite(q.options[i])
    {
      BlankIsWhite(q.options[i]);
    }
    hide Blank;
    assert forall i, j :: 0 <= i < j < |q.options| ==>
        (Normal(q.options[i]) == Normal(q.options[j]) <==> Lower(Strip(q.options[i])) == Lower(Strip(q.options[j])));
  }

  /** A generated question also needs a snippet with a path, a span and a text; a
      published one needs packets, none blank and none twice. */
  lemma AcceptedExactly(snippet: Snippet, packets: seq<string>, q: Mcq)
    ensures GeneratedError(snippet, q).None?
       <==> Askable(q) && !AllWhite(snippet.path) && !AllWhite(snippet.text)
            && 0 < snippet.startLine <= snippet.endLine
    ensures PublishedError(packets, q).None?
       <==> Askable(q) && packets != [] && (forall i :: 0 <= i < |packets| ==> !AllWhite(packets[i]))
            && (forall i, j :: 0 <= i < j < |packets| ==> packets[i] != packets[j])
  {
    hide AllWhite, Askable, McqError, Strip;
    AskableIsValid(q);
    BlankIsWhite(snippet.path);
    BlankIsWhite(snippet.text);
    forall i | 0 <= i < |packets|
      ensures Blank(packets[i]) <==> AllWhite(packets[i])
    {
      BlankIsWhite(packets[i]);
    }
  }

  // ----- What callers get back -----

  datatype StartResult = StartResult(id: string, snippet: Snippet, prompt: string, options: seq<string>,
                                     explanation: string, generatorVersion: string)

  /** A pending row as the result of a start; a published question has no
      snippet and cannot be started. */
  function Reopen(id: string, row: Row): Result<StartResult, Error> {
    if row.snippet.None? then Err(PendingLiveQuestion)
    else
      var options := Stripped(row.question.options);
      if OptionsError(options).Some? then Err(OptionsError(options).value)
      else
        Ok(StartResult(id, row.snippet.value, row.question.prompt, options, row.question.explanation,
                       row.question.generatorVersion))
  }

  /** A sound row that was started can always be started again. */
  lemma StartedRowsReopen(id: string, row: Row)
    requires SoundRow(row)
    ensures Reopen(id, row).Ok? <==> row.snippet.Some?
    ensures row.snippet.None? ==> Reopen(id, row) == Err(PendingLiveQuestion)
    ensures row.snippet.Some? ==>
              Reopen(id, row) == Ok(StartResult(id, row.snippet.value, row.question.prompt, Stripped(row.question.options),
                                                row.question.explanation, row.question.generatorVersion))
  {
    StrippedStayValid(row.question.options);
  }
}

/** The table itself, and the four operations on it. */
module Onboarding {
  import opened Common
  import opened OnboardingSpec

  class Attempts {
    var rows: Table

    ghost predicate Valid()
      reads this
    {
      Inv(rows)
    }

    constructor ()
      ensures Valid() && rows == map[]
    {
      rows := map[];
    }

    method FetchPending(session: string) returns (id: Option<string>)
      requires Valid()
      ensures id.Some? ==> PendingFor(rows, session, id.value)
      ensures id.None? ==> forall other :: !PendingFor(rows, session, other)
    {
      if other :| other in rows && rows[other].session == session && rows[other].status.Pending? {
        id := Some(other);
      } else {
        id := None;
      }
    }

    /** `INSERT` of a pending row under the two constraints of the schema. */
    method Insert(id: string, row: Row) returns (ok: bool)
      requires Valid() && SoundRow(row) && row.status.Pending?
      modifies this
      ensures Valid() && ok == InsertPending(old(rows), id, row).Ok?
      ensures rows == if ok then InsertPending(old(rows), id, row).value else old(rows)
      ensures ok <==> id !in old(rows) && forall other :: !PendingFor(old(rows), row.session, other)
      ensures rows == if ok then old(rows)[id := row] else old(rows)
    {
      hide SoundRow;
      var other := FetchPending(row.session);
      ok := id !in rows && other.None?;
      if ok {
        InsertKeepsInv(rows, id, row);
        rows := rows[id := row];
      }
    }

    method PublishQuestion(session: string, run: string, id: string, packets: seq<string>, q: Mcq, now: string)
      returns (r: Result<string, Error>)
      requires Valid()
      modifies this
      ensures Valid()
      ensures r.Ok? == Publish(old(rows), session, run, id, packets, q, now).Ok?
      ensures r == if r.Ok? then Ok(id) else Err(Publish(old(rows), session, run, id, packets, q, now).error)
      ensures rows == Step(old(rows), DoPublish(session, run, id, packets, q, now))
      ensures r.Ok? ==> PendingFor(rows, session, id) && rows[id].question == q && rows[id].run == Some(run)
                        && rows[id].packets == packets && rows[id].snippet == None
    {
      hide SoundRow, PublishedError, AbandonPending;
      var e := PublishedError(packets, q);
      if e.Some? {
        return Err(e.value);
      }
      var before := rows;
      AbandonKeepsInv(rows, session, now);
      rows := AbandonPending(rows, session, now);
      NewRowIsSound(session, Some(run), None, packets, q);
      var ok := Insert(id, NewRow(session, Some(run), None, packets, q));
      if !ok {
        rows := before;
        return Err(IntegrityError);
      }
      r := Ok(id);
    }

    lemma NewRowIsSound(session: string, run: Option<string>, snippet: Option<Snippet>, packets: seq<string>, q: Mcq)
      ensures PublishedError(packets, q).None? ==> SoundRow(NewRow(session, run, snippet, packets, q))
      ensures snippet.Some? && GeneratedError(snippet.value, q).None? ==> SoundRow(NewRow(session, run, snippet, packets, q))
    {
    }

    /** Gives back the session's pending attempt, if there is one; otherwise
        stores the generated question as a new one. */
    method Start(session: string, id: string, snippet: Snippet, q: Mcq) returns (r: Result<StartResult, Error>)
      requires Valid()
      modifies this
      ensures Valid()
      ensures forall pending :: PendingFor(old(rows), session, pending) ==>
                rows == old(rows) && r == Reopen(pending, rows[pending])
      ensures (forall pending :: !PendingFor(old(rows), session, pending)) ==>
                && rows == Step(old(rows), DoStartInsert(session, id, snippet, q))
                && (r.Ok? <==> GeneratedError(snippet, q).None? && id !in old(rows))
                && (r.Ok? ==> PendingFor(rows, session, id) && rows[id].question == q && rows[id].snippet == Some(snippet))
                && (r.Ok? ==> r.value == StartResult(id, snippet, q.prompt, Stripped(q.options), q.explanation, q.generatorVersion))
    {
      hide SoundRow, GeneratedError;
      var pending := FetchPending(session);
      if pending.Some? {
        return Reopen(pending.value, rows[pending.value]);
      }
      var e := GeneratedError(snippet, q);
      if e.Some? {
        return Err(e.value);
      }
      NewRowIsSound(session, None, Some(snippet), [], q);
      var row := NewRow(session, None, Some(snippet), [], q);
      StartedRowsReopen(id, row);
      var ok := Insert(id, row);
      r := if ok then Reopen(id, rows[id]) else Err(IntegrityError);
    }

    /** The reads of a submit. */
    method CheckAnswer(session: string, id: string, selected: int) returns (r: Result<Mcq, Error>)
      requires Valid()
      ensures r.Ok? <==> 0 <= selected < 4 && PendingFor(rows, session, id)
      ensures r.Ok? ==> r.value == rows[id].question && 0 <= r.value.correctIndex < |r.value.options|
      ensures r.Err? ==> SubmitError(rows, session, id, selected) == Some(r.error)
      ensures r.Err? ==> r.error == if !(0 <= selected < 4) then BadIndex
                                    else if id in rows && rows[id].session == session then NotPending else NotFound
    {
      hide OptionsError, SoundRow;
      if PendingFor(rows, session, id) {
        PendingIsAnswerable(rows, session, id);
        FourOptions(rows[id].question.options);
      }
      var e := SubmitError(rows, session, id, selected);
      r := if e.Some? then Err(e.value) else Ok(rows[id].question);
    }

    /** The update of a submit and the row read back after it. */
    method FinishAnswer(session: string, id: string, selected: int, q: Mcq, now: string)
      returns (r: Result<SubmitResult, Error>)
      requires Valid() && 0 <= q.correctIndex < |q.options|
      modifies this
      ensures Valid() && rows == Step(old(rows), DoSubmit(session, id, selected, now))
      ensures r == SubmitReply(rows, session, id, selected, q)
    {
      hide OptionsError, SoundRow, Strip;
      StepKeepsInv(rows, DoSubmit(session, id, selected, now));
      if 0 <= selected < 4 && id in rows && rows[id].session == session && rows[id].status.Pending? {
        rows := rows[id := Complete(rows[id], selected, now)];
      }
      if id !in rows || rows[id].session != session {
        return Err(Disappeared);
      }
      if !rows[id].status.Completed? {
        return Err(NotPersisted);
      }
      r := Ok(SubmitResult(id, selected, q.correctIndex, Strip(q.options[q.correctIndex]), selected == q.correctIndex,
                           rows[id].question.explanation));
    }

    /** A submit that nothing interrupts reports what it recorded. */
    method SubmitAnswer(session: string, id: string, selected: int, now: string) returns (r: Result<SubmitResult, Error>)
      requires Valid()
      modifies this
      ensures Valid() && (r.Ok? <==> 0 <= selected < 4 && PendingFor(old(rows), session, id))
      ensures r.Ok? ==> rows == Step(old(rows), DoSubmit(session, id, selected, now))
      ensures r.Ok? ==> rows[id].answer == Some(selected) && rows[id].isCorrect == Some(r.value.isCorrect)
      ensures r.Ok? ==> r == SubmitReply(rows, session, id, selected, old(rows)[id].question)
      ensures r.Err? ==> rows == old(rows) && SubmitError(rows, session, id, selected) == Some(r.error)
    {
      hide OptionsError, SoundRow, Strip;
      var q := CheckAnswer(session, id, selected);
      if q.Err? {
        return Err(q.error);
      }
      r := FinishAnswer(session, id, selected, q.value, now);
    }

    method AbandonAttempt(session: string, id: string, now: string)
      requires Valid()
      modifies this
      ensures Valid() && rows == Step(old(rows), DoAbandon(session, id, now))
      ensures PendingFor(old(rows), session, id) ==>
                rows == old(rows)[id := old(rows)[id].(status := Abandoned, completedAt := Some(now))]
      ensures !PendingFor(old(rows), session, id) ==> rows == old(rows)
    {
      StepKeepsInv(rows, DoAbandon(session, id, now));
      rows := AbandonOne(rows, session, id, now);
    }
  }
}
