/**
  The bot's main loop. One pass of `while True` fetches the review API's answer
  for the current cursor, checks it, formats the most recent homework and sends
  it when it differs from the last message sent, and then moves the cursor; any
  exception skips the rest of the pass, and all but the messaging API's own are
  reported to the chat (once per distinct text).

  `Step` is the pass as a function of the loop's state and of what the outside
  world answered during it; `Run` chains passes. `Poller` holds the loop's two
  variables and performs a pass in place, proved to agree with `Step`.
 */
module MainLoop {
  import opened Errors
  import opened PyValue
  import opened Homework

  /** What a call of `bot.send_message` did. */
  datatype SendResult =
    | Delivered
    | ApiRejected(description: string)   // raised ApiTelegramException
    | ClientFailed(description: string)  // raised some other exception

  /**
    What the outside world answered during one pass: the API's answer, the clock
    (`int(time.time())`), and how the status message and the failure report would
    fare if they were sent.
   */
  datatype CycleInput = CycleInput(api: ApiOutcome, now: int, statusSend: SendResult, errorSend: SendResult)

  /** The loop's variables `timestamp` and `last_message`. */
  datatype LoopState = LoopState(timestamp: int, lastMessage: string)

  /** How a pass ended: the try block ran through, or which handler caught it. */
  datatype CycleOutcome = Completed | TelegramFailure(error: Error) | Failure(error: Error)

  /** The state after a pass, the messages delivered during it, and how it ended. */
  datatype CycleResult = CycleResult(next: LoopState, delivered: seq<string>, outcome: CycleOutcome)

  const InitialMessage := ""

  const FailurePrefix := "Сбой в работе программы: "

  /** The report of an exception caught by the general handler. */
  function FailureMessage(e: Error): string {
    FailurePrefix + e.text
  }

  /** The exception a failed send raises. */
  function SendError(result: SendResult): Error
    requires !result.Delivered?
  {
    match result
    case ApiRejected(d) => Error(TelegramError, d)
    case ClientFailed(d) => Error(ClientError, d)
  }

  /** `response['homeworks']` of a checked answer. */
  function Homeworks(response: Value): seq<Value>
    requires CheckResponse(response).Pass?
  {
    Get(response.members, "homeworks").items
  }

  /** The notification for the newest record of a checked answer, when it formats. */
  function NewestStatus(response: Value): Option<string>
    requires CheckResponse(response).Pass?
  {
    var works := Homeworks(response);
    if works == [] || ParseStatus(works[0]).Err? then None else Some(ParseStatus(works[0]).value)
  }

  /** The newest record's notification, when the API answered with a checked list whose first record formats. */
  function LatestStatus(api: ApiOutcome): Option<string> {
    var answer := GetApiAnswer(api);
    if answer.Err? || CheckResponse(answer.value).Fail? then None else NewestStatus(answer.value)
  }

  /** `int(response.get('current_date', time.time()))`. */
  function NewCursor(response: Value, now: int): Result<int>
    requires response.PyDict?
  {
    if HasKey(response.members, "current_date") then IntOf(Get(response.members, "current_date")) else Ok(now)
  }

  // ---------------------------------------------------------------------------
  // One pass, as a function

  /** How the try block ended, with `last_message` and the deliveries so far. */
  datatype TryOutcome =
    | Finished(last: string, sent: seq<string>, cursor: int)
    | TelegramRaised(error: Error)
    | Raised(error: Error, last: string, sent: seq<string>)

  /** The last statement of the try block: move the cursor. */
  function AdvanceCursor(response: Value, now: int, last: string, sent: seq<string>): (r: TryOutcome)
    requires response.PyDict?
    ensures r.Finished? || r.Raised?
    ensures r.last == last && r.sent == sent
    ensures r.Raised? ==> r.error.kind != TelegramError
    ensures r.Finished? <==> NewCursor(response, now).Ok?
    ensures r.Finished? ==> r.cursor == NewCursor(response, now).value
    ensures r.Raised? ==> r.error == NewCursor(response, now).error
  {
    match NewCursor(response, now)
    case Ok(t) => Finished(last, sent, t)
    case Err(e) => Raised(e, last, sent)
  }

  /**
    What every ending of the try block keeps, given `last_message` before it: at
    most one message was delivered, `last_message` was set to it, it differed
    from the previous one, and only a refused send ends in the Telegram handler.
   */
  predicate Tracks(before: string, r: TryOutcome) {
    && (r.TelegramRaised? ==> r.error.kind == TelegramError)
    && (r.Raised? ==> r.error.kind != TelegramError)
    && (!r.TelegramRaised? ==>
          && |r.sent| <= 1
          && (r.sent == [] ==> r.last == before)
          && (r.sent != [] ==> r.last == r.sent[0] != before))
  }

  /** The try block after check_response: format the latest homework, send it if new, move the cursor. */
  function Notify(s: LoopState, c: CycleInput, response: Value): (r: TryOutcome)
    requires CheckResponse(response).Pass?
    ensures Tracks(s.lastMessage, r)
    ensures r.Finished? || r.Raised? ==> r.sent != [] ==> NewestStatus(response) == Some(r.sent[0])
    ensures r.Finished? || r.Raised? ==> r.sent != [] ==> c.statusSend.Delivered?
    ensures var newest := NewestStatus(response);
            newest.Some? && newest.value != s.lastMessage && c.statusSend.Delivered? ==>
              !r.TelegramRaised? && r.sent == [newest.value]
    ensures r.TelegramRaised? ==> c.statusSend.ApiRejected? && r.error == SendError(c.statusSend)
  {
    var works := Homeworks(response);
    if works == [] then AdvanceCursor(response, c.now, s.lastMessage, [])
    else
      var parsed := ParseStatus(works[0]);
      if parsed.Err? then Raised(parsed.error, s.lastMessage, [])
      else if parsed.value == s.lastMessage then AdvanceCursor(response, c.now, s.lastMessage, [])
      else if c.statusSend.Delivered? then AdvanceCursor(response, c.now, parsed.value, [parsed.value])
      else if c.statusSend.ApiRejected? then TelegramRaised(SendError(c.statusSend))
      else Raised(SendError(c.statusSend), s.lastMessage, [])
  }

  /** The try block of a pass. */
  function TryBlock(s: LoopState, c: CycleInput): (r: TryOutcome)
    ensures Tracks(s.lastMessage, r)
    ensures r.Finished? || r.Raised? ==> r.sent != [] ==> LatestStatus(c.api) == Some(r.sent[0])
    ensures r.Finished? || r.Raised? ==> r.sent != [] ==> c.statusSend.Delivered?
    ensures var latest := LatestStatus(c.api);
            latest.Some? && latest.value != s.lastMessage && c.statusSend.Delivered? ==>
              !r.TelegramRaised? && r.sent == [latest.value]
    ensures r.TelegramRaised? ==> c.statusSend.ApiRejected? && r.error == SendError(c.statusSend)
  {
    var answer := GetApiAnswer(c.api);
    if answer.Err? then Raised(answer.error, s.lastMessage, [])
    else
      var checked := CheckResponse(answer.value);
      if checked.Fail? then Raised(checked.error, s.lastMessage, [])
      else Notify(s, c, answer.value)
  }

  /**
    The general handler: what it delivers, which is the report of the exception
    unless that is the last message sent, or the send of the report fails (which
    is swallowed).
   */
  function Report(last: string, e: Error, errorSend: SendResult): (extra: seq<string>)
    ensures extra == [] || extra == [FailureMessage(e)]
    ensures extra != [] <==> errorSend.Delivered? && last != FailureMessage(e)
  {
    var message := FailureMessage(e);
    if last != message && errorSend.Delivered? then [message] else []
  }

  predicate NoAdjacentRepeats(s: seq<string>) {
    forall k :: 0 < k < |s| ==> s[k - 1] != s[k]
  }

  function Last(s: seq<string>): string
    requires s != []
  {
    s[|s| - 1]
  }

  /**
    One pass of the main loop. Whatever happens, `last_message` ends as the last
    message delivered (or keeps its value if none was), no message is delivered
    right after an identical one, and the cursor moves only when the try block
    ran through.
   */
  function Step(s: LoopState, c: CycleInput): (r: CycleResult)
    ensures NoAdjacentRepeats([s.lastMessage] + r.delivered)
    ensures r.next.lastMessage == Last([s.lastMessage] + r.delivered)
    ensures |r.delivered| <= 2
    ensures !r.outcome.Completed? ==> r.next.timestamp == s.timestamp
    ensures r.outcome.TelegramFailure? ==> r.next == s && r.delivered == []
    ensures r.outcome.Failure? ==> r.outcome.error.kind != TelegramError
  {
    match TryBlock(s, c)
    case Finished(last, sent, cursor) =>
      OneDelivery(s.lastMessage, sent);
      CycleResult(LoopState(cursor, last), sent, Completed)
    case TelegramRaised(e) =>
      assert [s.lastMessage] + [] == [s.lastMessage];
      CycleResult(s, [], TelegramFailure(e))
    case Raised(e, last, sent) =>
      var extra := Report(last, e, c.errorSend);
      OneDelivery(s.lastMessage, sent);
      OneDelivery(last, extra);
      ConcatNoAdjacentRepeats([s.lastMessage] + sent, extra);
      AppendAssoc([s.lastMessage], sent, extra);
      CycleResult(LoopState(s.timestamp, Last([last] + extra)), sent + extra, Failure(e))
  }

  /** At most one delivery, differing from the message before it, repeats nothing. */
  lemma OneDelivery(before: string, sent: seq<string>)
    requires |sent| <= 1 && (sent != [] ==> sent[0] != before)
    ensures NoAdjacentRepeats([before] + sent)
    ensures Last([before] + sent) == if sent == [] then before else sent[0]
  {
  }

  // ---------------------------------------------------------------------------
  // Properties of one pass

  /** A report of a failure never reads like a status notification. */
  lemma FailureIsNotStatus(e: Error, name: string, verdict: string)
    ensures FailureMessage(e) != StatusMessage(name, verdict)
  {
    assert FailureMessage(e)[0] == 'С';
    assert StatusMessage(name, verdict)[0] == 'И';
  }

  /** The try block runs through exactly when every step of it succeeds. */
  predicate Completes(s: LoopState, c: CycleInput) {
    var answer := GetApiAnswer(c.api);
    && answer.Ok?
    && CheckResponse(answer.value).Pass?
    && (var works := Homeworks(answer.value);
        works != [] ==> ParseStatus(works[0]).Ok?
                        && (ParseStatus(works[0]).value == s.lastMessage || c.statusSend.Delivered?))
    && NewCursor(answer.value, c.now).Ok?
  }

  /**
    The cursor changes only in a pass that ran through, and then becomes
    `current_date` (or the clock when the answer has none).
   */
  lemma CursorMovesOnlyOnCompletion(s: LoopState, c: CycleInput)
    ensures Step(s, c).outcome.Completed? <==> Completes(s, c)
    ensures Completes(s, c) ==> Step(s, c).next.timestamp == NewCursor(GetApiAnswer(c.api).value, c.now).value
    ensures !Completes(s, c) ==> Step(s, c).next.timestamp == s.timestamp
  {
  }

  /**
    A new status of the newest record is delivered when its send succeeds, and
    becomes `last_message`; when `current_date` also converts, the pass runs
    through and the cursor moves.
   */
  lemma NewStatusDelivered(s: LoopState, c: CycleInput, m: string)
    requires LatestStatus(c.api) == Some(m) && m != s.lastMessage
    requires CursorError(c.api, c.now) == None
    requires c.statusSend.Delivered?
    ensures Step(s, c) == CycleResult(LoopState(NewCursor(GetApiAnswer(c.api).value, c.now).value, m), [m], Completed)
  {
    var response := GetApiAnswer(c.api).value;
    assert NewCursor(response, c.now).Ok?;
    assert TryBlock(s, c) == Finished(m, [m], NewCursor(response, c.now).value);
  }

  /**
    A pass delivers nothing but the newest record's notification and the
    report of the exception that ended it, each only when its own send
    succeeded, and it delivers that notification first whenever it is new and
    its send succeeds.
   */
  lemma DeliversStatusOrReport(s: LoopState, c: CycleInput)
    ensures var r := Step(s, c);
            forall k :: 0 <= k < |r.delivered| ==>
              || (LatestStatus(c.api) == Some(r.delivered[k]) && c.statusSend.Delivered?)
              || (r.outcome.Failure? && r.delivered[k] == FailureMessage(r.outcome.error) && c.errorSend.Delivered?)
    ensures var r := Step(s, c);
            var latest := LatestStatus(c.api);
            latest.Some? && latest.value != s.lastMessage && c.statusSend.Delivered? ==>
              r.delivered != [] && r.delivered[0] == latest.value
  {
    var t := TryBlock(s, c);
    if t.Raised? {
      var extra := Report(t.last, t.error, c.errorSend);
      StepOnRaise(s, c);
      DeliveredFrom(t.sent, extra, LatestStatus(c.api), FailureMessage(t.error), c.statusSend.Delivered?, c.errorSend.Delivered?);
    }
  }

  /** A status delivery followed by a report delivers only those two texts, each after its own send succeeded. */
  lemma DeliveredFrom(sent: seq<string>, extra: seq<string>, latest: Option<string>, report: string, statusOk: bool, reportOk: bool)
    requires |sent| <= 1 && (sent != [] ==> latest == Some(sent[0]) && statusOk)
    requires extra == [] || (extra == [report] && reportOk)
    ensures forall k :: 0 <= k < |sent + extra| ==>
              (latest == Some((sent + extra)[k]) && statusOk) || ((sent + extra)[k] == report && reportOk)
  {
  }

  /** A pass whose try block raised past the Telegram handler ends in the general handler. */
  lemma StepOnRaise(s: LoopState, c: CycleInput)
    requires TryBlock(s, c).Raised?
    ensures var t := TryBlock(s, c);
            var extra := Report(t.last, t.error, c.errorSend);
            Step(s, c) == CycleResult(LoopState(s.timestamp, Last([t.last] + extra)), t.sent + extra, Failure(t.error))
  {
  }

  /**
    Whatever raised in the try block, a failure report that cannot be sent is
    dropped: the pass delivers only what the try block did and `last_message`
    stays where the try block left it.
   */
  lemma UnsentReportSwallowed(s: LoopState, c: CycleInput)
    requires TryBlock(s, c).Raised? && !c.errorSend.Delivered?
    ensures var t := TryBlock(s, c);
            Step(s, c) == CycleResult(LoopState(s.timestamp, t.last), t.sent, Failure(t.error))
  {
    StepOnRaise(s, c);
  }

  /**
    An answer that fails check_response ends the pass with check_response's
    exception: the cursor stays, nothing but its report can be delivered, and
    `last_message` becomes that report exactly when it is delivered.
   */
  lemma ShapeFailureReported(s: LoopState, c: CycleInput)
    requires GetApiAnswer(c.api).Ok? && CheckResponse(GetApiAnswer(c.api).value).Fail?
    ensures var e := CheckResponse(GetApiAnswer(c.api).value).error;
            var extra := Report(s.lastMessage, e, c.errorSend);
            Step(s, c) == CycleResult(LoopState(s.timestamp, Last([s.lastMessage] + extra)), extra, Failure(e))
  {
    var e := CheckResponse(GetApiAnswer(c.api).value).error;
    assert TryBlock(s, c) == Raised(e, s.lastMessage, []);
    StepOnRaise(s, c);
  }

  /**
    A checked answer whose newest record parse_status rejects ends the pass
    with parse_status's exception, reported as any other failure; nothing is
    sent for the record and the cursor stays.
   */
  lemma ParseFailureReported(s: LoopState, c: CycleInput)
    requires GetApiAnswer(c.api).Ok? && CheckResponse(GetApiAnswer(c.api).value).Pass?
    requires Homeworks(GetApiAnswer(c.api).value) != []
    requires ParseStatus(Homeworks(GetApiAnswer(c.api).value)[0]).Err?
    ensures var e := ParseStatus(Homeworks(GetApiAnswer(c.api).value)[0]).error;
            var extra := Report(s.lastMessage, e, c.errorSend);
            Step(s, c) == CycleResult(LoopState(s.timestamp, Last([s.lastMessage] + extra)), extra, Failure(e))
  {
    var response := GetApiAnswer(c.api).value;
    var e := ParseStatus(Homeworks(response)[0]).error;
    assert TryBlock(s, c) == Notify(s, c, response) == Raised(e, s.lastMessage, []);
    StepOnRaise(s, c);
  }

  /**
    A new status whose send fails with anything but a Telegram refusal goes
    to the general handler: the pass ends with the client's exception, the
    status is not delivered, only the report of that exception can be, and
    the cursor stays.
   */
  lemma ClientFailureReported(s: LoopState, c: CycleInput, m: string)
    requires LatestStatus(c.api) == Some(m) && m != s.lastMessage
    requires c.statusSend.ClientFailed?
    ensures var e := Error(ClientError, c.statusSend.description);
            var extra := Report(s.lastMessage, e, c.errorSend);
            Step(s, c) == CycleResult(LoopState(s.timestamp, Last([s.lastMessage] + extra)), extra, Failure(e))
  {
    var response := GetApiAnswer(c.api).value;
    var e := Error(ClientError, c.statusSend.description);
    assert TryBlock(s, c) == Notify(s, c, response) == Raised(e, s.lastMessage, []);
    StepOnRaise(s, c);
  }

  /**
    A checked answer with nothing new to send, whose `current_date` `int()`
    rejects, ends the pass with `int()`'s own exception, reported as any
    other failure; the cursor stays.
   */
  lemma CursorFailureReported(s: LoopState, c: CycleInput, e: Error)
    requires GetApiAnswer(c.api).Ok? && CheckResponse(GetApiAnswer(c.api).value).Pass?
    requires var works := Homeworks(GetApiAnswer(c.api).value);
             works == [] || ParseStatus(works[0]) == Ok(s.lastMessage)
    requires CursorError(c.api, c.now) == Some(e)
    ensures var extra := Report(s.lastMessage, e, c.errorSend);
            Step(s, c) == CycleResult(LoopState(s.timestamp, Last([s.lastMessage] + extra)), extra, Failure(e))
  {
    var response := GetApiAnswer(c.api).value;
    assert TryBlock(s, c) == Notify(s, c, response) == Raised(e, s.lastMessage, []);
    StepOnRaise(s, c);
  }

  /**
    A failed request, a non-200 answer or an undecodable body: the cursor stays,
    and the failure is reported unless it was the last message sent; a report
    that cannot be sent is dropped and `last_message` keeps its value.
   */
  lemma ApiFailureKeepsCursor(s: LoopState, c: CycleInput)
    requires GetApiAnswer(c.api).Err?
    ensures var e := GetApiAnswer(c.api).error;
            var reported := FailureMessage(e) != s.lastMessage && c.errorSend.Delivered?;
            Step(s, c) == if reported then CycleResult(LoopState(s.timestamp, FailureMessage(e)), [FailureMessage(e)], Failure(e))
                          else CycleResult(s, [], Failure(e))
  {
  }

  /**
    Only the newest record is read: two answers that pass check_response and
    agree on their first record and on `current_date` lead to the same pass.
   */
  lemma OnlyNewestRecordRead(s: LoopState, c1: CycleInput, c2: CycleInput)
    requires c1.now == c2.now && c1.statusSend == c2.statusSend && c1.errorSend == c2.errorSend
    requires GetApiAnswer(c1.api).Ok? && CheckResponse(GetApiAnswer(c1.api).value).Pass?
    requires GetApiAnswer(c2.api).Ok? && CheckResponse(GetApiAnswer(c2.api).value).Pass?
    requires Homeworks(GetApiAnswer(c1.api).value) != [] && Homeworks(GetApiAnswer(c2.api).value) != []
    requires Homeworks(GetApiAnswer(c1.api).value)[0] == Homeworks(GetApiAnswer(c2.api).value)[0]
    requires NewCursor(GetApiAnswer(c1.api).value, c1.now) == NewCursor(GetApiAnswer(c2.api).value, c2.now)
    ensures Step(s, c1) == Step(s, c2)
  {
    NotifyReadsNewest(s, c1, c2, GetApiAnswer(c1.api).value, GetApiAnswer(c2.api).value);
    assert TryBlock(s, c1) == TryBlock(s, c2);
  }

  lemma NotifyReadsNewest(s: LoopState, c1: CycleInput, c2: CycleInput, response1: Value, response2: Value)
    requires c1.now == c2.now && c1.statusSend == c2.statusSend
    requires CheckResponse(response1).Pass? && CheckResponse(response2).Pass?
    requires Homeworks(response1) != [] && Homeworks(response2) != []
    requires Homeworks(response1)[0] == Homeworks(response2)[0]
    requires NewCursor(response1, c1.now) == NewCursor(response2, c2.now)
    ensures Notify(s, c1, response1) == Notify(s, c2, response2)
  {
    var parsed := ParseStatus(Homeworks(response1)[0]);
    assert ParseStatus(Homeworks(response2)[0]) == parsed;
    if parsed.Ok? && parsed.value != s.lastMessage && c1.statusSend.Delivered? {
      assert AdvanceCursor(response1, c1.now, parsed.value, [parsed.value])
          == AdvanceCursor(response2, c2.now, parsed.value, [parsed.value]);
    } else if parsed.Ok? && parsed.value == s.lastMessage {
      assert AdvanceCursor(response1, c1.now, s.lastMessage, [])
          == AdvanceCursor(response2, c2.now, s.lastMessage, []);
    }
  }

  /** An empty homework list sends nothing and still moves the cursor. */
  lemma EmptyListAdvancesCursor(s: LoopState, c: CycleInput, members: seq<(string, Value)>)
    requires c.api == Answered(HttpOk, Decoded(PyDict(members)))
    requires Get(members, "homeworks") == PyList([])
    requires NewCursor(PyDict(members), c.now).Ok?
    ensures Step(s, c) == CycleResult(LoopState(NewCursor(PyDict(members), c.now).value, s.lastMessage), [], Completed)
  {
  }

  /**
    When the messaging API refuses the status message, nothing changes: neither
    `last_message` nor the cursor, and no failure report is sent.
   */
  lemma TelegramRefusalChangesNothing(s: LoopState, c: CycleInput)
    requires GetApiAnswer(c.api).Ok? && CheckResponse(GetApiAnswer(c.api).value).Pass?
    requires Homeworks(GetApiAnswer(c.api).value) != []
    requires ParseStatus(Homeworks(GetApiAnswer(c.api).value)[0]).Ok?
    requires ParseStatus(Homeworks(GetApiAnswer(c.api).value)[0]).value != s.lastMessage
    requires c.statusSend.ApiRejected?
    ensures Step(s, c) == CycleResult(s, [], TelegramFailure(Error(TelegramError, c.statusSend.description)))
  {
  }

  /** After a pass that ran through, the same answer again sends nothing. */
  lemma RepeatedAnswerNotResent(s: LoopState, c1: CycleInput, c2: CycleInput)
    requires Step(s, c1).outcome.Completed?
    requires c2.api == c1.api
    ensures var r := Step(Step(s, c1).next, c2);
            r.delivered == [] && r.outcome.Completed? && r.next.lastMessage == Step(s, c1).next.lastMessage
  {
    FinishedAnswer(s, c1);
    var next := Step(s, c1).next;
    assert next.lastMessage == TryBlock(s, c1).last;
    UnchangedAnswerFinishes(next, c2);
  }

  /**
    A try block that ran through saw a checked answer whose newest record, if
    any, formats to the resulting `last_message`, and whose `current_date`, if
    any, converts.
   */
  lemma FinishedAnswer(s: LoopState, c: CycleInput)
    requires TryBlock(s, c).Finished?
    ensures GetApiAnswer(c.api).Ok? && CheckResponse(GetApiAnswer(c.api).value).Pass?
    ensures var works := Homeworks(GetApiAnswer(c.api).value);
            works != [] ==> ParseStatus(works[0]) == Ok(TryBlock(s, c).last)
    ensures var members := GetApiAnswer(c.api).value.members;
            HasKey(members, "current_date") ==> IntOf(Get(members, "current_date")).Ok?
  {
    var response := GetApiAnswer(c.api).value;
    assert CheckResponse(response).Pass? && TryBlock(s, c) == Notify(s, c, response);
    NotifyFinished(s, c, response);
  }

  lemma NotifyFinished(s: LoopState, c: CycleInput, response: Value)
    requires CheckResponse(response).Pass? && Notify(s, c, response).Finished?
    ensures var works := Homeworks(response);
            works != [] ==> ParseStatus(works[0]) == Ok(Notify(s, c, response).last)
    ensures HasKey(response.members, "current_date") ==> IntOf(Get(response.members, "current_date")).Ok?
  {
    var r := Notify(s, c, response);
    var works := Homeworks(response);
    if works == [] {
      assert r == AdvanceCursor(response, c.now, s.lastMessage, []);
    } else {
      var parsed := ParseStatus(works[0]);
      if parsed.Ok? && parsed.value == s.lastMessage {
        assert r == AdvanceCursor(response, c.now, s.lastMessage, []);
      } else {
        assert parsed.Ok? && c.statusSend.Delivered?;
        assert r == AdvanceCursor(response, c.now, parsed.value, [parsed.value]);
      }
    }
  }

  /** A checked answer whose newest record is already `last_message` runs through without sending. */
  lemma UnchangedAnswerFinishes(s: LoopState, c: CycleInput)
    requires GetApiAnswer(c.api).Ok? && CheckResponse(GetApiAnswer(c.api).value).Pass?
    requires var works := Homeworks(GetApiAnswer(c.api).value);
             works != [] ==> ParseStatus(works[0]) == Ok(s.lastMessage)
    requires var members := GetApiAnswer(c.api).value.members;
             HasKey(members, "current_date") ==> IntOf(Get(members, "current_date")).Ok?
    ensures Step(s, c) == CycleResult(LoopState(NewCursor(GetApiAnswer(c.api).value, c.now).value, s.lastMessage), [], Completed)
  {
    var response := GetApiAnswer(c.api).value;
    assert NewCursor(response, c.now).Ok?;
    assert TryBlock(s, c) == Finished(s.lastMessage, [], NewCursor(response, c.now).value);
  }

  /** The error `int()` raises for the answer's `current_date`, if it raises. */
  function CursorError(api: ApiOutcome, now: int): Option<Error> {
    var answer := GetApiAnswer(api);
    if answer.Err? || !answer.value.PyDict? then None
    else
      var cursor := NewCursor(answer.value, now);
      if cursor.Err? then Some(cursor.error) else None
  }

  /**
    A pass over a new status whose answer has a `current_date` that `int()`
    rejects delivers the status message and then the failure report, which
    becomes `last_message`; the cursor stays.
   */
  lemma BadCurrentDatePass(s: LoopState, c: CycleInput, m: string, e: Error)
    requires LatestStatus(c.api) == Some(m) && m != s.lastMessage
    requires CursorError(c.api, c.now) == Some(e)
    requires c.statusSend.Delivered? && c.errorSend.Delivered?
    ensures Step(s, c) == CycleResult(LoopState(s.timestamp, FailureMessage(e)), [m, FailureMessage(e)], Failure(e))
  {
    BadCurrentDateTry(s, c, m, e);
    StepReports(s, c, e, m, [m]);
    assert [m] + [FailureMessage(e)] == [m, FailureMessage(e)];
  }

  /**
    A pass whose try block raised past the Telegram handler, with a report that
    is new and goes through, ends with that report as `last_message`.
   */
  lemma StepReports(s: LoopState, c: CycleInput, e: Error, last: string, sent: seq<string>)
    requires TryBlock(s, c) == Raised(e, last, sent)
    requires FailureMessage(e) != last && c.errorSend.Delivered?
    ensures Step(s, c) == CycleResult(LoopState(s.timestamp, FailureMessage(e)), sent + [FailureMessage(e)], Failure(e))
  {
    assert Report(last, e, c.errorSend) == [FailureMessage(e)];
  }

  /** A status notification is never mistaken for an earlier failure report. */
  lemma LatestIsNotFailure(api: ApiOutcome, m: string, e: Error)
    requires LatestStatus(api) == Some(m)
    ensures FailureMessage(e) != m
  {
    var homework := Homeworks(GetApiAnswer(api).value)[0];
    FailureIsNotStatus(e, Display(NameOf(homework)), Verdicts[StatusOf(homework).s]);
  }

  /** The try block of such a pass delivers the status message and then raises. */
  lemma BadCurrentDateTry(s: LoopState, c: CycleInput, m: string, e: Error)
    requires LatestStatus(c.api) == Some(m) && m != s.lastMessage
    requires CursorError(c.api, c.now) == Some(e)
    requires c.statusSend.Delivered?
    ensures TryBlock(s, c) == Raised(e, m, [m]) && FailureMessage(e) != m
  {
    LatestIsNotFailure(c.api, m, e);
    var response := GetApiAnswer(c.api).value;
    assert CheckResponse(response).Pass? && TryBlock(s, c) == Notify(s, c, response);
    assert ParseStatus(Homeworks(response)[0]) == Ok(m);
    assert Notify(s, c, response) == AdvanceCursor(response, c.now, m, [m]);
    assert NewCursor(response, c.now) == Err(e);
  }

  /**
    Such an answer makes the bot deliver its status message and then a failure
    report on every pass: the report replaces `last_message`, so the status
    message no longer counts as already sent.
   */
  lemma BadCurrentDateResends(s: LoopState, c: CycleInput, m: string, e: Error)
    requires LatestStatus(c.api) == Some(m) && m != s.lastMessage
    requires CursorError(c.api, c.now) == Some(e)
    requires c.statusSend.Delivered? && c.errorSend.Delivered?
    ensures var r1 := Step(s, c);
            var r2 := Step(r1.next, c);
            && r1.delivered == [m, FailureMessage(e)] && r2.delivered == [m, FailureMessage(e)]
            && r1.next == r2.next == LoopState(s.timestamp, FailureMessage(e))
  {
    BadCurrentDatePass(s, c, m, e);
    LatestIsNotFailure(c.api, m, e);
    BadCurrentDatePass(LoopState(s.timestamp, FailureMessage(e)), c, m, e);
  }

  // ---------------------------------------------------------------------------
  // Several passes

  /** The state after a run of passes, what they delivered, the cursors they queried and how each ended. */
  datatype RunResult = RunResult(final: LoopState, delivered: seq<string>, queries: seq<int>, outcomes: seq<CycleOutcome>)

  lemma ConcatNoAdjacentRepeats(a: seq<string>, b: seq<string>)
    requires a != [] && NoAdjacentRepeats(a) && NoAdjacentRepeats([Last(a)] + b)
    ensures NoAdjacentRepeats(a + b) && Last(a + b) == Last([Last(a)] + b)
  {
    var ab := a + b;
    forall k | 0 < k < |ab| ensures ab[k - 1] != ab[k] {
      if k >= |a| {
        assert ab[k - 1] == ([Last(a)] + b)[k - |a|];
        assert ab[k] == ([Last(a)] + b)[k - |a| + 1];
      }
    }
  }

  /**
    The passes of the main loop, one per input, the last input last. Across any
    run, no message is delivered twice in a row and `last_message` is the last
    one delivered.
   */
  function Run(s: LoopState, inputs: seq<CycleInput>): (r: RunResult)
    ensures NoAdjacentRepeats([s.lastMessage] + r.delivered)
    ensures r.final.lastMessage == Last([s.lastMessage] + r.delivered)
    ensures |r.queries| == |inputs| && |r.outcomes| == |inputs|
    decreases |inputs|
  {
    if inputs == [] then RunResult(s, [], [], [])
    else
      var before := Run(s, inputs[..|inputs| - 1]);
      var step := Step(before.final, inputs[|inputs| - 1]);
      ConcatNoAdjacentRepeats([s.lastMessage] + before.delivered, step.delivered);
      AppendAssoc([s.lastMessage], before.delivered, step.delivered);
      Then(before, inputs[|inputs| - 1])
  }

  /** A pass appended to a chat without adjacent repeats, whose last message the state holds, keeps both. */
  lemma StepExtendsChat(chat: seq<string>, s: LoopState, c: CycleInput)
    requires chat != [] && NoAdjacentRepeats(chat) && s.lastMessage == Last(chat)
    ensures NoAdjacentRepeats(chat + Step(s, c).delivered)
    ensures Step(s, c).next.lastMessage == Last(chat + Step(s, c).delivered)
  {
    ConcatNoAdjacentRepeats(chat, Step(s, c).delivered);
  }

  /** A run followed by one more pass. */
  function Then(r: RunResult, c: CycleInput): RunResult {
    var step := Step(r.final, c);
    RunResult(step.next, r.delivered + step.delivered, r.queries + [r.final.timestamp], r.outcomes + [step.outcome])
  }

  lemma AppendAssoc<T>(a: seq<T>, b: seq<T>, c: seq<T>)
    ensures a + b + c == a + (b + c)
  {
  }

  lemma RunPrefix(s: LoopState, inputs: seq<CycleInput>, i: nat)
    requires i < |inputs|
    ensures Run(s, inputs[..i + 1]) == Then(Run(s, inputs[..i]), inputs[i])
  {
    assert inputs[..i + 1][..i] == inputs[..i];
  }

  /** Passes that all fail query the same cursor and leave it where it was. */
  lemma {:induction false} FailedPassesKeepCursor(s: LoopState, inputs: seq<CycleInput>)
    requires forall k :: 0 <= k < |inputs| ==> !Run(s, inputs).outcomes[k].Completed?
    ensures Run(s, inputs).final.timestamp == s.timestamp
    ensures forall k :: 0 <= k < |inputs| ==> Run(s, inputs).queries[k] == s.timestamp
  {
    if inputs != [] {
      var prefix := inputs[..|inputs| - 1];
      var r := Run(s, inputs);
      assert r.outcomes == Run(s, prefix).outcomes + [r.outcomes[|inputs| - 1]];
      assert forall k :: 0 <= k < |prefix| ==> Run(s, prefix).outcomes[k] == r.outcomes[k];
      FailedPassesKeepCursor(s, prefix);
      assert r.queries == Run(s, prefix).queries + [Run(s, prefix).final.timestamp];
    }
  }

  /**
    An API that keeps failing the same way is reported to the chat at most once,
    however many passes it fails for, and the cursor never moves meanwhile.
   */
  lemma {:induction false} PersistentFailureReportedOnce(s: LoopState, inputs: seq<CycleInput>, api: ApiOutcome)
    requires GetApiAnswer(api).Err?
    requires forall k :: 0 <= k < |inputs| ==> inputs[k].api == api
    ensures var r := Run(s, inputs);
            && r.final.timestamp == s.timestamp
            && (r.delivered == [] || r.delivered == [FailureMessage(GetApiAnswer(api).error)])
  {
    if inputs != [] {
      var prefix := inputs[..|inputs| - 1];
      PersistentFailureReportedOnce(s, prefix, api);
      ApiFailureKeepsCursor(Run(s, prefix).final, inputs[|inputs| - 1]);
    }
  }

  // ---------------------------------------------------------------------------
  // The loop's variables, updated in place

  class Poller {
    var timestamp: int
    var lastMessage: string
    /** The messages the chat received, oldest first. */
    ghost var outbox: seq<string>
    /** The `from_date` of every request made, oldest first. */
    ghost var queries: seq<int>

    /** `last_message` is the last message the chat received, and no message arrived twice in a row. */
    ghost predicate Valid()
      reads this
    {
      NoAdjacentRepeats([InitialMessage] + outbox) && lastMessage == Last([InitialMessage] + outbox)
    }

    function State(): LoopState
      reads this
    {
      LoopState(timestamp, lastMessage)
    }

    /** The loop's variables before the first pass. */
    constructor (startTime: int)
      ensures Valid() && State() == LoopState(startTime, InitialMessage)
      ensures outbox == [] && queries == []
    {
      timestamp := startTime;
      lastMessage := InitialMessage;
      outbox := [];
      queries := [];
    }

    /** send_message: the chat receives the message, or the client raises. */
    method SendMessage(message: string, result: SendResult) returns (raised: Option<Error>)
      modifies this`outbox
      ensures raised == (if result.Delivered? then None else Some(SendError(result)))
      ensures outbox == old(outbox) + (if result.Delivered? then [message] else [])
    {
      if result.Delivered? {
        outbox := outbox + [message];
        raised := None;
      } else {
        raised := Some(SendError(result));
      }
    }

    /** The try block of a pass: the exception it raised, if any. */
    method Attempt(c: CycleInput) returns (raised: Option<Error>)
      modifies this`timestamp, this`lastMessage, this`outbox
      ensures Ends(TryBlock(old(State()), c), raised, old(State()), old(outbox))
    {
      var answer := GetApiAnswer(c.api);
      if answer.Err? {
        return Some(answer.error);
      }
      var response := answer.value;
      var checked := CheckResponse(response);
      if checked.Fail? {
        return Some(checked.error);
      }
      raised := NotifyLatest(c, response);
    }

    /** The state after the try block ended as `t`, given the cursor and the chat before it. */
    ghost predicate Ends(t: TryOutcome, raised: Option<Error>, before: LoopState, outbox0: seq<string>)
      reads this
    {
      match t
      case Finished(last, sent, cursor) =>
        raised == None && State() == LoopState(cursor, last) && outbox == outbox0 + sent
      case TelegramRaised(e) =>
        raised == Some(e) && State() == before && outbox == outbox0
      case Raised(e, last, sent) =>
        raised == Some(e) && State() == LoopState(before.timestamp, last) && outbox == outbox0 + sent
    }

    /** The rest of the try block, once the answer has passed check_response. */
    method NotifyLatest(c: CycleInput, response: Value) returns (raised: Option<Error>)
      requires CheckResponse(response).Pass?
      modifies this`timestamp, this`lastMessage, this`outbox
      ensures Ends(Notify(old(State()), c, response), raised, old(State()), old(outbox))
    {
      var lastWork := Homeworks(response);
      if lastWork != [] {
        var parsed := ParseStatus(lastWork[0]);
        if parsed.Err? {
          return Some(parsed.error);
        }
        var message := parsed.value;
        if lastMessage != message {
          raised := SendMessage(message, c.statusSend);
          if raised.Some? {
            return;
          }
          lastMessage := message;
        }
      }
      var cursor := NewCursor(response, c.now);
      if cursor.Err? {
        return Some(cursor.error);
      }
      timestamp := cursor.value;
      raised := None;
    }

    /** One pass of the main loop. */
    method Cycle(c: CycleInput) returns (outcome: CycleOutcome)
      requires Valid()
      modifies this
      ensures Valid()
      ensures var r := Step(old(State()), c);
              State() == r.next && outbox == old(outbox) + r.delivered && outcome == r.outcome
      ensures queries == old(queries) + [old(timestamp)]
    {
      ghost var before := State();
      queries := queries + [timestamp];
      var raised := Attempt(c);
      if raised.None? {
        outcome := Completed;
      } else if raised.value.kind == TelegramError {
        // except ApiTelegramException: logged only
        outcome := TelegramFailure(raised.value);
      } else {
        ghost var t := TryBlock(before, c);
        ReportFailure(c, raised.value);
        AppendAssoc(old(outbox), t.sent, Report(t.last, raised.value, c.errorSend));
        outcome := Failure(raised.value);
      }
      StepExtendsChat([InitialMessage] + old(outbox), before, c);
      AppendAssoc([InitialMessage], old(outbox), Step(before, c).delivered);
    }

    /** except Exception: report the exception, unless it is the last message sent. */
    method ReportFailure(c: CycleInput, e: Error)
      modifies this`lastMessage, this`outbox
      ensures var extra := Report(old(lastMessage), e, c.errorSend);
              lastMessage == Last([old(lastMessage)] + extra) && outbox == old(outbox) + extra
    {
      var message := FailureMessage(e);
      if lastMessage != message {
        var ignored := SendMessage(message, c.errorSend);
        if ignored.None? {
          lastMessage := message;
        }
      }
    }

    /** The passes of the main loop for the given inputs, in order. */
    method Serve(inputs: seq<CycleInput>) returns (outcomes: seq<CycleOutcome>)
      requires Valid()
      modifies this
      ensures Valid()
      ensures var r := Run(old(State()), inputs);
              && State() == r.final && outbox == old(outbox) + r.delivered
              && queries == old(queries) + r.queries && outcomes == r.outcomes
    {
      ghost var start := State();
      outcomes := [];
      var i := 0;
      while i < |inputs|
        invariant 0 <= i <= |inputs|
        invariant Valid()
        invariant var r := Run(start, inputs[..i]);
                  && State() == r.final && outbox == old(outbox) + r.delivered
                  && queries == old(queries) + r.queries && outcomes == r.outcomes
      {
        RunPrefix(start, inputs, i);
        ghost var r := Run(start, inputs[..i]);
        var outcome := Cycle(inputs[i]);
        ghost var step := Step(r.final, inputs[i]);
        AppendAssoc(old(outbox), r.delivered, step.delivered);
        AppendAssoc(old(queries), r.queries, [r.final.timestamp]);
        outcomes := outcomes + [outcome];
        i := i + 1;
      }
      assert inputs[..|inputs|] == inputs;
    }
  }

  /**
    main: check the settings, and stop there if any is missing; otherwise start
    the cursor at the clock and run the passes.
   */
  method Launch(config: Config, startTime: int, inputs: seq<CycleInput>)
    returns (startup: Check, poller: Poller?, outcomes: seq<CycleOutcome>)
    ensures startup == CheckTokens(config)
    ensures startup.Fail? ==> poller == null && outcomes == []
    ensures startup.Pass? ==>
              && poller != null && fresh(poller) && poller.Valid()
              && var r := Run(LoopState(startTime, InitialMessage), inputs);
                 && poller.State() == r.final && poller.outbox == r.delivered
                 && poller.queries == r.queries && outcomes == r.outcomes
  {
    startup := CheckTokens(config);
    if startup.Fail? {
      return startup, null, [];
    }
    poller := new Poller(startTime);
    outcomes := poller.Serve(inputs);
  }
}
