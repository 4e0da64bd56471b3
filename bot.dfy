/** The polling loop of `main` in homework.py. The loop owns two variables,
    the window `timestamp` and the last delivered text `first_message`; each
    cycle fetches the API answer, moves the window, picks one message, sends it
    unless it repeats the last delivered one, and turns any failure into a
    failure notice under the same rule.

    The fetch and every `send_message` call are outside the model: a `Cycle`
    supplies their outcomes. */
module Bot {

  import opened Wrappers
  import opened Payload
  import opened Errors
  import opened Homework

  const NoNewStatuses := "Нет новых статусов"
  const FailurePrefix := "Сбой в работе программы: "
  const SendFailed := "Не удачная отправка сообщение "

  /** What `get_api_answer` did: returned a decoded answer, or raised. */
  datatype Fetch = Fetched(response: Value) | FetchFailed(error: Error)

  /** What one `bot.send_message` call did: returned, or raised a Telegram
      error with the given text. */
  datatype Delivery = Delivered | Undelivered(reason: string)

  /** The outside world during one cycle: the fetch, then the first and the
      second `send_message` call of the cycle, in the order they are made. */
  datatype Cycle = Cycle(fetch: Fetch, firstSend: Delivery, secondSend: Delivery)

  /** The loop's variables `timestamp` and `first_message`. */
  datatype State = State(timestamp: Value, firstMessage: string)

  /** One call of `send_message` and whether it returned normally. */
  datatype Attempt = Attempt(text: string, delivered: bool)

  /** The state after some cycles, the sends they made, and the exception that
      escaped the loop, if one did. */
  datatype Outcome = Outcome(state: State, log: seq<Attempt>, escaped: Option<Error>)

  /** The TelegramError that `send_message` raises when the bot call fails. */
  function SendError(reason: string): (e: Error)
    ensures e.TelegramError? && !e.NotForSendInTelegram?
    ensures Text(e) == SendFailed + reason
  {
    TelegramError(SendFailed + reason)
  }

  /** `f'Сбой в работе программы: {error}'`. */
  function FailureNotice(e: Error): string
  {
    FailurePrefix + Text(e)
  }

  /** A text the loop can only have produced in its failure branch. */
  predicate IsNotice(text: string)
  {
    FailurePrefix <= text
  }

  // ---------------------------------------------------------------------------
  // Start-up

  /** The start of `main`: stop when a setting is missing, otherwise open
      the window at the current time with nothing sent yet. */
  function Startup(config: Config, now: int): (s: Option<State>)
    ensures s.None? <==> (!Present(config.practicumToken) || !Present(config.telegramToken)
      || !Present(config.telegramChatId))
    ensures s.Some? ==> s.value.timestamp == Int(now) && s.value.firstMessage == ""
  {
    if !CheckTokens(config) then None else Some(State(Int(now), ""))
  }

  // ---------------------------------------------------------------------------
  // The try block of one cycle

  /** `response.get('current_date', timestamp)`. */
  function NextTimestamp(timestamp: Value, response: Value): (r: Result<Value, Error>)
    ensures response.Dict? && "current_date" in response.fields
      ==> r == Success(response.fields["current_date"])
    ensures response.Dict? && "current_date" !in response.fields ==> r == Success(timestamp)
    ensures !response.Dict? ==> r == Failure(NoAttributeGet(response))
  {
    if !response.Dict? then Failure(NoAttributeGet(response))
    else if "current_date" in response.fields then Success(response.fields["current_date"])
    else Success(timestamp)
  }

  /** The message for a validated list of homeworks: the newest record's
      status, or the canned text when the list is empty. */
  function ChooseMessage(homeworks: seq<Value>): (r: Result<string, Error>)
    ensures homeworks == [] ==> r == Success(NoNewStatuses)
    ensures r.Success? <==> homeworks == [] || KnownRecord(homeworks[0])
    ensures homeworks != [] && r.Success? ==> r.value == Notification(
      homeworks[0].fields["homework_name"], HomeworkVerdicts[homeworks[0].fields["status"].s])
  {
    if homeworks != [] then ParseStatus(homeworks[0]) else Success(NoNewStatuses)
  }

  /** Only the newest record decides the message: whatever follows it in the
      list is never looked at. */
  lemma OnlyNewestRecordCounts(homeworks: seq<Value>, older: seq<Value>)
    ensures ChooseMessage([]) == Success(NoNewStatuses)
    ensures homeworks != [] ==> ChooseMessage(homeworks + older) == ParseStatus(homeworks[0])
  {
  }

  /** The timestamp after the try block: moved by `response.get` when that
      line is reached and succeeds, kept otherwise. */
  function CycleTimestamp(timestamp: Value, fetch: Fetch): (t: Value)
    ensures t == if fetch.Fetched? && fetch.response.Dict? && "current_date" in fetch.response.fields
      then fetch.response.fields["current_date"] else timestamp
  {
    match fetch
    case FetchFailed(_) => timestamp
    case Fetched(response) =>
      match NextTimestamp(timestamp, response)
      case Success(next) => next
      case Failure(_) => timestamp
  }

  /** The message the try block goes on to send, or the exception it raises
      before reaching the send. */
  function CycleMessage(fetch: Fetch): (r: Result<string, Error>)
    ensures fetch.FetchFailed? ==> r == Failure(fetch.error)
    ensures fetch.Fetched? && !fetch.response.Dict? ==> r == Failure(NoAttributeGet(fetch.response))
    ensures fetch.Fetched? && fetch.response.Dict? && CheckResponse(fetch.response).Failure?
      ==> r == Failure(CheckResponse(fetch.response).error)
    ensures fetch.Fetched? && CheckResponse(fetch.response).Success?
      ==> r == ChooseMessage(CheckResponse(fetch.response).value)
    ensures r.Success? <==> (fetch.Fetched? && CheckResponse(fetch.response).Success?
      && (CheckResponse(fetch.response).value == [] || KnownRecord(CheckResponse(fetch.response).value[0])))
  {
    match fetch
    case FetchFailed(e) => Failure(e)
    case Fetched(response) =>
      if !response.Dict? then Failure(NoAttributeGet(response))
      else
        match CheckResponse(response)
        case Failure(e) => Failure(e)
        case Success(homeworks) => ChooseMessage(homeworks)
  }

  /** A text that starts with a character other than the notice's first
      one is not a notice. */
  lemma StartsOtherwise(text: string, head: string, rest: string)
    requires text == head + rest && head != [] && head[0] != FailurePrefix[0]
    ensures !IsNotice(text)
  {
  }

  /** A status notification is never a failure notice. */
  lemma NotificationIsNoNotice(name: Value, verdict: string)
    ensures !IsNotice(Notification(name, verdict))
  {
    StartsOtherwise(Notification(name, verdict), StatusChanged, Format(name) + "\". " + verdict);
  }

  /** What the try block would send is never a failure notice. */
  lemma NormalMessageIsNoNotice(fetch: Fetch)
    ensures CycleMessage(fetch).Success? ==> !IsNotice(CycleMessage(fetch).value)
  {
    var r := CycleMessage(fetch);
    if r.Success? {
      if r.value == NoNewStatuses {
        StartsOtherwise(NoNewStatuses, NoNewStatuses, []);
      } else {
        var homework := fetch.response.fields["homeworks"].items[0];
        NotificationIsNoNotice(homework.fields["homework_name"], HomeworkVerdicts[homework.fields["status"].s]);
      }
    }
  }

  // ---------------------------------------------------------------------------
  // Sending with duplicate suppression

  /** The result of `if message != first_message: send_message(...);
      first_message = message`. */
  datatype Sending = Sending(firstMessage: string, log: seq<Attempt>, error: Option<Error>)

  /** Send `message` unless it equals the last delivered text; the last
      delivered text moves only once the send has returned. */
  function SendIfNew(firstMessage: string, message: string, d: Delivery): (r: Sending)
    ensures r.log == [] <==> message == firstMessage
    ensures r.log != [] ==> r.log == [Attempt(message, d.Delivered?)]
    ensures r.firstMessage == if r.log == [Attempt(message, true)] then message else firstMessage
    ensures r.error.Some? <==> r.log == [Attempt(message, false)]
    ensures r.error.Some? ==> r.error.value == SendError(d.reason)
  {
    if message == firstMessage then Sending(firstMessage, [], None)
    else match d
      case Delivered => Sending(message, [Attempt(message, true)], None)
      case Undelivered(reason) => Sending(firstMessage, [Attempt(message, false)], Some(SendError(reason)))
  }

  // ---------------------------------------------------------------------------
  // One cycle

  /** The except clauses: a NotForSendInTelegram is only logged; any other
      exception becomes a failure notice, sent under the same duplicate rule
      by a send that is outside the try and so may escape the loop. The log
      holds the sends of the except clauses only. */
  function Except(s: State, e: Error, d: Delivery): (o: Outcome)
    ensures e.NotForSendInTelegram? ==> o == Outcome(s, [], None)
    ensures o.state.timestamp == s.timestamp
    ensures o.log == if e.NotForSendInTelegram? || FailureNotice(e) == s.firstMessage then []
      else [Attempt(FailureNotice(e), d.Delivered?)]
    ensures o.state.firstMessage ==
      if !e.NotForSendInTelegram? && FailureNotice(e) != s.firstMessage && d.Delivered?
      then FailureNotice(e) else s.firstMessage
    ensures o.escaped.Some? <==>
      !e.NotForSendInTelegram? && FailureNotice(e) != s.firstMessage && d.Undelivered?
    ensures o.escaped.Some? ==> o.escaped.value == SendError(d.reason)
  {
    if e.NotForSendInTelegram? then Outcome(s, [], None)
    else
      var sent := SendIfNew(s.firstMessage, FailureNotice(e), d);
      Outcome(State(s.timestamp, sent.firstMessage), sent.log, sent.error)
  }

  /** One pass of the `while True` body, the sleep left out. */
  function Step(s: State, c: Cycle): (o: Outcome)
    ensures CycleMessage(c.fetch).Failure? ==>
      o == Except(State(CycleTimestamp(s.timestamp, c.fetch), s.firstMessage), CycleMessage(c.fetch).error, c.firstSend)
    ensures o.state.timestamp == CycleTimestamp(s.timestamp, c.fetch)
    ensures |o.log| <= 2
    ensures o.escaped.Some? ==> o.escaped.value.TelegramError? && o.state.firstMessage == s.firstMessage
    ensures CycleMessage(c.fetch).Success? && (CycleMessage(c.fetch).value == s.firstMessage || c.firstSend.Delivered?)
      ==> (o.escaped.None? && o.state.firstMessage == CycleMessage(c.fetch).value
        && o.log == (if CycleMessage(c.fetch).value == s.firstMessage then []
                     else [Attempt(CycleMessage(c.fetch).value, true)]))
  {
    var after := State(CycleTimestamp(s.timestamp, c.fetch), s.firstMessage);
    match CycleMessage(c.fetch)
    case Failure(e) => Except(after, e, c.firstSend)
    case Success(message) =>
      var sent := SendIfNew(s.firstMessage, message, c.firstSend);
      match sent.error
      case None => Outcome(State(after.timestamp, sent.firstMessage), sent.log, None)
      case Some(e) =>
        var handled := Except(after, e, c.secondSend);
        Outcome(handled.state, sent.log + handled.log, handled.escaped)
  }

  /** The messages that reached the chat, in order. */
  function Delivered(log: seq<Attempt>): (texts: seq<string>)
    ensures |texts| <= |log|
    ensures forall t :: t in texts <==> Attempt(t, true) in log
  {
    if log == [] then []
    else
      var last := log[|log| - 1];
      assert log == log[..|log| - 1] + [last];
      Delivered(log[..|log| - 1]) + (if last.delivered then [last.text] else [])
  }

  lemma {:induction false} DeliveredAppend(a: seq<Attempt>, b: seq<Attempt>)
    ensures Delivered(a + b) == Delivered(a) + Delivered(b)
    decreases |b|
  {
    if b == [] {
      assert a + b == a;
    } else {
      var init := b[..|b| - 1];
      assert (a + b)[..|a + b| - 1] == a + init;
      assert (a + b)[|a + b| - 1] == b[|b| - 1];
      DeliveredAppend(a, init);
    }
  }

  /** A single send delivers its text exactly when it returned. */
  lemma DeliveredOne(a: Attempt)
    ensures Delivered([a]) == if a.delivered then [a.text] else []
  {
    assert [a][..0] == [];
  }

  /** The except clauses deliver at most the failure notice, and
      `first_message` moves to it exactly when they do. */
  lemma ExceptDelivery(s: State, e: Error, d: Delivery)
    ensures Delivered(Except(s, e, d).log)
      == if Except(s, e, d).state.firstMessage == s.firstMessage then [] else [Except(s, e, d).state.firstMessage]
  {
    var o := Except(s, e, d);
    if o.log != [] {
      DeliveredOne(o.log[0]);
    }
  }

  /** The window moves before validation: after any cycle the timestamp is
      the answer's `current_date` whenever the answer is a dict that has one,
      whether or not the rest of the cycle fails, and is unchanged otherwise. */
  lemma TimestampMovesBeforeValidation(s: State, c: Cycle)
    ensures Step(s, c).state.timestamp ==
      if c.fetch.Fetched? && c.fetch.response.Dict? && "current_date" in c.fetch.response.fields
      then c.fetch.response.fields["current_date"] else s.timestamp
  {
  }

  /** An answer carrying `current_date` but no `homeworks` still moves the
      window, and the cycle reports the empty answer. */
  lemma EmptyAnswerStillMovesWindow(s: State, c: Cycle, date: Value)
    requires c.fetch == Fetched(Dict(map["current_date" := date]))
    requires c.firstSend.Delivered?
    ensures Step(s, c).state.timestamp == date
    ensures CycleMessage(c.fetch) == Failure(EmptyResponse(EmptyAnswer))
    ensures FailureNotice(EmptyResponse(EmptyAnswer)) != s.firstMessage
      ==> Step(s, c).log == [Attempt(FailurePrefix + EmptyAnswer, true)]
  {
  }

  /** An answer that is not a dict fails at `response.get`, before
      check_response: the notice names the missing attribute, not the type
      check, and the window stays. */
  lemma NonDictAnswerFailsAtGet(s: State, c: Cycle)
    requires c.fetch.Fetched? && !c.fetch.response.Dict?
    ensures CycleMessage(c.fetch) == Failure(NoAttributeGet(c.fetch.response))
    ensures CycleMessage(c.fetch) != Failure(TypeError(NotADict))
    ensures Step(s, c).state.timestamp == s.timestamp
  {
  }

  /** `first_message` moves exactly when a message reaches the chat, and
      then to that message; a cycle delivers at most one message. */
  lemma FirstMessageTracksDelivery(s: State, c: Cycle)
    ensures Delivered(Step(s, c).log)
      == if Step(s, c).state.firstMessage == s.firstMessage then [] else [Step(s, c).state.firstMessage]
  {
    var r := Step(s, c);
    var after := State(CycleTimestamp(s.timestamp, c.fetch), s.firstMessage);
    match CycleMessage(c.fetch)
    case Failure(e) =>
      ExceptDelivery(after, e, c.firstSend);
    case Success(message) =>
      var sent := SendIfNew(s.firstMessage, message, c.firstSend);
      if sent.error.Some? {
        var handled := Except(after, sent.error.value, c.secondSend);
        ExceptDelivery(after, sent.error.value, c.secondSend);
        assert r.log == [Attempt(message, false)] + handled.log;
        DeliveredOne(Attempt(message, false));
        DeliveredAppend([Attempt(message, false)], handled.log);
      } else if sent.log != [] {
        DeliveredOne(sent.log[0]);
      }
  }

  /** A failed delivery is not in the "do not send" branch: the cycle goes on
      to send a notice about it, never the same message again, and makes at
      most two sends in all. */
  lemma DeliveryFailureTriggersNotice(s: State, c: Cycle)
    ensures |Step(s, c).log| <= 2
    ensures |Step(s, c).log| == 2 ==>
      && c.firstSend.Undelivered?
      && Step(s, c).log == [Attempt(CycleMessage(c.fetch).value, false),
                            Attempt(FailureNotice(SendError(c.firstSend.reason)), c.secondSend.Delivered?)]
      && Step(s, c).log[0].text != Step(s, c).log[1].text
    ensures CycleMessage(c.fetch).Success? && CycleMessage(c.fetch).value != s.firstMessage
      && c.firstSend.Undelivered? && FailureNotice(SendError(c.firstSend.reason)) != s.firstMessage
      ==> |Step(s, c).log| == 2
  {
    NormalMessageIsNoNotice(c.fetch);
    if |Step(s, c).log| == 2 {
      assert IsNotice(Step(s, c).log[1].text);
    }
  }

  /** An exception escapes the loop exactly when a failure notice is not
      delivered; the last delivered text is then unchanged. */
  lemma EscapeOnlyWhenNoticeFails(s: State, c: Cycle)
    ensures Step(s, c).escaped.Some? <==>
      exists k :: 0 <= k < |Step(s, c).log| && Step(s, c).log[k] == Attempt(Step(s, c).log[k].text, false)
        && IsNotice(Step(s, c).log[k].text)
    ensures Step(s, c).escaped.Some? ==>
      && Step(s, c).state.firstMessage == s.firstMessage
      && Step(s, c).escaped.value.TelegramError?
  {
    var r := Step(s, c);
    var after := State(CycleTimestamp(s.timestamp, c.fetch), s.firstMessage);
    match CycleMessage(c.fetch)
    case Failure(e) =>
      assert r == Except(after, e, c.firstSend);
      if r.escaped.Some? {
        assert r.log[0] == Attempt(FailureNotice(e), false);
      }
    case Success(message) =>
      NormalMessageIsNoNotice(c.fetch);
      var sent := SendIfNew(s.firstMessage, message, c.firstSend);
      if sent.error.Some? {
        var handled := Except(after, sent.error.value, c.secondSend);
        assert r.log == sent.log + handled.log;
        assert !IsNotice(r.log[0].text);
        if r.escaped.Some? {
          assert r.log[1] == Attempt(FailureNotice(sent.error.value), false);
        }
      }
  }

  /** The NotForSendInTelegram branch only logs: nothing is sent and the
      state is untouched. */
  lemma NotForSendIsSilent(s: State, c: Cycle, msg: string)
    requires c.fetch == FetchFailed(NotForSendInTelegram(msg))
    ensures Step(s, c) == Outcome(s, [], None)
  {
  }

  /** Two consecutive cycles that produce the same message (or the same
      failure) send it at most once, provided the first send got through. */
  lemma RepeatedMessageSentOnce(s: State, c1: Cycle, c2: Cycle)
    requires CycleMessage(c1.fetch) == CycleMessage(c2.fetch)
    requires c1.firstSend.Delivered?
    ensures |Step(s, c1).log| <= 1 && Step(s, c1).escaped.None?
    ensures Step(Step(s, c1).state, c2).log == []
  {
  }

  /** Two consecutive cycles with different messages send both, and the last
      delivered text follows each. */
  lemma DistinctMessagesBothSent(s: State, c1: Cycle, c2: Cycle, m1: string, m2: string)
    requires CycleMessage(c1.fetch) == Success(m1) && CycleMessage(c2.fetch) == Success(m2)
    requires m1 != s.firstMessage && m2 != m1
    requires c1.firstSend.Delivered? && c2.firstSend.Delivered?
    ensures Step(s, c1).log == [Attempt(m1, true)] && Step(s, c1).state.firstMessage == m1
    ensures Step(Step(s, c1).state, c2).log == [Attempt(m2, true)]
    ensures Step(Step(s, c1).state, c2).state.firstMessage == m2
  {
  }

  // ---------------------------------------------------------------------------
  // The loop

  /** The first `|cycles|` passes of the loop, stopping at the first
      exception that escapes it. */
  function Run(init: State, cycles: seq<Cycle>): (o: Outcome)
    ensures cycles == [] ==> o == Outcome(init, [], None)
    ensures |o.log| <= 2 * |cycles|
    ensures o.escaped.Some? ==> o.escaped.value.TelegramError?
    decreases |cycles|
  {
    if cycles == [] then Outcome(init, [], None)
    else
      var before := Run(init, cycles[..|cycles| - 1]);
      if before.escaped.Some? then before
      else
        var r := Step(before.state, cycles[|cycles| - 1]);
        Outcome(r.state, before.log + r.log, r.escaped)
  }

  /** No two neighbours of `texts` are equal. */
  predicate NoAdjacentRepeats(texts: seq<string>)
  {
    forall k :: 0 < k < |texts| ==> texts[k - 1] != texts[k]
  }

  /** Once an exception has escaped, later cycles never run. */
  lemma {:induction false} RunAfterEscape(init: State, cycles: seq<Cycle>, i: nat)
    requires i <= |cycles|
    requires Run(init, cycles[..i]).escaped.Some?
    ensures Run(init, cycles) == Run(init, cycles[..i])
    decreases |cycles|
  {
    if i < |cycles| {
      var prefix := cycles[..|cycles| - 1];
      assert prefix[..i] == cycles[..i];
      RunAfterEscape(init, prefix, i);
    } else {
      assert cycles[..i] == cycles;
    }
  }

  /** `delivered` follows `first` with no text twice in a row, and `last` is
      the final text of the chain. */
  predicate Chained(first: string, delivered: seq<string>, last: string)
  {
    NoAdjacentRepeats([first] + delivered) && last == ([first] + delivered)[|delivered|]
  }

  /** A chain stays one when it is extended by a text different from its end,
      or by nothing. */
  lemma ChainExtend(first: string, delivered: seq<string>, mid: string, more: seq<string>, last: string)
    requires Chained(first, delivered, mid)
    requires more == if last == mid then [] else [last]
    ensures Chained(first, delivered + more, last)
  {
    assert [first] + (delivered + more) == ([first] + delivered) + more;
  }

  /** Over any run, the chat never receives the same text twice in a row, the
      first delivered text differs from the initial `first_message`, and
      `first_message` is always the last text delivered. */
  lemma {:induction false} DeliveriesNeverRepeat(init: State, cycles: seq<Cycle>)
    ensures Chained(init.firstMessage, Delivered(Run(init, cycles).log), Run(init, cycles).state.firstMessage)
    decreases |cycles|
  {
    if cycles != [] {
      var prefix := cycles[..|cycles| - 1];
      DeliveriesNeverRepeat(init, prefix);
      var before := Run(init, prefix);
      if before.escaped.None? {
        var r := Step(before.state, cycles[|cycles| - 1]);
        FirstMessageTracksDelivery(before.state, cycles[|cycles| - 1]);
        DeliveredAppend(before.log, r.log);
        ChainExtend(init.firstMessage, Delivered(before.log), before.state.firstMessage,
          Delivered(r.log), r.state.firstMessage);
      }
    }
  }

  /** The two except clauses for an exception raised in the try block: a
      NotForSendInTelegram is only logged; any other exception is reported by
      a send that is outside the try. */
  method HandleFailure(timestamp: Value, firstMessage0: string, log0: seq<Attempt>, error: Error,
                       delivery: Delivery)
    returns (firstMessage: string, log: seq<Attempt>, escaped: Option<Error>)
    ensures var r := Except(State(timestamp, firstMessage0), error, delivery);
      firstMessage == r.state.firstMessage && log == log0 + r.log && escaped == r.escaped
  {
    firstMessage, log, escaped := firstMessage0, log0, None;
    if !error.NotForSendInTelegram? {
      var notice := FailureNotice(error);
      if notice != firstMessage {
        log := log + [Attempt(notice, delivery.Delivered?)];
        if delivery.Undelivered? {
          escaped := Some(SendError(delivery.reason));
        } else {
          firstMessage := notice;
        }
      }
    }
  }

  /** The try block of one pass: move the window, pick the message and send
      it unless it repeats `first_message`. `raised` is the exception that
      leaves the block, and `delivery` the outcome that a send in the except
      clause would have. */
  method TryBlock(timestamp0: Value, firstMessage0: string, log0: seq<Attempt>, cycle: Cycle)
    returns (timestamp: Value, firstMessage: string, log: seq<Attempt>, raised: Option<Error>,
             delivery: Delivery)
    ensures timestamp == CycleTimestamp(timestamp0, cycle.fetch)
    ensures CycleMessage(cycle.fetch).Failure? ==>
      && firstMessage == firstMessage0 && log == log0
      && raised == Some(CycleMessage(cycle.fetch).error) && delivery == cycle.firstSend
    ensures CycleMessage(cycle.fetch).Success? ==>
      var sent := SendIfNew(firstMessage0, CycleMessage(cycle.fetch).value, cycle.firstSend);
      && firstMessage == sent.firstMessage && log == log0 + sent.log && raised == sent.error
      && (raised.Some? ==> delivery == cycle.secondSend)
  {
    timestamp, firstMessage, log, raised := timestamp0, firstMessage0, log0, None;
    delivery := cycle.firstSend;
    match cycle.fetch {
      case FetchFailed(e) =>
        raised := Some(e);
      case Fetched(response) =>
        var next := NextTimestamp(timestamp, response);
        if next.Failure? {
          raised := Some(next.error);
        } else {
          timestamp := next.value;
          var homeworks := CheckResponse(response);
          var message := if homeworks.Failure? then Failure(homeworks.error) else ChooseMessage(homeworks.value);
          assert message == CycleMessage(cycle.fetch);
          if message.Failure? {
            raised := Some(message.error);
          } else if message.value != firstMessage {
            log := log + [Attempt(message.value, delivery.Delivered?)];
            if delivery.Undelivered? {
              raised := Some(SendError(delivery.reason));
              delivery := cycle.secondSend;
            } else {
              firstMessage := message.value;
            }
          }
        }
    }
  }

  /** One pass of the `while True` body over the loop's variables, the sleep
      left out: the try block, then the two except clauses. */
  method PollOnce(timestamp0: Value, firstMessage0: string, log0: seq<Attempt>, cycle: Cycle)
    returns (timestamp: Value, firstMessage: string, log: seq<Attempt>, escaped: Option<Error>)
    ensures var r := Step(State(timestamp0, firstMessage0), cycle);
      State(timestamp, firstMessage) == r.state && log == log0 + r.log && escaped == r.escaped
  {
    var raised, delivery;
    timestamp, firstMessage, log, raised, delivery := TryBlock(timestamp0, firstMessage0, log0, cycle);
    escaped := None;
    if raised.Some? {
      firstMessage, log, escaped := HandleFailure(timestamp, firstMessage, log, raised.value, delivery);
    }
  }

  /** The `while True` loop of `main`, run for the given cycles or until an
      exception escapes it. */
  method MainLoop(init: State, cycles: seq<Cycle>)
    returns (timestamp: Value, firstMessage: string, log: seq<Attempt>, escaped: Option<Error>)
    ensures Outcome(State(timestamp, firstMessage), log, escaped) == Run(init, cycles)
    ensures Chained(init.firstMessage, Delivered(log), firstMessage)
  {
    timestamp, firstMessage, log, escaped := init.timestamp, init.firstMessage, [], None;
    var i := 0;
    while i < |cycles| && escaped.None?
      invariant 0 <= i <= |cycles|
      invariant Outcome(State(timestamp, firstMessage), log, escaped) == Run(init, cycles[..i])
    {
      ghost var before := Run(init, cycles[..i]);
      ghost var step := Step(before.state, cycles[i]);
      timestamp, firstMessage, log, escaped := PollOnce(timestamp, firstMessage, log, cycles[i]);
      assert cycles[..i + 1][..i] == cycles[..i] && cycles[..i + 1][i] == cycles[i];
      assert Run(init, cycles[..i + 1]) == Outcome(step.state, before.log + step.log, step.escaped);
      i := i + 1;
    }
    if escaped.Some? {
      RunAfterEscape(init, cycles, i);
    } else {
      assert cycles[..i] == cycles;
    }
    DeliveriesNeverRepeat(init, cycles);
  }
}
