/** The pure checks of homework.py: the configuration check, the validation of
    the API answer, and the interpretation of one homework record against the
    fixed verdict table. */
module Homework {

  import opened Wrappers
  import opened Payload
  import opened Errors

  /** HOMEWORK_VERDICTS: the human-readable sentence for each known status. */
  const HomeworkVerdicts: map<string, string> := map[
    "approved" := "Работа проверена: ревьюеру всё понравилось. Ура!",
    "reviewing" := "Работа взята на проверку ревьюером.",
    "rejected" := "Работа проверена: у ревьюера есть замечания."
  ]

  const NotADict := "Ошибка в типе приведенных данных"
  const EmptyAnswer := "Пустой ответ API"
  const NotAList := "При ключе homeworks данные приходят не в виде списка"
  const MissingName := "В API отсутствует ключ homework_name"
  const NullName := "Отсутствует имя работы: "
  const UnknownStatus := "Неизвестный статус работы - "
  const StatusChanged := "Изменился статус проверки работы \""

  // ---------------------------------------------------------------------------
  // check_tokens

  /** The three settings read from the environment; `os.getenv` gives `None`
      for a missing variable. */
  datatype Config = Config(
    practicumToken: Option<string>,
    telegramToken: Option<string>,
    telegramChatId: Option<string>)

  /** Python truthiness of a `str | None`. */
  predicate Present(setting: Option<string>)
  {
    setting.Some? && setting.value != ""
  }

  /** Python's `all(settings)`. */
  function All(settings: seq<Option<string>>): (r: bool)
    ensures r <==> forall k :: 0 <= k < |settings| ==> Present(settings[k])
  {
    if settings == [] then true else Present(settings[0]) && All(settings[1..])
  }

  /** check_tokens: every setting the bot needs is present and non-empty. */
  function CheckTokens(config: Config): (ok: bool)
    ensures ok <==>
      Present(config.practicumToken) && Present(config.telegramToken) && Present(config.telegramChatId)
  {
    var settings := [config.practicumToken, config.telegramToken, config.telegramChatId];
    assert settings[0] == config.practicumToken && settings[1] == config.telegramToken
      && settings[2] == config.telegramChatId;
    All(settings)
  }

  // ---------------------------------------------------------------------------
  // get_api_answer (only the window it asks for)

  /** `timestamp or int(time.time())`, with the clock reading passed in as `now`. */
  function RequestTimestamp(timestamp: Value, now: int): (fromDate: Value)
    ensures Truthy(timestamp) ==> fromDate == timestamp
    ensures !Truthy(timestamp) ==> fromDate == Int(now)
    ensures now != 0 ==> Truthy(fromDate)
  {
    if Truthy(timestamp) then timestamp else Int(now)
  }

  // ---------------------------------------------------------------------------
  // check_response

  /** check_response: the `homeworks` list of a well-formed answer, or the
      first of its three checks that fails. */
  function CheckResponse(response: Value): (r: Result<seq<Value>, Error>)
    ensures !response.Dict? ==> r == Failure(TypeError(NotADict))
    ensures response.Dict? && ("homeworks" !in response.fields || "current_date" !in response.fields)
      ==> r == Failure(EmptyResponse(EmptyAnswer))
    ensures r.Success? <==>
      response.Dict? && "homeworks" in response.fields && "current_date" in response.fields
      && response.fields["homeworks"].List?
    ensures r.Success? ==> r.value == response.fields["homeworks"].items
    ensures (response.Dict? && "homeworks" in response.fields && "current_date" in response.fields
      && r.Failure?) ==> r.error == TypeError(NotAList)
  {
    if !response.Dict? then Failure(TypeError(NotADict))
    else if "homeworks" !in response.fields || "current_date" !in response.fields then
      Failure(EmptyResponse(EmptyAnswer))
    else
      var homeworks := response.fields["homeworks"];
      if !homeworks.List? then Failure(TypeError(NotAList))
      else Success(homeworks.items)
  }

  // ---------------------------------------------------------------------------
  // parse_status

  /** Python's `key in container` for a string `key`: a dict tests its keys,
      a list its elements, a string its substrings; anything else is not a
      container and raises. */
  function HasKey(key: string, container: Value): (r: Result<bool, Error>)
    ensures container.Dict? ==> r == Success(key in container.fields)
    ensures container.List? ==> r == Success(Str(key) in container.items)
    ensures container.Str? ==> r == Success(exists k: nat :: OccursAt(container.s, key, k))
    ensures r.Failure? <==> container.Null? || container.Bool? || container.Int?
  {
    match container
    case Dict(fields) => Success(key in fields)
    case List(items) => Success(Str(key) in items)
    case Str(s) =>
      ContainsIsSubstring(s, key);
      Success(Contains(s, key))
    case _ => Failure(NotIterable(container))
  }

  /** Python's `status in HOMEWORK_VERDICTS`: only a string can equal one of
      the table's keys, and a list or dict cannot be hashed. */
  function IsKnownStatus(status: Value): (r: Result<bool, Error>)
    ensures r.Failure? <==> status.List? || status.Dict?
    ensures r.Success? ==> (r.value <==> status.Str? && status.s in HomeworkVerdicts)
  {
    match status
    case List(_) => Failure(Unhashable(status))
    case Dict(_) => Failure(Unhashable(status))
    case Str(s) => Success(s in HomeworkVerdicts)
    case _ => Success(false)
  }

  /** A homework record that parse_status accepts: a dict whose name is
      present and not null and whose status is a key of the verdict table. */
  predicate KnownRecord(homework: Value)
  {
    && homework.Dict?
    && "homework_name" in homework.fields
    && homework.fields["homework_name"] != Null
    && "status" in homework.fields
    && homework.fields["status"].Str?
    && homework.fields["status"].s in HomeworkVerdicts
  }

  /** The notification for a record with the given name and verdict. */
  function Notification(name: Value, verdict: string): string
  {
    StatusChanged + Format(name) + "\". " + verdict
  }

  /** A dict record whose `homework_name` is present and not null: the
      records whose status parse_status goes on to look at. */
  predicate NamedRecord(homework: Value)
  {
    homework.Dict? && "homework_name" in homework.fields && homework.fields["homework_name"] != Null
  }

  /** `homework.get('status')`: the status, or `None` when it is absent. */
  function StatusOf(homework: Value): Value
    requires homework.Dict?
  {
    if "status" in homework.fields then homework.fields["status"] else Null
  }

  /** parse_status: the notification for one homework record, or the error
      its first failing check raises. The name is checked before the status. */
  function ParseStatus(homework: Value): (r: Result<string, Error>)
    ensures r.Success? <==> KnownRecord(homework)
    ensures r.Success? ==> r.value == Notification(
      homework.fields["homework_name"], HomeworkVerdicts[homework.fields["status"].s])
    ensures homework.Null? || homework.Bool? || homework.Int? ==> r == Failure(NotIterable(homework))
    ensures homework.List? ==> r == Failure(
      if Str("homework_name") in homework.items then NoAttributeGet(homework) else KeyError(MissingName))
    ensures homework.Str? ==> r == Failure(
      if exists k: nat :: OccursAt(homework.s, "homework_name", k) then NoAttributeGet(homework)
      else KeyError(MissingName))
    ensures homework.Dict? && "homework_name" !in homework.fields ==> r == Failure(KeyError(MissingName))
    ensures homework.Dict? && "homework_name" in homework.fields && homework.fields["homework_name"] == Null
      ==> r == Failure(KeyError(NullName + "None"))
    ensures NamedRecord(homework) && (StatusOf(homework).List? || StatusOf(homework).Dict?)
      ==> r == Failure(Unhashable(StatusOf(homework)))
    ensures NamedRecord(homework) && !StatusOf(homework).List? && !StatusOf(homework).Dict?
      && !(StatusOf(homework).Str? && StatusOf(homework).s in HomeworkVerdicts)
      ==> r == Failure(ValueError(UnknownStatus + Format(StatusOf(homework))))
  {
    match HasKey("homework_name", homework)
    case Failure(e) => Failure(e)
    case Success(found) =>
      if !found then Failure(KeyError(MissingName))
      else if !homework.Dict? then Failure(NoAttributeGet(homework))
      else
        var name := homework.fields["homework_name"];
        if name == Null then Failure(KeyError(NullName + Format(name)))
        else
          var status := StatusOf(homework);
          match IsKnownStatus(status)
          case Failure(e) => Failure(e)
          case Success(known) =>
            if !known then Failure(ValueError(UnknownStatus + Format(status)))
            else Success(Notification(name, HomeworkVerdicts[status.s]))
  }

  /** A sample record gives exactly the expected sentence; an unknown status
      is refused. */
  lemma ParseStatusExamples()
    ensures ParseStatus(Dict(map["homework_name" := Str("lab1"), "status" := Str("approved")]))
      == Success("Изменился статус проверки работы \"lab1\". " + "Работа проверена: ревьюеру всё понравилось. Ура!")
    ensures ParseStatus(Dict(map["homework_name" := Str("lab1"), "status" := Str("pending")]))
      == Failure(ValueError("Неизвестный статус работы - pending"))
  {
    var approved := Dict(map["homework_name" := Str("lab1"), "status" := Str("approved")]);
    assert KnownRecord(approved);
    assert StatusChanged + Format(Str("lab1")) + "\". " == "Изменился статус проверки работы \"lab1\". ";
    var pending := Dict(map["homework_name" := Str("lab1"), "status" := Str("pending")]);
    assert "pending" !in HomeworkVerdicts;
    assert UnknownStatus + Format(Str("pending")) == "Неизвестный статус работы - pending";
  }
}
