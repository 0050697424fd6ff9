/** The decision-making functions of homework.py: the credential check, the
    answer of the API client, the response validator, the status formatter and
    the body of one polling cycle. */
module Homework {
  import opened Wrappers
  import opened PyJson
  import opened Errors

  // ---------------------------------------------------------------------------
  // Credentials

  /** An environment variable as `os.getenv` returns it: None or a string. */
  type EnvValue = Option<string>

  /** Python truthiness of an environment value: neither None nor empty. */
  predicate EnvTruthy(v: EnvValue) {
    v.Some? && v.value != ""
  }

  /** Python's `all(values)` over environment values. */
  function All(values: seq<EnvValue>): (r: bool)
    ensures r <==> forall k :: 0 <= k < |values| ==> EnvTruthy(values[k])
  {
    if values == [] then true else EnvTruthy(values[0]) && All(values[1..])
  }

  /** check_tokens: the three secrets the bot needs are all set and non-empty. */
  function CheckTokens(practicumToken: EnvValue, telegramChatId: EnvValue, telegramToken: EnvValue): (ok: bool)
    ensures ok <==> EnvTruthy(practicumToken) && EnvTruthy(telegramChatId) && EnvTruthy(telegramToken)
  {
    var envTokens := [practicumToken, telegramChatId, telegramToken];
    assert envTokens[0] == practicumToken && envTokens[1] == telegramChatId && envTokens[2] == telegramToken;
    All(envTokens)
  }

  // ---------------------------------------------------------------------------
  // API client

  /** HTTPStatus.OK */
  const HttpOk := 200

  /** The body of an HTTP answer, as `response.json()` sees it. */
  datatype Body = Parsed(json: Json) | Unparsable(detail: string)

  /** What one GET on the review endpoint yields: no answer at all (a
      `requests.RequestException`), or an answer with a status code and a body. */
  datatype Answer = NoResponse | Response(statusCode: int, body: Body)

  const RequestFailedMessage := "Ошибка при запросе к API"
  const BadStatusMessage := "Статус запроса отличный от 200"

  /** get_api_answer, given what the network returned: the decoded body of a
      200 answer, or the error the function raises. */
  function GetApiAnswer(answer: Answer): (r: Result<Json, Error>)
    ensures r.Ok? <==> answer.Response? && answer.statusCode == HttpOk && answer.body.Parsed?
    ensures r.Ok? ==> r.value == answer.body.json
    ensures answer.NoResponse? ==> r == Err(APIRequestError(RequestFailedMessage))
    ensures answer.Response? && answer.statusCode != HttpOk ==> r == Err(IncorrectRequestStatus(BadStatusMessage))
    ensures answer.Response? && answer.statusCode == HttpOk && answer.body.Unparsable? ==>
              r == Err(JsonDecodeError(answer.body.detail))
  {
    match answer
    case NoResponse => Err(APIRequestError(RequestFailedMessage))
    case Response(code, body) =>
      if code != HttpOk then Err(IncorrectRequestStatus(BadStatusMessage))
      else match body
        case Parsed(json) => Ok(json)
        case Unparsable(detail) => Err(JsonDecodeError(detail))
  }

  // ---------------------------------------------------------------------------
  // Response validator

  /** The keys every answer must carry, in the order they are checked. */
  const CheckingKeys: seq<string> := ["homeworks", "current_date"]

  const MissingKeysMessage := "В ответе API недостаточно ключей"

  function NotDictMessage(response: Json): string {
    "Ответ API не является словарём," + "тип ответа " + ClassRepr(response)
  }

  function NotListMessage(homeworks: Json): string {
    "Значение по ключу homeworks не является списком" + "тип значения ключа " + ClassRepr(homeworks)
  }

  /** check_response: the `homeworks` list of a well-formed answer, unchanged. */
  function CheckResponse(response: Json): (r: Result<seq<Json>, Error>)
    ensures r.Ok? <==>
              && response.JObject?
              && "homeworks" in response.fields && "current_date" in response.fields
              && response.fields["homeworks"].JList?
    ensures r.Ok? ==> r.value == response.fields["homeworks"].items
    // The type of the answer is checked before any key.
    ensures !response.JObject? ==> r == Err(TypeError(NotDictMessage(response)))
    ensures response.JObject? && ("homeworks" !in response.fields || "current_date" !in response.fields) ==>
              r == Err(KeyError(MissingKeysMessage))
    ensures response.JObject? && "homeworks" in response.fields && "current_date" in response.fields
            && !response.fields["homeworks"].JList? ==>
              r == Err(TypeError(NotListMessage(response.fields["homeworks"])))
  {
    if !response.JObject? then
      Err(TypeError(NotDictMessage(response)))
    else
      assert (forall key <- CheckingKeys :: key in response.fields)
             <==> "homeworks" in response.fields && "current_date" in response.fields;
      if !(forall key <- CheckingKeys :: key in response.fields) then
        Err(KeyError(MissingKeysMessage))
      else
        var homeworks := Get(response.fields, "homeworks");
        if !homeworks.JList? then Err(TypeError(NotListMessage(homeworks)))
        else Ok(homeworks.items)
  }

  /** Validating a response rebuilt from the list the validator returned gives
      back the same list. */
  lemma CheckResponseIdempotent(response: Json, currentDate: Json)
    requires CheckResponse(response).Ok?
    ensures var homeworks := CheckResponse(response).value;
            CheckResponse(JObject(map["homeworks" := JList(homeworks), "current_date" := currentDate])) == Ok(homeworks)
  {
  }

  // ---------------------------------------------------------------------------
  // Status formatter

  /** HOMEWORK_VERDICTS: the closed table of review verdicts. */
  const HomeworkVerdicts: map<string, string> := map[
    "approved" := "Работа проверена: ревьюеру всё понравилось. Ура!",
    "reviewing" := "Работа взята на проверку ревьюером.",
    "rejected" := "Работа проверена: у ревьюера есть замечания."
  ]

  const NoNameMessage := "Отсуствует наименование последней домашней работы"
  const NoStatusMessage := "Отсуствует статус последней домашней работы"
  const UnknownVerdictMessage := "Вердикт по последней домашней" + "работе нестандартный или отсуствует"
  const StatusChangedPrefix := "Изменился статус проверки работы \""

  /** Python's `d.get(status)` on the verdict table. A string key is looked up;
      any other hashable value equals no key and gives None; a list or a dict is
      unhashable, and the lookup raises a TypeError. */
  function VerdictFor(status: Json): (r: Result<Option<string>, Error>)
    ensures r.Ok? ==> (r.value.Some? <==> status.JString? && status.s in HomeworkVerdicts)
    ensures r.Ok? && r.value.Some? ==> r.value.value == HomeworkVerdicts[status.s]
    ensures r.Err? <==> status.JList? || status.JObject?
    ensures r.Err? ==> r.error == TypeError("unhashable type: '" + TypeName(status) + "'")
  {
    match status
    case JList(_) => Err(TypeError("unhashable type: '" + TypeName(status) + "'"))
    case JObject(_) => Err(TypeError("unhashable type: '" + TypeName(status) + "'"))
    case JString(s) => Ok(if s in HomeworkVerdicts then Some(HomeworkVerdicts[s]) else None)
    case _ => Ok(None)
  }

  /** The verdict table has exactly three entries and none of them is empty, so
      `not verdict` holds only for a status outside the table. */
  lemma VerdictTableClosed()
    ensures HomeworkVerdicts.Keys == {"approved", "reviewing", "rejected"}
    ensures forall status <- HomeworkVerdicts.Keys :: HomeworkVerdicts[status] != ""
  {
  }

  /** parse_status: the notification text for one homework record. */
  function ParseStatus(homework: Json): (r: Result<string, Error>)
    // Anything but a dict has no `get`.
    ensures !homework.JObject? ==>
              r == Err(AttributeError("'" + TypeName(homework) + "' object has no attribute 'get'"))
    // A missing or falsy name is reported whatever the status is.
    ensures homework.JObject? && !Truthy(Get(homework.fields, "homework_name")) ==>
              r == Err(KeyError(NoNameMessage))
    ensures homework.JObject? && Truthy(Get(homework.fields, "homework_name"))
            && !Truthy(Get(homework.fields, "status")) ==>
              r == Err(KeyError(NoStatusMessage))
    ensures homework.JObject? && Truthy(Get(homework.fields, "homework_name"))
            && Truthy(Get(homework.fields, "status")) && Get(homework.fields, "status").JString?
            && Get(homework.fields, "status").s !in HomeworkVerdicts ==>
              r == Err(KeyError(UnknownVerdictMessage))
    // A truthy list or dict status is unhashable: the table lookup raises TypeError.
    ensures homework.JObject? && Truthy(Get(homework.fields, "homework_name"))
            && Truthy(Get(homework.fields, "status"))
            && (Get(homework.fields, "status").JList? || Get(homework.fields, "status").JObject?) ==>
              r == Err(TypeError("unhashable type: '" + TypeName(Get(homework.fields, "status")) + "'"))
    // Any other truthy status outside the table (an int, a float, true, an unknown string) is a KeyError.
    ensures homework.JObject? && Truthy(Get(homework.fields, "homework_name"))
            && Truthy(Get(homework.fields, "status"))
            && !(Get(homework.fields, "status").JList? || Get(homework.fields, "status").JObject?)
            && !(Get(homework.fields, "status").JString? && Get(homework.fields, "status").s in HomeworkVerdicts) ==>
              r == Err(KeyError(UnknownVerdictMessage))
    ensures r.Ok? <==>
              && homework.JObject?
              && Truthy(Get(homework.fields, "homework_name"))
              && Get(homework.fields, "status").JString?
              && Get(homework.fields, "status").s in HomeworkVerdicts
    ensures r.Ok? ==>
              r.value == StatusChangedPrefix + PyStr(homework.fields["homework_name"]) + "\". "
                         + HomeworkVerdicts[homework.fields["status"].s]
  {
    if !homework.JObject? then
      Err(AttributeError("'" + TypeName(homework) + "' object has no attribute 'get'"))
    else
      var homeworkName := Get(homework.fields, "homework_name");
      if !Truthy(homeworkName) then Err(KeyError(NoNameMessage))
      else
        var homeworkStatus := Get(homework.fields, "status");
        if !Truthy(homeworkStatus) then Err(KeyError(NoStatusMessage))
        else
          var verdict :- VerdictFor(homeworkStatus);
          if verdict.None? || verdict.value == "" then Err(KeyError(UnknownVerdictMessage))
          else Ok(StatusChangedPrefix + PyStr(homeworkName) + "\". " + verdict.value)
  }

  /** The formatted message for a record named "Project 1" whose status is approved. */
  lemma ParseStatusApproved()
    ensures ParseStatus(JObject(map["homework_name" := JString("Project 1"), "status" := JString("approved")]))
            == Ok("Изменился статус проверки работы \"" + "Project 1" + "\". "
                  + "Работа проверена: ревьюеру всё понравилось. Ура!")
  {
    var homework := JObject(map["homework_name" := JString("Project 1"), "status" := JString("approved")]);
    assert homework.fields["status"].s == "approved";
    assert PyStr(homework.fields["homework_name"]) == "Project 1";
  }

  // ---------------------------------------------------------------------------
  // One polling cycle

  const NoHomeworkMessage := "Нет домашки"

  /** The statements of main's `try` up to `homework_message`: fetch, validate,
      and format the first record, or the sentinel when the list is empty. */
  function Cycle(answer: Answer): (r: Result<string, Error>)
    ensures GetApiAnswer(answer).Err? ==> r == Err(GetApiAnswer(answer).error)
    ensures GetApiAnswer(answer).Ok? && CheckResponse(GetApiAnswer(answer).value).Err? ==>
              r == Err(CheckResponse(GetApiAnswer(answer).value).error)
    ensures r.Ok? ==> r.value != ""
    ensures r.Ok? ==> r.value == NoHomeworkMessage || StatusChangedPrefix <= r.value
  {
    var apiAnswer :- GetApiAnswer(answer);
    var lastHomework :- CheckResponse(apiAnswer);
    if lastHomework == [] then Ok(NoHomeworkMessage)
    else ParseStatus(lastHomework[0])
  }

  /** A well-formed answer with an empty list yields the fixed sentinel. */
  lemma CycleNoHomework(fields: map<string, Json>)
    requires "current_date" in fields
    ensures Cycle(Response(HttpOk, Parsed(JObject(fields["homeworks" := JList([])])))) == Ok(NoHomeworkMessage)
  {
  }

  /** Only the first record of a well-formed answer is formatted: the records
      after it never change the outcome. */
  lemma CycleFormatsFirstOnly(fields: map<string, Json>, first: Json, rest: seq<Json>)
    requires "current_date" in fields
    ensures Cycle(Response(HttpOk, Parsed(JObject(fields["homeworks" := JList([first] + rest)]))))
            == ParseStatus(first)
  {
  }
}
