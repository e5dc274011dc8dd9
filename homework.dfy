/**
  The pure steps of the homework bot: the start-up check of its three settings,
  the classification of the review API's answer, the shape check of the decoded
  answer, and the formatting of a homework record into a notification.
 */
module Homework {
  import opened Errors
  import opened PyValue

  /** The review verdict shown for each status code the API may report. */
  const Verdicts: map<string, string> := map[
    "approved" := "Работа проверена: ревьюеру всё понравилось. Ура!",
    "reviewing" := "Работа взята на проверку ревьюером.",
    "rejected" := "Работа проверена: у ревьюера есть замечания."
  ]

  // ---------------------------------------------------------------------------
  // Settings

  /**
    The process environment as the bot sees it: a setting whose name is not a
    key was not set at all.
   */
  type Config = map<string, string>

  const PracticumToken := "PRACTICUM_TOKEN"
  const TelegramToken := "TELEGRAM_TOKEN"
  const TelegramChatId := "TELEGRAM_CHAT_ID"

  /** The settings the bot needs, in the order it reports them. */
  const TokenNames: seq<string> := [PracticumToken, TelegramToken, TelegramChatId]

  /** A setting counts as present when it is set and not empty. */
  predicate IsSet(config: Config, name: string) {
    name in config && config[name] != ""
  }

  /** The names among `names` that are not set, in the order of `names`. */
  function MissingAmong(names: seq<string>, config: Config): (missing: seq<string>)
    ensures forall n :: n in missing <==> n in names && !IsSet(config, n)
    ensures |missing| <= |names|
  {
    if names == [] then []
    else (if IsSet(config, names[0]) then [] else [names[0]]) + MissingAmong(names[1..], config)
  }

  function MissingTokens(config: Config): seq<string> {
    MissingAmong(TokenNames, config)
  }

  /** The missing settings are listed exactly, each once, in the fixed order. */
  lemma {:induction false} MissingTokensInOrder(config: Config)
    ensures MissingTokens(config) ==
              (if IsSet(config, PracticumToken) then [] else [PracticumToken])
            + (if IsSet(config, TelegramToken) then [] else [TelegramToken])
            + (if IsSet(config, TelegramChatId) then [] else [TelegramChatId])
  {
    var last := [TelegramChatId];
    assert last[1..] == [];
    assert MissingAmong(last, config) == (if IsSet(config, TelegramChatId) then [] else last);
    var tail := [TelegramToken, TelegramChatId];
    assert tail[1..] == last;
    assert MissingAmong(tail, config) == (if IsSet(config, TelegramToken) then [] else [TelegramToken]) + MissingAmong(last, config);
    assert TokenNames[1..] == tail;
    assert MissingTokens(config) == (if IsSet(config, PracticumToken) then [] else [PracticumToken]) + MissingAmong(tail, config);
  }

  function TokenMessage(missing: seq<string>): string {
    "Отсутствует переменная окружения" + Join(", ", missing)
  }

  /** check_tokens: raise TokenNotFound naming every missing setting, or return. */
  function CheckTokens(config: Config): (r: Check)
    ensures r.Pass? <==> forall n :: n in TokenNames ==> IsSet(config, n)
    ensures r.Fail? ==> r.error == Error(TokenNotFound, TokenMessage(MissingTokens(config)))
  {
    var missing := MissingTokens(config);
    if missing != [] then
      assert missing[0] in missing;
      Fail(Error(TokenNotFound, TokenMessage(missing)))
    else Pass
  }

  // ---------------------------------------------------------------------------
  // The review API

  const HttpOk := 200

  /** What `response.json()` makes of the body of an answer. */
  datatype Body = Decoded(json: Value) | Undecodable(reason: string)

  /**
    What the GET request to the review API produced: the request raised a
    RequestException (with its text), or the server answered with a status code.
   */
  datatype ApiOutcome = RequestFailed(reason: string) | Answered(status: int, body: Body)

  /** get_api_answer: the decoded body of a 200 answer, or the exception raised. */
  function GetApiAnswer(outcome: ApiOutcome): (r: Result<Value>)
    ensures r.Ok? <==> outcome.Answered? && outcome.status == HttpOk && outcome.body.Decoded?
    ensures r.Ok? ==> r.value == outcome.body.json
    ensures r.Err? ==> r.error.kind == (if outcome.Answered? && outcome.status == HttpOk then DecodeError else APIError)
  {
    match outcome
    case RequestFailed(reason) => Err(Error(APIError, "Ошибка: " + reason))
    case Answered(status, body) =>
      if status != HttpOk then Err(Error(APIError, "Статус запроса к API: " + Decimal(status)))
      else
        match body
        case Decoded(json) => Ok(json)
        case Undecodable(reason) => Err(Error(DecodeError, reason))
  }

  /** `str(KeyError(s))`, which is the `repr()` of its message. */
  function Quoted(s: string): string {
    Repr(PyStr(s))
  }

  /**
    check_response: the answer must be a dict whose "homeworks" is a list;
    the checks run in this order and the elements are not inspected.
   */
  function CheckResponse(response: Value): (r: Check)
    ensures r.Pass? <==> response.PyDict? && Get(response.members, "homeworks").PyList?
    ensures !response.PyDict? ==> r.Fail? && r.error.kind == TypeError
    ensures response.PyDict? && !HasKey(response.members, "homeworks") ==> r.Fail? && r.error.kind == KeyError
    ensures response.PyDict? && HasKey(response.members, "homeworks") && !Get(response.members, "homeworks").PyList?
            ==> r.Fail? && r.error.kind == TypeError
  {
    if !response.PyDict? then
      Fail(Error(TypeError, "Ответ API не является \"dict\". Ответ API является <class '" + TypeName(response) + "'>"))
    else if !HasKey(response.members, "homeworks") then
      Fail(Error(KeyError, Quoted("Ответ API не содержит список проектов \"homeworks\"")))
    else
      var homeworks := Get(response.members, "homeworks");
      if !homeworks.PyList? then
        Fail(Error(TypeError, "Список проектов не является \"list\". Список проектов является <class '"
                              + TypeName(homeworks) + "'>"))
      else Pass
  }

  // ---------------------------------------------------------------------------
  // Formatting a homework record

  const StatusMissing := Error(KeyError, Quoted("Не найден статус проекта в ответе API"))
  const NameMissing := Error(KeyError, Quoted("Не найдено имя проекта в ответе API"))

  function NameOf(homework: Value): Value
    requires homework.PyDict?
  {
    Get(homework.members, "homework_name")
  }

  function StatusOf(homework: Value): Value
    requires homework.PyDict?
  {
    Get(homework.members, "status")
  }

  /** The notification for a homework whose status has the given verdict. */
  function StatusMessage(name: string, verdict: string): string {
    "Изменился статус проверки работы \"" + name + "\". " + verdict
  }

  /**
    parse_status: the notification for one homework record. A missing or false
    status is reported before the name is looked at; a status that is not a
    key of the verdict table raises ValueError, or TypeError when it is a list
    or a dict (which cannot be looked up at all).
   */
  function ParseStatus(homework: Value): (r: Result<string>)
    ensures !homework.PyDict? ==> r.Err? && r.error.kind == AttributeError
    ensures homework.PyDict? && !Truthy(StatusOf(homework)) ==> r == Err(StatusMissing)
    ensures homework.PyDict? && Truthy(StatusOf(homework)) && !Truthy(NameOf(homework)) ==> r == Err(NameMissing)
    ensures homework.PyDict? && Truthy(StatusOf(homework)) && Truthy(NameOf(homework)) ==>
              if !Hashable(StatusOf(homework)) then r.Err? && r.error.kind == TypeError
              else if StatusOf(homework).PyStr? && StatusOf(homework).s in Verdicts then r.Ok?
              else r.Err? && r.error.kind == ValueError
    ensures r.Ok? <==> homework.PyDict? && Truthy(NameOf(homework))
                       && StatusOf(homework).PyStr? && StatusOf(homework).s in Verdicts
    ensures r.Ok? ==> r.value == StatusMessage(Display(NameOf(homework)), Verdicts[StatusOf(homework).s])
  {
    if !homework.PyDict? then
      Err(Error(AttributeError, "'" + TypeName(homework) + "' object has no attribute 'get'"))
    else
      var name := NameOf(homework);
      var status := StatusOf(homework);
      if !Truthy(status) then Err(StatusMissing)
      else if !Truthy(name) then Err(NameMissing)
      else if !Hashable(status) then Err(Error(TypeError, "unhashable type: '" + TypeName(status) + "'"))
      else if !(status.PyStr? && status.s in Verdicts) then
        Err(Error(ValueError, "Не найден статус последнего проекта: " + Display(status)))
      else Ok(StatusMessage(Display(name), Verdicts[status.s]))
  }

  /** The record of an approved homework called "hw1" gives the approval sentence. */
  lemma ApprovedExample()
    ensures ParseStatus(PyDict([("homework_name", PyStr("hw1")), ("status", PyStr("approved"))]))
         == Ok("Изменился статус проверки работы \"" + "hw1" + "\". " + "Работа проверена: ревьюеру всё понравилось. Ура!")
  {
    var record := PyDict([("homework_name", PyStr("hw1")), ("status", PyStr("approved"))]);
    assert NameOf(record) == PyStr("hw1");
    assert StatusOf(record) == PyStr("approved");
  }

  /** A record without either field is reported for its status, not its name. */
  lemma EmptyRecordReportsStatus()
    ensures ParseStatus(PyDict([])) == Err(StatusMissing)
  {
  }
}
