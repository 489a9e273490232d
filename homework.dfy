/** The decision procedures of the homework-status bot: the status table, the
    response-shape check, the status-to-message mapping, the token check and
    the classification of the API's HTTP answer. The response check, the
    status parser and the answer classification each return what the Python
    function returns or raises, together with the one chat notification it
    tries to send on the way (through `error_logging`), if any. The token
    check returns a verdict and sends nothing, the request timestamp is a
    plain value, and the status table is a constant. */
module Homework {
  import opened Json

  /** The Python exceptions these functions raise, each with its argument. */
  datatype PyError =
    | IndexError(msg: string)
    | TypeError(msg: string)
    | KeyError(key: string)
    | ValueError(msg: string)
    | UnboundLocalError(msg: string)

  /** `str(error)`: a `KeyError` shows the `repr` of its argument, the others
      show their message as it is. */
  function ErrorText(e: PyError): (r: string)
    ensures e.KeyError? ==> r == StrRepr(e.key) && |r| >= 2 && (r[0] == '\'' || r[0] == '"') && r[|r| - 1] == r[0]
    ensures !e.KeyError? ==> r == e.msg
  {
    match e
    case IndexError(m) => m
    case TypeError(m) => m
    case KeyError(k) => StrRepr(k)
    case ValueError(m) => m
    case UnboundLocalError(m) => m
  }

  /** A call either returns a value or raises. */
  datatype Raised<+T> = Ok(value: T) | Raise(error: PyError)

  /** What a call returns or raises, and the notification it sent first, if any. */
  datatype Traced<+T> = Traced(result: Raised<T>, note: Option<string>)

  // ---------------------------------------------------------------- constants

  const Endpoint := "https://practicum.yandex.ru/api/user_api/homework_statuses/"

  const HttpOk := 200
  const HttpNotFound := 404

  /** The three review statuses the API documents, and the verdict shown for each. */
  const HomeworkStatuses: map<string, string> := map[
    "approved" := "Работа проверена: ревьюеру всё понравилось. Ура!",
    "reviewing" := "Работа взята на проверку ревьюером.",
    "rejected" := "Работа проверена: у ревьюера есть замечания."
  ]

  const ExpectedKeys: seq<string> := ["current_date", "homeworks"]

  const EmptyResponseMsg := "Ответ API содержит пустой словарь"
  const NotPythonTypesMsg := "Ответ API не приведен к типам данных Python"
  const NotListMsg := "Объект homeworks не является списком"
  const MissingKeyPrefix := "В ответе API отсутствует ключ "
  const RequestFailedMsg := "Сбой при запросе к эндпоинту"
  /** What Python (up to 3.10) says when `get_api_answer` reads its response
      variable after `requests.get` itself raised. */
  const UnboundResponseMsg := "local variable 'homework_statuses' referenced before assignment"

  /** The table holds exactly the three documented codes, with three different verdicts. */
  lemma StatusTableIsClosed()
    ensures HomeworkStatuses.Keys == {"approved", "reviewing", "rejected"}
    ensures |HomeworkStatuses| == 3
    ensures HomeworkStatuses["approved"] != HomeworkStatuses["reviewing"]
    ensures HomeworkStatuses["approved"] != HomeworkStatuses["rejected"]
    ensures HomeworkStatuses["reviewing"] != HomeworkStatuses["rejected"]
  {
    assert HomeworkStatuses.Keys == {"approved", "reviewing", "rejected"};
  }

  // ---------------------------------------------------------------- subscripting

  /** `v[key]` with a str key: a dict looks the key up, any other value raises
      the `TypeError` CPython 3.10 raises. */
  function Subscript(v: Json, key: string): (r: Raised<Json>)
    ensures r.Ok? <==> v.JObject? && Lookup(v.fields, key).Some?
    ensures r.Ok? ==> Lookup(v.fields, key) == Some(r.value)
    ensures v.JObject? && r.Raise? ==> r.error == KeyError(key)
    ensures !v.JObject? ==> r.Raise? && r.error.TypeError?
  {
    match v
    case JObject(fields) =>
      (match Lookup(fields, key)
       case Some(x) => Ok(x)
       case None => Raise(KeyError(key)))
    case JList(_) => Raise(TypeError("list indices must be integers or slices, not str"))
    case JStr(_) => Raise(TypeError("string indices must be integers"))
    case JInt(_) => Raise(TypeError("'int' object is not subscriptable"))
    case JBool(_) => Raise(TypeError("'bool' object is not subscriptable"))
    case JNull => Raise(TypeError("'NoneType' object is not subscriptable"))
  }

  // ---------------------------------------------------------------- check_response

  /** The first key of a non-empty dict in iteration order. */
  function FirstKey(r: Json): string
    requires r.JObject? && r.fields != []
  {
    r.fields[0].0
  }

  /** `check_response` as written: an empty dict and a non-dict are rejected;
      otherwise the loop over the keys decides on its first key alone. */
  function CheckResponse(r: Json): (t: Traced<seq<Json>>)
    ensures r == JObject([]) ==>
      t == Traced(Raise(IndexError(EmptyResponseMsg)), Some(EmptyResponseMsg))
    ensures !r.JObject? ==>
      t == Traced(Raise(TypeError(NotPythonTypesMsg)), Some(NotPythonTypesMsg))
    ensures r.JObject? && r.fields != [] && FirstKey(r) !in ExpectedKeys ==>
      var m := MissingKeyPrefix + FirstKey(r);
      t == Traced(Raise(KeyError(m)), Some(m))
    ensures t.result.Ok? <==>
      r.JObject? && r.fields != [] && FirstKey(r) in ExpectedKeys &&
      Lookup(r.fields, "homeworks").Some? && Lookup(r.fields, "homeworks").value.JList?
    ensures t.result.Ok? ==>
      Lookup(r.fields, "homeworks") == Some(JList(t.result.value)) && t.note == None
    ensures r.JObject? && r.fields != [] && FirstKey(r) in ExpectedKeys ==>
      t.note == None &&
      (Lookup(r.fields, "homeworks").None? ==> t.result == Raise(KeyError("homeworks"))) &&
      (Lookup(r.fields, "homeworks").Some? && !Lookup(r.fields, "homeworks").value.JList? ==>
         t.result == Raise(TypeError(NotListMsg)))
  {
    if r == JObject([]) then
      Traced(Raise(IndexError(EmptyResponseMsg)), Some(EmptyResponseMsg))
    else if r.JObject? then
      var key := r.fields[0].0;
      if key in ExpectedKeys then
        match Lookup(r.fields, "homeworks")
        case None => Traced(Raise(KeyError("homeworks")), None)
        case Some(homeworks) =>
          if homeworks.JList? then Traced(Ok(homeworks.items), None)
          else Traced(Raise(TypeError(NotListMsg)), None)
      else
        var m := MissingKeyPrefix + key;
        Traced(Raise(KeyError(m)), Some(m))
    else
      Traced(Raise(TypeError(NotPythonTypesMsg)), Some(NotPythonTypesMsg))
  }

  /** Two dicts with the same first key and the same `homeworks` binding get
      the same verdict, whatever else they hold and in whatever order. */
  lemma CheckResponseSeesOnlyFirstKey(r1: Json, r2: Json)
    requires r1.JObject? && r1.fields != [] && r2.JObject? && r2.fields != []
    requires FirstKey(r1) == FirstKey(r2)
    requires Lookup(r1.fields, "homeworks") == Lookup(r2.fields, "homeworks")
    ensures CheckResponse(r1) == CheckResponse(r2)
  {
  }

  /** A dict whose first key is unexpected is rejected with `KeyError` even
      when a well-formed `homeworks` list follows it. */
  lemma UnexpectedFirstKeyHidesHomeworks(key: string, v: Json, hs: seq<Json>, rest: seq<(string, Json)>)
    requires key != "current_date" && key != "homeworks"
    ensures var m := MissingKeyPrefix + key;
      CheckResponse(JObject([(key, v), ("homeworks", JList(hs))] + rest)) ==
        Traced(Raise(KeyError(m)), Some(m))
  {
    var r := JObject([(key, v), ("homeworks", JList(hs))] + rest);
    assert FirstKey(r) == key;
    assert key !in ExpectedKeys;
  }

  /** The check that a `homeworks` key is present, wherever it stands: the
      reading of `check_response` that ignores the order of the keys. */
  function CheckResponseByPresence(r: Json): (t: Traced<seq<Json>>)
    ensures t.result.Ok? <==>
      r.JObject? && r.fields != [] &&
      Lookup(r.fields, "homeworks").Some? && Lookup(r.fields, "homeworks").value.JList?
    ensures t.result.Ok? ==> Lookup(r.fields, "homeworks") == Some(JList(t.result.value))
  {
    if r == JObject([]) then
      Traced(Raise(IndexError(EmptyResponseMsg)), Some(EmptyResponseMsg))
    else if r.JObject? then
      match Lookup(r.fields, "homeworks")
      case None => Traced(Raise(KeyError("homeworks")), None)
      case Some(homeworks) =>
        if homeworks.JList? then Traced(Ok(homeworks.items), None)
        else Traced(Raise(TypeError(NotListMsg)), None)
    else
      Traced(Raise(TypeError(NotPythonTypesMsg)), Some(NotPythonTypesMsg))
  }

  /** The code as written and the presence check return or raise the same
      thing exactly when the value is not a non-empty dict whose first key is
      unexpected; and whatever the as-written check accepts, the other accepts. */
  lemma CheckResponseVersusPresence(r: Json)
    ensures CheckResponse(r).result == CheckResponseByPresence(r).result <==>
      !(r.JObject? && r.fields != [] && FirstKey(r) !in ExpectedKeys)
    ensures CheckResponse(r).result.Ok? ==> CheckResponseByPresence(r).result == CheckResponse(r).result
  {
    if r.JObject? && r.fields != [] && FirstKey(r) !in ExpectedKeys {
      var m := MissingKeyPrefix + FirstKey(r);
      assert |m| > |"homeworks"|;
      assert CheckResponse(r).result == Raise(KeyError(m));
      assert CheckResponseByPresence(r).result != Raise(KeyError(m));
    }
  }

  // ---------------------------------------------------------------- parse_status

  const StatusPrefix := "Изменился статус проверки работы \""

  /** The message announcing `verdict` for the work called `name`: the fixed
      lead, `str` of the name, a closing quote, and the verdict last. */
  function StatusMessage(name: Json, verdict: string): (m: string)
    ensures |m| == |StatusPrefix| + |Str(name)| + 3 + |verdict|
    ensures m[..|StatusPrefix|] == StatusPrefix
    ensures m[|StatusPrefix|..|StatusPrefix| + |Str(name)|] == Str(name)
    ensures m[|m| - |verdict|..] == verdict
  {
    StatusPrefix + Str(name) + "\". " + verdict
  }

  /** The notification sent before an undocumented status is rejected. The
      source joins two literals without a space between them. */
  function UndocumentedStatusNote(status: Json): (m: string)
    ensures |m| == |UndocumentedLead| + |Str(status)|
    ensures m[..|UndocumentedLead|] == UndocumentedLead && m[|UndocumentedLead|..] == Str(status)
  {
    UndocumentedLead + Str(status)
  }

  const UndocumentedLead := "Обнаружен недокументированный статусдомашней работы "

  /** The `ValueError` text: `str` of the status between double quotes. */
  function InvalidStatusMsg(status: Json): (m: string)
    ensures |m| == |InvalidLead| + |Str(status)| + 1
    ensures m[..|InvalidLead|] == InvalidLead && m[|InvalidLead|..|m| - 1] == Str(status) && m[|m| - 1] == '"'
  {
    InvalidLead + Str(status) + "\""
  }

  const InvalidLead := "Invalid status \""

  /** `parse_status`: read `homework_name`, then `status`; accept exactly the
      three documented codes. A list or a dict as the status cannot be looked
      up in the table at all. */
  function ParseStatus(h: Json): (t: Traced<string>)
    ensures t.result.Ok? <==>
      h.JObject? && Lookup(h.fields, "homework_name").Some? &&
      exists s :: s in HomeworkStatuses && Lookup(h.fields, "status") == Some(JStr(s))
    ensures t.result.Ok? ==>
      t.note == None &&
      exists s :: s in HomeworkStatuses && Lookup(h.fields, "status") == Some(JStr(s)) &&
        t.result.value == StatusMessage(Lookup(h.fields, "homework_name").value, HomeworkStatuses[s])
    ensures t.note.Some? ==> t.result.Raise? && t.result.error.ValueError?
    ensures !h.JObject? ==> t.result.Raise? && t.result.error.TypeError? && t.note == None
    ensures h.JObject? && Lookup(h.fields, "homework_name").None? ==>
      t == Traced(Raise(KeyError("homework_name")), None)
    ensures h.JObject? && Lookup(h.fields, "homework_name").Some? && Lookup(h.fields, "status").None? ==>
      t == Traced(Raise(KeyError("status")), None)
  {
    match Subscript(h, "homework_name")
    case Raise(e) => Traced(Raise(e), None)
    case Ok(name) =>
      match Subscript(h, "status")
      case Raise(e) => Traced(Raise(e), None)
      case Ok(status) =>
        if status.JStr? && status.s in HomeworkStatuses then
          Traced(Ok(StatusMessage(name, HomeworkStatuses[status.s])), None)
        else if status.JList? then
          Traced(Raise(TypeError("unhashable type: 'list'")), None)
        else if status.JObject? then
          Traced(Raise(TypeError("unhashable type: 'dict'")), None)
        else
          Traced(Raise(ValueError(InvalidStatusMsg(status))), Some(UndocumentedStatusNote(status)))
  }

  /** A documented status yields the templated message with the name and the
      verdict from the table; the message is never empty. */
  lemma ParseStatusAccepts(name: Json, code: string, h: Json)
    requires code in HomeworkStatuses
    requires h.JObject?
    requires Lookup(h.fields, "homework_name") == Some(name)
    requires Lookup(h.fields, "status") == Some(JStr(code))
    ensures ParseStatus(h) == Traced(Ok(StatusMessage(name, HomeworkStatuses[code])), None)
    ensures StatusMessage(name, HomeworkStatuses[code]) != ""
  {
  }

  /** Any other string, the empty one and case variants included, is rejected
      with `ValueError` after exactly one notification. */
  lemma ParseStatusFailsClosed(name: Json, code: string, h: Json)
    requires code !in HomeworkStatuses
    requires h.JObject?
    requires Lookup(h.fields, "homework_name") == Some(name)
    requires Lookup(h.fields, "status") == Some(JStr(code))
    ensures ParseStatus(h) ==
      Traced(Raise(ValueError("Invalid status \"" + code + "\"")),
             Some("Обнаружен недокументированный статусдомашней работы " + code))
  {
  }

  /** A dict with a name but no `status` fails at the second subscript with
      `KeyError('status')`, and nothing is sent. */
  lemma ParseStatusNeedsStatus(h: Json)
    requires h.JObject?
    requires Lookup(h.fields, "homework_name").Some?
    requires Lookup(h.fields, "status").None?
    ensures ParseStatus(h) == Traced(Raise(KeyError("status")), None)
  {
  }

  /** Element 0 that is not a dict fails at the first subscript with that
      subscript's `TypeError`, and nothing is sent. */
  lemma ParseStatusNotADict(h: Json)
    requires !h.JObject?
    ensures ParseStatus(h) == Traced(Raise(Subscript(h, "homework_name").error), None)
    ensures ParseStatus(h).result.error.TypeError?
  {
  }

  /** A status that is not a str at all (`None`, a bool, a number) is not in
      the table either: `ValueError` after the note, both showing `str` of it. */
  lemma ParseStatusRejectsOtherValues(name: Json, status: Json, h: Json)
    requires !status.JList? && !status.JObject? && !(status.JStr? && status.s in HomeworkStatuses)
    requires h.JObject?
    requires Lookup(h.fields, "homework_name") == Some(name)
    requires Lookup(h.fields, "status") == Some(status)
    ensures ParseStatus(h) ==
      Traced(Raise(ValueError(InvalidStatusMsg(status))), Some(UndocumentedStatusNote(status)))
  {
  }

  /** A list or a dict as the status cannot be looked up in the table: the
      membership test raises `TypeError`, and nothing is sent. */
  lemma ParseStatusUnhashable(name: Json, status: Json, h: Json)
    requires status.JList? || status.JObject?
    requires h.JObject?
    requires Lookup(h.fields, "homework_name") == Some(name)
    requires Lookup(h.fields, "status") == Some(status)
    ensures ParseStatus(h) ==
      Traced(Raise(TypeError(if status.JList? then "unhashable type: 'list'" else "unhashable type: 'dict'")), None)
  {
  }

  /** A missing `homework_name` raises before `status` is looked at, and sends nothing. */
  lemma ParseStatusNeedsNameFirst(h: Json)
    requires h.JObject? && Lookup(h.fields, "homework_name").None?
    ensures ParseStatus(h) == Traced(Raise(KeyError("homework_name")), None)
  {
  }

  /** The message tells the three verdicts apart: for the same work, two
      documented codes give the same message only if they are the same code. */
  lemma StatusMessageIdentifiesCode(name: Json, c1: string, c2: string)
    requires c1 in HomeworkStatuses && c2 in HomeworkStatuses
    requires StatusMessage(name, HomeworkStatuses[c1]) == StatusMessage(name, HomeworkStatuses[c2])
    ensures c1 == c2
  {
    var p := StatusPrefix + Str(name) + "\". ";
    assert StatusMessage(name, HomeworkStatuses[c1])[|p|..] == HomeworkStatuses[c1];
    assert StatusMessage(name, HomeworkStatuses[c2])[|p|..] == HomeworkStatuses[c2];
    StatusTableIsClosed();
  }

  /** The example of an approved work called "X": the message holds the name
      and the approved verdict, and nothing else is filled in. */
  lemma ApprovedExample()
    ensures ParseStatus(JObject([("homework_name", JStr("X")), ("status", JStr("approved"))])) ==
      Traced(Ok(StatusPrefix + "X" + "\". " + "Работа проверена: ревьюеру всё понравилось. Ура!"), None)
  {
    var h := JObject([("homework_name", JStr("X")), ("status", JStr("approved"))]);
    assert Lookup(h.fields, "homework_name") == Some(JStr("X"));
    assert Lookup(h.fields[1..], "status") == Some(JStr("approved"));
    assert Lookup(h.fields, "status") == Some(JStr("approved"));
    ParseStatusAccepts(JStr("X"), "approved", h);
  }

  // ---------------------------------------------------------------- check_tokens

  /** The three settings read from the environment; `None` when unset. */
  datatype Tokens = Tokens(practicum: Option<string>, telegram: Option<string>, chatId: Option<string>)

  /** A setting is truthy when it is set and not empty. */
  predicate Present(v: Option<string>): (b: bool)
    ensures b <==> v != None && v != Some("")
  {
    v.Some? && v.value != ""
  }

  const TokenNames: seq<string> := ["PRACTICUM_TOKEN", "TELEGRAM_TOKEN", "TELEGRAM_CHAT_ID"]

  function TokenValues(t: Tokens): (vs: seq<Option<string>>)
    ensures |vs| == |TokenNames|
  {
    [t.practicum, t.telegram, t.chatId]
  }

  /** `True`, or `False` together with the name the critical log line reports. */
  datatype TokenCheck = AllPresent | Missing(name: string)

  /** `check_tokens`: all three settings present, or the first missing one in
      the order PRACTICUM_TOKEN, TELEGRAM_TOKEN, TELEGRAM_CHAT_ID. */
  function CheckTokens(t: Tokens): (r: TokenCheck)
    ensures r.AllPresent? <==> forall i :: 0 <= i < 3 ==> Present(TokenValues(t)[i])
    ensures r.Missing? ==>
      exists i :: 0 <= i < 3 && r.name == TokenNames[i] && !Present(TokenValues(t)[i]) &&
        forall j :: 0 <= j < i ==> Present(TokenValues(t)[j])
  {
    if !Present(t.practicum) then
      assert !Present(TokenValues(t)[0]);
      Missing("PRACTICUM_TOKEN")
    else if !Present(t.telegram) then
      assert !Present(TokenValues(t)[1]);
      Missing("TELEGRAM_TOKEN")
    else if !Present(t.chatId) then
      assert !Present(TokenValues(t)[2]);
      Missing("TELEGRAM_CHAT_ID")
    else
      AllPresent
  }

  /** The name reported is determined by the settings: it is the earliest
      missing one, so no later missing setting can hide an earlier one. */
  lemma CheckTokensReportsEarliest(t: Tokens, i: int)
    requires 0 <= i < 3 && !Present(TokenValues(t)[i])
    ensures CheckTokens(t).Missing?
    ensures exists k :: 0 <= k <= i && CheckTokens(t).name == TokenNames[k]
  {
    var r := CheckTokens(t);
    var k :| 0 <= k < 3 && r.name == TokenNames[k] && !Present(TokenValues(t)[k]) &&
      forall j :: 0 <= j < k ==> Present(TokenValues(t)[j]);
    assert k <= i;
  }

  // ---------------------------------------------------------------- get_api_answer

  /** The decoded body of an HTTP answer, or the message `.json()` raised with. */
  datatype Body = Decoded(json: Json) | Undecodable(error: string)

  /** The abstract outcome of `requests.get`: an answer with its status code,
      or the message the call itself raised with. */
  datatype Fetch = Answered(status: int, body: Body) | Raised(error: string)

  /** `current_timestamp or int(time.time())`: the cursor unless it is falsy. */
  function FromDate(cursor: Json, now: int): (d: Json)
    ensures Truthy(cursor) ==> d == cursor
    ensures !Truthy(cursor) ==> d == JInt(now)
  {
    if Truthy(cursor) then cursor else JInt(now)
  }

  /** The 404 note: the lead, the endpoint, and the code last. */
  function NotFoundMsg(status: int): (m: string)
    ensures |m| == |NotFoundLead| + |Endpoint| + |NotFoundMiddle| + |IntStr(status)|
    ensures m[..|NotFoundLead|] == NotFoundLead
    ensures m[|NotFoundLead|..|NotFoundLead| + |Endpoint|] == Endpoint
    ensures m[|NotFoundLead| + |Endpoint|..|m| - |IntStr(status)|] == NotFoundMiddle
    ensures m[|m| - |IntStr(status)|..] == IntStr(status)
  {
    NotFoundLead + Endpoint + NotFoundMiddle + IntStr(status)
  }

  /** `f'Error {code}'`. */
  function ErrorCodeMsg(status: int): (m: string)
    ensures |m| == 6 + |IntStr(status)|
    ensures m[..6] == "Error " && m[6..] == IntStr(status)
  {
    "Error " + IntStr(status)
  }

  /** The status-code branch of `get_api_answer`. */
  function GetApiAnswer(f: Fetch): (t: Traced<Json>)
    ensures f.Answered? && f.status == HttpOk && f.body.Decoded? ==> t == Traced(Ok(f.body.json), None)
    ensures f.Answered? && f.status != HttpOk ==>
      t.result == Raise(ValueError(ErrorCodeMsg(f.status))) &&
      t.note == Some(if f.status == HttpNotFound then NotFoundMsg(f.status) else RequestFailedMsg)
    ensures t.result.Ok? <==> f.Answered? && f.status == HttpOk
    ensures t.note.None? <==> t.result.Ok? && f.body.Decoded?
    ensures f.Raised? ==> t == Traced(Raise(UnboundLocalError(UnboundResponseMsg)), Some(f.error))
  {
    match f
    case Raised(e) => Traced(Raise(UnboundLocalError(UnboundResponseMsg)), Some(e))
    case Answered(status, body) =>
      if status == HttpOk then
        match body
        case Decoded(j) => Traced(Ok(j), None)
        case Undecodable(e) => Traced(Ok(JNull), Some(e))
      else if status == HttpNotFound then
        Traced(Raise(ValueError(ErrorCodeMsg(status))), Some(NotFoundMsg(status)))
      else
        Traced(Raise(ValueError(ErrorCodeMsg(status))), Some(RequestFailedMsg))
  }

  /** The raised message names the code and no other: two answers raise the
      same `ValueError` only if they carry the same status. */
  lemma ErrorCodeIdentifiesStatus(status: int, other: int)
    requires status != HttpOk && other != HttpOk
    requires GetApiAnswer(Answered(status, Decoded(JNull))).result ==
             GetApiAnswer(Answered(other, Decoded(JNull))).result
    ensures other == status
  {
    assert ErrorCodeMsg(status)[6..] == IntStr(status);
    assert ErrorCodeMsg(other)[6..] == IntStr(other);
    IntStrInjective(status, other);
  }

  const NotFoundLead := "Сбой в работе программы: Эндпоинт "
  const NotFoundMiddle := " недоступен. Код ответа API: "

  /** The "not found" note differs from the generic one, names the endpoint
      and ends with the code. */
  lemma NotFoundNoteNamesEndpointAndCode()
    ensures NotFoundMsg(HttpNotFound) != RequestFailedMsg
    ensures NotFoundMsg(HttpNotFound)[|NotFoundLead|..|NotFoundLead| + |Endpoint|] == Endpoint
    ensures NotFoundMsg(HttpNotFound)[|NotFoundMsg(HttpNotFound)| - 3..] == "404"
  {
    var m := NotFoundMsg(HttpNotFound);
    assert IntStr(404) == "404";
    assert |m| != |RequestFailedMsg|;
  }

  /** A body answered with 200 that does not decode makes the function return
      `None` after one notification. */
  lemma UndecodableBodyReturnsNone(e: string)
    ensures GetApiAnswer(Answered(HttpOk, Undecodable(e))) == Traced(Ok(JNull), Some(e))
  {
  }
}
