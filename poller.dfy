/** The polling loop of `main`: one cycle fetches from the cursor, checks the
    response, announces the newest homework's status and moves the cursor
    to the server's `current_date`; any exception on the way is reported in
    the chat and leaves the cursor where it was. */
module Poller {
  import opened Json
  import opened Homework

  const FailurePrefix := "Сбой в работе программы: "

  /** The chat message for an exception caught by the cycle: the fixed
      prefix, then `str(error)`. */
  function FailureMessage(e: PyError): (m: string)
    ensures |m| >= |FailurePrefix| && m[..|FailurePrefix|] == FailurePrefix
    ensures m[|FailurePrefix|..] == ErrorText(e)
  {
    FailurePrefix + ErrorText(e)
  }

  /** The report tells the caught errors apart as far as their texts do. */
  lemma FailureMessageShowsError(e1: PyError, e2: PyError)
    requires FailureMessage(e1) == FailureMessage(e2)
    ensures ErrorText(e1) == ErrorText(e2)
  {
    assert FailureMessage(e1)[|FailurePrefix|..] == FailureMessage(e2)[|FailurePrefix|..];
  }

  /** Reports of two missing keys are equal only for the same key. */
  lemma FailureMessageShowsKey(k1: string, k2: string)
    requires FailureMessage(KeyError(k1)) == FailureMessage(KeyError(k2))
    ensures k1 == k2
  {
    FailureMessageShowsError(KeyError(k1), KeyError(k2));
    StrReprInjective(k1, k2);
  }

  function NoteSeq(n: Option<string>): (s: seq<string>)
    ensures |s| <= 1
  {
    if n.Some? then [n.value] else []
  }

  /** What (part of) one pass of the loop body does, abstracted from the
      transport: the new cursor, the chat messages tried in order, the
      exception caught (if any), and whether the loop goes on. */
  datatype CycleResult = CycleResult(cursor: Json, notes: seq<string>, error: Option<PyError>, proceed: bool)

  /** The messages `notes`, sent before the rest of the pass. */
  function WithNotes(notes: seq<string>, r: CycleResult): (r': CycleResult)
    ensures r'.cursor == r.cursor && r'.error == r.error && r'.proceed == r.proceed
    ensures r'.notes == notes + r.notes
  {
    r.(notes := notes + r.notes)
  }

  /** The `except` branch: report, keep the cursor, go on (no `break`). */
  function Failed(cursor: Json, e: PyError): (r: CycleResult)
    ensures r.cursor == cursor && r.proceed && r.error == Some(e)
    ensures r.notes == [FailureMessage(e)]
  {
    CycleResult(cursor, [FailureMessage(e)], Some(e), true)
  }

  /** A pass that raised: the cursor stayed and the last message reports the error. */
  predicate Reported(r: CycleResult, cursor: Json) {
    r.error.Some? ==>
      r.cursor == cursor && r.proceed && r.notes != [] && r.notes[|r.notes| - 1] == FailureMessage(r.error.value)
  }

  /** `current_timestamp = response['current_date']`, then the `else` branch
      that re-checks the tokens and breaks if one is missing. */
  function Advance(response: Json, cursor: Json, tokens: Tokens): (r: CycleResult)
    ensures Reported(r, cursor)
    ensures r.error.None? <==> Subscript(response, "current_date").Ok?
    ensures r.error.None? ==>
      r == CycleResult(Subscript(response, "current_date").value, [], None, CheckTokens(tokens).AllPresent?)
  {
    match Subscript(response, "current_date")
    case Ok(d) => CycleResult(d, [], None, CheckTokens(tokens).AllPresent?)
    case Raise(e) => Failed(cursor, e)
  }

  /** The `try` block once `check_response` returned the list: announce
      element 0, if there is one, then move the cursor. */
  function Announce(response: Json, homeworks: seq<Json>, cursor: Json, tokens: Tokens): (r: CycleResult)
    ensures Reported(r, cursor)
    ensures r.error.None? ==>
      (homeworks == [] ==> r == Advance(response, cursor, tokens)) &&
      (homeworks != [] ==>
         (ParseStatus(homeworks[0]).result.Ok? &&
          r == WithNotes([ParseStatus(homeworks[0]).result.value], Advance(response, cursor, tokens))))
  {
    if |homeworks| > 0 then
      var parsed := ParseStatus(homeworks[0]);
      match parsed.result
      case Raise(e) => WithNotes(NoteSeq(parsed.note), Failed(cursor, e))
      case Ok(message) =>
        assert message != "" by {
          var h := homeworks[0];
          var s :| s in HomeworkStatuses && Lookup(h.fields, "status") == Some(JStr(s)) &&
            message == StatusMessage(Lookup(h.fields, "homework_name").value, HomeworkStatuses[s]);
        }
        // `if hw_status:` always holds, the message being non-empty
        WithNotes(if message != "" then [message] else [], Advance(response, cursor, tokens))
    else
      Advance(response, cursor, tokens)
  }

  /** The `try` block once `get_api_answer` returned a value. */
  function Validate(response: Json, cursor: Json, tokens: Tokens): (r: CycleResult)
    ensures Reported(r, cursor)
    ensures r.error.None? ==>
      (CheckResponse(response).result.Ok? &&
       r == Announce(response, CheckResponse(response).result.value, cursor, tokens))
  {
    var checked := CheckResponse(response);
    match checked.result
    case Raise(e) => WithNotes(NoteSeq(checked.note), Failed(cursor, e))
    case Ok(homeworks) => WithNotes(NoteSeq(checked.note), Announce(response, homeworks, cursor, tokens))
  }

  /** One pass of the body of `main`'s `while True` loop. */
  function Cycle(cursor: Json, tokens: Tokens, fetch: Fetch): (r: CycleResult)
    ensures Reported(r, cursor)
    ensures r.error.None? ==>
      fetch.Answered? && fetch.status == HttpOk && fetch.body.Decoded? &&
      r == Validate(fetch.body.json, cursor, tokens)
  {
    var api := GetApiAnswer(fetch);
    match api.result
    case Raise(e) => WithNotes(NoteSeq(api.note), Failed(cursor, e))
    case Ok(response) =>
      assert api.note.Some? ==> response == JNull && CheckResponse(response).result.Raise?;
      WithNotes(NoteSeq(api.note), Validate(response, cursor, tokens))
  }

  /** A cycle that raises nothing had a 200 answer with a decoded body that
      passed the check; it moved the cursor to `current_date`; it sent
      nothing for an empty list and exactly the status message of element 0
      otherwise; and it goes on exactly when the tokens are all set. */
  lemma SuccessfulCycle(cursor: Json, tokens: Tokens, fetch: Fetch)
    requires Cycle(cursor, tokens, fetch).error.None?
    ensures fetch.Answered? && fetch.status == HttpOk && fetch.body.Decoded?
    ensures var body := fetch.body.json;
      var r := Cycle(cursor, tokens, fetch);
      CheckResponse(body).result.Ok? &&
      Subscript(body, "current_date") == Ok(r.cursor) &&
      r.proceed == CheckTokens(tokens).AllPresent? &&
      (CheckResponse(body).result.value == [] ==> r.notes == []) &&
      (CheckResponse(body).result.value != [] ==>
         ParseStatus(CheckResponse(body).result.value[0]).result.Ok? &&
         r.notes == [ParseStatus(CheckResponse(body).result.value[0]).result.value])
  {
    var body := fetch.body.json;
    var hs := CheckResponse(body).result.value;
    var r := Announce(body, hs, cursor, tokens);
    assert r.error.None?;
    if hs != [] {
      assert r.notes == [ParseStatus(hs[0]).result.value] + Advance(body, cursor, tokens).notes;
    }
  }

  /** A request that raised, or an answer other than 200: the cycle reports
      exactly the error `get_api_answer` raised, after the note it sent, and
      keeps the cursor. */
  lemma FetchFailureCycle(cursor: Json, tokens: Tokens, fetch: Fetch)
    requires GetApiAnswer(fetch).result.Raise?
    ensures var api := GetApiAnswer(fetch);
      Cycle(cursor, tokens, fetch) ==
        CycleResult(cursor, NoteSeq(api.note) + [FailureMessage(api.result.error)], Some(api.result.error), true)
  {
  }

  /** A response `check_response` rejects: the cycle reports exactly the error
      it raised, after the notes of `get_api_answer` and `check_response`. */
  lemma RejectedResponseCycle(cursor: Json, tokens: Tokens, fetch: Fetch)
    requires GetApiAnswer(fetch).result.Ok?
    requires CheckResponse(GetApiAnswer(fetch).result.value).result.Raise?
    ensures var api := GetApiAnswer(fetch);
      var checked := CheckResponse(api.result.value);
      Cycle(cursor, tokens, fetch) ==
        CycleResult(cursor, NoteSeq(api.note) + NoteSeq(checked.note) + [FailureMessage(checked.result.error)],
                    Some(checked.result.error), true)
  {
    var api := GetApiAnswer(fetch);
    var checked := CheckResponse(api.result.value);
    assert NoteSeq(api.note) + (NoteSeq(checked.note) + [FailureMessage(checked.result.error)]) ==
           NoteSeq(api.note) + NoteSeq(checked.note) + [FailureMessage(checked.result.error)];
  }

  /** An accepted response whose element 0 `parse_status` rejects: the cycle
      reports exactly that error, after the note `parse_status` sent, and
      nothing else was sent. */
  lemma UnparsedStatusCycle(cursor: Json, tokens: Tokens, body: Json)
    requires CheckResponse(body).result.Ok? && CheckResponse(body).result.value != []
    requires ParseStatus(CheckResponse(body).result.value[0]).result.Raise?
    ensures var parsed := ParseStatus(CheckResponse(body).result.value[0]);
      Cycle(cursor, tokens, Answered(HttpOk, Decoded(body))) ==
        CycleResult(cursor, NoteSeq(parsed.note) + [FailureMessage(parsed.result.error)],
                    Some(parsed.result.error), true)
  {
    var hs := CheckResponse(body).result.value;
    var parsed := ParseStatus(hs[0]);
    assert Announce(body, hs, cursor, tokens) == WithNotes(NoteSeq(parsed.note), Failed(cursor, parsed.result.error));
    assert GetApiAnswer(Answered(HttpOk, Decoded(body))) == Traced(Ok(body), None);
  }

  /** An accepted response without `current_date` whose element 0, if any,
      parses: the status message, if any, goes out, then the `KeyError` is
      reported and the cursor kept. */
  lemma MissingDateCycle(cursor: Json, tokens: Tokens, body: Json)
    requires CheckResponse(body).result.Ok?
    requires CheckResponse(body).result.value != [] ==> ParseStatus(CheckResponse(body).result.value[0]).result.Ok?
    requires Lookup(body.fields, "current_date").None?
    ensures var hs := CheckResponse(body).result.value;
      var sent := if hs == [] then [] else [ParseStatus(hs[0]).result.value];
      Cycle(cursor, tokens, Answered(HttpOk, Decoded(body))) ==
        CycleResult(cursor, sent + [FailureMessage(KeyError("current_date"))], Some(KeyError("current_date")), true)
  {
    var hs := CheckResponse(body).result.value;
    var a := Advance(body, cursor, tokens);
    assert a == Failed(cursor, KeyError("current_date"));
    if hs != [] {
      var message := ParseStatus(hs[0]).result.value;
      assert message != "" by {
        var h := hs[0];
        var s :| s in HomeworkStatuses && Lookup(h.fields, "status") == Some(JStr(s)) &&
          message == StatusMessage(Lookup(h.fields, "homework_name").value, HomeworkStatuses[s]);
      }
      assert Announce(body, hs, cursor, tokens) == WithNotes([message], a);
    }
    assert GetApiAnswer(Answered(HttpOk, Decoded(body))) == Traced(Ok(body), None);
  }

  /** For the same answer from the server, whether a cycle raises, and what
      it sends, does not depend on the cursor it starts from; a cycle that
      raises nothing ends in the same state from any cursor. */
  lemma CycleIgnoresCursor(c1: Json, c2: Json, tokens: Tokens, fetch: Fetch)
    ensures Cycle(c1, tokens, fetch).error == Cycle(c2, tokens, fetch).error
    ensures Cycle(c1, tokens, fetch).notes == Cycle(c2, tokens, fetch).notes
    ensures Cycle(c1, tokens, fetch).error.None? ==> Cycle(c1, tokens, fetch) == Cycle(c2, tokens, fetch)
  {
    var api := GetApiAnswer(fetch);
    if api.result.Ok? {
      var response := api.result.value;
      var checked := CheckResponse(response);
      if checked.result.Ok? {
        var hs := checked.result.value;
        AnnounceIgnoresCursor(response, hs, c1, c2, tokens);
      }
    }
  }

  lemma AnnounceIgnoresCursor(response: Json, hs: seq<Json>, c1: Json, c2: Json, tokens: Tokens)
    ensures Announce(response, hs, c1, tokens).error == Announce(response, hs, c2, tokens).error
    ensures Announce(response, hs, c1, tokens).notes == Announce(response, hs, c2, tokens).notes
    ensures Announce(response, hs, c1, tokens).error.None? ==>
      Announce(response, hs, c1, tokens) == Announce(response, hs, c2, tokens)
  {
  }

  /** A status message for element 0 goes out and the cursor moves. */
  lemma AnnouncingCycle(cursor: Json, tokens: Tokens, body: Json, h: Json, rest: seq<Json>, message: string, date: Json)
    requires body.JObject? && body.fields != [] && FirstKey(body) in ExpectedKeys
    requires Lookup(body.fields, "homeworks") == Some(JList([h] + rest))
    requires ParseStatus(h) == Traced(Ok(message), None)
    requires Lookup(body.fields, "current_date") == Some(date)
    ensures Cycle(cursor, tokens, Answered(HttpOk, Decoded(body))) ==
            CycleResult(date, [message], None, CheckTokens(tokens).AllPresent?)
  {
    assert CheckResponse(body) == Traced(Ok([h] + rest), None);
    assert message != "" by {
      var s :| s in HomeworkStatuses && Lookup(h.fields, "status") == Some(JStr(s)) &&
        message == StatusMessage(Lookup(h.fields, "homework_name").value, HomeworkStatuses[s]);
    }
    var a := Advance(body, cursor, tokens);
    assert a == CycleResult(date, [], None, CheckTokens(tokens).AllPresent?);
    assert Announce(body, [h] + rest, cursor, tokens) == WithNotes([message], a);
  }

  /** Only element 0 of the list matters: two responses that agree on their
      first key, their `current_date`, and the first element of a non-empty
      `homeworks` list lead to the same cycle. */
  lemma OnlyNewestHomeworkMatters(cursor: Json, tokens: Tokens, b1: Json, b2: Json, h0: Json, rest1: seq<Json>, rest2: seq<Json>)
    requires b1.JObject? && b1.fields != [] && b2.JObject? && b2.fields != []
    requires FirstKey(b1) in ExpectedKeys && FirstKey(b1) == FirstKey(b2)
    requires Lookup(b1.fields, "homeworks") == Some(JList([h0] + rest1))
    requires Lookup(b2.fields, "homeworks") == Some(JList([h0] + rest2))
    requires Lookup(b1.fields, "current_date") == Lookup(b2.fields, "current_date")
    ensures Cycle(cursor, tokens, Answered(HttpOk, Decoded(b1))) ==
            Cycle(cursor, tokens, Answered(HttpOk, Decoded(b2)))
  {
    assert Validate(b1, cursor, tokens) == Validate(b2, cursor, tokens) by {
      assert CheckResponse(b1) == Traced(Ok([h0] + rest1), None);
      assert CheckResponse(b2) == Traced(Ok([h0] + rest2), None);
      assert Advance(b1, cursor, tokens) == Advance(b2, cursor, tokens);
      AnnounceSeesOnlyHead(b1, b2, [h0] + rest1, [h0] + rest2, cursor, tokens);
    }
    assert GetApiAnswer(Answered(HttpOk, Decoded(b1))) == Traced(Ok(b1), None);
    assert GetApiAnswer(Answered(HttpOk, Decoded(b2))) == Traced(Ok(b2), None);
  }

  lemma AnnounceSeesOnlyHead(r1: Json, r2: Json, hs1: seq<Json>, hs2: seq<Json>, cursor: Json, tokens: Tokens)
    requires hs1 != [] && hs2 != [] && hs1[0] == hs2[0]
    requires Advance(r1, cursor, tokens) == Advance(r2, cursor, tokens)
    ensures Announce(r1, hs1, cursor, tokens) == Announce(r2, hs2, cursor, tokens)
  {
  }

  /** An empty list sends nothing and still moves the cursor. */
  lemma EmptyListAdvancesCursor(cursor: Json, tokens: Tokens, body: Json, date: Json)
    requires body.JObject? && body.fields != [] && FirstKey(body) in ExpectedKeys
    requires Lookup(body.fields, "homeworks") == Some(JList([]))
    requires Lookup(body.fields, "current_date") == Some(date)
    ensures Cycle(cursor, tokens, Answered(HttpOk, Decoded(body))) ==
            CycleResult(date, [], None, CheckTokens(tokens).AllPresent?)
  {
    assert CheckResponse(body) == Traced(Ok([]), None);
  }

  /** A 404 answer keeps the cursor and sends two messages: the "endpoint
      unavailable" note from `get_api_answer` and the cycle's own report. */
  lemma NotFoundCycle(cursor: Json, tokens: Tokens, body: Body)
    ensures Cycle(cursor, tokens, Answered(HttpNotFound, body)) ==
      CycleResult(cursor, [NotFoundMsg(HttpNotFound), FailurePrefix + "Error 404"],
                  Some(ValueError("Error 404")), true)
  {
    assert IntStr(404) == "404";
    assert ErrorCodeMsg(HttpNotFound) == "Error 404";
    assert GetApiAnswer(Answered(HttpNotFound, body)) ==
      Traced(Raise(ValueError("Error 404")), Some(NotFoundMsg(HttpNotFound)));
  }

  /** The status message can go out and the cycle still fail: a response
      without `current_date` raises `KeyError` after the message was sent. */
  lemma MessageSentThenCursorLookupFails(cursor: Json, tokens: Tokens, body: Json, h: Json, rest: seq<Json>, message: string)
    requires body.JObject? && body.fields != [] && FirstKey(body) in ExpectedKeys
    requires Lookup(body.fields, "homeworks") == Some(JList([h] + rest))
    requires ParseStatus(h) == Traced(Ok(message), None)
    requires Lookup(body.fields, "current_date").None?
    ensures Cycle(cursor, tokens, Answered(HttpOk, Decoded(body))) ==
            CycleResult(cursor, [message, FailureMessage(KeyError("current_date"))], Some(KeyError("current_date")), true)
  {
    var an := Announce(body, [h] + rest, cursor, tokens);
    assert an == CycleResult(cursor, [message, FailureMessage(KeyError("current_date"))], Some(KeyError("current_date")), true) by {
      assert message != "" by {
        var s :| s in HomeworkStatuses && Lookup(h.fields, "status") == Some(JStr(s)) &&
          message == StatusMessage(Lookup(h.fields, "homework_name").value, HomeworkStatuses[s]);
      }
      var a := Advance(body, cursor, tokens);
      assert a == Failed(cursor, KeyError("current_date"));
      assert an == WithNotes([message], a);
    }
    assert CheckResponse(body) == Traced(Ok([h] + rest), None);
    assert GetApiAnswer(Answered(HttpOk, Decoded(body))) == Traced(Ok(body), None);
  }

  /** The report for a missing `current_date` shows the key in quotes, as
      `str` of a `KeyError` does. */
  lemma CursorKeyErrorText()
    ensures FailureMessage(KeyError("current_date")) == FailurePrefix + ("'" + "current_date" + "'")
  {
    assert Plain("current_date");
    PlainRepr("current_date");
  }

  /** The cursor follows the server and can move backwards. */
  lemma CursorCanMoveBack(tokens: Tokens)
    ensures var body := JObject([("homeworks", JList([])), ("current_date", JInt(5))]);
      Cycle(JInt(1000), tokens, Answered(HttpOk, Decoded(body))).cursor == JInt(5)
  {
    var body := JObject([("homeworks", JList([])), ("current_date", JInt(5))]);
    assert Lookup(body.fields[1..], "current_date") == Some(JInt(5));
    EmptyListAdvancesCursor(JInt(1000), tokens, body, JInt(5));
  }

  // ---------------------------------------------------------------- the loop

  /** What the loop can observe of the world in one pass: the fetch outcome,
      the clock, and whether the chat accepts messages. */
  datatype Tick = Tick(fetch: Fetch, now: int, up: bool)

  /** The bot's state: the cursor, every message it tried to send, and the
      ones the chat accepted. */
  datatype BotState = BotState(cursor: Json, attempted: seq<string>, delivered: seq<string>)

  /** The state `main` starts from: the cursor is the start time, nothing sent. */
  function Start(now: int): (s: BotState)
    ensures s.cursor == JInt(now) && s.attempted == [] && s.delivered == []
    ensures FromDate(s.cursor, now) == JInt(now)
  {
    BotState(JInt(now), [], [])
  }

  /** Messages tried; the chat keeps them only when it is up. */
  function Sent(s: BotState, notes: seq<string>, up: bool): (s': BotState)
    ensures s'.cursor == s.cursor && s'.attempted == s.attempted + notes
    ensures s'.delivered == if up then s.delivered + notes else s.delivered
  {
    BotState(s.cursor, s.attempted + notes, if up then s.delivered + notes else s.delivered)
  }

  /** The state after (part of) a pass whose effect is `r`. */
  function Apply(s: BotState, r: CycleResult, up: bool): (s': BotState)
    ensures s' == Sent(s, r.notes, up).(cursor := r.cursor)
  {
    BotState(r.cursor, s.attempted + r.notes, if up then s.delivered + r.notes else s.delivered)
  }

  /** Sending some messages first and then the rest of the pass is the pass
      with those messages in front. */
  lemma ApplyWithNotes(s: BotState, notes: seq<string>, r: CycleResult, up: bool)
    ensures Apply(Sent(s, notes, up), r, up) == Apply(s, WithNotes(notes, r), up)
  {
    assert s.attempted + notes + r.notes == s.attempted + (notes + r.notes);
    assert s.delivered + notes + r.notes == s.delivered + (notes + r.notes);
  }

  /** The state after one pass; a failed delivery leaves the outbox as it was. */
  function Next(s: BotState, tokens: Tokens, tick: Tick): (s': BotState)
    ensures |s'.attempted| >= |s.attempted| && s'.attempted[..|s.attempted|] == s.attempted
  {
    Apply(s, Cycle(s.cursor, tokens, tick.fetch), tick.up)
  }

  /** The loop run over a finite sequence of ticks: the final state and
      whether it left by `break`. */
  function Run(s: BotState, tokens: Tokens, ticks: seq<Tick>): (r: (BotState, bool))
    ensures r.1 ==> ticks != [] && CheckTokens(tokens).Missing?
    ensures |r.0.attempted| >= |s.attempted| && r.0.attempted[..|s.attempted|] == s.attempted
    decreases |ticks|
  {
    if ticks == [] then (s, false)
    else
      var s' := Next(s, tokens, ticks[0]);
      if !Cycle(s.cursor, tokens, ticks[0].fetch).proceed then (s', true)
      else Run(s', tokens, ticks[1..])
  }

  /** With all tokens set the loop never breaks. */
  lemma {:induction false} TokensPresentNeverBreak(s: BotState, tokens: Tokens, ticks: seq<Tick>)
    requires CheckTokens(tokens).AllPresent?
    ensures !Run(s, tokens, ticks).1
    decreases |ticks|
  {
    if ticks != [] {
      TokensPresentNeverBreak(Next(s, tokens, ticks[0]), tokens, ticks[1..]);
    }
  }

  /** With a token missing the loop leaves right after its first cycle that
      raises nothing: the token check at the start of `main` does not stop it. */
  lemma MissingTokenBreaksAfterSuccess(s: BotState, tokens: Tokens, ticks: seq<Tick>)
    requires CheckTokens(tokens).Missing?
    requires ticks != [] && Cycle(s.cursor, tokens, ticks[0].fetch).error.None?
    ensures Run(s, tokens, ticks) == (Next(s, tokens, ticks[0]), true)
    ensures Run(s, tokens, ticks).0.cursor == Cycle(s.cursor, tokens, ticks[0].fetch).cursor
  {
    SuccessfulCycle(s.cursor, tokens, ticks[0].fetch);
  }

  /** However many failing passes come first, with a token missing the loop
      leaves right after the first pass that raises nothing, in the state
      running only up to that pass gives, with the cursor that pass set. */
  lemma {:induction false} MissingTokenBreaksAtFirstSuccess(s: BotState, tokens: Tokens, ticks: seq<Tick>, k: nat)
    requires CheckTokens(tokens).Missing?
    requires k < |ticks|
    requires forall i :: 0 <= i < k ==> Cycle(s.cursor, tokens, ticks[i].fetch).error.Some?
    requires Cycle(s.cursor, tokens, ticks[k].fetch).error.None?
    ensures Run(s, tokens, ticks).1
    ensures Run(s, tokens, ticks) == Run(s, tokens, ticks[..k + 1])
    ensures Run(s, tokens, ticks).0.cursor == Cycle(s.cursor, tokens, ticks[k].fetch).cursor
    decreases k
  {
    var prefix := ticks[..k + 1];
    if k == 0 {
      MissingTokenBreaksAfterSuccess(s, tokens, ticks);
      MissingTokenBreaksAfterSuccess(s, tokens, prefix);
    } else {
      var s' := Next(s, tokens, ticks[0]);
      FailingPassHandsOn(s, tokens, ticks);
      assert prefix[0] == ticks[0];
      FailingPassHandsOn(s, tokens, prefix);
      ShiftFailures(s.cursor, tokens, ticks, k);
      MissingTokenBreaksAtFirstSuccess(s', tokens, ticks[1..], k - 1);
      assert ticks[1..][..k] == prefix[1..];
    }
  }

  /** A pass that raises keeps the cursor and hands on to the rest of the loop. */
  lemma FailingPassHandsOn(s: BotState, tokens: Tokens, ticks: seq<Tick>)
    requires ticks != [] && Cycle(s.cursor, tokens, ticks[0].fetch).error.Some?
    ensures Next(s, tokens, ticks[0]).cursor == s.cursor
    ensures Run(s, tokens, ticks) == Run(Next(s, tokens, ticks[0]), tokens, ticks[1..])
  {
  }

  lemma ShiftFailures(cursor: Json, tokens: Tokens, ticks: seq<Tick>, k: nat)
    requires 0 < k < |ticks|
    requires forall i :: 0 <= i < k ==> Cycle(cursor, tokens, ticks[i].fetch).error.Some?
    requires Cycle(cursor, tokens, ticks[k].fetch).error.None?
    ensures forall i :: 0 <= i < k - 1 ==> Cycle(cursor, tokens, ticks[1..][i].fetch).error.Some?
    ensures Cycle(cursor, tokens, ticks[1..][k - 1].fetch).error.None?
  {
    forall i | 0 <= i < k - 1
      ensures Cycle(cursor, tokens, ticks[1..][i].fetch).error.Some?
    {
      assert ticks[1..][i] == ticks[i + 1];
    }
    assert ticks[1..][k - 1] == ticks[k];
  }

  /** Cycles that all raise never move the cursor and never stop the loop,
      and each of them sends at least its report. */
  lemma {:induction false} FailingCyclesKeepCursor(s: BotState, tokens: Tokens, ticks: seq<Tick>)
    requires forall i :: 0 <= i < |ticks| ==> Cycle(s.cursor, tokens, ticks[i].fetch).error.Some?
    ensures Run(s, tokens, ticks).0.cursor == s.cursor && !Run(s, tokens, ticks).1
    ensures |Run(s, tokens, ticks).0.attempted| >= |s.attempted| + |ticks|
    decreases |ticks|
  {
    if ticks != [] {
      var s' := Next(s, tokens, ticks[0]);
      assert s'.cursor == s.cursor;
      forall i | 0 <= i < |ticks[1..]|
        ensures Cycle(s'.cursor, tokens, ticks[1..][i].fetch).error.Some?
      {
        assert ticks[1..][i] == ticks[i + 1];
      }
      FailingCyclesKeepCursor(s', tokens, ticks[1..]);
    }
  }

  /** Earlier messages are never taken back, and a chat that is always up
      receives every message that was tried. */
  lemma RunExtendsOutbox(s: BotState, tokens: Tokens, ticks: seq<Tick>)
    ensures var f := Run(s, tokens, ticks).0;
      |f.attempted| >= |s.attempted| && f.attempted[..|s.attempted|] == s.attempted &&
      |f.delivered| >= |s.delivered| && f.delivered[..|s.delivered|] == s.delivered
    ensures (forall i :: 0 <= i < |ticks| ==> ticks[i].up) && s.delivered == s.attempted ==>
      Run(s, tokens, ticks).0.delivered == Run(s, tokens, ticks).0.attempted
  {
    RunKeepsDelivered(s, tokens, ticks);
    if (forall i :: 0 <= i < |ticks| ==> ticks[i].up) && s.delivered == s.attempted {
      RunDeliversAllWhenUp(s, tokens, ticks);
    }
  }

  lemma {:induction false} RunKeepsDelivered(s: BotState, tokens: Tokens, ticks: seq<Tick>)
    ensures var f := Run(s, tokens, ticks).0;
      |f.delivered| >= |s.delivered| && f.delivered[..|s.delivered|] == s.delivered
    decreases |ticks|
  {
    if ticks != [] {
      var s' := Next(s, tokens, ticks[0]);
      NextExtendsOutbox(s, tokens, ticks[0]);
      if Cycle(s.cursor, tokens, ticks[0].fetch).proceed {
        RunMovesOn(s, tokens, ticks);
        RunKeepsDelivered(s', tokens, ticks[1..]);
        var f := Run(s', tokens, ticks[1..]).0;
        assert f.delivered[..|s.delivered|] == f.delivered[..|s'.delivered|][..|s.delivered|];
      } else {
        RunStops(s, tokens, ticks);
      }
    }
  }

  lemma {:induction false} RunDeliversAllWhenUp(s: BotState, tokens: Tokens, ticks: seq<Tick>)
    requires forall i :: 0 <= i < |ticks| ==> ticks[i].up
    requires s.delivered == s.attempted
    ensures Run(s, tokens, ticks).0.delivered == Run(s, tokens, ticks).0.attempted
    decreases |ticks|
  {
    if ticks != [] {
      var s' := Next(s, tokens, ticks[0]);
      assert ticks[0].up;
      NextExtendsOutbox(s, tokens, ticks[0]);
      if Cycle(s.cursor, tokens, ticks[0].fetch).proceed {
        RunMovesOn(s, tokens, ticks);
        assert forall i :: 0 <= i < |ticks[1..]| ==> ticks[1..][i].up by {
          forall i | 0 <= i < |ticks[1..]| ensures ticks[1..][i].up {
            assert ticks[1..][i] == ticks[i + 1];
          }
        }
        RunDeliversAllWhenUp(s', tokens, ticks[1..]);
      } else {
        RunStops(s, tokens, ticks);
      }
    }
  }

  /** One pass keeps the messages delivered before it, and with the chat up
      delivers everything it tries. */
  lemma NextExtendsOutbox(s: BotState, tokens: Tokens, tick: Tick)
    ensures var n := Next(s, tokens, tick);
      |n.delivered| >= |s.delivered| && n.delivered[..|s.delivered|] == s.delivered &&
      (tick.up && s.delivered == s.attempted ==> n.delivered == n.attempted)
  {
  }

  /** A pass that goes on hands its state to the rest of the loop. */
  lemma RunMovesOn(s: BotState, tokens: Tokens, ticks: seq<Tick>)
    requires ticks != [] && Cycle(s.cursor, tokens, ticks[0].fetch).proceed
    ensures Run(s, tokens, ticks) == Run(Next(s, tokens, ticks[0]), tokens, ticks[1..])
  {
  }

  /** A pass that does not go on ends the loop by `break`. */
  lemma RunStops(s: BotState, tokens: Tokens, ticks: seq<Tick>)
    requires ticks != [] && !Cycle(s.cursor, tokens, ticks[0].fetch).proceed
    ensures Run(s, tokens, ticks) == (Next(s, tokens, ticks[0]), true)
    ensures Run(s, tokens, ticks).0.cursor == Cycle(s.cursor, tokens, ticks[0].fetch).cursor
  {
    SuccessfulCycle(s.cursor, tokens, ticks[0].fetch);
  }

  /** Two passes of the loop: a reviewing status for "hw1" with date 1000,
      then an empty list with date 1600. The second fetch asks from 1000, and
      with every token set the loop runs both passes without leaving. */
  lemma TwoCycleScenario(tokens: Tokens, start: int)
    requires CheckTokens(tokens).AllPresent?
    ensures var hw1 := JObject([("homework_name", JStr("hw1")), ("status", JStr("reviewing"))]);
      var b1 := JObject([("homeworks", JList([hw1])), ("current_date", JInt(1000))]);
      var b2 := JObject([("homeworks", JList([])), ("current_date", JInt(1600))]);
      var t1 := Tick(Answered(HttpOk, Decoded(b1)), start, true);
      var t2 := Tick(Answered(HttpOk, Decoded(b2)), start + 600, true);
      var s1 := Next(Start(start), tokens, t1);
      var s2 := Next(s1, tokens, t2);
      var m := StatusMessage(JStr("hw1"), HomeworkStatuses["reviewing"]);
      s1 == BotState(JInt(1000), [m], [m]) &&
      FromDate(s1.cursor, start + 600) == JInt(1000) &&
      s2 == BotState(JInt(1600), [m], [m]) &&
      Run(Start(start), tokens, [t1, t2]) == (s2, false)
  {
    var hw1 := JObject([("homework_name", JStr("hw1")), ("status", JStr("reviewing"))]);
    assert Lookup(hw1.fields[1..], "status") == Some(JStr("reviewing"));
    ParseStatusAccepts(JStr("hw1"), "reviewing", hw1);
    var m := StatusMessage(JStr("hw1"), HomeworkStatuses["reviewing"]);
    var b1 := JObject([("homeworks", JList([hw1])), ("current_date", JInt(1000))]);
    assert Lookup(b1.fields[1..], "current_date") == Some(JInt(1000));
    assert [hw1] + [] == [hw1];
    AnnouncingCycle(JInt(start), tokens, b1, hw1, [], m, JInt(1000));
    var b2 := JObject([("homeworks", JList([])), ("current_date", JInt(1600))]);
    assert Lookup(b2.fields[1..], "current_date") == Some(JInt(1600));
    EmptyListAdvancesCursor(JInt(1000), tokens, b2, JInt(1600));
    var t1 := Tick(Answered(HttpOk, Decoded(b1)), start, true);
    var t2 := Tick(Answered(HttpOk, Decoded(b2)), start + 600, true);
    var s1 := Next(Start(start), tokens, t1);
    assert s1 == BotState(JInt(1000), [m], [m]);
    RunMovesOn(Start(start), tokens, [t1, t2]);
    assert [t1, t2][1..] == [t2];
    RunMovesOn(s1, tokens, [t2]);
    assert [t2][1..] == [];
  }

  /** The bot process: the cursor and the chat outbox are its mutable state. */
  class Bot {
    const tokens: Tokens
    var cursor: Json
    var attempted: seq<string>
    var delivered: seq<string>

    function State(): BotState
      reads this
    {
      BotState(cursor, attempted, delivered)
    }

    /** The start of `main`: the cursor is the current time. The result of the
        first `check_tokens()` is not used. */
    constructor (tokens: Tokens, now: int)
      ensures this.tokens == tokens && State() == Start(now)
    {
      this.tokens := tokens;
      cursor := JInt(now);
      attempted := [];
      delivered := [];
    }

    /** `send_message` / `error_logging`: one attempt; a failed delivery is swallowed. */
    method Send(message: string, up: bool)
      modifies this
      ensures State() == Sent(old(State()), [message], up)
    {
      attempted := attempted + [message];
      if up {
        delivered := delivered + [message];
      }
    }

    /** Sends the notification a callee tried before returning or raising. */
    method SendNote(note: Option<string>, up: bool)
      modifies this
      ensures State() == Sent(old(State()), NoteSeq(note), up)
    {
      if note.Some? {
        Send(note.value, up);
      } else {
        assert State() == Sent(State(), [], up);
      }
    }

    /** The `except` branch: report the error; the cursor stays. */
    method Report(e: PyError, up: bool)
      modifies this
      ensures State() == Apply(old(State()), Failed(old(cursor), e), up)
    {
      Send(FailureMessage(e), up);
    }

    method AdvanceStep(response: Json, up: bool) returns (proceed: bool)
      modifies this
      ensures State() == Apply(old(State()), Advance(response, old(cursor), tokens), up)
      ensures proceed == Advance(response, old(cursor), tokens).proceed
    {
      var date := Subscript(response, "current_date");
      if date.Raise? {
        Report(date.error, up);
        return true;
      }
      cursor := date.value;
      proceed := CheckTokens(tokens).AllPresent?;
      assert attempted == old(attempted) + [];
      assert delivered == old(delivered) + [];
    }

    method AnnounceStep(response: Json, homeworks: seq<Json>, up: bool) returns (proceed: bool)
      modifies this
      ensures State() == Apply(old(State()), Announce(response, homeworks, old(cursor), tokens), up)
      ensures proceed == Announce(response, homeworks, old(cursor), tokens).proceed
    {
      ghost var s0 := State();
      if |homeworks| > 0 {
        var parsed := ParseStatus(homeworks[0]);
        if parsed.result.Raise? {
          SendNote(parsed.note, up);
          Report(parsed.result.error, up);
          ApplyWithNotes(s0, NoteSeq(parsed.note), Failed(s0.cursor, parsed.result.error), up);
          return true;
        }
        var message := parsed.result.value;
        ghost var sent: seq<string> := if message != "" then [message] else [];
        if message != "" {
          Send(message, up);
        }
        proceed := AdvanceStep(response, up);
        ApplyWithNotes(s0, sent, Advance(response, s0.cursor, tokens), up);
      } else {
        proceed := AdvanceStep(response, up);
      }
    }

    method ValidateStep(response: Json, up: bool) returns (proceed: bool)
      modifies this
      ensures State() == Apply(old(State()), Validate(response, old(cursor), tokens), up)
      ensures proceed == Validate(response, old(cursor), tokens).proceed
    {
      ghost var s0 := State();
      var checked := CheckResponse(response);
      SendNote(checked.note, up);
      if checked.result.Raise? {
        Report(checked.result.error, up);
        ApplyWithNotes(s0, NoteSeq(checked.note), Failed(s0.cursor, checked.result.error), up);
        return true;
      }
      proceed := AnnounceStep(response, checked.result.value, up);
      ApplyWithNotes(s0, NoteSeq(checked.note), Announce(response, checked.result.value, s0.cursor, tokens), up);
    }

    /** One pass of the loop body; returns the `from_date` it asked for and
        whether the loop goes on. */
    method Step(tick: Tick) returns (fromDate: Json, proceed: bool)
      modifies this
      ensures fromDate == FromDate(old(cursor), tick.now)
      ensures State() == Next(old(State()), tokens, tick)
      ensures proceed == Cycle(old(cursor), tokens, tick.fetch).proceed
    {
      ghost var s0 := State();
      fromDate := FromDate(cursor, tick.now);
      var api := GetApiAnswer(tick.fetch);
      SendNote(api.note, tick.up);
      if api.result.Raise? {
        Report(api.result.error, tick.up);
        ApplyWithNotes(s0, NoteSeq(api.note), Failed(s0.cursor, api.result.error), tick.up);
        return fromDate, true;
      }
      proceed := ValidateStep(api.result.value, tick.up);
      ApplyWithNotes(s0, NoteSeq(api.note), Validate(api.result.value, s0.cursor, tokens), tick.up);
    }

    /** `main`'s loop over a finite sequence of ticks; `broke` tells whether
        it left by `break`. Sleeping between passes is not modelled. */
    method Loop(ticks: seq<Tick>) returns (broke: bool)
      modifies this
      ensures (State(), broke) == Run(old(State()), tokens, ticks)
    {
      var i := 0;
      broke := false;
      while i < |ticks|
        invariant 0 <= i <= |ticks|
        invariant !broke
        invariant Run(old(State()), tokens, ticks) == Run(State(), tokens, ticks[i..])
      {
        var _, proceed := Step(ticks[i]);
        assert ticks[i..][1..] == ticks[i + 1..];
        i := i + 1;
        if !proceed {
          broke := true;
          break;
        }
      }
    }
  }
}
