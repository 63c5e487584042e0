/** `POST /webhook` of the current backend (backend/src/routes/webhook.route.ts):
    for each LINE event in order, skip it without a user id or reply token,
    otherwise save the user and send exactly one reply, chosen from the message
    type and the trimmed text. The AI service (`askOllama`) and JavaScript's
    number formatting are parameters; the user table is a set; LINE replies and
    AI requests are append-only logs. */
module WebhookRoute {
  import opened Js
  import opened SensorHelper

  /** `event.message`: its `type` and `text`, either of which may be missing. */
  datatype Message = Message(msgType: Option<string>, text: Option<string>)

  /** One entry of `req.body.events`. */
  datatype Event = Event(userId: Option<string>, replyToken: Option<string>, message: Option<Message>)

  /** A call of `replyToUser(replyToken, message)`. */
  datatype Reply = Reply(token: string, text: string)

  /** A call of `askOllama(question, light, temp, humidity)`. */
  datatype AiRequest = AiRequest(question: string, reading: Reading)

  /** The AI service's answer to a question about a reading. */
  type Ask = (string, real, real, real) -> string

  /** `event?.message?.text?.trim() || ""`: trimmed, and "" when there is no text. */
  function MessageText(e: Event): (text: string)
    ensures text != [] ==> !IsTrimSpace(text[0]) && !IsTrimSpace(text[|text| - 1])
    ensures e.message.None? || e.message.value.text.None? ==> text == ""
    ensures e.message.Some? && e.message.value.text.Some? ==> Includes(e.message.value.text.value, text)
  {
    match e.message
    case None => ""
    case Some(m) =>
      match m.text
      case None => ""
      case Some(t) => TrimIncluded(t); Trim(t)
  }

  /** `event?.message?.type`: missing when the event has no message. */
  function MessageType(e: Event): (messageType: Option<string>)
    ensures e.message.None? ==> messageType.None?
    ensures e.message.Some? ==> messageType == e.message.value.msgType
  {
    match e.message
    case None => None
    case Some(m) => m.msgType
  }

  /** `!userId || !replyToken` is false: the event is processed, not skipped.
      A missing id or token and an empty one are both falsy. */
  predicate Handled(e: Event): (handled: bool)
    ensures handled ==> e.userId.Some? && e.replyToken.Some?
    ensures e.userId.None? || e.userId == Some("") || e.replyToken.None? || e.replyToken == Some("") ==> !handled
  {
    Truthy(e.userId) && Truthy(e.replyToken)
  }

  /** The reply templates of the handler, in the order it tests for them. */
  datatype ReplyKind =
    | NoSensorData   // `!lastSensorData`
    | Summary        // not a text message, or the text greets
    | SummaryWithAi  // the weather question
    | LaundryWithAi  // the laundry question
    | TaggedAi       // three other known questions: the answer behind "🤖 AI: "
    | BareAi         // any other text: the answer alone

  predicate AsksAi(kind: ReplyKind)
  {
    kind != NoSensorData && kind != Summary
  }

  const Greeting := "สวัสดี"
  const AskWeather := "สภาพอากาศตอนนี้เป็นอย่างไร"
  const AskLaundry := "ตอนนี้ควรตากผ้าไหม"
  const AskUmbrella := "ควรพกร่มออกจากบ้านไหม"
  const AskLight := "ความเข้มของแสงตอนนี้เป็นอย่างไร"
  const AskHumidity := "ความชื้นตอนนี้เป็นอย่างไร"

  /** The reply chosen for a processed event. The AI is consulted exactly for
      text messages that do not greet, and only when there is a reading. */
  function ChooseReply(data: Option<Reading>, messageType: Option<string>, text: string): (kind: ReplyKind)
    ensures kind == NoSensorData <==> data.None?
    ensures AsksAi(kind) <==> data.Some? && messageType == Some("text") && !Includes(text, Greeting)
  {
    if data.None? then NoSensorData
    else if messageType != Some("text") || Includes(text, Greeting) then Summary
    else if text == AskWeather then SummaryWithAi
    else if text == AskLaundry then LaundryWithAi
    else if text == AskUmbrella || text == AskLight || text == AskHumidity then TaggedAi
    else BareAi
  }

  const NoSensorDataText := "❌ ยังไม่มีข้อมูลจากเซ็นเซอร์"
  const SummaryHeader := "📊 สภาพอากาศล่าสุด :"
  const LaundryHeader := "📌 ตอนนี้ควรตากผ้าไหม :"
  const LightPrefix := "💡 ค่าแสง: "
  const TempPrefix := "🌡️ อุณหภูมิ: "
  const HumidityPrefix := "💧 ความชื้น: "
  const AiPrefix := "🤖 AI: "

  function LightLine(r: Reading, show: Show): string
  {
    LightPrefix + show(r.light) + " lux (" + GetLightStatus(r.light) + ")"
  }

  function TempLine(r: Reading, show: Show): string
  {
    TempPrefix + show(r.temp) + " °C (" + GetTempStatus(r.temp) + ")"
  }

  function HumidityLine(r: Reading, show: Show): string
  {
    HumidityPrefix + show(r.humidity) + " % (" + GetHumidityStatus(r.humidity) + ")"
  }

  /** The weather summary: a header and one line per sensor. */
  function SummaryLines(r: Reading, show: Show): seq<string>
  {
    [SummaryHeader, LightLine(r, show), TempLine(r, show), HumidityLine(r, show)]
  }

  /** The lines of the reply template of `kind`; `answer` is the AI's answer. */
  function ReplyLines(kind: ReplyKind, data: Option<Reading>, answer: string, show: Show): (lines: seq<string>)
    requires kind == NoSensorData || data.Some?
    ensures kind == NoSensorData ==> lines == [NoSensorDataText]
    ensures kind == Summary || kind == SummaryWithAi ==> |lines| >= 4 && lines[..4] == SummaryLines(data.value, show)
    ensures kind == LaundryWithAi ==> |lines| == 3 && lines[0] == LaundryHeader && lines[1] == LightLine(data.value, show)
    ensures !AsksAi(kind) ==> |lines| == if kind == Summary then 4 else 1
    ensures AsksAi(kind) ==> lines != [] && lines[|lines| - 1] == (if kind == BareAi then answer else AiPrefix + answer)
  {
    match kind
    case NoSensorData => [NoSensorDataText]
    case Summary => SummaryLines(data.value, show)
    case SummaryWithAi => SummaryLines(data.value, show) + [AiPrefix + answer]
    case LaundryWithAi => [LaundryHeader, LightLine(data.value, show), AiPrefix + answer]
    case TaggedAi => [AiPrefix + answer]
    case BareAi => [answer]
  }

  /** The AI requests an event makes: one with its trimmed text when it is
      processed and the AI is consulted, none otherwise. */
  function EventAiRequests(e: Event, data: Option<Reading>): seq<AiRequest>
  {
    var kind := ChooseReply(data, MessageType(e), MessageText(e));
    if Handled(e) && AsksAi(kind) then [AiRequest(MessageText(e), data.value)] else []
  }

  /** A reply that consults the AI carries the AI's answer, as its last line. */
  lemma ReplyCarriesAnswer(kind: ReplyKind, data: Option<Reading>, answer: string, show: Show)
    requires AsksAi(kind) && data.Some?
    ensures Includes(JoinLines(ReplyLines(kind, data, answer, show)), answer)
  {
    var lines := ReplyLines(kind, data, answer, show);
    var tag := if kind == BareAi then "" else AiPrefix;
    assert lines[|lines| - 1] == tag + answer;
    JoinLinesIncludes(lines, |lines| - 1);
    LabelledIncludes(tag, answer);
    IncludesTrans(JoinLines(lines), tag + answer, answer);
  }

  /** The one reply a processed event gets, sent to its own reply token; when
      the AI is consulted, the reply carries its answer to the trimmed text. */
  function EventReply(e: Event, data: Option<Reading>, ask: Ask, show: Show): (r: Reply)
    requires Handled(e)
    ensures r.token == e.replyToken.value
    ensures var text := MessageText(e);
      AsksAi(ChooseReply(data, MessageType(e), text)) ==>
        Includes(r.text, ask(text, data.value.light, data.value.temp, data.value.humidity))
  {
    var text := MessageText(e);
    var kind := ChooseReply(data, MessageType(e), text);
    var answer := if AsksAi(kind) then ask(text, data.value.light, data.value.temp, data.value.humidity) else "";
    var reply := Reply(e.replyToken.value, JoinLines(ReplyLines(kind, data, answer, show)));
    if AsksAi(kind) then (ReplyCarriesAnswer(kind, data, answer, show); reply) else reply
  }

  /** The replies an event gets: its one reply, or none when it is skipped. */
  function EventReplies(e: Event, data: Option<Reading>, ask: Ask, show: Show): seq<Reply>
  {
    if Handled(e) then [EventReply(e, data, ask, show)] else []
  }

  /** What a batch produces, event after event, in array order. */
  function Gather<T>(events: seq<Event>, f: Event -> seq<T>): seq<T>
  {
    if events == [] then [] else f(events[0]) + Gather(events[1..], f)
  }

  function ReplyOf(data: Option<Reading>, ask: Ask, show: Show): Event -> seq<Reply>
  {
    e => EventReplies(e, data, ask, show)
  }

  function AiRequestOf(data: Option<Reading>): Event -> seq<AiRequest>
  {
    e => EventAiRequests(e, data)
  }

  /** The replies of a batch, in event order. */
  function Replies(events: seq<Event>, data: Option<Reading>, ask: Ask, show: Show): seq<Reply>
  {
    Gather(events, ReplyOf(data, ask, show))
  }

  /** The AI requests of a batch, in event order. */
  function AiRequests(events: seq<Event>, data: Option<Reading>): seq<AiRequest>
  {
    Gather(events, AiRequestOf(data))
  }

  /** The events of a batch that are processed, in order. */
  function HandledEvents(events: seq<Event>): (handled: seq<Event>)
    ensures |handled| <= |events|
    ensures forall e :: e in handled <==> e in events && Handled(e)
    ensures forall k :: 0 <= k < |handled| ==> Handled(handled[k])
  {
    if events == [] then []
    else
      var head := if Handled(events[0]) then [events[0]] else [];
      head + HandledEvents(events[1..])
  }

  /** The user ids a batch saves. */
  function SavedUsers(events: seq<Event>): set<string>
  {
    set e | e in events && Handled(e) :: e.userId.value
  }

  // ----- the handler -----

  /** The state the route touches: the user table, the replies sent to LINE
      and the requests made to the AI service. It reads `lastSensorData`. */
  class WebhookHandler {
    const store: SensorData
    const ask: Ask
    const show: Show
    var users: set<string>
    var replies: seq<Reply>
    var aiRequests: seq<AiRequest>

    constructor (store: SensorData, users: set<string>, ask: Ask, show: Show)
      ensures this.store == store && this.ask == ask && this.show == show
      ensures this.users == users && replies == [] && aiRequests == []
    {
      this.store := store;
      this.ask := ask;
      this.show := show;
      this.users := users;
      replies := [];
      aiRequests := [];
    }

    /** One pass of the loop body: a skipped event changes nothing; a
        processed one saves its user, asks the AI when its template needs an
        answer, and sends its one reply. */
    method HandleEvent(e: Event, ghost data: Option<Reading>)
      requires data == store.Latest()
      modifies this
      ensures users == old(users) + SavedUsers([e])
      ensures replies == old(replies) + EventReplies(e, data, ask, show)
      ensures aiRequests == old(aiRequests) + EventAiRequests(e, data)
    {
      var text := MessageText(e);
      var messageType := MessageType(e);
      SavedUsersOne(e);
      if !Truthy(e.userId) || !Truthy(e.replyToken) {
        return;
      }
      users := users + {e.userId.value};
      var latest := store.Latest();
      var kind := ChooseReply(latest, messageType, text);
      var answer := "";
      if AsksAi(kind) {
        answer := ask(text, latest.value.light, latest.value.temp, latest.value.humidity);
        aiRequests := aiRequests + [AiRequest(text, latest.value)];
      }
      replies := replies + [Reply(e.replyToken.value, JoinLines(ReplyLines(kind, latest, answer, show)))];
    }

    /** Processes the events in order and answers 200 once all are done. */
    method HandleWebhook(events: seq<Event>) returns (status: int)
      modifies this
      ensures status == 200
      ensures users == old(users) + SavedUsers(events)
      ensures replies == old(replies) + Replies(events, store.Latest(), ask, show)
      ensures aiRequests == old(aiRequests) + AiRequests(events, store.Latest())
    {
      ghost var data := store.Latest();
      for i := 0 to |events|
        invariant store.Latest() == data
        invariant users == old(users) + SavedUsers(events[..i])
        invariant replies == old(replies) + Replies(events[..i], data, ask, show)
        invariant aiRequests == old(aiRequests) + AiRequests(events[..i], data)
      {
        var e := events[i];
        assert events[..i + 1] == events[..i] + [e];
        BatchStep(events[..i], e, data, ask, show);
        HandleEvent(e, data);
        UnionAssoc(old(users), SavedUsers(events[..i]), SavedUsers([e]));
        AppendAssoc(old(replies), Replies(events[..i], data, ask, show), EventReplies(e, data, ask, show));
        AppendAssoc(old(aiRequests), AiRequests(events[..i], data), EventAiRequests(e, data));
      }
      assert events[..|events|] == events;
      status := 200;
    }
  }

  // ----- batches -----

  lemma {:induction false} GatherAppend<T>(a: seq<Event>, b: seq<Event>, f: Event -> seq<T>)
    ensures Gather(a + b, f) == Gather(a, f) + Gather(b, f)
    decreases |a|
  {
    if a == [] {
      assert a + b == b;
    } else {
      assert (a + b)[0] == a[0];
      assert (a + b)[1..] == a[1..] + b;
      GatherAppend(a[1..], b, f);
    }
  }

  lemma GatherOne<T>(e: Event, f: Event -> seq<T>)
    ensures Gather([e], f) == f(e)
  {
    assert [e][1..] == [];
  }

  lemma UnionAssoc<T>(a: set<T>, b: set<T>, c: set<T>)
    ensures a + b + c == a + (b + c)
  {
  }

  /** A batch grows event by event. */
  lemma BatchStep(prefix: seq<Event>, e: Event, data: Option<Reading>, ask: Ask, show: Show)
    ensures Replies(prefix + [e], data, ask, show) == Replies(prefix, data, ask, show) + EventReplies(e, data, ask, show)
    ensures AiRequests(prefix + [e], data) == AiRequests(prefix, data) + EventAiRequests(e, data)
    ensures SavedUsers(prefix + [e]) == SavedUsers(prefix) + SavedUsers([e])
  {
    GatherAppend(prefix, [e], ReplyOf(data, ask, show));
    GatherAppend(prefix, [e], AiRequestOf(data));
    GatherOne(e, ReplyOf(data, ask, show));
    GatherOne(e, AiRequestOf(data));
    SavedUsersAppend(prefix, e);
    SavedUsersOne(e);
  }

  /** When every processed event contributes exactly one item and every
      skipped event none, the k-th item comes from the k-th processed event. */
  lemma {:induction false} GatherFollowsHandled<T>(events: seq<Event>, f: Event -> seq<T>)
    requires forall e :: |f(e)| == if Handled(e) then 1 else 0
    ensures |Gather(events, f)| == |HandledEvents(events)|
    ensures forall k :: 0 <= k < |HandledEvents(events)| ==>
      Gather(events, f)[k] == f(HandledEvents(events)[k])[0]
    decreases |events|
  {
    if events != [] {
      GatherFollowsHandled(events[1..], f);
      var e := events[0];
      if Handled(e) {
        assert f(e) == [f(e)[0]];
        assert HandledEvents(events) == [e] + HandledEvents(events[1..]);
      } else {
        assert HandledEvents(events) == HandledEvents(events[1..]);
      }
    }
  }

  lemma SavedUsersAppend(a: seq<Event>, e: Event)
    ensures SavedUsers(a + [e]) == SavedUsers(a) + (if Handled(e) then {e.userId.value} else {})
  {
    assert forall x :: x in a + [e] <==> x in a || x == e;
  }

  lemma SavedUsersOne(e: Event)
    ensures SavedUsers([e]) == if Handled(e) then {e.userId.value} else {}
  {
  }

  /** A skipped event saves no user, sends no reply and asks the AI nothing. */
  lemma SkippedEventHasNoEffect(e: Event, data: Option<Reading>, ask: Ask, show: Show)
    requires !Handled(e)
    ensures SavedUsers([e]) == {}
    ensures Replies([e], data, ask, show) == []
    ensures AiRequests([e], data) == []
  {
    GatherOne(e, ReplyOf(data, ask, show));
    GatherOne(e, AiRequestOf(data));
  }

  /** A processed event saves its user id and gets exactly one reply, sent to
      its own reply token. */
  lemma HandledEventRepliesOnce(e: Event, data: Option<Reading>, ask: Ask, show: Show)
    requires Handled(e)
    ensures SavedUsers([e]) == {e.userId.value}
    ensures Replies([e], data, ask, show) == [EventReply(e, data, ask, show)]
    ensures EventReply(e, data, ask, show).token == e.replyToken.value
  {
    GatherOne(e, ReplyOf(data, ask, show));
  }

  /** Saving a user that is already there changes nothing: delivering a batch
      again adds no user. */
  lemma SavedUsersIdempotent(users: set<string>, events: seq<Event>)
    ensures users + SavedUsers(events) + SavedUsers(events) == users + SavedUsers(events)
    ensures SavedUsers(events + events) == SavedUsers(events)
  {
    assert forall x :: x in events + events <==> x in events;
  }

  /** The k-th reply of a batch answers the k-th processed event, to its
      token: one reply per processed event, in array order. */
  lemma RepliesFollowHandledEvents(events: seq<Event>, data: Option<Reading>, ask: Ask, show: Show)
    ensures |Replies(events, data, ask, show)| == |HandledEvents(events)|
    ensures forall k :: 0 <= k < |HandledEvents(events)| ==>
      Replies(events, data, ask, show)[k] == EventReply(HandledEvents(events)[k], data, ask, show)
  {
    var f := ReplyOf(data, ask, show);
    forall e
      ensures |f(e)| == if Handled(e) then 1 else 0
    {
    }
    GatherFollowsHandled(events, f);
  }

  // ----- the decision table -----

  /** `lastSensorData` is an object, so the "no data" reply is never chosen. */
  lemma NoSensorDataUnreachable(store: SensorData, messageType: Option<string>, text: string)
    ensures ChooseReply(store.Latest(), messageType, text) != NoSensorData
  {
  }

  /** A non-text message, or a text that greets, gets the three-line weather
      summary, and the AI is not asked. */
  lemma GreetingGetsSummary(e: Event, r: Reading, ask: Ask, show: Show)
    requires Handled(e)
    requires MessageType(e) != Some("text") || Includes(MessageText(e), Greeting)
    ensures EventAiRequests(e, Some(r)) == []
    ensures EventReply(e, Some(r), ask, show).text == JoinLines(SummaryLines(r, show))
  {
  }

  /** The weather question is not a greeting and gets the summary with the AI line. */
  lemma WeatherQuestionRouted(r: Reading)
    ensures ChooseReply(Some(r), Some("text"), AskWeather) == SummaryWithAi
  {
    NotIncludes(AskWeather, Greeting, 4);
  }

  /** The laundry question gets the laundry template. */
  lemma LaundryQuestionRouted(r: Reading)
    ensures ChooseReply(Some(r), Some("text"), AskLaundry) == LaundryWithAi
  {
    NotIncludes(AskLaundry, Greeting, 4);
  }

  /** The umbrella question shares the "🤖 AI: " case. */
  lemma UmbrellaQuestionRouted(r: Reading)
    ensures ChooseReply(Some(r), Some("text"), AskUmbrella) == TaggedAi
  {
    NotIncludes(AskUmbrella, Greeting, 4);
  }

  /** The light question shares the "🤖 AI: " case. */
  lemma LightQuestionRouted(r: Reading)
    ensures ChooseReply(Some(r), Some("text"), AskLight) == TaggedAi
  {
    NotIncludes(AskLight, Greeting, 4);
  }

  /** The humidity question shares the "🤖 AI: " case. */
  lemma HumidityQuestionRouted(r: Reading)
    ensures ChooseReply(Some(r), Some("text"), AskHumidity) == TaggedAi
  {
    NotIncludes(AskHumidity, Greeting, 4);
  }

  /** A text message that does not greet asks the AI its trimmed text, once. */
  lemma NonGreetingAsksAi(e: Event, r: Reading)
    requires Handled(e) && MessageType(e) == Some("text") && !Includes(MessageText(e), Greeting)
    ensures EventAiRequests(e, Some(r)) == [AiRequest(MessageText(e), r)]
  {
  }

  /** The three questions of the shared case get "🤖 AI: " and the answer. */
  lemma TaggedAnswerForm(e: Event, r: Reading, ask: Ask, show: Show)
    requires Handled(e) && MessageType(e) == Some("text") && !Includes(MessageText(e), Greeting)
    requires MessageText(e) in {AskUmbrella, AskLight, AskHumidity}
    ensures EventReply(e, Some(r), ask, show).text == AiPrefix + ask(MessageText(e), r.light, r.temp, r.humidity)
  {
    assert ChooseReply(Some(r), MessageType(e), MessageText(e)) == TaggedAi;
  }

  /** Any other text that does not greet gets the bare answer. */
  lemma BareAnswerForm(e: Event, r: Reading, ask: Ask, show: Show)
    requires Handled(e) && MessageType(e) == Some("text") && !Includes(MessageText(e), Greeting)
    requires MessageText(e) !in {AskWeather, AskLaundry, AskUmbrella, AskLight, AskHumidity}
    ensures EventReply(e, Some(r), ask, show).text == ask(MessageText(e), r.light, r.temp, r.humidity)
  {
    assert ChooseReply(Some(r), MessageType(e), MessageText(e)) == BareAi;
  }

  /** The laundry reply carries the light line and the AI line, but no
      temperature or humidity line. */
  lemma LaundryReplyShape(r: Reading, answer: string, show: Show)
    ensures var lines := ReplyLines(LaundryWithAi, Some(r), answer, show);
      && LightLine(r, show) in lines
      && AiPrefix + answer in lines
      && forall l :: l in lines ==> !(TempPrefix <= l) && !(HumidityPrefix <= l)
  {
    var lines := ReplyLines(LaundryWithAi, Some(r), answer, show);
    assert lines == [LaundryHeader, LightLine(r, show), AiPrefix + answer];
    assert lines[1][0] == LightPrefix[0];
    assert lines[2][0] == AiPrefix[0];
    forall l | l in lines
      ensures !(TempPrefix <= l) && !(HumidityPrefix <= l)
    {
      FirstCodePointRulesOutPrefix(TempPrefix, l);
      FirstCodePointRulesOutPrefix(HumidityPrefix, l);
    }
  }

  lemma FirstCodePointRulesOutPrefix(p: string, l: string)
    requires p != [] && l != [] && p[0] != l[0]
    ensures !(p <= l)
  {
  }

  /** The weather question's reply holds all three sensor lines and the AI line. */
  lemma WeatherReplyIncludesAll(r: Reading, answer: string, show: Show)
    ensures var text := JoinLines(ReplyLines(SummaryWithAi, Some(r), answer, show));
      && Includes(text, LightLine(r, show))
      && Includes(text, TempLine(r, show))
      && Includes(text, HumidityLine(r, show))
      && Includes(text, AiPrefix + answer)
  {
    var lines := ReplyLines(SummaryWithAi, Some(r), answer, show);
    JoinLinesIncludes(lines, 1);
    JoinLinesIncludes(lines, 2);
    JoinLinesIncludes(lines, 3);
    JoinLinesIncludes(lines, 4);
  }
}
