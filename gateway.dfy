/** The narrative gateway of services/geminiService.ts: the call to the
    chat-completions endpoint, the extraction of the message content, and
    the two requests (a new event, the resolution of a choice), each of
    which falls back to a fixed payload on any failure.

    The network is an oracle: the service maps each request to the
    response it gets (None when the request itself is rejected), and the
    JSON decoding of the returned text into an event or a resolution is
    part of the oracle as well. */
module Gateway {
  import opened Wrappers
  import opened Types
  import Text

  /** The JavaScript values a decoded response body can hold (numbers are
      taken to be integers). */
  datatype JsValue =
    | JsUndefined
    | JsNull
    | JsBool(b: bool)
    | JsNumber(n: int)
    | JsString(s: string)
    | JsArray(items: seq<JsValue>)
    | JsObject(fields: map<string, JsValue>)

  /** JavaScript truthiness: `!v` is false exactly for these values. */
  predicate Truthy(v: JsValue)
    ensures Truthy(v) <==> v !in {JsUndefined, JsNull, JsBool(false), JsNumber(0), JsString("")}
  {
    match v
    case JsUndefined => false
    case JsNull => false
    case JsBool(b) => b
    case JsNumber(n) => n != 0
    case JsString(s) => s != ""
    case JsArray(_) => true
    case JsObject(_) => true
  }

  /** `v?.key`: the property of an object, undefined for anything else. */
  function Get(v: JsValue, key: string): JsValue
  {
    if v.JsObject? && key in v.fields then v.fields[key] else JsUndefined
  }

  /** `v?.[0]`: the first element of an array, the first character of a
      string, the property "0" of an object, undefined otherwise. */
  function First(v: JsValue): JsValue
  {
    match v
    case JsArray(items) => if |items| > 0 then items[0] else JsUndefined
    case JsString(s) => if |s| > 0 then JsString([s[0]]) else JsUndefined
    case JsObject(_) => Get(v, "0")
    case _ => JsUndefined
  }

  /** `data?.choices?.[0]?.message?.content`. */
  function MessageContent(data: JsValue): (m: JsValue)
    // a missing link anywhere in the chain gives undefined, never an error
    ensures !data.JsObject? ==> m == JsUndefined
    ensures data.JsObject? && "choices" !in data.fields ==> m == JsUndefined
    // every link present, whatever `choices` is: the content itself
    ensures var c := First(Get(data, "choices"));
            data.JsObject? && "choices" in data.fields
            && c.JsObject? && "message" in c.fields
            && c.fields["message"].JsObject? && "content" in c.fields["message"].fields ==>
              m == c.fields["message"].fields["content"]
    // anything but undefined means every link of the chain is there
    ensures m != JsUndefined ==>
              data.JsObject? && "choices" in data.fields
              && First(data.fields["choices"]).JsObject?
              && "message" in First(data.fields["choices"]).fields
              && First(data.fields["choices"]).fields["message"].JsObject?
              && "content" in First(data.fields["choices"]).fields["message"].fields
  {
    Get(Get(First(Get(data, "choices")), "message"), "content")
  }

  /** A response from the endpoint; json is None when the body is not JSON. */
  datatype HttpResponse = HttpResponse(ok: bool, status: int, json: Option<JsValue>)

  /** What a request carries to the generator, without the prose around it. */
  datatype Prompt =
    | EventPrompt(
        biome: Biome,
        day: int,
        food: int,
        mood: int,
        crewSummary: string,
        focus: string)
    | ResolutionPrompt(
        title: string,
        description: string,
        chosen: Option<Choice>,
        food: int,
        mood: int,
        crew: seq<CrewMember>)

  /** The environment of the gateway: the configured API key, the remote
      service, and JSON.parse followed by the unchecked casts. */
  datatype Backend = Backend(
    apiKey: Option<string>,
    service: Prompt -> Option<HttpResponse>,
    parseEvent: string -> Option<GameEvent>,
    parseResolution: string -> Option<EventResolution>)

  /** The ways a call can throw. */
  datatype GatewayError =
    | MissingApiKey
    | NetworkFailure
    | HttpError(status: int)
    | MalformedJson
    | EmptyResponse
    | UnsupportedFormat
    | NoActiveEvent

  /** `!PACKY_API_KEY`: the key is unset or empty. */
  predicate ApiKeyMissing(key: Option<string>)
    // the key counts as missing exactly when its JavaScript value is falsy
    ensures ApiKeyMissing(key) <==> !Truthy(if key.None? then JsUndefined else JsString(key.value))
  {
    key.None? || key.value == ""
  }

  /** The text of a message content, as callPacky accepts it. */
  function ExtractContent(message: JsValue): (r: Result<string, GatewayError>)
    // a falsy content is an empty response
    ensures !Truthy(message) ==> r == Failure(EmptyResponse)
    // a non-empty string is returned as it is
    ensures message.JsString? && message.s != "" ==> r == Success(message.s)
    // an array yields its first element when that is a string, else that element's text
    ensures message.JsArray? && |message.items| > 0 && message.items[0].JsString? ==>
              r == Success(message.items[0].s)
    ensures message.JsArray? && |message.items| > 0 && !message.items[0].JsString?
              && Truthy(message.items[0]) && Get(message.items[0], "text").JsString? ==>
              r == Success(Get(message.items[0], "text").s)
    // every other truthy shape is unsupported
    ensures r.Failure? && Truthy(message) ==> r.error == UnsupportedFormat
    ensures (message.JsBool? || message.JsNumber? || message.JsObject?) ==> r.Failure?
    ensures r.Success? ==>
              message == JsString(r.value)
              || (message.JsArray? && |message.items| > 0
                  && (message.items[0] == JsString(r.value)
                      || Get(message.items[0], "text") == JsString(r.value)))
  {
    if !Truthy(message) then Failure(EmptyResponse)
    else if message.JsString? then Success(message.s)
    else if message.JsArray? then
      var first := First(message);
      if first.JsString? then Success(first.s)
      else if Truthy(first) && Get(first, "text").JsString? then Success(Get(first, "text").s)
      else Failure(UnsupportedFormat)
    else Failure(UnsupportedFormat)
  }

  /** One call to the chat-completions endpoint (callPacky). */
  function CallPacky(backend: Backend, prompt: Prompt): (r: Result<string, GatewayError>)
    // without a key it fails before any request is made
    ensures ApiKeyMissing(backend.apiKey) ==> r == Failure(MissingApiKey)
    ensures !ApiKeyMissing(backend.apiKey) && backend.service(prompt).None? ==> r == Failure(NetworkFailure)
    ensures !ApiKeyMissing(backend.apiKey) && backend.service(prompt).Some? && !backend.service(prompt).value.ok ==>
              r == Failure(HttpError(backend.service(prompt).value.status))
    // it succeeds exactly when there is a key, an ok response with a JSON body, and usable content
    ensures r.Success? <==>
              !ApiKeyMissing(backend.apiKey)
              && backend.service(prompt).Some?
              && backend.service(prompt).value.ok
              && backend.service(prompt).value.json.Some?
              && ExtractContent(MessageContent(backend.service(prompt).value.json.value)).Success?
    ensures r.Success? ==>
              r == ExtractContent(MessageContent(backend.service(prompt).value.json.value))
  {
    if ApiKeyMissing(backend.apiKey) then Failure(MissingApiKey)
    else
      match backend.service(prompt)
      case None => Failure(NetworkFailure)
      case Some(response) =>
        if !response.ok then Failure(HttpError(response.status))
        else
          match response.json
          case None => Failure(MalformedJson)
          case Some(data) => ExtractContent(MessageContent(data))
  }

  /** The six thematic focus categories of a new event. */
  const EventCategories: seq<string> := [
    "环境危机 (沙尘暴、酸雨、极端温度)",
    "资源短缺 (食物腐烂、装备故障)",
    "外部威胁 (掠夺者、机械体、狂暴动物)",
    "神秘现象 (古老遗迹、精神干扰、时间异常)",
    "内部冲突 (队员争吵、精神崩溃、甚至叛变)",
    "机遇 (流浪商人、坠毁的飞船、绿洲)"
  ]

  /** The focus picked by the random index k, which lies in [0, 6). */
  function EventFocus(k: nat): (f: string)
    requires k < |EventCategories|
    ensures f in EventCategories
  {
    EventCategories[k]
  }

  /** One member in the summary: `name [role: status]`. */
  function CrewEntry(c: CrewMember): (e: string)
    // the name, then the role and the status in brackets
    ensures |e| == |c.name| + |RoleLabel(c.role)| + |StatusLabel(c.status)| + 5
    ensures e[..|c.name|] == c.name && e[|c.name|..|c.name| + 2] == " [" && e[|e| - 1] == ']'
    ensures e[|c.name| + 2..|e| - 1] == RoleLabel(c.role) + ": " + StatusLabel(c.status)
  {
    c.name + " [" + RoleLabel(c.role) + ": " + StatusLabel(c.status) + "]"
  }

  /** The entries of the crew, one per member, in crew order. */
  function CrewEntries(crew: seq<CrewMember>): (es: seq<string>)
    ensures |es| == |crew|
    ensures forall i :: 0 <= i < |crew| ==> es[i] == CrewEntry(crew[i])
  {
    seq(|crew|, i requires 0 <= i < |crew| => CrewEntry(crew[i]))
  }

  /** The crew summary embedded in the event prompt. */
  function CrewSummary(crew: seq<CrewMember>): (r: string)
    ensures |crew| == 0 ==> r == ""
    ensures |crew| == 1 ==> r == CrewEntry(crew[0])
    ensures |crew| >= 2 ==> r == CrewEntry(crew[0]) + ", " + CrewSummary(crew[1..])
  {
    assert |crew| >= 2 ==> CrewEntries(crew)[1..] == CrewEntries(crew[1..]);
    Text.Join(CrewEntries(crew), ", ")
  }

  /** The summary lists the members in crew order: a member added at the end
      appears after the others, separated by ", ". */
  lemma CrewSummarySnoc(crew: seq<CrewMember>, c: CrewMember)
    requires |crew| > 0
    ensures CrewSummary(crew + [c]) == CrewSummary(crew) + ", " + CrewEntry(c)
    ensures CrewSummary([c]) == CrewEntry(c)
  {
    CrewEntriesSnoc(crew, c);
    Text.JoinSnoc(CrewEntries(crew), CrewEntry(c), ", ");
  }

  /** One more member adds one more entry at the end. */
  lemma CrewEntriesSnoc(crew: seq<CrewMember>, c: CrewMember)
    ensures CrewEntries(crew + [c]) == CrewEntries(crew) + [CrewEntry(c)]
  {
    var es := CrewEntries(crew + [c]);
    assert forall i :: 0 <= i < |crew| ==> es[i] == CrewEntry((crew + [c])[i]) == CrewEntry(crew[i]);
  }

  /** The request for a new event built from a state and the random index. */
  function EventPromptFor(s: GameState, k: nat): (p: Prompt)
    requires k < |EventCategories|
    ensures p.EventPrompt? && p.focus in EventCategories
    ensures p.day == s.day && p.food == s.food && p.mood == s.mood && p.biome == s.biome
    ensures p.crewSummary == CrewSummary(s.crew)
  {
    EventPrompt(s.biome, s.day, s.food, s.mood, CrewSummary(s.crew), EventFocus(k))
  }

  /** The event used whenever generation fails. */
  function FallbackEvent(): (e: GameEvent)
    ensures |e.choices| == 1
    ensures e.choices[0].id == "wait" && e.choices[0].kind == Neutral && e.choices[0].riskLabel == "安全"
  {
    GameEvent(
      "静电风暴",
      "空气中充满了噼啪作响的静电，通讯设备传来刺耳的尖叫声。这是一个不安的夜晚。",
      None,
      [Choice("wait", "原地扎营，等待风暴过去。", Neutral, "安全")])
  }

  /** generateGameEvent: never fails; any error yields the fallback event. */
  function GenerateGameEvent(s: GameState, k: nat, backend: Backend): (e: GameEvent)
    requires k < |EventCategories|
    ensures CallPacky(backend, EventPromptFor(s, k)).Failure? ==> e == FallbackEvent()
    ensures ApiKeyMissing(backend.apiKey) ==> e == FallbackEvent()
    ensures CallPacky(backend, EventPromptFor(s, k)).Success? ==>
              var decoded := backend.parseEvent(CallPacky(backend, EventPromptFor(s, k)).value);
              (decoded.Some? && e == decoded.value) || (decoded.None? && e == FallbackEvent())
  {
    match CallPacky(backend, EventPromptFor(s, k))
    case Failure(_) => FallbackEvent()
    case Success(text) =>
      match backend.parseEvent(text)
      case None => FallbackEvent()
      case Some(event) => event
  }

  /** The index of the first choice with the given id, or |choices| if none has it. */
  function FirstChoiceIndex(choices: seq<Choice>, id: string): (k: nat)
    ensures k <= |choices|
    ensures forall j :: 0 <= j < k ==> choices[j].id != id
    ensures k < |choices| ==> choices[k].id == id
  {
    if |choices| == 0 then 0
    else if choices[0].id == id then 0
    else 1 + FirstChoiceIndex(choices[1..], id)
  }

  /** `choices.find(c => c.id === id)`. */
  function FindChoice(choices: seq<Choice>, id: string): (r: Option<Choice>)
    ensures r.None? <==> forall j :: 0 <= j < |choices| ==> choices[j].id != id
    ensures r.Some? ==> r.value.id == id && r.value in choices
    ensures r.Some? ==> exists k :: 0 <= k < |choices| && choices[k] == r.value
                                    && forall j :: 0 <= j < k ==> choices[j].id != id
  {
    var k := FirstChoiceIndex(choices, id);
    if k < |choices| then Some(choices[k]) else None
  }

  /** The request for the resolution of a choice within the current event. */
  function ResolutionPromptFor(s: GameState, event: GameEvent, choiceId: string): (p: Prompt)
    ensures p.ResolutionPrompt? && p.title == event.title && p.description == event.description
    ensures p.chosen == FindChoice(event.choices, choiceId)
    ensures p.food == s.food && p.mood == s.mood && p.crew == s.crew
  {
    ResolutionPrompt(event.title, event.description, FindChoice(event.choices, choiceId), s.food, s.mood, s.crew)
  }

  /** The resolution used whenever a request fails: food -2 kg, mood -5,
      distance 0, no crew changes. */
  function FallbackResolution(): (r: EventResolution)
    ensures r.foodChange == -20 && r.moodChange == -5 && r.distanceChange == 0
    ensures r.crewStatusChanges == []
  {
    Resolution("在一阵混乱后，你们勉强稳住了局势。", -20, -5, 0, [])
  }

  /** resolveGameEvent: fails only when there is no current event, and then
      before any request; every later failure yields the fallback resolution. */
  function ResolveGameEvent(s: GameState, choiceId: string, backend: Backend): (r: Result<EventResolution, GatewayError>)
    ensures r.Failure? <==> s.currentEvent.None?
    ensures r.Failure? ==> r.error == NoActiveEvent
    ensures s.currentEvent.Some? ==>
              var reply := CallPacky(backend, ResolutionPromptFor(s, s.currentEvent.value, choiceId));
              (reply.Failure? ==> r == Success(FallbackResolution()))
              && (reply.Success? && backend.parseResolution(reply.value).None? ==> r == Success(FallbackResolution()))
              && (reply.Success? && backend.parseResolution(reply.value).Some? ==>
                    r == Success(backend.parseResolution(reply.value).value))
  {
    match s.currentEvent
    case None => Failure(NoActiveEvent)
    case Some(event) =>
      match CallPacky(backend, ResolutionPromptFor(s, event, choiceId))
      case Failure(_) => Success(FallbackResolution())
      case Success(text) =>
        match backend.parseResolution(text)
        case None => Success(FallbackResolution())
        case Some(resolution) => Success(resolution)
  }
}
