/** The serverless handler: routing and validation of the incoming event,
    sandbox detection, and the GET (lookup) and PATCH (cancellation) flows
    with their catch blocks. The upstream outcomes are parameters; the
    result pairs the response with the upstream requests made, in order. */
module Handler {
  import opened Js
  import opened Upstream

  /** The incoming event: `httpMethod`, `headers` and `queryStringParameters`. */
  datatype Event = Event(httpMethod: string, headers: map<string, string>, query: map<string, string>)

  /** The returned object; a response without a `headers` key has an empty map,
      one without a `body` key has body None. */
  datatype Response = Response(statusCode: int, headers: map<string, string>, body: Option<Body>)

  /** One invocation: its response and the upstream requests it issued. */
  datatype Exchange = Exchange(response: Response, calls: seq<Call>)

  const PortMarker := ":8000"
  const InvalidLink := "Неправильная ссылка"

  const PreflightHeaders: map<string, string> :=
    map["Access-Control-Allow-Headers" := "*", "Access-Control-Allow-Methods" := "GET, PATCH"]
  const NotAllowedHeaders: map<string, string> :=
    map["Allow" := "GET, PATCH", "Access-Control-Allow-Headers" := "*"]
  const JsonHeaders: map<string, string> := map["Content-Type" := "application/json"]

  /** The document sent to cancel a registration: it wipes the personal and
      consultation fields and moves the participant to group 7331. */
  const CancellationPayload: map<string, Value> := map[
    "name" := Str("DELETE"),
    "surname" := Str(""),
    "patronymic" := Str(""),
    "email" := Str(""),
    "phone" := Str(""),
    "company" := Str(""),
    "консультация_дата" := Str(""),
    "консультация_время" := Str(""),
    "консультация_номер_стола" := Str(""),
    "город_для_открытия_Яндекс_Лавка" := Str(""),
    "согласие_на_рассылку" := Str(""),
    "groupId" := Num(7331)
  ]

  /** `event.headers[name]`: the header's string, or undefined. */
  function Header(headers: map<string, string>, name: string): Value {
    if name in headers then Str(headers[name]) else Undefined
  }

  /** The string inside `headers[name] || ''`. */
  function HeaderText(headers: map<string, string>, name: string): (s: string)
    ensures s == (if name in headers then headers[name] else "")
  {
    match Or(Header(headers, name), Str(""))
    case Str(s) => s
    case _ => ""
  }

  /** `isSandbox`: Referer or Origin mentions ":8000", or X-Sandbox is a
      non-empty header (so "0" counts, being a non-empty string). */
  function IsSandbox(headers: map<string, string>): (b: bool)
    ensures b <==>
      ("Referer" in headers && exists i :: OccursAt(headers["Referer"], PortMarker, i)) ||
      ("Origin" in headers && exists i :: OccursAt(headers["Origin"], PortMarker, i)) ||
      ("X-Sandbox" in headers && headers["X-Sandbox"] != "")
  {
    var referer := HeaderText(headers, "Referer");
    var origin := HeaderText(headers, "Origin");
    var sandboxHeader := Or(Header(headers, "X-Sandbox"), Num(0));
    IncludesIff(referer, PortMarker);
    IncludesIff(origin, PortMarker);
    Includes(referer, PortMarker) || Includes(origin, PortMarker) || Truthy(sandboxHeader)
  }

  /** The query carries a non-empty `code`. */
  predicate HasCode(query: map<string, string>) {
    "code" in query && query["code"] != ""
  }

  /** The catch block shared by both flows: the thrown status unless it is
      absent or zero, the thrown body unless absent, and always the JSON and
      CORS headers, whatever headers the thrown value carried. */
  function Caught(e: Thrown): (r: Response)
    ensures r.headers == ErrorHeaders
    ensures r.statusCode == (if e.statusCode.Some? && e.statusCode.value != 0 then e.statusCode.value else 500)
    ensures r.statusCode != 0
    ensures r.body == (if e.body.Some? then e.body else Some(ErrorList(ServerError)))
  {
    var status := Or(StatusValue(e.statusCode), Num(500));
    Response(
      if status.Num? then status.n else 500,
      ErrorHeaders,
      if e.body.Some? then e.body else Some(ErrorList(ServerError)))
  }

  /** The value thrown when the participant has no `id` (or, on GET, no `code`). */
  const NoIdThrown := Thrown(Some(404), ErrorHeaders, Some(ErrorText(IdNotFound)))

  /** The GET flow: look the participant up and report its code and whether a
      consultation slot is booked. */
  function GetFlow(code: string, sandbox: bool, lookup: LookupOutcome): (x: Exchange)
    ensures x.calls == [LookupCall(code, PortFor(sandbox))]
    ensures x.response.statusCode == 200 <==>
      GetParticipant(lookup).Normal? &&
      Truthy(Prop(GetParticipant(lookup).value, Id)) && Truthy(Prop(GetParticipant(lookup).value, Code))
    ensures x.response.statusCode == 200 ==>
      var p := GetParticipant(lookup).value;
      x.response == Response(200, JsonHeaders, Some(CodeSlot(Prop(p, Code), Truthy(Prop(p, SlotTime)))))
    ensures x.response.statusCode != 200 ==> x.response.headers == ErrorHeaders
  {
    var calls := [LookupCall(code, PortFor(sandbox))];
    match GetParticipant(lookup)
    case Throw(e) => Exchange(Caught(e), calls)
    case Normal(participant) =>
      if !Truthy(participant) || !Truthy(Prop(participant, Id)) || !Truthy(Prop(participant, Code)) then
        Exchange(Caught(NoIdThrown), calls)
      else
        var checkSlots := Truthy(Prop(participant, SlotTime));
        Exchange(Response(200, JsonHeaders, Some(CodeSlot(Prop(participant, Code), checkSlots))), calls)
  }

  /** The PATCH flow: look the participant up, then send the cancellation
      document for its id. Update failures never reach the outer catch. */
  function PatchFlow(code: string, sandbox: bool, lookup: LookupOutcome, update: UpdateOutcome): (x: Exchange)
    ensures 1 <= |x.calls| <= 2 && x.calls[0] == LookupCall(code, PortFor(sandbox))
    ensures |x.calls| == 2 <==>
      GetParticipant(lookup).Normal? && Truthy(Prop(GetParticipant(lookup).value, Id))
    ensures |x.calls| == 2 ==>
      x.calls[1] == UpdateCall(Prop(GetParticipant(lookup).value, Id), CancellationPayload, PortFor(sandbox))
    ensures |x.calls| == 1 ==> x.response.headers == ErrorHeaders
    ensures |x.calls| == 2 ==>
      x.response == if update == UpdateResolved(Some(200)) then Response(200, map[], None)
                    else Response(500, map[], Some(ErrorText(CancelFailed)))
  {
    var lookupCall := LookupCall(code, PortFor(sandbox));
    match GetParticipant(lookup)
    case Throw(e) => Exchange(Caught(e), [lookupCall])
    case Normal(participant) =>
      if !Truthy(participant) || !Truthy(Prop(participant, Id)) then
        Exchange(Caught(NoIdThrown), [lookupCall])
      else
        var id := Prop(participant, Id);
        var calls := [lookupCall, UpdateCall(id, CancellationPayload, PortFor(sandbox))];
        var status := UpdateParticipantData(update);
        if status != Status(200) then
          Exchange(Response(500, map[], Some(ErrorText(CancelFailed))), calls)
        else
          Exchange(Response(200, map[], None), calls)
  }

  /** `handler`: OPTIONS first, then the method check, then the `code`
      check, and only then an upstream lookup. */
  function Handle(event: Event, lookup: LookupOutcome, update: UpdateOutcome): (x: Exchange)
    ensures event.httpMethod == "OPTIONS" ==>
      x.response == Response(200, PreflightHeaders, None) && x.calls == []
    ensures event.httpMethod !in {"OPTIONS", "GET", "PATCH"} ==>
      x.response == Response(405, NotAllowedHeaders, None) && x.calls == []
    ensures event.httpMethod in {"GET", "PATCH"} && !HasCode(event.query) ==>
      x.response == Response(400, map[], Some(ErrorList(InvalidLink))) && x.calls == []
    ensures event.httpMethod in {"GET", "PATCH"} && HasCode(event.query) ==>
      |x.calls| >= 1 && x.calls[0] == LookupCall(event.query["code"], PortFor(IsSandbox(event.headers)))
    ensures event.httpMethod == "GET" ==> |x.calls| <= 1
  {
    var isSandbox := IsSandbox(event.headers);
    if event.httpMethod == "OPTIONS" then
      Exchange(Response(200, PreflightHeaders, None), [])
    else if event.httpMethod != "GET" && event.httpMethod != "PATCH" then
      Exchange(Response(405, NotAllowedHeaders, None), [])
    else if !("code" in event.query) || !Truthy(Str(event.query["code"])) then
      Exchange(Response(400, map[], Some(ErrorList(InvalidLink))), [])
    else
      var code := event.query["code"];
      if event.httpMethod == "GET" then GetFlow(code, isSandbox, lookup)
      else PatchFlow(code, isSandbox, lookup, update)
  }
}
