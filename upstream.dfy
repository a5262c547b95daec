/** The two upstream collaborators of the handler, `getParticipant` and
    `updateParticipantData`. The HTTP exchange itself is an input: each call
    either rejects (a transport failure, or axios refusing the status) or
    resolves with a status and, for the lookup, a list of records. */
module Upstream {
  import opened Js

  /** The port an upstream URL targets: the API host's own, or 8000 in sandbox mode. */
  datatype Port = DefaultPort | SandboxPort

  /** A response body, by shape: `{errors: [{message}]}`, `{errors: "message"}`
      or the lookup answer `{code, slot}`. */
  datatype Body =
    | ErrorList(message: string)
    | ErrorText(message: string)
    | CodeSlot(code: Value, slot: bool)

  /** A thrown value, reduced to the three properties the handler's catch
      blocks read; statusCode None stands for an absent `statusCode`. */
  datatype Thrown = Thrown(statusCode: Option<int>, headers: map<string, string>, body: Option<Body>)

  /** One upstream HTTP request, as the handler issues it. */
  datatype Call =
    | LookupCall(code: string, port: Port)
    | UpdateCall(id: Value, payload: map<string, Value>, port: Port)

  /** The outcome of `api.get` on the participant list. */
  datatype LookupOutcome =
    | LookupRejected
    | LookupResolved(status: Option<int>, data: seq<Value>)

  /** The outcome of `api.patch` on one participant. */
  datatype UpdateOutcome =
    | UpdateRejected
    | UpdateResolved(status: Option<int>)

  /** How evaluating an expression ends: with a value or with a throw. */
  datatype Completion<T> = Normal(value: T) | Throw(thrown: Thrown)

  /** What `updateParticipantData` resolves to: the status, or the error its
      own catch swallowed and returned. */
  datatype UpdateResult = Status(code: int) | Swallowed(error: Thrown)

  const ServerError := "Ответ от сервера не был успешным"
  const UserNotFound := "Пользователь не найден"
  const ContactSupport := "Произошла ошибка. Напишите в техподдержку"
  const IdNotFound := "Не найден ID пользователя"
  const CancelFailed := "Ошибка отмены консультации"

  const ErrorHeaders: map<string, string> :=
    map["Content-Type" := "application/json", "Access-Control-Allow-Headers" := "*"]

  /** A TypeError raised by the runtime, or the error axios rejects with:
      neither carries a `statusCode` or a `body` property. */
  const Foreign := Thrown(None, map[], None)

  /** `response.status` as a JavaScript value. */
  function StatusValue(status: Option<int>): Value {
    match status
    case None => Undefined
    case Some(n) => Num(n)
  }

  /** A status that passes the lookup's check `!status || status >= 400`. */
  predicate LookupStatusOk(status: Option<int>) {
    status.Some? && status.value != 0 && status.value < 400
  }

  /** `if (isSandbox) url.port = '8000'`, for both upstream URLs. */
  function PortFor(sandbox: bool): (p: Port)
    ensures p == SandboxPort <==> sandbox
  {
    if sandbox then SandboxPort else DefaultPort
  }

  /** The guard `!data[0] && !data[0].id` evaluated as JavaScript does:
      `&&` short-circuits on a truthy record, and reading `.id` of null or
      undefined throws. Its 404 is reached only for a falsy primitive
      (0, "", false), never for an object, with or without an id. */
  function GuardAsWritten(d0: Value): (c: Completion<bool>)
    ensures c == Normal(false) <==> Truthy(d0)
    ensures c == Throw(Foreign) <==> Nullish(d0)
    ensures c == Normal(true) <==> !Truthy(d0) && !Nullish(d0)
  {
    if Truthy(d0) then Normal(false)
    else if Nullish(d0) then Throw(Foreign)
    else Normal(!Truthy(Prop(d0, Id)))
  }

  /** `getParticipant`: classifies the lookup's outcome. A rejection
      propagates; a bad status throws it back; zero or several records are
      errors; a single record is returned when the guard lets it through. */
  function GetParticipant(lookup: LookupOutcome): (c: Completion<Value>)
    ensures lookup.LookupRejected? ==> c == Throw(Foreign)
    ensures lookup.LookupResolved? && !LookupStatusOk(lookup.status) ==>
      c == Throw(Thrown(lookup.status, ErrorHeaders, Some(ErrorList(ServerError))))
    ensures lookup.LookupResolved? && LookupStatusOk(lookup.status) && |lookup.data| == 0 ==>
      c == Throw(Thrown(Some(404), ErrorHeaders, Some(ErrorText(UserNotFound))))
    ensures lookup.LookupResolved? && LookupStatusOk(lookup.status) && |lookup.data| > 1 ==>
      c == Throw(Thrown(Some(500), ErrorHeaders, Some(ErrorText(ContactSupport))))
    ensures lookup.LookupResolved? && LookupStatusOk(lookup.status) && |lookup.data| == 1 ==>
      c == (if Truthy(lookup.data[0]) then Normal(lookup.data[0])
            else if Nullish(lookup.data[0]) then Throw(Foreign)
            else Throw(Thrown(Some(404), ErrorHeaders, Some(ErrorText(IdNotFound)))))
    ensures c.Normal? <==>
      lookup.LookupResolved? && LookupStatusOk(lookup.status) &&
      |lookup.data| == 1 && Truthy(lookup.data[0])
    ensures c.Normal? ==> Truthy(c.value)
  {
    match lookup
    case LookupRejected => Throw(Foreign)
    case LookupResolved(status, data) =>
      if !Truthy(StatusValue(status)) || status.value >= 400 then
        Throw(Thrown(status, ErrorHeaders, Some(ErrorList(ServerError))))
      else if |data| == 0 then
        Throw(Thrown(Some(404), ErrorHeaders, Some(ErrorText(UserNotFound))))
      else if |data| > 1 then
        Throw(Thrown(Some(500), ErrorHeaders, Some(ErrorText(ContactSupport))))
      else
        match GuardAsWritten(data[0])
        case Throw(e) => Throw(e)
        case Normal(true) => Throw(Thrown(Some(404), ErrorHeaders, Some(ErrorText(IdNotFound))))
        case Normal(false) => Normal(data[0])
  }

  /** `updateParticipantData`: a status other than exactly 200 is thrown and,
      like a rejection, caught by the function itself and returned. */
  function UpdateParticipantData(update: UpdateOutcome): (r: UpdateResult)
    ensures r.Status? <==> update == UpdateResolved(Some(200))
    ensures r.Status? ==> r.code == 200
    ensures update.UpdateRejected? ==> r == Swallowed(Foreign)
    ensures update.UpdateResolved? && update.status != Some(200) ==>
      r == Swallowed(Thrown(update.status, ErrorHeaders, Some(ErrorList(CancelFailed))))
  {
    match update
    case UpdateRejected => Swallowed(Foreign)
    case UpdateResolved(status) =>
      if !Truthy(StatusValue(status)) || status.value != 200 then
        Swallowed(Thrown(status, ErrorHeaders, Some(ErrorList(CancelFailed))))
      else
        Status(status.value)
  }
}
