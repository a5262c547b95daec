/** What the handler promises, stated apart from how it is written: a flat
    decision table for every response, and lemmas for sandbox routing, the
    lookup guard, the discarded headers, the swallowed update failures and
    the fixed cancellation document. */
module Properties {
  import opened Js
  import opened Upstream
  import opened Handler

  /** The response, read off as one table: each row is a condition on the
      event and the upstream outcomes, tried in order. */
  ghost function Expected(event: Event, lookup: LookupOutcome, update: UpdateOutcome): Response {
    var generic := Response(500, ErrorHeaders, Some(ErrorList(ServerError)));
    var noId := Response(404, ErrorHeaders, Some(ErrorText(IdNotFound)));
    if event.httpMethod == "OPTIONS" then Response(200, PreflightHeaders, None)
    else if event.httpMethod != "GET" && event.httpMethod != "PATCH" then Response(405, NotAllowedHeaders, None)
    else if !HasCode(event.query) then Response(400, map[], Some(ErrorList(InvalidLink)))
    else if lookup.LookupRejected? then generic
    else if lookup.status.None? || lookup.status.value == 0 then generic
    else if lookup.status.value >= 400 then Response(lookup.status.value, ErrorHeaders, Some(ErrorList(ServerError)))
    else if |lookup.data| == 0 then Response(404, ErrorHeaders, Some(ErrorText(UserNotFound)))
    else if |lookup.data| > 1 then Response(500, ErrorHeaders, Some(ErrorText(ContactSupport)))
    else if lookup.data[0].Null? || lookup.data[0].Undefined? then generic
    else if !lookup.data[0].Obj? then noId
    else if !Truthy(lookup.data[0].id) then noId
    else if event.httpMethod == "GET" then
      if !Truthy(lookup.data[0].code) then noId
      else Response(200, JsonHeaders, Some(CodeSlot(lookup.data[0].code, Truthy(lookup.data[0].slotTime))))
    else if update == UpdateResolved(Some(200)) then Response(200, map[], None)
    else Response(500, map[], Some(ErrorText(CancelFailed)))
  }

  /** The handler's response agrees with the table on every input. */
  lemma HandleMatchesTable(event: Event, lookup: LookupOutcome, update: UpdateOutcome)
    ensures Handle(event, lookup, update).response == Expected(event, lookup, update)
  {
  }

  /** Both upstream requests go to port 8000 exactly in sandbox mode. */
  lemma CallsUseSandboxPort(event: Event, lookup: LookupOutcome, update: UpdateOutcome)
    ensures forall c :: c in Handle(event, lookup, update).calls ==>
      (c.port == SandboxPort <==> IsSandbox(event.headers))
  {
  }

  /** A Referer naming port 8000 anywhere turns sandbox mode on. */
  lemma RefererWithPortIsSandbox(headers: map<string, string>, pre: string, post: string)
    requires "Referer" in headers && headers["Referer"] == pre + PortMarker + post
    ensures IsSandbox(headers)
  {
    IncludesInfix(pre, PortMarker, post);
    IncludesIff(pre + PortMarker + post, PortMarker);
  }

  /** Sandbox mode for a development page served on localhost:8000. */
  lemma LocalRefererIsSandbox()
    ensures IsSandbox(map["Referer" := "http://localhost:8000/register"])
  {
    RefererWithPortIsSandbox(map["Referer" := "http://localhost:8000/register"], "http://localhost", "/register");
  }

  /** X-Sandbox is read as a string, so even "0" switches sandbox mode on. */
  lemma SandboxHeaderZeroCounts()
    ensures IsSandbox(map["X-Sandbox" := "0"])
  {
  }

  /** Without the three headers there is no sandbox mode. */
  lemma NoSandboxWithoutHeaders(headers: map<string, string>)
    requires "Referer" !in headers && "Origin" !in headers && "X-Sandbox" !in headers
    ensures !IsSandbox(headers)
  {
  }

  /** The lookup guard never rejects an object, whether or not it has an id:
      the single record is returned as it came. */
  lemma GuardLetsEveryObjectThrough(status: int, record: Value)
    requires 0 < status < 400 && record.Obj?
    ensures GetParticipant(LookupResolved(Some(status), [record])) == Normal(record)
  {
  }

  /** A null record makes the guard read `.id` of null; the TypeError reaches
      the catch block and the caller gets the generic 500, not the guard's 404. */
  lemma NullRecordIsServerError(event: Event, status: int, update: UpdateOutcome)
    requires event.httpMethod in {"GET", "PATCH"} && HasCode(event.query)
    requires 0 < status < 400
    ensures Handle(event, LookupResolved(Some(status), [Null]), update).response ==
      Response(500, ErrorHeaders, Some(ErrorList(ServerError)))
  {
  }

  /** The guard's own 404 is reached only through a falsy primitive record. */
  lemma GuardNotFoundOnlyForFalsyPrimitive(lookup: LookupOutcome)
    ensures GetParticipant(lookup) == Throw(Thrown(Some(404), ErrorHeaders, Some(ErrorText(IdNotFound)))) <==>
      lookup.LookupResolved? && LookupStatusOk(lookup.status) && |lookup.data| == 1 &&
      !Truthy(lookup.data[0]) && !Nullish(lookup.data[0])
  {
  }

  /** The catch block ignores the headers of what it caught. */
  lemma CaughtDiscardsHeaders(e: Thrown, headers: map<string, string>)
    ensures Caught(e.(headers := headers)) == Caught(e)
  {
  }

  /** A GET never depends on the update outcome and never issues an update. */
  lemma GetIgnoresUpdate(event: Event, lookup: LookupOutcome, u1: UpdateOutcome, u2: UpdateOutcome)
    requires event.httpMethod == "GET"
    ensures Handle(event, lookup, u1) == Handle(event, lookup, u2)
    ensures forall c :: c in Handle(event, lookup, u1).calls ==> c.LookupCall?
  {
  }

  /** The GET answer carries the record's code, not the query's. */
  lemma GetReportsRecordCode(event: Event, id: Value, code: Value, slotTime: Value, update: UpdateOutcome)
    requires event.httpMethod == "GET" && HasCode(event.query)
    requires Truthy(id) && Truthy(code)
    ensures Handle(event, LookupResolved(Some(200), [Obj(id, code, slotTime)]), update).response ==
      Response(200, JsonHeaders, Some(CodeSlot(code, Truthy(slotTime))))
  {
  }

  /** Every failed update, whatever its status or error, ends in the same
      500 with no headers: the outer catch never sees it. */
  lemma UpdateFailuresLookAlike(event: Event, lookup: LookupOutcome, u1: UpdateOutcome, u2: UpdateOutcome)
    requires event.httpMethod == "PATCH"
    requires u1 != UpdateResolved(Some(200)) && u2 != UpdateResolved(Some(200))
    ensures Handle(event, lookup, u1).response == Handle(event, lookup, u2).response
  {
  }

  /** A PATCH succeeds exactly when the lookup yields a record with an id and
      the update answers 200; the update is sent only for such a record, with
      that id and the fixed cancellation document. */
  lemma PatchSucceedsIff(event: Event, lookup: LookupOutcome, update: UpdateOutcome)
    requires event.httpMethod == "PATCH" && HasCode(event.query)
    ensures Handle(event, lookup, update).response.statusCode == 200 <==>
      lookup.LookupResolved? && LookupStatusOk(lookup.status) && |lookup.data| == 1 &&
      lookup.data[0].Obj? && Truthy(lookup.data[0].id) && update == UpdateResolved(Some(200))
    ensures forall c :: c in Handle(event, lookup, update).calls && c.UpdateCall? ==>
      lookup.LookupResolved? && |lookup.data| == 1 && lookup.data[0].Obj? &&
      c.id == lookup.data[0].id && c.payload == CancellationPayload
  {
  }

  /** The cancellation document renames the participant to "DELETE", moves it
      to group 7331 and blanks every other field. */
  lemma CancellationPayloadIsFixed()
    ensures CancellationPayload["name"] == Str("DELETE")
    ensures CancellationPayload["groupId"] == Num(7331)
    ensures |CancellationPayload| == 12
    ensures forall k :: k in CancellationPayload && k != "name" && k != "groupId" ==>
      CancellationPayload[k] == Str("")
  {
  }

  /** A rejected update, as when the participant is already gone upstream,
      ends in the cancellation error, never in an exception. */
  lemma PatchRejectedUpdateIsCancelError(event: Event, id: Value, code: Value, slotTime: Value)
    requires event.httpMethod == "PATCH" && HasCode(event.query) && Truthy(id)
    ensures Handle(event, LookupResolved(Some(200), [Obj(id, code, slotTime)]), UpdateRejected).response ==
      Response(500, map[], Some(ErrorText(CancelFailed)))
  {
  }
}
