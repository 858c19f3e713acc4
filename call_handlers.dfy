/**
 * The call endpoints of the backend: starting a call, routing it by the
 * recipient's choice, and fetching it. The `calls` table is a map from id
 * to row; the fresh id, the clock and the outcome of the Redis write are
 * parameters.
 */
module CallHandlers {
  import opened Wrappers
  import opened CallModels

  type Db = map<Uuid, Call>

  /** An error response: HTTP status code and body. */
  datatype HttpError = HttpError(code: nat, message: string)

  const NotFound: nat := 404
  const InternalServerError: nat := 500

  /** The table after the handler ran, and what the handler answered. */
  datatype Outcome<T> = Outcome(db: Db, response: Result<T, HttpError>)

  /** The status a routing choice sets. */
  function RouteStatus(action: CallRouteAction): (s: CallStatus)
    ensures s == InProgress <==> action == Accept || action == Voicemail
    ensures s == Missed <==> action == Decline || action == ScheduleCallback
  {
    match action
    case Accept => InProgress
    case Decline => Missed
    case Voicemail => InProgress
    case ScheduleCallback => Missed
  }

  /** Routing never leaves a call ringing, nor marks it completed, blocked or failed. */
  lemma {:induction false} RouteStatusRange(action: CallRouteAction)
    ensures RouteStatus(action) !in {Ringing, Completed, Blocked, Failed}
  {
  }

  /** The row `start_call` inserts. */
  function NewCall(id: Uuid, req: CallStartRequest, now: Timestamp): (c: Call)
    ensures c.id == id && c.status == Ringing
    ensures c.userId == req.userId && c.callerNumber == req.callerNumber && c.callerName == req.callerName
    ensures c.startedAt == now && c.createdAt == now && c.updatedAt == now
    ensures c.endedAt == None && c.durationSeconds == None
    ensures c.transcription == None && c.spamScore == None && c.intent == None
  {
    Call(id, req.userId, req.callerNumber, req.callerName, Ringing, now,
         None, None, None, None, None, now, now)
  }

  /** start_call. An insert whose id is taken fails with 500; a failed Redis
      write fails with 500 after the row is inserted. */
  function StartCall(db: Db, req: CallStartRequest, id: Uuid, now: Timestamp, sidStored: bool)
    : (o: Outcome<CallResponse>)
    ensures id in db ==> o == Outcome(db, Failure(HttpError(InternalServerError, "Failed to create call")))
    ensures id !in db ==> o.db == db[id := NewCall(id, req, now)]
    ensures id !in db && !sidStored ==> o.response.Failure? && o.response.error.code == InternalServerError
    ensures o.response.Success? <==> id !in db && sidStored
    ensures o.response.Success? ==> o.response.value == CallResponse(id, Ringing, None, None, None)
  {
    if id in db then
      Outcome(db, Failure(HttpError(InternalServerError, "Failed to create call")))
    else
      var call := NewCall(id, req, now);
      var db' := db[id := call];
      if !sidStored then
        Outcome(db', Failure(HttpError(InternalServerError, "Failed to store call SID in Redis")))
      else
        Outcome(db', Success(CallResponse(call.id, call.status, None, None, None)))
  }

  /** route_call: an unknown id is 404 and nothing changes; otherwise only
      the row's status and update time change, and the response echoes the
      updated row. */
  function RouteCall(db: Db, req: CallRouteRequest, now: Timestamp): (o: Outcome<CallResponse>)
    ensures req.callId !in db ==> o == Outcome(db, Failure(HttpError(NotFound, "Call not found")))
    ensures req.callId in db ==>
              var row := db[req.callId];
              var routed := row.(status := RouteStatus(req.action), updatedAt := now);
              && o.db == db[req.callId := routed]
              && o.response == Success(CallResponse(row.id, RouteStatus(req.action),
                                                    row.transcription, row.spamScore, row.intent))
  {
    if req.callId !in db then
      Outcome(db, Failure(HttpError(NotFound, "Call not found")))
    else
      var call := db[req.callId];
      var updated := call.(status := RouteStatus(req.action), updatedAt := now);
      Outcome(db[req.callId := updated],
              Success(CallResponse(updated.id, updated.status, updated.transcription,
                                   updated.spamScore, updated.intent)))
  }

  /** get_call. */
  function GetCall(db: Db, id: Uuid): (r: Result<Call, HttpError>)
    ensures id in db <==> r.Success?
    ensures id in db ==> r.value == db[id]
    ensures id !in db ==> r.error == HttpError(NotFound, "Call not found")
  {
    if id in db then Success(db[id]) else Failure(HttpError(NotFound, "Call not found"))
  }

  /** A table whose keys are the ids of their rows. */
  predicate WellKeyed(db: Db) {
    forall id :: id in db ==> db[id].id == id
  }

  /** Both handlers keep every row stored under its own id, and neither
      removes a row. */
  lemma {:induction false} HandlersKeepTableWellKeyed(db: Db, start: CallStartRequest, id: Uuid, now: Timestamp,
                                                      sidStored: bool, route: CallRouteRequest)
    requires WellKeyed(db)
    ensures var o := StartCall(db, start, id, now, sidStored);
            WellKeyed(o.db) && db.Keys <= o.db.Keys
    ensures var o := RouteCall(db, route, now);
            WellKeyed(o.db) && o.db.Keys == db.Keys
  {
    var o := RouteCall(db, route, now);
    if route.callId in db {
      assert o.db.Keys == db.Keys + {route.callId};
    }
  }

  /** Routing leaves every other call untouched and touches nothing but the
      status and the update time of the routed one. */
  lemma {:induction false} RouteCallFrame(db: Db, req: CallRouteRequest, now: Timestamp)
    requires req.callId in db
    ensures var o := RouteCall(db, req, now);
            && (forall id :: id in db && id != req.callId ==> o.db[id] == db[id])
            && o.db[req.callId].(status := db[req.callId].status, updatedAt := db[req.callId].updatedAt)
               == db[req.callId]
  {
  }

  /** A call just started is ringing; routing it moves it to the action's
      status, echoes the empty analysis fields, and get_call then sees it. */
  lemma {:induction false} StartThenRoute(db: Db, req: CallStartRequest, id: Uuid, t0: Timestamp,
                                          action: CallRouteAction, t1: Timestamp)
    requires id !in db
    ensures var started := StartCall(db, req, id, t0, true);
            var routed := RouteCall(started.db, CallRouteRequest(id, action), t1);
            && GetCall(started.db, id).value.status == Ringing
            && routed.response == Success(CallResponse(id, RouteStatus(action), None, None, None))
            && GetCall(routed.db, id) == Success(NewCall(id, req, t0).(status := RouteStatus(action), updatedAt := t1))
  {
  }

  /** Routing twice with the same action leaves the same status. */
  lemma {:induction false} RouteCallIdempotentStatus(db: Db, req: CallRouteRequest, t1: Timestamp, t2: Timestamp)
    ensures var once := RouteCall(db, req, t1);
            var twice := RouteCall(once.db, req, t2);
            && twice.response == once.response
            && (req.callId in db ==> twice.db == once.db[req.callId := once.db[req.callId].(updatedAt := t2)])
  {
  }
}
