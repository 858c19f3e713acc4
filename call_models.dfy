/**
 * The backend's call records and the request and response bodies of the
 * call endpoints. Identifiers are naturals, timestamps are integers, and
 * the f32 spam score is a real.
 */
module CallModels {
  import opened Wrappers

  type Uuid = nat
  type Timestamp = int

  /** The `call_status` enum of the database. */
  datatype CallStatus = Ringing | InProgress | Completed | Missed | Blocked | Failed

  /** A row of the `calls` table. */
  datatype Call = Call(
    id: Uuid,
    userId: Uuid,
    callerNumber: string,
    callerName: Option<string>,
    status: CallStatus,
    startedAt: Timestamp,
    endedAt: Option<Timestamp>,
    durationSeconds: Option<int>,
    transcription: Option<string>,
    spamScore: Option<real>,
    intent: Option<string>,
    createdAt: Timestamp,
    updatedAt: Timestamp)

  datatype CallStartRequest = CallStartRequest(
    userId: Uuid,
    callerNumber: string,
    callerName: Option<string>,
    twilioCallSid: string)

  datatype CallRouteAction = Accept | Decline | Voicemail | ScheduleCallback

  datatype CallRouteRequest = CallRouteRequest(callId: Uuid, action: CallRouteAction)

  datatype CallResponse = CallResponse(
    id: Uuid,
    status: CallStatus,
    transcription: Option<string>,
    spamScore: Option<real>,
    intent: Option<string>)
}
