/** The response values of the three HTTP routes: aggregate status, the
    meetings listing with its demo-data fallback, and the single-provider
    test. Sending them is left to the transport layer. */
module Endpoints {
  import opened Common
  import opened Fireflies
  import opened Integrations

  /** Milliseconds in one day. */
  const DayMillis := 24 * 60 * 60 * 1000

  const DemoAdvisory := "Using demo data - configure Fireflies API to see real meetings"

  const TestCompleted := "Test completed"

  /** The three placeholder meetings, dated today, yesterday and two days
      before `now` (in milliseconds). */
  function DemoMeetings(now: int): (ms: seq<Meeting>)
    ensures |ms| == 3
    ensures ms[0].id == "demo-1" && ms[1].id == "demo-2" && ms[2].id == "demo-3"
    ensures ms[0].duration == "30m" && ms[1].duration == "45m" && ms[2].duration == "60m"
    ensures ms[0].attendees == 5 && ms[1].attendees == 3 && ms[2].attendees == 8
    ensures ms[0].date == now && ms[1].date == now - 86_400_000 && ms[2].date == now - 172_800_000
    ensures ms[0].date > ms[1].date > ms[2].date
    ensures forall i :: 0 <= i < |ms| ==> |ms[i].actionItems| > 0
  {
    [ Meeting("demo-1", "Weekly Team Standup", now, "30m", 5,
              ["Review sprint goals", "Update client on progress", "Schedule design review"]),
      Meeting("demo-2", "Client Discovery Call - TechCorp", now - DayMillis, "45m", 3,
              ["Send proposal draft", "Schedule technical demo"]),
      Meeting("demo-3", "Product Strategy Meeting", now - 2 * DayMillis, "60m", 8,
              ["Finalize Q1 roadmap", "Research competitor features", "Update pricing model"]) ]
  }

  /** The meetings route's JSON: `{success, meetings, count, message?}`. */
  datatype MeetingsResponse = MeetingsResponse(success: bool, meetings: seq<Meeting>, count: nat, message: Option<string>)

  /** The meetings route: `call` is what the registry call did (threw, or
      returned a possibly missing result). The response always reports
      success and a count equal to the number of meetings; live meetings are
      shown when the result is successful, the demo meetings with the
      advisory when it is missing or unsuccessful, and an empty list when
      the call threw. */
  function MeetingsEndpoint(call: Outcome<Option<MeetingsResult>>, now: int): (r: MeetingsResponse)
    ensures r.success && r.count == |r.meetings|
    ensures call.Raised? ==> r.meetings == [] && r.message.None?
    ensures call.Returned? && call.value.Some? && call.value.value.success ==>
              r.meetings == call.value.value.meetings.GetOr([]) && r.message.None?
    ensures call.Returned? && !(call.value.Some? && call.value.value.success) ==>
              r.meetings == DemoMeetings(now) && r.count == 3 && r.message == Some(DemoAdvisory)
  {
    match call
    case Raised(_) => MeetingsResponse(true, [], 0, None)
    case Returned(result) =>
      if result.Some? && result.value.success then
        // the count is the length of the list, 0 when it is missing
        var meetings := result.value.meetings.GetOr([]);
        MeetingsResponse(true, meetings, |meetings|, None)
      else
        MeetingsResponse(true, DemoMeetings(now), 3, Some(DemoAdvisory))
  }

  /** End to end: a successful fetch of transcripts is listed as one meeting
      per transcript, in order; a failed fetch is listed as the three demo
      meetings; the response succeeds either way. */
  lemma MeetingsRouteOverConnector(tr: TranscriptsResult, now: int)
    ensures var r := MeetingsEndpoint(Returned(Some(GuardedMeetings(Returned(MeetingsResultOf(tr))))), now);
            && r.success
            && (tr.success ==> r.meetings == MeetingsOf(tr.transcripts) && r.count == |tr.transcripts|)
            && (!tr.success ==> r.meetings == DemoMeetings(now) && r.count == 3)
  {
  }

  /** The status route's JSON: `{success, integrations, error?}`. */
  datatype StatusResponse = StatusResponse(success: bool, integrations: map<string, ConnectionResult>, error: Option<string>)

  /** The status route: the registry's map under `integrations` with success,
      or a failure with the error and an empty map when the call threw. */
  function StatusEndpoint(call: Outcome<map<string, ConnectionResult>>): (r: StatusResponse)
    ensures r.success <==> call.Returned?
    ensures call.Returned? ==> r.integrations == call.value && r.error.None?
    ensures call.Raised? ==> r.integrations == map[] && r.error == Some(call.message)
  {
    match call
    case Returned(status) => StatusResponse(true, status, None)
    case Raised(msg) => StatusResponse(false, map[], Some(msg))
  }

  /** The test route's JSON: `{success, message?, error?}`. */
  datatype TestResponse = TestResponse(success: bool, message: Option<string>, error: Option<string>)

  /** The message shown by the test route: the result's own message, with an
      absent or empty one replaced by the default. */
  function MessageOrDefault(message: Option<string>): (m: string)
    ensures m != ""
    ensures message.Some? && message.value != "" ==> m == message.value
    ensures message.None? || message.value == "" ==> m == TestCompleted
  {
    if message.Some? && message.value != "" then message.value else TestCompleted
  }

  /** The test route: success and error copied from the result, the message
      defaulted; when the call threw, a failure with the error and no
      message. */
  function TestEndpoint(call: Outcome<ConnectionResult>): (r: TestResponse)
    ensures call.Returned? ==> r.success == call.value.success && r.error == call.value.error
                               && r.message == Some(MessageOrDefault(call.value.message))
    ensures call.Raised? ==> !r.success && r.message.None? && r.error == Some(call.message)
  {
    match call
    case Returned(result) => TestResponse(result.success, Some(MessageOrDefault(result.message)), result.error)
    case Raised(msg) => TestResponse(false, None, Some(msg))
  }

  /** A successful Fireflies test shows the connected user's name, a failed
      one the default message and the probe's error; an unknown provider
      shows the default message and the error naming it. */
  lemma TestRouteOverRegistry(reply: Reply, name: string)
    ensures var r := TestEndpoint(Returned(Probe(reply)));
            r.success ==> r.message == Some("Connected: " + reply.data.value.user.value.name)
    ensures var r := TestEndpoint(Returned(Probe(reply)));
            !r.success ==> r.message == Some(TestCompleted) && r.error == Some(ProbeError(reply))
    ensures var r := TestEndpoint(Returned(NotImplemented(name)));
            !r.success && r.message == Some(TestCompleted) && r.error == NotImplemented(name).error
  {
  }
}
