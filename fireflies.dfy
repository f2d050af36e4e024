/** The Fireflies connector: the provider's records, the rule that turns a
    GraphQL reply into a result envelope, the two pure projections
    (transcripts to meetings, transcript to actionable content) and the
    connector object whose `initialized` flag the fetches consult. */
module Fireflies {
  import opened Common
  import opened Text

  // ---------------------------------------------------------------------
  // Provider records (the fields the queries ask for)
  // ---------------------------------------------------------------------

  datatype User = User(userId: string, name: string, email: string)

  datatype Participant = Participant(name: string, email: string)

  datatype Sentence = Sentence(text: string, speakerName: string, startTime: int)

  datatype Summary = Summary(
    overview: Option<string>,
    keywords: Option<seq<string>>,
    actionItems: Option<seq<string>>)

  /** A transcript as the provider returns it; `date` is in milliseconds and
      `duration` in whole seconds. */
  datatype Transcript = Transcript(
    id: string,
    title: string,
    date: int,
    duration: int,
    meetingUrl: string,
    participants: Option<seq<Participant>>,
    summary: Option<Summary>,
    sentences: Option<seq<Sentence>>)

  // ---------------------------------------------------------------------
  // The provider as an oracle
  // ---------------------------------------------------------------------

  /** The three GraphQL queries; only the values placed into the query text
      (the result limit and the transcript id) are kept. */
  datatype Query = UserQuery | TranscriptsQuery(limit: int) | TranscriptQuery(id: string)

  /** The `data` object of a GraphQL reply. */
  datatype Payload = Payload(
    user: Option<User>,
    transcripts: Option<seq<Transcript>>,
    transcript: Option<Transcript>)

  /** What one POST to the provider yields: the request or the JSON decoding
      failed with a message, or a body with an optional `errors` list (each
      entry's `message`) and an optional `data` object. */
  datatype Reply = TransportFailure(message: string) | Body(errors: Option<seq<string>>, data: Option<Payload>)

  /** The network: the reply to the request sent as the k-th one. */
  type Provider = (nat, Query) -> Reply

  // ---------------------------------------------------------------------
  // Result envelopes
  // ---------------------------------------------------------------------

  /** `{success, message?, error?, user?}` as returned by `initialize` and
      `testConnection`. */
  datatype ConnectionResult = ConnectionResult(
    success: bool,
    message: Option<string>,
    error: Option<string>,
    user: Option<User>)

  function Failure(error: string): ConnectionResult {
    ConnectionResult(false, None, Some(error), None)
  }

  /** `{success: true}`, what `initialize` returns after a successful probe. */
  const Initialized := ConnectionResult(true, None, None, None)

  const MissingKeyMessage := "Missing Fireflies API key"

  const NoUserDataMessage := "No user data received"

  /** `{success, transcripts, error?}` of `getRecentTranscripts`. */
  datatype TranscriptsResult = TranscriptsResult(success: bool, transcripts: seq<Transcript>, error: Option<string>)

  /** `{success, transcript?, error?}` of `getTranscriptById`. */
  datatype TranscriptResult = TranscriptResult(success: bool, transcript: Option<Transcript>, error: Option<string>)

  /** The domain meeting: a lossy projection of a transcript. */
  datatype Meeting = Meeting(
    id: string,
    title: string,
    date: int,
    duration: string,
    attendees: nat,
    actionItems: seq<string>)

  /** `{success, meetings?, error?}`; the connector always fills `meetings`,
      the route handler also accepts a result without it. */
  datatype MeetingsResult = MeetingsResult(success: bool, meetings: Option<seq<Meeting>>, error: Option<string>)

  /** What `extractActionableContent` derives from one transcript. */
  datatype ActionableContent = ActionableContent(
    title: string,
    actionItems: seq<string>,
    keywords: seq<string>,
    overview: string,
    urgentSentences: seq<Sentence>,
    participants: seq<string>,
    duration: int,
    meetingUrl: string)

  // ---------------------------------------------------------------------
  // From a reply to a result
  // ---------------------------------------------------------------------

  /** The message `makeGraphQLRequest` throws for a reply carrying an errors
      list: the first entry's message, or the TypeError of reading `message`
      of the missing first entry. */
  function FirstErrorMessage(errors: seq<string>): string {
    if |errors| > 0 then errors[0] else UndefinedRead("message")
  }

  /** `makeGraphQLRequest`: a transport failure rethrows, a body with an
      `errors` field throws even when `data` is present, any other body is
      returned. */
  function RequestOutcome(reply: Reply): (o: Outcome<Option<Payload>>)
    ensures o.Returned? <==> reply.Body? && reply.errors.None?
    ensures o.Returned? ==> o.value == reply.data
    ensures reply.TransportFailure? ==> o == Raised(reply.message)
    ensures reply.Body? && reply.errors.Some? ==> o == Raised(FirstErrorMessage(reply.errors.value))
  {
    match reply
    case TransportFailure(msg) => Raised(msg)
    case Body(errors, data) =>
      if errors.Some? then Raised(FirstErrorMessage(errors.value)) else Returned(data)
  }

  /** The part of `testConnection` after the request: every thrown error is
      caught into a failure. */
  function ConnectionFrom(o: Outcome<Option<Payload>>): ConnectionResult {
    match o
    case Raised(msg) => Failure(msg)
    case Returned(data) =>
      if data.Some? && data.value.user.Some? then
        ConnectionResult(true, Some("Connected: " + data.value.user.value.name), None, data.value.user)
      else
        Failure(NoUserDataMessage)
  }

  /** The message of a failed probe on this reply. */
  function ProbeError(reply: Reply): string {
    match reply
    case TransportFailure(msg) => msg
    case Body(errors, _) => if errors.Some? then FirstErrorMessage(errors.value) else NoUserDataMessage
  }

  /** `testConnection` on a reply: success exactly when the reply carries no
      errors and a `data.user`; it is then announced by name, otherwise the
      result is a failure with the reply's error. */
  function Probe(reply: Reply): (r: ConnectionResult)
    ensures r.success <==> reply.Body? && reply.errors.None? && reply.data.Some? && reply.data.value.user.Some?
    ensures r.success ==> r.message == Some("Connected: " + reply.data.value.user.value.name)
                          && r.user == reply.data.value.user && r.error.None?
    ensures !r.success ==> r == Failure(ProbeError(reply))
  {
    ConnectionFrom(RequestOutcome(reply))
  }

  /** The message of a failed fetch whose result is read from `data.<prop>`:
      the transport message, the first GraphQL error (or the TypeError for an
      empty list), or the TypeError of reading `prop` when `data` is missing. */
  function FetchError(reply: Reply, prop: string): string {
    match reply
    case TransportFailure(msg) => msg
    case Body(errors, _) => if errors.Some? then FirstErrorMessage(errors.value) else UndefinedRead(prop)
  }

  /** The part of `getRecentTranscripts` after the request. */
  function TranscriptsFrom(o: Outcome<Option<Payload>>): TranscriptsResult {
    match o
    case Raised(msg) => TranscriptsResult(false, [], Some(msg))
    case Returned(data) =>
      if data.None? then TranscriptsResult(false, [], Some(UndefinedRead("transcripts")))
      else TranscriptsResult(true, data.value.transcripts.GetOr([]), None)
  }

  /** `getRecentTranscripts` on a reply: success exactly when the reply
      carries no errors and a `data` object; a missing list reads as empty; a
      failure carries the reply's error and an empty list. */
  function FetchTranscripts(reply: Reply): (r: TranscriptsResult)
    ensures r.success <==> reply.Body? && reply.errors.None? && reply.data.Some?
    ensures r.success ==> r.transcripts == reply.data.value.transcripts.GetOr([]) && r.error.None?
    ensures !r.success ==> r == TranscriptsResult(false, [], Some(FetchError(reply, "transcripts")))
  {
    TranscriptsFrom(RequestOutcome(reply))
  }

  /** The part of `getTranscriptById` after the request. */
  function TranscriptFrom(o: Outcome<Option<Payload>>): TranscriptResult {
    match o
    case Raised(msg) => TranscriptResult(false, None, Some(msg))
    case Returned(data) =>
      if data.None? then TranscriptResult(false, None, Some(UndefinedRead("transcript")))
      else TranscriptResult(true, data.value.transcript, None)
  }

  /** `getTranscriptById` on a reply: success exactly when the reply carries
      no errors and a `data` object, with the transcript passed on as it is
      (possibly absent); a failure carries the reply's error and no
      transcript. */
  function FetchTranscript(reply: Reply): (r: TranscriptResult)
    ensures r.success <==> reply.Body? && reply.errors.None? && reply.data.Some?
    ensures r.success ==> r.transcript == reply.data.value.transcript && r.error.None?
    ensures !r.success ==> r == TranscriptResult(false, None, Some(FetchError(reply, "transcript")))
  {
    TranscriptFrom(RequestOutcome(reply))
  }

  // ---------------------------------------------------------------------
  // Transcripts to meetings
  // ---------------------------------------------------------------------

  /** `Math.round(seconds / 60)`: the nearest whole minute, halves rounded up. */
  function RoundedMinutes(seconds: int): (m: int)
    ensures 60 * m <= seconds + 30 < 60 * m + 60
  {
    (seconds + 30) / 60
  }

  /** Rounding agrees with the real-number definition floor(x + 1/2). */
  lemma RoundedMinutesIsRound(seconds: int)
    ensures RoundedMinutes(seconds) == (seconds as real / 60.0 + 0.5).Floor
  {
    var m := RoundedMinutes(seconds);
    var x := seconds as real / 60.0 + 0.5;
    assert (60 * m) as real <= seconds as real + 30.0 < (60 * m + 60) as real;
    assert m as real <= x < m as real + 1.0;
  }

  /** The `"<minutes>m"` text of a duration in seconds: a non-empty count,
      with a minus sign only for durations that round below zero, then `m`. */
  function DurationText(seconds: int): (r: string)
    ensures |r| >= 2 && r[|r| - 1] == 'm'
    ensures r[0] == '-' <==> RoundedMinutes(seconds) < 0
  {
    IntText(RoundedMinutes(seconds)) + "m"
  }

  /** A duration text is a minute count followed by `m`; for durations that do
      not round below zero that count is a plain numeral whose value is the
      rounded minutes. */
  lemma DurationTextReadsBack(seconds: int)
    requires seconds >= -30
    ensures var t := DurationText(seconds);
            |t| >= 2 && t[|t| - 1] == 'm'
            && IsDecimal(t[..|t| - 1]) && DigitsValue(t[..|t| - 1]) == RoundedMinutes(seconds)
  {
    var t := DurationText(seconds);
    NatTextRoundTrip(RoundedMinutes(seconds));
    assert t[..|t| - 1] == NatText(RoundedMinutes(seconds));
  }

  /** The worked durations: whole minutes, a half minute rounding up, and
      just under half a minute rounding down. */
  lemma DurationExamples()
    ensures DurationText(1800) == "30m"
    ensures DurationText(2700) == "45m"
    ensures DurationText(30) == "1m"
    ensures DurationText(29) == "0m"
    ensures DurationText(90) == "2m"
  {
    assert NatText(30) == "30";
    assert NatText(45) == "45";
  }

  /** The meeting for one transcript: identity fields copied, duration in
      rounded minutes, attendees the participant count, action items those of
      the summary, with absent fields giving 0 and the empty list. */
  function ToMeeting(t: Transcript): (m: Meeting)
    ensures m.id == t.id && m.title == t.title && m.date == t.date
    ensures m.duration == DurationText(t.duration)
    ensures m.attendees == if t.participants.Some? then |t.participants.value| else 0
    ensures m.actionItems == if t.summary.Some? then t.summary.value.actionItems.GetOr([]) else []
  {
    Meeting(
      t.id,
      t.title,
      t.date,
      DurationText(t.duration),
      if t.participants.Some? then |t.participants.value| else 0,
      if t.summary.Some? then t.summary.value.actionItems.GetOr([]) else [])
  }

  /** `transcripts.map(...)`: one meeting per transcript. */
  function MeetingsOf(ts: seq<Transcript>): (ms: seq<Meeting>)
    ensures |ms| == |ts|
  {
    if ts == [] then [] else [ToMeeting(ts[0])] + MeetingsOf(ts[1..])
  }

  /** The meetings list projects the transcripts list position by position:
      same length, same order, the i-th meeting made from the i-th transcript. */
  lemma {:induction false} MeetingsOfProjects(ts: seq<Transcript>)
    ensures |MeetingsOf(ts)| == |ts|
    ensures forall i :: 0 <= i < |ts| ==> MeetingsOf(ts)[i] == ToMeeting(ts[i])
  {
    if ts != [] {
      MeetingsOfProjects(ts[1..]);
      forall i | 0 <= i < |ts| ensures MeetingsOf(ts)[i] == ToMeeting(ts[i]) {
        if i > 0 {
          assert MeetingsOf(ts)[i] == MeetingsOf(ts[1..])[i - 1];
        }
      }
    }
  }

  /** The meetings envelope `getMeetings` builds from the transcripts result:
      success is passed on, the list is always present, empty on failure. */
  function MeetingsResultOf(tr: TranscriptsResult): (r: MeetingsResult)
    ensures r.success == tr.success && r.meetings.Some?
    ensures tr.success ==> r.meetings.value == MeetingsOf(tr.transcripts) && r.error.None?
    ensures !tr.success ==> r.meetings.value == [] && r.error == tr.error
  {
    if tr.success then MeetingsResult(true, Some(MeetingsOf(tr.transcripts)), None)
    else MeetingsResult(false, Some([]), tr.error)
  }

  // ---------------------------------------------------------------------
  // Actionable content
  // ---------------------------------------------------------------------

  /** The sentence text, lowercased, mentions one of the urgency keywords
      "urgent", "deadline", "asap" or "priority". */
  predicate IsUrgent(text: string)
    ensures IsUrgent(text) ==> |text| >= |"asap"|
  {
    var t := LowerStr(text);
    Contains(t, "urgent") || Contains(t, "deadline") || Contains(t, "asap") || Contains(t, "priority")
  }

  /** `sentences.filter(...)` with the urgency test. */
  function UrgentSentences(ss: seq<Sentence>): (r: seq<Sentence>)
    ensures |r| <= |ss|
    ensures forall s :: s in r ==> s in ss && IsUrgent(s.text)
  {
    if ss == [] then []
    else if IsUrgent(ss[0].text) then [ss[0]] + UrgentSentences(ss[1..])
    else UrgentSentences(ss[1..])
  }

  /** The positions, from `from` on, of the urgent sentences, in increasing
      order: the reference the filter is checked against. */
  ghost function UrgentPositions(ss: seq<Sentence>, from: nat): seq<nat>
    decreases |ss| - from
  {
    if from >= |ss| then []
    else (if IsUrgent(ss[from].text) then [from] else []) + UrgentPositions(ss, from + 1)
  }

  /** The positions from `from` on lie in range, increase strictly, and are
      exactly the positions of urgent sentences. */
  lemma {:induction false} UrgentPositionsFrom(ss: seq<Sentence>, from: nat)
    requires from <= |ss|
    ensures var pos := UrgentPositions(ss, from);
            && (forall k :: 0 <= k < |pos| ==> from <= pos[k] < |ss|)
            && (forall k, l :: 0 <= k < l < |pos| ==> pos[k] < pos[l])
            && (forall i :: from <= i < |ss| ==> (IsUrgent(ss[i].text) <==> i in pos))
    decreases |ss| - from
  {
    if from < |ss| {
      UrgentPositionsFrom(ss, from + 1);
      var pos, pos' := UrgentPositions(ss, from), UrgentPositions(ss, from + 1);
      if IsUrgent(ss[from].text) {
        assert pos == [from] + pos';
        forall k, l | 0 <= k < l < |pos| ensures pos[k] < pos[l] {
          assert pos[l] == pos'[l - 1];
          if k > 0 { assert pos[k] == pos'[k - 1]; }
        }
      } else {
        assert pos == pos';
      }
    }
  }

  /** The filter of the sentences from `from` on reads the sentences at the
      urgent positions, one entry per position. */
  lemma {:induction false} UrgentSentencesFrom(ss: seq<Sentence>, from: nat)
    requires from <= |ss|
    ensures var r, pos := UrgentSentences(ss[from..]), UrgentPositions(ss, from);
            && |r| == |pos|
            && (forall k :: 0 <= k < |pos| ==> 0 <= pos[k] < |ss| && r[k] == ss[pos[k]])
    decreases |ss| - from
  {
    UrgentPositionsFrom(ss, from);
    if from < |ss| {
      UrgentSentencesFrom(ss, from + 1);
      var r, pos := UrgentSentences(ss[from..]), UrgentPositions(ss, from);
      var r', pos' := UrgentSentences(ss[from + 1..]), UrgentPositions(ss, from + 1);
      assert ss[from..][1..] == ss[from + 1..];
      assert ss[from..][0] == ss[from];
      if IsUrgent(ss[from].text) {
        assert r == [ss[from]] + r';
        assert pos == [from] + pos';
        forall k | 0 <= k < |pos| ensures 0 <= pos[k] < |ss| && r[k] == ss[pos[k]] {
          if k > 0 { assert pos[k] == pos'[k - 1] && r[k] == r'[k - 1]; }
        }
      } else {
        assert r == r';
        assert pos == pos';
      }
    }
  }

  /** `urgentSentences` keeps exactly the urgent sentences, in their original
      order, each occurrence once: it is the input read at a strictly
      increasing list of positions, and that list holds every urgent position
      and no other. */
  lemma UrgentSentencesSpec(ss: seq<Sentence>)
    ensures var r, pos := UrgentSentences(ss), UrgentPositions(ss, 0);
            && |r| == |pos|
            && (forall k :: 0 <= k < |pos| ==> pos[k] < |ss| && r[k] == ss[pos[k]])
            && (forall k, l :: 0 <= k < l < |pos| ==> pos[k] < pos[l])
            && (forall i :: 0 <= i < |ss| ==> (IsUrgent(ss[i].text) <==> i in pos))
  {
    UrgentSentencesFrom(ss, 0);
    UrgentPositionsFrom(ss, 0);
    assert ss[0..] == ss;
  }

  /** The names of the participants, in order. */
  function Names(ps: seq<Participant>): (names: seq<string>)
    ensures |names| == |ps|
    ensures forall i :: 0 <= i < |ps| ==> names[i] == ps[i].name
  {
    if ps == [] then [] else [ps[0].name] + Names(ps[1..])
  }

  /** `extractActionableContent`: summary fields with their defaults (empty
      list, empty overview), the urgent sentences, the participant names, and
      title, duration and URL copied. */
  function ExtractActionableContent(t: Transcript): (c: ActionableContent)
    ensures c.title == t.title && c.duration == t.duration && c.meetingUrl == t.meetingUrl
    ensures t.summary.None? ==> c.actionItems == [] && c.keywords == [] && c.overview == ""
    ensures t.summary.Some? ==> c.actionItems == t.summary.value.actionItems.GetOr([])
                                && c.keywords == t.summary.value.keywords.GetOr([])
                                && c.overview == t.summary.value.overview.GetOr("")
    ensures c.urgentSentences == UrgentSentences(t.sentences.GetOr([]))
    ensures forall s :: s in c.urgentSentences ==> s in t.sentences.GetOr([]) && IsUrgent(s.text)
    ensures t.participants.None? ==> c.participants == []
    ensures t.participants.Some? ==> |c.participants| == |t.participants.value|
                                     && forall i :: 0 <= i < |c.participants| ==> c.participants[i] == t.participants.value[i].name
  {
    var summary := t.summary.GetOr(Summary(None, None, None));
    var sentences := t.sentences.GetOr([]);
    ActionableContent(
      t.title,
      summary.actionItems.GetOr([]),
      summary.keywords.GetOr([]),
      summary.overview.GetOr(""),
      UrgentSentences(sentences),
      if t.participants.Some? then Names(t.participants.value) else [],
      t.duration,
      t.meetingUrl)
  }

  /** `extractActionableContent` on what a by-id fetch may pass on: an absent
      transcript throws on the first property read, `summary`, whose optional
      chaining guards only the read of its fields. */
  function ExtractFromFetched(t: Option<Transcript>): (o: Outcome<ActionableContent>)
    ensures t.None? ==> o == Raised(UndefinedRead("summary"))
    ensures t.Some? ==> o == Returned(ExtractActionableContent(t.value))
  {
    match t
    case None => Raised(UndefinedRead("summary"))
    case Some(transcript) => Returned(ExtractActionableContent(transcript))
  }

  /** A by-id reply whose `data` lacks the transcript is a successful fetch,
      and extracting from what it passes on throws. */
  lemma AbsentTranscriptFetchedThenThrows(reply: Reply)
    requires reply.Body? && reply.errors.None? && reply.data.Some? && reply.data.value.transcript.None?
    ensures FetchTranscript(reply).success
    ensures ExtractFromFetched(FetchTranscript(reply).transcript) == Raised(UndefinedRead("summary"))
  {
  }

  /** A text with a capitalised keyword in the middle counts as urgent. */
  lemma ShoutedKeywordIsUrgent(text: string, before: string, keyword: string, after: string)
    requires keyword == "URGENT"
    requires text == before + keyword + after
    ensures IsUrgent(text)
  {
    LowerStrConcat(before + keyword, after);
    LowerStrConcat(before, keyword);
    assert LowerStr(keyword) == "urgent";
    var lowered := LowerStr(before) + "urgent" + LowerStr(after);
    assert lowered[|LowerStr(before)|..|LowerStr(before)| + 6] == "urgent";
    ContainsAt(lowered, "urgent", |LowerStr(before)|);
  }

  /** A text in which none of the keywords' first letters occurs after
      lowering is not urgent. */
  lemma NoKeywordLetterIsNotUrgent(text: string)
    requires forall i :: 0 <= i < |text| ==> Lower(text[i]) !in "udap"
    ensures !IsUrgent(text)
  {
    var lowered := LowerStr(text);
    NotContained(lowered, "urgent");
    NotContained(lowered, "deadline");
    NotContained(lowered, "asap");
    NotContained(lowered, "priority");
  }

  /** The two example texts: one urgent, one not. */
  lemma ExampleTexts(loud: string, quiet: string)
    requires loud == "This is URGENT, deadline tomorrow"
    requires quiet == "Nice to meet everyone"
    ensures IsUrgent(loud) && !IsUrgent(quiet)
  {
    assert loud == "This is " + "URGENT" + ", deadline tomorrow";
    ShoutedKeywordIsUrgent(loud, "This is ", "URGENT", ", deadline tomorrow");
    NoKeywordLetterIsNotUrgent(quiet);
  }

  /** A sentence shouting two keywords in capitals is kept, once; a sentence
      without a keyword is dropped. */
  lemma UrgentExample(t: Transcript, loud: Sentence, quiet: Sentence)
    requires loud.text == "This is URGENT, deadline tomorrow"
    requires quiet.text == "Nice to meet everyone"
    requires t.sentences == Some([loud, quiet])
    ensures ExtractActionableContent(t).urgentSentences == [loud]
  {
    ExampleTexts(loud.text, quiet.text);
    assert [loud, quiet][1..] == [quiet];
    assert UrgentSentences([quiet]) == [];
    assert UrgentSentences([loud, quiet]) == [loud];
  }


  // ---------------------------------------------------------------------
  // The connector object
  // ---------------------------------------------------------------------

  /** The connector. The API key is a constructor parameter here; the shipped
      constructor falls back to a compiled-in key, which makes the missing-key
      branch of `Initialize` unreachable there. `sent` records every query
      sent, in order, so the k-th one got the reply `provider(k, query)`. */
  class FirefliesService {
    const apiKey: string
    const provider: Provider
    var initialized: bool
    var sent: seq<Query>
    /** Where the probe that set `initialized` sits in `sent`. */
    ghost var okProbe: nat

    /** `initialized` is set only by a successful probe, sent with a key. */
    ghost predicate Valid()
      reads this
    {
      initialized ==>
        apiKey != "" && okProbe < |sent| && sent[okProbe] == UserQuery
        && Probe(provider(okProbe, UserQuery)).success
    }

    /** The probes a fetch sends before its query: one lazy `initialize`,
        which probes only when a key is configured. */
    function LazyInitProbes(wasInitialized: bool): seq<Query> {
      if wasInitialized || apiKey == "" then [] else [UserQuery]
    }

    /** The probes `getMeetings` sends before its query when the log held
        `at` queries: none when already initialised or without a key, one
        when it succeeds, and a second one from the lazy `initialize` of
        `getRecentTranscripts` when the first fails. */
    function MeetingsProbes(wasInitialized: bool, at: nat): seq<Query> {
      if wasInitialized || apiKey == "" then []
      else if Probe(provider(at, UserQuery)).success then [UserQuery]
      else [UserQuery, UserQuery]
    }

    constructor (apiKey: string, provider: Provider)
      ensures Valid()
      ensures this.apiKey == apiKey && this.provider == provider
      ensures !initialized && sent == []
    {
      this.apiKey := apiKey;
      this.provider := provider;
      initialized := false;
      sent := [];
      okProbe := 0;
    }

    /** `makeGraphQLRequest`: send one query, apply the error-list rule. */
    method MakeGraphQLRequest(query: Query) returns (o: Outcome<Option<Payload>>)
      requires Valid()
      modifies this`sent
      ensures Valid()
      ensures sent == old(sent) + [query]
      ensures o == RequestOutcome(provider(|old(sent)|, query))
    {
      var reply := provider(|sent|, query);
      sent := sent + [query];
      o := RequestOutcome(reply);
    }

    /** `testConnection`: one user query; never throws. */
    method TestConnection() returns (r: ConnectionResult)
      requires Valid()
      modifies this`sent
      ensures Valid()
      ensures sent == old(sent) + [UserQuery]
      ensures r == Probe(provider(|old(sent)|, UserQuery))
    {
      var o := MakeGraphQLRequest(UserQuery);
      r := ConnectionFrom(o);
    }

    /** `initialize`: without a key, fail without probing and leave the flag;
        otherwise probe once, set the flag on success (it is never cleared)
        and pass a failed probe's result on unchanged. */
    method Initialize() returns (r: ConnectionResult)
      requires Valid()
      modifies this`initialized, this`sent, this`okProbe
      ensures Valid()
      ensures apiKey == "" ==> r == Failure(MissingKeyMessage) && sent == old(sent) && initialized == old(initialized)
      ensures apiKey != "" ==> sent == old(sent) + [UserQuery]
      ensures apiKey != "" ==>
                var p := Probe(provider(|old(sent)|, UserQuery));
                initialized == (old(initialized) || p.success)
                && r == if p.success then Initialized else p
    {
      if apiKey == "" {
        return Failure(MissingKeyMessage);
      }
      var probe := TestConnection();
      if probe.success {
        initialized := true;
        okProbe := |sent| - 1;
        r := Initialized;
      } else {
        r := probe;
      }
    }

    /** `getRecentTranscripts(limit)`, with `limit` 10 when omitted:
        initialise lazily, then send the transcripts query whatever the
        initialisation gave. */
    method GetRecentTranscripts(limit: int := DefaultLimit) returns (r: TranscriptsResult)
      requires Valid()
      modifies this`initialized, this`sent, this`okProbe
      ensures Valid()
      ensures sent == old(sent) + LazyInitProbes(old(initialized)) + [TranscriptsQuery(limit)]
      ensures initialized == (old(initialized) || (LazyInitProbes(old(initialized)) != []
                                                   && Probe(provider(|old(sent)|, UserQuery)).success))
      ensures r == FetchTranscripts(provider(|sent| - 1, TranscriptsQuery(limit)))
    {
      if !initialized {
        var _ := Initialize();
      }
      var o := MakeGraphQLRequest(TranscriptsQuery(limit));
      r := TranscriptsFrom(o);
    }

    /** `getTranscriptById(id)`: initialise lazily, then send the by-id query
        whatever the initialisation gave. */
    method GetTranscriptById(id: string) returns (r: TranscriptResult)
      requires Valid()
      modifies this`initialized, this`sent, this`okProbe
      ensures Valid()
      ensures sent == old(sent) + LazyInitProbes(old(initialized)) + [TranscriptQuery(id)]
      ensures initialized == (old(initialized) || (LazyInitProbes(old(initialized)) != []
                                                   && Probe(provider(|old(sent)|, UserQuery)).success))
      ensures r == FetchTranscript(provider(|sent| - 1, TranscriptQuery(id)))
    {
      if !initialized {
        var _ := Initialize();
      }
      var o := MakeGraphQLRequest(TranscriptQuery(id));
      r := TranscriptFrom(o);
    }

    /** `getMeetings`: initialise lazily, fetch ten transcripts (which
        initialises lazily once more, so a failed first probe is retried)
        and project them to meetings. */
    method GetMeetings() returns (r: MeetingsResult)
      requires Valid()
      modifies this`initialized, this`sent, this`okProbe
      ensures Valid()
      ensures sent == old(sent) + MeetingsProbes(old(initialized), |old(sent)|) + [TranscriptsQuery(MeetingsLimit)]
      ensures initialized == (old(initialized) || (apiKey != "" &&
                (Probe(provider(|old(sent)|, UserQuery)).success || Probe(provider(|old(sent)| + 1, UserQuery)).success)))
      ensures r == MeetingsResultOf(FetchTranscripts(provider(|sent| - 1, TranscriptsQuery(MeetingsLimit))))
    {
      if !initialized {
        var _ := Initialize();
      }
      var transcripts := GetRecentTranscripts(MeetingsLimit);
      r := MeetingsResultOf(transcripts);
    }
  }

  /** The number of transcripts `getRecentTranscripts` asks for when called
      without a limit. */
  const DefaultLimit := 10

  /** The number of transcripts `getMeetings` asks for. */
  const MeetingsLimit := 10
}
