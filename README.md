# Integration backend of Dgenz AI Hub, modelled in Dafny

This project models the backend's integration layer. It covers three parts:

- **The Fireflies connector** (`FirefliesService`). It holds an `initialized` flag, which
  `initialize` sets only after a successful connectivity probe. It turns every GraphQL
  reply into a `{success, error}` envelope. It projects provider transcripts to meetings
  and extracts actionable content from one transcript.
- **The integration registry** (`IntegrationService`). It owns one long-lived connector.
  It builds the aggregate status map over eight fixed provider names. It dispatches
  connectivity tests by name, ignoring case, and passes the meetings result through.
- **The response values of the three routes** in `enhanced-endpoints.js`. The central one
  is the meetings route, which falls back to three demo meetings.

The network is an oracle. A `Provider` is a function `(k, query) -> Reply`: the reply to
the k-th request sent. The connector keeps the log `sent` of every query it sent, in
order. So "does not probe", "probes once" and "probes twice" are statements about `sent`.
A `Reply` is either a transport failure with a message, or a JSON body with an optional
`errors` list and an optional `data` object.

The clock is the parameter `now` (in milliseconds). The API key is a constructor parameter.

Files:

- `common.dfy`: optional fields, the outcome of a call that may throw, and the engine's
  TypeError text.
- `text.dfy`: ASCII lowercasing, substring search and decimal printing, with their lemmas.
- `fireflies.dfy`: the connector.
- `integrations.dfy`: the registry.
- `endpoints.dfy`: the route responses.

Behaviour of the code that the model keeps:

- `initialize` is not idempotent: it probes on every call, and only the fetches consult
  `initialized` before probing. As a consequence, `getMeetings` on an uninitialised
  connector whose first probe fails probes a second time, through the lazy `initialize`
  inside `getRecentTranscripts` (`FirefliesService.MeetingsProbes`).
- A missing API key gives the error `Missing Fireflies API key`, without any request.
- An `errors` field that is present but empty still counts as a failure. Its message is
  then the TypeError of reading `message` of an undefined first entry.
- A reply without `data` gives different results in different places. `testConnection`
  reports `No user data received`. The two transcript fetches fail with the TypeError of
  reading `transcripts` or `transcript`.

The list query (`backend/src/services/firefliesService.js:97-117`) does not request
`participants`. Against the real provider, `attendees` would therefore always be 0. The
oracle here may return participants, and the projection counts them as the code does.

## Model

| member | source | states |
|---|---|---|
| `Text.LowerStr` | backend/src/services/firefliesService.js:191-194 | lowercasing keeps the length and lowers each character in place (ASCII folding) |
| `Text.Contains` | backend/src/services/firefliesService.js:191-194 | a pattern is found only in a string at least as long as it (`ContainsIff` gives the full characterisation) |
| `Text.LowerStrIsCasing` | backend/src/services/integrationService.js:58 | for a lowercase word w, a name lowercases to w exactly when it is one of the casings of w (both directions) |
| `Text.ContainsIff` | backend/src/services/firefliesService.js:191-194 | the substring test succeeds exactly when the pattern occurs at some index |
| `Text.NatText` | backend/src/services/firefliesService.js:222 | the decimal text of a number is non-empty and starts with a digit |
| `Text.NatTextRoundTrip` | backend/src/services/firefliesService.js:222 | the decimal text of a number is a well-formed numeral, with no leading zero, that reads back as the number |
| `Fireflies.RequestOutcome` | backend/src/services/firefliesService.js:43-53 | a request throws exactly when the transport fails or the body carries an `errors` field, even when `data` is present too; the message is the first error's message, or the TypeError when the list is empty; otherwise the body's data is returned |
| `Fireflies.Probe` | backend/src/services/firefliesService.js:68-88 | the probe succeeds exactly when the reply has no errors and carries `data.user`; the message is then `Connected: ` followed by the user's name; otherwise it never throws and returns `{success:false, error}` with the transport, GraphQL or `No user data received` message |
| `Fireflies.FetchTranscripts` | backend/src/services/firefliesService.js:120-131 | the fetch succeeds exactly when the reply has no errors and carries `data`; a missing list reads as empty; a failure has an empty list and exactly one error: the transport message, the first GraphQL error, or the TypeError of reading `transcripts` when `data` is missing |
| `Fireflies.FetchTranscript` | backend/src/services/firefliesService.js:170-180 | the fetch succeeds exactly when the reply has no errors and carries `data`; the transcript is passed on as it is; a failure has no transcript and exactly one error: the transport message, the first GraphQL error, or the TypeError of reading `transcript` when `data` is missing |
| `Fireflies.RoundedMinutes` | backend/src/services/firefliesService.js:222 | the result is the nearest whole minute to the seconds, with halves rounded up (60m <= s+30 < 60m+60) |
| `Fireflies.RoundedMinutesIsRound` | backend/src/services/firefliesService.js:222 | the rounding equals floor(s/60 + 1/2) over the reals, which is the definition of `Math.round` |
| `Fireflies.DurationText` | backend/src/services/firefliesService.js:222 | the text is at least two characters and ends in `m`; it starts with a minus sign exactly when the rounded minutes are negative |
| `Fireflies.DurationTextReadsBack` | backend/src/services/firefliesService.js:222 | the duration text is a numeral followed by `m`, and the numeral's value is the rounded minutes |
| `Fireflies.DurationExamples` | backend/src/services/firefliesService.js:222 | 1800 s gives "30m", 2700 s gives "45m", 30 s gives "1m", 29 s gives "0m" and 90 s gives "2m" |
| `Fireflies.ToMeeting` | backend/src/services/firefliesService.js:219-224 | id, title and date are copied; the duration is the rounded-minutes text; attendees is the participant count, or 0 when absent; action items are the summary's, or the empty list |
| `Fireflies.MeetingsOf` | backend/src/services/firefliesService.js:218 | the meetings list has as many entries as the transcripts list |
| `Fireflies.MeetingsOfProjects` | backend/src/services/firefliesService.js:218-225 | the meetings list has the same length and order as the transcripts list: the i-th meeting is the projection of the i-th transcript |
| `Fireflies.MeetingsResultOf` | backend/src/services/firefliesService.js:217-237 | the meetings envelope copies the fetch's success; the list is always present; on success it is the projected transcripts with no error; on failure it is empty and carries the fetch's error |
| `Fireflies.IsUrgent` | backend/src/services/firefliesService.js:191-194 | an urgent text is at least as long as the shortest keyword, `asap` |
| `Fireflies.UrgentSentences` | backend/src/services/firefliesService.js:190-195 | every kept sentence comes from the input and is urgent; nothing is added |
| `Fireflies.UrgentSentencesSpec` | backend/src/services/firefliesService.js:189-195 | the kept sentences are the input read at a strictly increasing list of positions, and that list holds exactly the positions of the urgent sentences: exactly those sentences, in order, each once |
| `Fireflies.Names` | backend/src/services/firefliesService.js:203 | the participant names, one per participant, in order |
| `Fireflies.ExtractActionableContent` | backend/src/services/firefliesService.js:184-207 | overview defaults to the empty string, keywords and action items to the empty list; the urgent sentences are the filter of the sentences (the empty list when absent); participants are the names in order, or the empty list; title, duration and URL are copied |
| `Fireflies.ExtractFromFetched` | backend/src/services/firefliesService.js:184-185 | an absent transcript throws the TypeError of reading `summary`; a present one gives its actionable content |
| `Fireflies.AbsentTranscriptFetchedThenThrows` | backend/src/services/firefliesService.js:170-185 | a by-id reply without the transcript is a successful fetch, and extracting from it throws |
| `Fireflies.UrgentExample` | backend/src/services/firefliesService.js:190-195 | "This is URGENT, deadline tomorrow" is kept exactly once, and a sentence without a keyword is dropped |
| `Fireflies.FirefliesService.constructor` | backend/src/services/firefliesService.js:3-7 | a new connector is not initialised and has sent nothing |
| `Fireflies.FirefliesService.MakeGraphQLRequest` | backend/src/services/firefliesService.js:32-54 | one query is appended to the log, and the outcome is the error-list rule applied to that request's reply |
| `Fireflies.FirefliesService.TestConnection` | backend/src/services/firefliesService.js:56-89 | one user query is sent, and the result is the probe of its reply |
| `Fireflies.FirefliesService.Initialize` | backend/src/services/firefliesService.js:9-30 | without a key: `Missing Fireflies API key`, no request, flag unchanged; with a key: exactly one probe, the flag then set exactly when it succeeds (never cleared), `{success:true}` on success, and the probe's result unchanged on failure |
| `Fireflies.FirefliesService.GetRecentTranscripts` | backend/src/services/firefliesService.js:91-133 | `limit` is 10 when omitted; a lazy `initialize` runs only when not initialised, then the query carrying `limit` is sent whatever that gave; the result is the fetch rule applied to that query's reply |
| `Fireflies.FirefliesService.GetTranscriptById` | backend/src/services/firefliesService.js:135-182 | a lazy `initialize` runs only when not initialised, then the query carrying the id is sent; the result is the by-id fetch rule applied to that query's reply |
| `Fireflies.FirefliesService.GetMeetings` | backend/src/services/firefliesService.js:209-246 | the exact probes sent (none, one, or two when the first fails) and then the query for ten transcripts; the flag afterwards; the result is the meetings envelope of that query's reply |
| `Integrations.StatusMap` | backend/src/services/integrationService.js:17-26 | the keys are exactly fireflies, gmail, slack, notion, calendar, supabase, openai and claude; fireflies holds the live result; the seven others hold `Not configured yet` |
| `Integrations.StatusKeysIndependentOfLiveResult` | backend/src/services/integrationService.js:15-26 | the key set and the stub entries do not depend on the live outcome |
| `Integrations.AllStatus` | backend/src/services/integrationService.js:14-30 | the status map around the live result, or the empty map if the live test throws |
| `Integrations.GuardedTest` | backend/src/services/integrationService.js:34-41 | a returned probe result is passed on; a thrown error becomes `Fireflies failed: ` followed by its message |
| `Integrations.GuardedMeetings` | backend/src/services/integrationService.js:45-54 | the connector's meetings result is passed on unchanged; a thrown error becomes a failure with an empty list |
| `Integrations.NamesFireflies` | backend/src/services/integrationService.js:58-59 | a name that selects the Fireflies test has the length of `fireflies` |
| `Integrations.NamesFirefliesIffCasing` | backend/src/services/integrationService.js:58-60 | a name selects the Fireflies test exactly when it is a casing of "fireflies" |
| `Integrations.NotImplemented` | backend/src/services/integrationService.js:61-65 | an unknown name gets a failure whose error contains the name as given |
| `Integrations.StubsAreNotImplemented` | backend/src/services/integrationService.js:57-65 | the seven stub providers are not dispatched to the Fireflies test |
| `Integrations.IntegrationService.constructor` | backend/src/services/integrationService.js:5-8 | exactly one fresh connector is created and initialised once: one probe when there is a key, none without; the flag reflects that probe |
| `Integrations.IntegrationService.TestFirefliesConnection` | backend/src/services/integrationService.js:33-42 | one probe is sent, and its result is returned |
| `Integrations.IntegrationService.GetAllStatus` | backend/src/services/integrationService.js:13-31 | one live probe is sent, and the result is the fixed-key status map around it |
| `Integrations.IntegrationService.GetFirefliesMeetings` | backend/src/services/integrationService.js:44-55 | the connector's meetings result, with the same requests and flag update as the connector's `getMeetings` |
| `Integrations.IntegrationService.TestIntegration` | backend/src/services/integrationService.js:57-67 | any casing of "fireflies" sends one probe and returns its result; every other name sends nothing and returns the not-implemented failure with the name in its original casing |
| `Endpoints.DemoMeetings` | backend/enhanced-endpoints.js:42-67 | exactly three meetings, demo-1 to demo-3, lasting 30m, 45m and 60m, with 5, 3 and 8 attendees, each with action items; dated now, now minus 86,400,000 ms and now minus 172,800,000 ms, strictly decreasing |
| `Endpoints.MeetingsEndpoint` | backend/enhanced-endpoints.js:30-79 | always `success:true` with count equal to the list length; a successful result shows its meetings (or the empty list); a missing or unsuccessful result shows the demo meetings with count 3 and the advisory; a thrown error shows no meetings with count 0 |
| `Endpoints.MeetingsRouteOverConnector` | backend/enhanced-endpoints.js:30-70 | end to end: a successful transcript fetch shows one meeting per transcript; a failed one shows the demo meetings |
| `Endpoints.StatusEndpoint` | backend/enhanced-endpoints.js:9-21 | the registry's map with success, or a failure with the error and an empty map when the call throws |
| `Endpoints.MessageOrDefault` | backend/enhanced-endpoints.js:92 | a non-empty result message is kept; an absent or empty one is replaced by `Test completed`; the shown message is never empty |
| `Endpoints.TestEndpoint` | backend/enhanced-endpoints.js:88-101 | success and error are copied from the result and the message is defaulted to `Test completed`; a thrown error gives a failure with that error |
| `Endpoints.TestRouteOverRegistry` | backend/enhanced-endpoints.js:88-95 | a successful Fireflies test shows the connected user's name; a failed one shows `Test completed` with the probe's error; an unknown provider shows the default message and its error |

## Left out

- Network, JSON and query text: `fetch`, JSON decoding, the headers, the endpoint URL and
  the query strings are abstracted to the `Provider` oracle. A query keeps only the limit
  or the id placed into it.
- HTTP: route registration, `res.json`, `res.status` and the status codes (500 for a
  thrown status or test call). The routes are modelled as the values they send.
- Logging: console output is not modelled.
- The compiled-in fallback key: the shipped constructor uses it, which makes the
  missing-key branch dead. The key is a constructor parameter here, so that branch can
  be reached.
- The registry constructor does not await `initialize`. Here it is one sequential call
  that completes before the constructor returns.
- Concurrency: interleavings of asynchronous calls are not modelled.
- Dead catch branches: none of the connector methods the registry calls (`testConnection`,
  `getMeetings`) throws; `extractActionableContent` does on an absent transcript
  (`ExtractFromFetched`). The `try`/`catch` wrappers of the registry and the routes are
  modelled as functions over `Outcome`, and the registry methods pass them a returned
  value.
- Fireflies.ToMeeting: durations are integer seconds. Floating-point `Math.round`, and the
  `NaN` that comes from a missing duration, are not modelled.
- Fireflies.RequestOutcome: every `errors` entry is modelled as its message. An entry
  without a `message`, and a `data` that is `null` rather than absent, are not told apart.
- Fireflies.IsUrgent: `toLowerCase` is modelled as ASCII case folding. Unicode case
  mapping is not modelled.
- Integrations.NamesFireflies: the same ASCII folding replaces the Unicode `toLowerCase`
  in the dispatch.
- Endpoints.DemoMeetings: dates are integers in milliseconds; the ISO-8601 formatting is
  not modelled. The three separate clock reads of the demo payload are one instant `now`.
- Endpoints.TestEndpoint: the `data` field is not modelled, because no connector result
  sets it.
- Fireflies.ExtractActionableContent: a sentence whose `text` is `null` or absent is not
  modelled, because `Sentence.text` is a string. In the source the filter throws a
  TypeError on it. An absent transcript is modelled by `ExtractFromFetched`; a `null` one
  is not told apart from it.
- Fireflies.MeetingsOf: a transcripts list with `null` entries is not modelled. In the
  source it makes the projection throw into the connector's catch.
- `backend/test-fireflies.js` is a manual connectivity script made only of network calls
  and console output. It is not part of this model.
- `frontend/src/components/FirefliesMeetings.js` is UI state and rendering. It is not part
  of this model.
