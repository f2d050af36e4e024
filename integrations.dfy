/** The integration registry: one long-lived Fireflies connector, the
    aggregate status map over all known providers, dispatch of connectivity
    tests by provider name, and the meetings pass-through. */
module Integrations {
  import opened Common
  import opened Text
  import opened Fireflies

  /** The providers that have no implementation yet. */
  const StubProviders: set<string> := {"gmail", "slack", "notion", "calendar", "supabase", "openai", "claude"}

  /** Every key of the status map. */
  const KnownProviders: set<string> := {"fireflies"} + StubProviders

  const NotConfigured := Failure("Not configured yet")

  /** The status map around the live Fireflies result: the fixed key set,
      the live entry under "fireflies", the fixed stub entry everywhere else. */
  function StatusMap(fireflies: ConnectionResult): (status: map<string, ConnectionResult>)
    ensures status.Keys == KnownProviders
    ensures status["fireflies"] == fireflies
    ensures forall name :: name in StubProviders ==> status[name] == NotConfigured
  {
    map["fireflies" := fireflies,
        "gmail" := NotConfigured,
        "slack" := NotConfigured,
        "notion" := NotConfigured,
        "calendar" := NotConfigured,
        "supabase" := NotConfigured,
        "openai" := NotConfigured,
        "claude" := NotConfigured]
  }

  /** The live outcome never changes which keys the status map has. */
  lemma StatusKeysIndependentOfLiveResult(a: ConnectionResult, b: ConnectionResult)
    ensures StatusMap(a).Keys == StatusMap(b).Keys
    ensures forall name :: name in StatusMap(a) && name != "fireflies" ==> StatusMap(a)[name] == StatusMap(b)[name]
  {
  }

  /** `getAllStatus`'s try/catch around the live test: the status map, or the
      empty map when the test throws. */
  function AllStatus(live: Outcome<ConnectionResult>): (status: map<string, ConnectionResult>)
    ensures live.Returned? ==> status == StatusMap(live.value)
    ensures live.Raised? ==> status == map[]
  {
    match live
    case Returned(result) => StatusMap(result)
    case Raised(_) => map[]
  }

  /** `testFirefliesConnection`'s try/catch: a returned result is passed on,
      a thrown error becomes a failure naming it. */
  function GuardedTest(o: Outcome<ConnectionResult>): (r: ConnectionResult)
    ensures o.Returned? ==> r == o.value
    ensures o.Raised? ==> r == Failure("Fireflies failed: " + o.message)
  {
    match o
    case Returned(result) => result
    case Raised(msg) => Failure("Fireflies failed: " + msg)
  }

  /** `getFirefliesMeetings`'s try/catch: a returned result is passed on
      unchanged, a thrown error becomes a failure with an empty list. */
  function GuardedMeetings(o: Outcome<MeetingsResult>): (r: MeetingsResult)
    ensures o.Returned? ==> r == o.value
    ensures o.Raised? ==> r == MeetingsResult(false, Some([]), Some(o.message))
  {
    match o
    case Returned(result) => result
    case Raised(msg) => MeetingsResult(false, Some([]), Some(msg))
  }

  /** The `switch` of `testIntegration`: the Fireflies test is chosen for
      every name that lowercases to "fireflies". */
  predicate NamesFireflies(name: string)
    ensures NamesFireflies(name) ==> |name| == |"fireflies"|
  {
    LowerStr(name) == "fireflies"
  }

  /** The names that select the Fireflies test are exactly the casings of
      "fireflies". */
  lemma NamesFirefliesIffCasing(name: string)
    ensures NamesFireflies(name) <==> IsCasingOf(name, "fireflies")
  {
    LowerStrIsCasing(name, "fireflies");
  }

  /** The answer for a provider without an implementation: a failure whose
      message carries the name as it was given. */
  function NotImplemented(name: string): (r: ConnectionResult)
    ensures !r.success && r.message.None? && r.user.None?
    ensures r.error.Some? && Contains(r.error.value, name)
  {
    var text := "Integration " + name + " not implemented yet";
    assert text[12..12 + |name|] == name;
    ContainsAt(text, name, 12);
    Failure(text)
  }

  /** The stub providers are not dispatched to the Fireflies test. */
  lemma StubsAreNotImplemented(name: string)
    requires name in StubProviders
    ensures !NamesFireflies(name)
  {
    assert |name| < |"fireflies"|;
  }

  /** The registry: it owns the one Fireflies connector. */
  class IntegrationService {
    const fireflies: FirefliesService

    ghost predicate Valid()
      reads this, fireflies
    {
      fireflies.Valid()
    }

    /** Creates one connector and runs its initialisation once (the source
        does not wait for it; here it completes before the constructor
        returns). */
    constructor (apiKey: string, provider: Provider)
      ensures Valid() && fresh(fireflies)
      ensures fireflies.apiKey == apiKey && fireflies.provider == provider
      ensures fireflies.sent == if apiKey == "" then [] else [UserQuery]
      ensures fireflies.initialized == (apiKey != "" && Probe(provider(0, UserQuery)).success)
    {
      var connector := new FirefliesService(apiKey, provider);
      var _ := connector.Initialize();
      fireflies := connector;
    }

    /** `testFirefliesConnection`: the connector's probe, never throwing. */
    method TestFirefliesConnection() returns (r: ConnectionResult)
      requires Valid()
      modifies fireflies`sent
      ensures Valid()
      ensures fireflies.sent == old(fireflies.sent) + [UserQuery]
      ensures r == Probe(fireflies.provider(|old(fireflies.sent)|, UserQuery))
    {
      var result := fireflies.TestConnection();
      r := GuardedTest(Returned(result));
    }

    /** `getAllStatus`: one live probe, then the fixed-key status map. */
    method GetAllStatus() returns (status: map<string, ConnectionResult>)
      requires Valid()
      modifies fireflies`sent
      ensures Valid()
      ensures fireflies.sent == old(fireflies.sent) + [UserQuery]
      ensures status == StatusMap(Probe(fireflies.provider(|old(fireflies.sent)|, UserQuery)))
    {
      var live := TestFirefliesConnection();
      status := AllStatus(Returned(live));
    }

    /** `getFirefliesMeetings`: the connector's meetings result unchanged. */
    method GetFirefliesMeetings() returns (r: MeetingsResult)
      requires Valid()
      modifies fireflies`initialized, fireflies`sent, fireflies`okProbe
      ensures Valid()
      ensures fireflies.sent == old(fireflies.sent) + fireflies.MeetingsProbes(old(fireflies.initialized), |old(fireflies.sent)|)
                                + [TranscriptsQuery(MeetingsLimit)]
      ensures fireflies.initialized == (old(fireflies.initialized) || (fireflies.apiKey != "" &&
                (Probe(fireflies.provider(|old(fireflies.sent)|, UserQuery)).success
                 || Probe(fireflies.provider(|old(fireflies.sent)| + 1, UserQuery)).success)))
      ensures r == MeetingsResultOf(FetchTranscripts(fireflies.provider(|fireflies.sent| - 1, TranscriptsQuery(MeetingsLimit))))
    {
      var result := fireflies.GetMeetings();
      r := GuardedMeetings(Returned(result));
    }

    /** `testIntegration(name)`: the Fireflies probe for any casing of
        "fireflies", the fixed not-implemented failure, without any request,
        for every other name. */
    method TestIntegration(name: string) returns (r: ConnectionResult)
      requires Valid()
      modifies fireflies`sent
      ensures Valid()
      ensures NamesFireflies(name) ==>
                fireflies.sent == old(fireflies.sent) + [UserQuery]
                && r == Probe(fireflies.provider(|old(fireflies.sent)|, UserQuery))
      ensures !NamesFireflies(name) ==> fireflies.sent == old(fireflies.sent) && r == NotImplemented(name)
    {
      if NamesFireflies(name) {
        r := TestFirefliesConnection();
      } else {
        r := NotImplemented(name);
      }
    }
  }
}
