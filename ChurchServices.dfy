// The church list service (Networking/Services/ChurchService.swift):
// fetchChurches falls back from the API to the in-memory cache and then to
// the bundled mock data; fetchChurchesLocalData skips the bundle once a
// fetch has succeeded.

module ChurchServices {
  import opened Models

  /** What the API request did: delivered a list, threw an APIError (whose
      `message` is given), or threw some other error. */
  datatype ApiOutcome =
    | Delivered(churches: seq<Church>)
    | ApiFailure(message: string)
    | OtherFailure(description: string)

  /** The bundled MockChurchResponse.json: absent or unreadable, or present
      with the outcome of decoding it. */
  datatype Bundle = Missing | Present(decoded: Fetched<seq<Church>>)

  const MockDataMissingMessage: string := "Failed to load mock data"

  /** The service's two private fields. */
  datatype CacheState = CacheState(cachedChurches: seq<Church>, hasLoadedChurches: bool)

  /** What `fetchChurchesLocalData` yields. */
  function LocalData(st: CacheState, bundle: Bundle): Fetched<seq<Church>> {
    if st.hasLoadedChurches then Ok(st.cachedChurches)
    else match bundle
      case Missing => Failed(MockDataMissingMessage)
      case Present(decoded) => decoded
  }

  /** New state and result of one `fetchChurches`. */
  function Fetch(st: CacheState, api: ApiOutcome, bundle: Bundle): (CacheState, Fetched<seq<Church>>) {
    match api
    case Delivered(churches) => (CacheState(churches, true), Ok(churches))
    case ApiFailure(_) =>
      if st.cachedChurches != [] then (st, Ok(st.cachedChurches))
      else (st, LocalData(st, bundle))
    case OtherFailure(description) => (st, Failed(description))
  }

  lemma ApiSuccessCachesAndReturns(st: CacheState, churches: seq<Church>, bundle: Bundle)
    ensures Fetch(st, Delivered(churches), bundle) == (CacheState(churches, true), Ok(churches))
  {
  }

  lemma ApiFailureUsesNonEmptyCache(st: CacheState, message: string, bundle: Bundle)
    requires st.cachedChurches != []
    ensures Fetch(st, ApiFailure(message), bundle).1 == Ok(st.cachedChurches)
  {
  }

  lemma ApiFailureWithEmptyCacheUsesLocalData(st: CacheState, message: string, bundle: Bundle)
    requires st.cachedChurches == []
    ensures Fetch(st, ApiFailure(message), bundle).1 == LocalData(st, bundle)
  {
  }

  lemma OtherFailureSkipsCache(st: CacheState, description: string, bundle: Bundle)
    ensures Fetch(st, OtherFailure(description), bundle).1 == Failed(description)
  {
  }

  lemma LoadedLocalDataIsCache(st: CacheState, bundle: Bundle)
    requires st.hasLoadedChurches
    ensures LocalData(st, bundle) == Ok(st.cachedChurches)
  {
  }

  lemma MissingBundleBeforeLoadFails(st: CacheState)
    requires !st.hasLoadedChurches
    ensures LocalData(st, Missing) == Failed("Failed to load mock data")
  {
  }

  lemma FailuresKeepState(st: CacheState, api: ApiOutcome, bundle: Bundle)
    requires !api.Delivered?
    ensures Fetch(st, api, bundle).0 == st
  {
  }

  /** The results of a series of `fetchChurches` calls, each meeting its own
      API outcome and bundle. */
  function Results(st: CacheState, calls: seq<(ApiOutcome, Bundle)>): (rs: seq<Fetched<seq<Church>>>)
    ensures |rs| == |calls|
    decreases |calls|
  {
    if calls == [] then []
    else
      var (next, r) := Fetch(st, calls[0].0, calls[0].1);
      [r] + Results(next, calls[1..])
  }

  /** The same calls with every bundle missing. */
  function WithoutBundle(calls: seq<(ApiOutcome, Bundle)>): (r: seq<(ApiOutcome, Bundle)>)
    ensures |r| == |calls|
    ensures forall i :: 0 <= i < |calls| ==> r[i] == (calls[i].0, Missing)
  {
    if calls == [] then [] else [(calls[0].0, Missing)] + WithoutBundle(calls[1..])
  }

  /** Once a fetch has succeeded, no later call reads the bundle: every
      result is what it would be with no bundle at all, even when the
      successful fetch cached an empty list. */
  lemma {:induction false} LoadedNeverReadsBundle(st: CacheState, calls: seq<(ApiOutcome, Bundle)>)
    requires st.hasLoadedChurches
    ensures Results(st, calls) == Results(st, WithoutBundle(calls))
    decreases |calls|
  {
    if calls != [] {
      var next := Fetch(st, calls[0].0, calls[0].1).0;
      assert Fetch(st, calls[0].0, calls[0].1) == Fetch(st, calls[0].0, Missing);
      assert WithoutBundle(calls)[1..] == WithoutBundle(calls[1..]);
      LoadedNeverReadsBundle(next, calls[1..]);
    }
  }

  /** After one successful API fetch, no later call of a series reads the bundle. */
  lemma AfterSuccessNeverReadsBundle(st: CacheState, churches: seq<Church>, bundle: Bundle,
                                     later: seq<(ApiOutcome, Bundle)>)
    ensures Results(st, [(Delivered(churches), bundle)] + later)
         == Results(st, [(Delivered(churches), bundle)] + WithoutBundle(later))
  {
    var calls := [(Delivered(churches), bundle)] + later;
    assert calls[1..] == later;
    var calls' := [(Delivered(churches), bundle)] + WithoutBundle(later);
    assert calls'[1..] == WithoutBundle(later);
    LoadedNeverReadsBundle(CacheState(churches, true), later);
  }

  class ChurchService {
    var cachedChurches: seq<Church>
    var hasLoadedChurches: bool

    function State(): CacheState
      reads this
    {
      CacheState(cachedChurches, hasLoadedChurches)
    }

    constructor ()
      ensures State() == CacheState([], false)
    {
      cachedChurches := [];
      hasLoadedChurches := false;
    }

    /** `fetchChurchesLocalData`; `bundle` is the bundled resource. */
    method FetchChurchesLocalData(bundle: Bundle) returns (r: Fetched<seq<Church>>)
      ensures hasLoadedChurches ==> r == Ok(cachedChurches)
      ensures !hasLoadedChurches && bundle == Missing ==> r == Failed(MockDataMissingMessage)
      ensures !hasLoadedChurches && bundle.Present? ==> r == bundle.decoded
    {
      if hasLoadedChurches {
        return Ok(cachedChurches);
      }
      match bundle {
        case Missing => r := Failed("Failed to load mock data");
        case Present(decoded) => r := decoded;
      }
    }

    /** `fetchChurches`; `api` is what the request did. */
    method FetchChurches(api: ApiOutcome, bundle: Bundle) returns (r: Fetched<seq<Church>>)
      modifies this
      ensures (State(), r) == Fetch(old(State()), api, bundle)
    {
      match api {
        case Delivered(churches) =>
          cachedChurches := churches;
          hasLoadedChurches := true;
          r := Ok(churches);
        case ApiFailure(_) =>
          if cachedChurches != [] {
            r := Ok(cachedChurches);
          } else {
            r := FetchChurchesLocalData(bundle);
          }
        case OtherFailure(description) =>
          r := Failed(description);
      }
    }
  }
}
