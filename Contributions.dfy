// The contributions screen's view model
// (ViewModels/Store/User/Contribute/ContributionViewModel.swift): the three
// category buckets and the loading flag around the service's publishers.
// Each publisher callback is its own step, so the state between starting a
// request and hearing back from the service is visible.

module Contributions {
  import opened Models

  /** The contributions of `s` in category `cat`, in input order. */
  function Bucket(s: seq<Contribution>, cat: ContributionCategory): (r: seq<Contribution>)
    ensures |r| <= |s|
    ensures forall x :: x in r <==> x in s && x.category == cat
  {
    if s == [] then []
    else
      assert forall x :: x in s <==> x == s[0] || x in s[1..];
      (if s[0].category == cat then [s[0]] else []) + Bucket(s[1..], cat)
  }

  /** Filtering a concatenation filters each part: the bucket keeps the
      input order. */
  lemma {:induction false} BucketAppend(s: seq<Contribution>, t: seq<Contribution>, cat: ContributionCategory)
    ensures Bucket(s + t, cat) == Bucket(s, cat) + Bucket(t, cat)
  {
    if s != [] {
      assert (s + t)[0] == s[0];
      assert (s + t)[1..] == s[1..] + t;
      BucketAppend(s[1..], t, cat);
    } else {
      assert s + t == t;
    }
  }

  /** Each contribution occurs in its own bucket as often as in the input. */
  lemma {:induction false} BucketMultiplicity(s: seq<Contribution>, cat: ContributionCategory, x: Contribution)
    ensures multiset(Bucket(s, cat))[x] == if x.category == cat then multiset(s)[x] else 0
  {
    if s != [] {
      BucketMultiplicity(s[1..], cat, x);
      assert s == [s[0]] + s[1..];
    }
  }

  /** The three buckets `categorizeContributions` fills. */
  datatype Buckets = Buckets(church: seq<Contribution>, missionaries: seq<Contribution>, community: seq<Contribution>)

  function Categorize(s: seq<Contribution>): Buckets {
    Buckets(Bucket(s, ChurchCategory), Bucket(s, Missionaries), Bucket(s, Community))
  }

  /** Since the category has exactly three cases, the buckets split the input:
      every contribution lands in exactly one of them, as often as it occurs. */
  lemma CategorizePartitions(s: seq<Contribution>)
    ensures var b := Categorize(s);
      multiset(b.church) + multiset(b.missionaries) + multiset(b.community) == multiset(s)
    ensures var b := Categorize(s); |b.church| + |b.missionaries| + |b.community| == |s|
  {
    var b := Categorize(s);
    forall x
      ensures (multiset(b.church) + multiset(b.missionaries) + multiset(b.community))[x] == multiset(s)[x]
    {
      BucketMultiplicity(s, ChurchCategory, x);
      BucketMultiplicity(s, Missionaries, x);
      BucketMultiplicity(s, Community, x);
    }
    assert multiset(b.church) + multiset(b.missionaries) + multiset(b.community) == multiset(s);
    assert |multiset(s)| == |s|;
  }

  lemma BucketsDisjoint(s: seq<Contribution>, c1: ContributionCategory, c2: ContributionCategory, x: Contribution)
    requires c1 != c2
    ensures !(x in Bucket(s, c1) && x in Bucket(s, c2))
  {
  }

  /** The view model's published fields. */
  datatype ContributionState = ContributionState(
    contributions: seq<Contribution>,
    buckets: Buckets,
    isLoading: bool,
    errorMessage: Option<string>)

  /** Starting a request (`fetchContributions` or `makeContribution`). */
  function Started(st: ContributionState): ContributionState {
    st.(isLoading := true)
  }

  /** The fetch publisher delivered `list`. */
  function Received(st: ContributionState, list: seq<Contribution>): ContributionState {
    st.(contributions := list, buckets := Categorize(list), isLoading := false)
  }

  /** A publisher completed with a failure described by `description`. */
  function FailedWith(st: ContributionState, description: string): ContributionState {
    st.(errorMessage := Some(description), isLoading := false)
  }

  /** `makeContribution`'s publisher delivered `success`. */
  function ContributionAnswered(st: ContributionState, success: bool): ContributionState {
    if success then Started(st) else st
  }

  /** A delivered list is shown and bucketed, loading ends, and an earlier
      error message stays. */
  lemma ReceivedShowsList(st: ContributionState, list: seq<Contribution>)
    ensures Received(st, list).contributions == list
    ensures Received(st, list).buckets == Categorize(list)
    ensures !Received(st, list).isLoading
    ensures Received(st, list).errorMessage == st.errorMessage
  {
  }

  /** A failure records its description and ends loading, leaving the lists. */
  lemma FailureKeepsLists(st: ContributionState, description: string)
    ensures FailedWith(st, description).contributions == st.contributions
    ensures FailedWith(st, description).buckets == st.buckets
    ensures FailedWith(st, description) == st.(errorMessage := Some(description), isLoading := false)
  {
  }

  /** A contribution the service reports as not made leaves the view loading
      for good: nothing after the start clears the flag. */
  lemma DeclinedContributionStaysLoading(st: ContributionState)
    ensures ContributionAnswered(Started(st), false).isLoading
    ensures ContributionAnswered(Started(st), false) == st.(isLoading := true)
  {
  }

  /** A made contribution starts a refetch. */
  lemma AcceptedContributionRefetches(st: ContributionState)
    ensures ContributionAnswered(st, true) == Started(st)
  {
  }

  /** No sequence of successful deliveries clears an error message. */
  lemma {:induction false} DeliveriesKeepError(st: ContributionState, lists: seq<seq<Contribution>>)
    ensures Deliver(st, lists).errorMessage == st.errorMessage
    decreases |lists|
  {
    if lists != [] {
      DeliveriesKeepError(Received(st, lists[0]), lists[1..]);
    }
  }

  /** The state after the fetch publisher delivers each list in turn. */
  function Deliver(st: ContributionState, lists: seq<seq<Contribution>>): ContributionState
    decreases |lists|
  {
    if lists == [] then st else Deliver(Received(st, lists[0]), lists[1..])
  }

  class ContributionViewModel {
    var contributions: seq<Contribution>
    var churchContributions: seq<Contribution>
    var missionariesContributions: seq<Contribution>
    var communityContributions: seq<Contribution>
    var isLoading: bool
    var errorMessage: Option<string>

    function State(): ContributionState
      reads this
    {
      ContributionState(contributions,
        Buckets(churchContributions, missionariesContributions, communityContributions),
        isLoading, errorMessage)
    }

    /** `init`: empty lists and the first fetch under way. */
    constructor ()
      ensures State() == ContributionState([], Buckets([], [], []), true, None)
    {
      contributions := [];
      churchContributions := [];
      missionariesContributions := [];
      communityContributions := [];
      isLoading := false;
      errorMessage := None;
      new;
      FetchContributions();
    }

    /** `fetchContributions`, up to the service call. */
    method FetchContributions()
      modifies this`isLoading
      ensures State() == Started(old(State()))
    {
      isLoading := true;
    }

    /** The fetch publisher's value callback. */
    method OnContributions(list: seq<Contribution>)
      modifies this
      ensures State() == Received(old(State()), list)
    {
      contributions := list;
      CategorizeContributions(list);
      isLoading := false;
    }

    /** The failure completion of either publisher; `description` is the
        error's localized description. */
    method OnFailure(description: string)
      modifies this`errorMessage, this`isLoading
      ensures State() == FailedWith(old(State()), description)
    {
      errorMessage := Some(description);
      isLoading := false;
    }

    /** `categorizeContributions`. */
    method CategorizeContributions(list: seq<Contribution>)
      modifies this`churchContributions, this`missionariesContributions, this`communityContributions
      ensures Buckets(churchContributions, missionariesContributions, communityContributions) == Categorize(list)
    {
      churchContributions := Bucket(list, ChurchCategory);
      missionariesContributions := Bucket(list, Missionaries);
      communityContributions := Bucket(list, Community);
    }

    /** `makeContribution`, up to the service call; the amount only goes to
        the service. */
    method MakeContribution(amount: real)
      modifies this`isLoading
      ensures State() == Started(old(State()))
    {
      isLoading := true;
    }

    /** `makeContribution`'s value callback. */
    method OnContributionMade(success: bool)
      modifies this`isLoading
      ensures State() == ContributionAnswered(old(State()), success)
    {
      if success {
        FetchContributions();
      }
    }
  }
}
