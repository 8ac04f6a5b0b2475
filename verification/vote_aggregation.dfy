/** The majority vote of `VideoClassifier.get_last_classification`:
    `max(set(votes), key=votes.count)`. */
module VoteAggregation {
  import opened Outcomes
  import opened ImageClassification

  /** `max` over an empty collection raises. */
  datatype MajorityError = EmptyVotes

  /** What `set(votes)` and `votes.count` range over. A vote list contributes
      its labels; the scalar sentinel is a Python string, so it contributes its
      characters, each as a one-character string, and `str.count` of a single
      character is its number of occurrences. */
  function Ballots(votes: Votes): seq<string>
  {
    match votes
    case VoteList(labels) => labels
    case ScalarVote(s) => seq(|s|, i requires 0 <= i < |s| => [s[i]])
  }

  /** `list.count`: how many ballots equal `x`. */
  function Count(ballots: seq<string>, x: string): nat
  {
    multiset(ballots)[x]
  }

  /** The first of `candidates` whose count in `ballots` is largest. */
  function MostFrequent(candidates: seq<string>, ballots: seq<string>): (r: string)
    requires |candidates| > 0
    ensures r in candidates
    ensures forall x :: x in candidates ==> Count(ballots, x) <= Count(ballots, r)
  {
    if |candidates| == 1 then candidates[0]
    else
      var best := MostFrequent(candidates[1..], ballots);
      assert forall x :: x in candidates ==> x == candidates[0] || x in candidates[1..];
      if Count(ballots, candidates[0]) >= Count(ballots, best) then candidates[0] else best
  }

  /** `get_last_classification` on a vote result: a ballot whose count is at
      least that of any string, or an exception when there are no ballots.
      Python breaks ties by the iteration order of a set; this model takes the
      first-seen ballot, and the contract promises nothing about ties. */
  function Majority(votes: Votes): (r: Result<string, MajorityError>)
    ensures r.Err? <==> Ballots(votes) == []
    ensures r.Ok? ==> r.value in Ballots(votes)
    ensures r.Ok? ==> forall x :: Count(Ballots(votes), x) <= Count(Ballots(votes), r.value)
  {
    var ballots := Ballots(votes);
    if ballots == [] then Err(EmptyVotes)
    else
      var best := MostFrequent(ballots, ballots);
      assert forall x :: x !in ballots ==> Count(ballots, x) == 0;
      Ok(best)
  }

  /** A ballot that strictly outnumbers every other ballot is the majority,
      whatever the tie-break. */
  lemma StrictWinnerIsMajority(votes: Votes, x: string)
    requires x in Ballots(votes)
    requires forall y :: y in Ballots(votes) && y != x ==> Count(Ballots(votes), y) < Count(Ballots(votes), x)
    ensures Majority(votes) == Ok(x)
  {
  }

  /** Before any classification the votes are `['none']`, whose majority is
      `'none'`. */
  lemma InitialVotesMajority()
    ensures Majority(VoteList([NoneLabel])) == Ok(NoneLabel)
  {
  }

  /** `['cat', 'dog', 'cat']` gives `'cat'`. */
  lemma CatDogCatMajority()
    ensures Majority(VoteList(["cat", "dog", "cat"])) == Ok("cat")
  {
  }

  /** After an empty batch the votes are the bare string `'none'`; its most
      frequent character is `'n'` (two of four), so the majority is `"n"`. */
  lemma SentinelMajority()
    ensures Majority(ScalarVote(NoneLabel)) == Ok("n")
  {
    var b := ["n", "o", "n", "e"];
    assert Ballots(ScalarVote(NoneLabel)) == b by {
      var c := Ballots(ScalarVote(NoneLabel));
      assert |c| == 4 && c[0] == "n" && c[1] == "o" && c[2] == "n" && c[3] == "e";
    }
    forall y | y in b && y != "n"
      ensures Count(b, y) < Count(b, "n")
    {
      assert multiset(b) == multiset{"n", "n", "o", "e"};
    }
    StrictWinnerIsMajority(ScalarVote(NoneLabel), "n");
  }
}
