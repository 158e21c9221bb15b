/** Finding the already open pull request for the source branch (`find_pull_request`). */
module Lookup {
  import opened Wrappers

  /** A pull request as the forge describes it, reduced to the fields the action
      reads: the head branch (`head.ref`, absent when the descriptor lacks either key),
      the number and the web address. */
  datatype PullRequest = PullRequest(headRef: Option<string>, number: Option<int>, htmlUrl: Option<string>)

  /** The head branch of a descriptor, with a missing head or ref read as "". */
  function HeadRef(pr: PullRequest): (r: string)
    ensures pr.headRef.None? ==> r == ""
    ensures pr.headRef.Some? ==> r == pr.headRef.value
  {
    pr.headRef.GetOr("")
  }

  /** The first descriptor of the listing whose head branch is `source`. */
  function FirstMatch(listing: seq<PullRequest>, source: string): (r: Option<PullRequest>)
    ensures r.Some? ==> r.value in listing && HeadRef(r.value) == source
  {
    if listing == [] then None
    else if HeadRef(listing[0]) == source then Some(listing[0])
    else FirstMatch(listing[1..], source)
  }

  /** There is a result exactly when some descriptor of the listing has `source` as its
      head branch; an empty listing has none. */
  lemma {:induction false} FirstMatchExists(listing: seq<PullRequest>, source: string)
    ensures FirstMatch(listing, source).Some? <==>
      exists i :: 0 <= i < |listing| && HeadRef(listing[i]) == source
  {
    if listing != [] {
      FirstMatchExists(listing[1..], source);
      if HeadRef(listing[0]) != source {
        forall i | 1 <= i < |listing| && HeadRef(listing[i]) == source
          ensures exists j :: 0 <= j < |listing[1..]| && HeadRef(listing[1..][j]) == source
        {
          assert listing[1..][i - 1] == listing[i];
        }
      }
    }
  }

  /** The result is the earliest matching descriptor: later duplicates are ignored. */
  lemma {:induction false} FirstMatchIsFirst(listing: seq<PullRequest>, source: string, k: nat)
    requires k < |listing| && HeadRef(listing[k]) == source
    requires forall j :: 0 <= j < k ==> HeadRef(listing[j]) != source
    ensures FirstMatch(listing, source) == Some(listing[k])
  {
    if k > 0 {
      FirstMatchIsFirst(listing[1..], source, k - 1);
    }
  }

  /** The scan the action runs over the listing: the first entry whose head branch is
      `source`, or nothing. */
  method FindPullRequest(listing: seq<PullRequest>, source: string) returns (entry: Option<PullRequest>)
    ensures entry == FirstMatch(listing, source)
  {
    for i := 0 to |listing|
      invariant FirstMatch(listing[i..], source) == FirstMatch(listing, source)
    {
      assert listing[i..][1..] == listing[i + 1..];
      if HeadRef(listing[i]) == source {
        return Some(listing[i]);
      }
    }
    assert listing[|listing|..] == [];
    return None;
  }
}
