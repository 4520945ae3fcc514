/**
 * Folding the reviews of a pull request into the mirror's reviewer list and
 * approver map (connectors/github_util.go and controllers/github.go): every
 * review adds its author to the reviewers, duplicates kept, and sets
 * approvers[author] to whether that review approved, so the author's last
 * review decides.
 */
module Reviews {
  import opened Objects

  const Approved: string := "APPROVED"

  /** The reviewer list: one author login per review, in review order. */
  function ReviewerLogins(reviews: seq<Review>): (logins: seq<string>)
    ensures |logins| == |reviews|
    ensures forall i :: 0 <= i < |reviews| ==> logins[i] == reviews[i].authorLogin
  {
    if |reviews| == 0 then [] else ReviewerLogins(reviews[..|reviews| - 1]) + [reviews[|reviews| - 1].authorLogin]
  }

  /** The approver map after applying the reviews in order. */
  function Approvals(reviews: seq<Review>): map<string, bool> {
    if |reviews| == 0 then map[]
    else
      var last := reviews[|reviews| - 1];
      Approvals(reviews[..|reviews| - 1])[last.authorLogin := last.state == Approved]
  }

  /** Index of the last review by `login`, or -1 when there is none. */
  function LastReviewBy(reviews: seq<Review>, login: string): (i: int)
    ensures -1 <= i < |reviews|
    ensures i >= 0 ==> reviews[i].authorLogin == login
    ensures forall j :: i < j < |reviews| ==> reviews[j].authorLogin != login
  {
    if |reviews| == 0 then -1
    else if reviews[|reviews| - 1].authorLogin == login then |reviews| - 1
    else LastReviewBy(reviews[..|reviews| - 1], login)
  }

  /**
   * A login is an approver key exactly when it reviewed, and its value is
   * whether its last review approved.
   */
  lemma {:induction false} ApprovalsLastWins(reviews: seq<Review>, login: string)
    ensures login in Approvals(reviews) <==> LastReviewBy(reviews, login) >= 0
    ensures login in Approvals(reviews) ==>
      Approvals(reviews)[login] == (reviews[LastReviewBy(reviews, login)].state == Approved)
  {
    if |reviews| > 0 {
      var init := reviews[..|reviews| - 1];
      ApprovalsLastWins(init, login);
      if reviews[|reviews| - 1].authorLogin != login {
        assert LastReviewBy(reviews, login) == LastReviewBy(init, login);
        if LastReviewBy(init, login) >= 0 {
          assert reviews[LastReviewBy(init, login)] == init[LastReviewBy(init, login)];
        }
      }
    }
  }

  /** The approver keys are exactly the review authors. */
  lemma {:induction false} ApprovalsKeys(reviews: seq<Review>)
    ensures Approvals(reviews).Keys == set i | 0 <= i < |reviews| :: reviews[i].authorLogin
  {
    if |reviews| > 0 {
      var init := reviews[..|reviews| - 1];
      ApprovalsKeys(init);
      var s := set i | 0 <= i < |reviews| :: reviews[i].authorLogin;
      var t := set i | 0 <= i < |init| :: init[i].authorLogin;
      assert s == t + {reviews[|reviews| - 1].authorLogin} by {
        forall x | x in s ensures x in t + {reviews[|reviews| - 1].authorLogin} {
          var i :| 0 <= i < |reviews| && reviews[i].authorLogin == x;
          if i < |init| { assert init[i] == reviews[i]; }
        }
        forall x | x in t ensures x in s {
          var i :| 0 <= i < |init| && init[i].authorLogin == x;
          assert reviews[i] == init[i];
        }
      }
    }
  }

  /** The loop both builders run over the reviews of one pull request. */
  method FoldReviews(reviews: seq<Review>) returns (reviewers: seq<string>, approvers: map<string, bool>)
    ensures reviewers == ReviewerLogins(reviews)
    ensures approvers == Approvals(reviews)
  {
    reviewers := [];
    approvers := map[];
    var i := 0;
    while i < |reviews|
      invariant 0 <= i <= |reviews|
      invariant reviewers == ReviewerLogins(reviews[..i])
      invariant approvers == Approvals(reviews[..i])
    {
      var r := reviews[i];
      assert reviews[..i + 1][..i] == reviews[..i];
      reviewers := reviewers + [r.authorLogin];
      approvers := approvers[r.authorLogin := r.state == Approved];
      i := i + 1;
    }
    assert reviews[..i] == reviews;
  }
}
