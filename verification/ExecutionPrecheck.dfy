/** The policy and approval part of the adapter's precheck, over the approvals that submissions can have recorded. */
module ExecutionPrecheck {
  import opened Prelude
  import A = Approvals
  import P = Policy

  datatype Precheck = Passes | NoPolicyDecision | PolicyDenied | PolicyDeferred | NoApproval | ApprovalExpired

  /** `found` is a possible answer of the query for the latest APPROVE of a plan version. */
  ghost predicate LatestGrant(d: A.Db, plan: int, found: Option<A.Approval>) {
    if found.Some? then
      && found.value in d.approvals && found.value.plan == plan && found.value.decision == A.Approve
      && forall a :: a in d.approvals && a.plan == plan && a.decision == A.Approve ==> a.createdAt <= found.value.createdAt
    else forall a :: a in d.approvals && a.plan == plan ==> a.decision != A.Approve
  }

  predicate AsksApproval(latest: P.Outcome, mode: P.Mode) {
    latest.RequireApproval? || mode.ApprovalRequired?
  }

  function CheckApproval(latest: Option<P.Outcome>, mode: P.Mode, found: Option<A.Approval>, now: Time): Precheck {
    if latest.None? then NoPolicyDecision
    else if latest.value.Deny? then PolicyDenied
    else if latest.value.Defer? then PolicyDeferred
    else if !AsksApproval(latest.value, mode) then Passes
    else if found.None? then NoApproval
    else if found.value.expiresAt <= now then ApprovalExpired
    else Passes
  }

  /** In every state that submissions can reach, the precheck passes exactly when the last policy decision is ALLOW or
      REQUIRE_APPROVAL and, if it is REQUIRE_APPROVAL or the automation mode is APPROVAL_REQUIRED, the plan's one decision is an
      unexpired APPROVE. */
  lemma PassesIff(d: A.Db, plan: int, latest: Option<P.Outcome>, mode: P.Mode, found: Option<A.Approval>, now: Time)
    requires A.Inv(d) && LatestGrant(d, plan, found)
    ensures CheckApproval(latest, mode, found, now).Passes? <==>
            && (latest == Some(P.Allow) || latest == Some(P.RequireApproval))
            && (latest == Some(P.RequireApproval) || mode == P.ApprovalRequired ==>
                  exists a :: a in d.approvals && a.plan == plan && a.decision == A.Approve && now < a.expiresAt)
  {
    forall a | a in d.approvals && a.plan == plan && a.decision == A.Approve ensures found == Some(a) {
      if found.Some? {
        A.UniqueRecord(d.approvals, a, found.value);
      }
    }
  }

  /** The decision can no longer support a dispatch: it rejects the plan, or it has expired. */
  predicate Spent(a: A.Approval, now: Time) {
    a.decision != A.Approve || a.expiresAt <= now
  }

  /** No way back: once the plan's decision is spent, no continuation of the run, however many submissions, crashes,
      retries and other transitions it holds, lets a dispatch that asks for approval pass at any later time. */
  lemma SpentDecisionNeverPasses(d: A.Db, a: A.Approval, actions: seq<A.Action>, latest: Option<P.Outcome>, mode: P.Mode,
                                 found: Option<A.Approval>, now: Time, later: Time)
    requires A.Inv(d) && a in d.approvals && Spent(a, now) && now <= later
    requires latest == Some(P.RequireApproval) || mode == P.ApprovalRequired
    requires LatestGrant(A.Play(d, actions), a.plan, found)
    ensures !CheckApproval(latest, mode, found, later).Passes?
  {
    var end := A.Play(d, actions);
    A.PlayKeepsInv(d, actions);
    A.DecisionIsFinal(d, a, |d.answers|, actions);
    PassesIff(end, a.plan, latest, mode, found, later);
    forall b | b in end.approvals && b.plan == a.plan ensures b == a {
      A.UniqueRecord(end.approvals, a, b);
    }
  }
}
