/** The tenant resolver and its helpers (src/hooks/useOrganization.tsx):
    which organization the signed-in user belongs to, its members, the
    user's role in it, and the plan limits. The three store reads of one
    attempt are answered by an oracle, one reply per read; the sleeps of the
    retry loop are recorded as their durations rather than performed. */
module Tenant {
  import opened Js
  import opened Seqs

  datatype Plan = Free | Premium | Enterprise
  datatype Role = Owner | Admin | Member

  /** An `organizations` row. */
  datatype Organization = Organization(
    id: string,
    name: string,
    slug: string,
    plan: Plan,
    maxProducts: int,
    maxTransactionsPerMonth: int)

  /** An `organization_members` row. */
  datatype OrgMember = OrgMember(id: string, organizationId: string, userId: string, role: Role)

  /** The answer to one `.maybeSingle()` (or list) read: an error, no row
      (`data` is null), or a row. */
  datatype Fetch<T> = StoreError | NoRow | Row(value: T)

  /** The replies to the three reads of one attempt: the caller's membership
      (its organization id), the organization, and the member list. */
  datatype AttemptReplies = AttemptReplies(
    membership: Fetch<string>,
    organization: Fetch<Organization>,
    members: Fetch<seq<OrgMember>>)

  /** The hook's state: `organization`, `members` and `loading`. */
  datatype TenantState = TenantState(organization: Option<Organization>, members: seq<OrgMember>, loading: bool)

  /** How one attempt ends: a store error (retried), a missing membership or
      organization (terminal), or an organization with its members. */
  datatype AttemptResult = Transient | NotFound | Found(org: Organization, members: seq<OrgMember>)

  /** The outcome of one attempt. A failed member-list read does not fail
      the attempt: the list degrades to empty, as does a null list. */
  function AttemptOutcome(a: AttemptReplies): (r: AttemptResult)
    ensures r.Transient? <==> a.membership.StoreError? || (a.membership.Row? && a.organization.StoreError?)
    ensures r.NotFound? <==> a.membership.NoRow? || (a.membership.Row? && a.organization.NoRow?)
    ensures r.Found? ==> a.membership.Row? && a.organization == Row(r.org)
    ensures r.Found? ==> r.members == (if a.members.Row? then a.members.value else [])
  {
    match a.membership
    case StoreError => Transient
    case NoRow => NotFound
    case Row(_) =>
      match a.organization
      case StoreError => Transient
      case NoRow => NotFound
      case Row(o) => Found(o, if a.members.Row? then a.members.value else [])
  }

  const MaxAttempts: nat := 3

  /** The zero-based index of the first of the first `MaxAttempts` attempts
      that does not end in a store error, if any. */
  function FirstSettled(replies: seq<AttemptReplies>): (r: Option<nat>)
    requires |replies| >= MaxAttempts
    ensures r.Some? ==> r.value < MaxAttempts && !AttemptOutcome(replies[r.value]).Transient?
    ensures r.Some? ==> forall k :: 0 <= k < r.value ==> AttemptOutcome(replies[k]).Transient?
    ensures r.None? <==> forall k :: 0 <= k < MaxAttempts ==> AttemptOutcome(replies[k]).Transient?
  {
    if !AttemptOutcome(replies[0]).Transient? then Some(0)
    else if !AttemptOutcome(replies[1]).Transient? then Some(1)
    else if !AttemptOutcome(replies[2]).Transient? then Some(2)
    else None
  }

  /** The sleeps between attempts: 500·attempt ms after each failed attempt
      but the last, for the first `n` of them. */
  function Backoff(n: nat): (r: seq<nat>)
    ensures |r| == n
    ensures forall i :: 0 <= i < n ==> r[i] == 500 * (i + 1)
  {
    seq(n, i requires 0 <= i < n => 500 * (i + 1))
  }

  function Sum(s: seq<nat>): nat
  {
    if |s| == 0 then 0 else s[0] + Sum(s[1..])
  }

  /** The result of one `fetchOrganization` run: the new state, how many
      attempts were made, the sleeps taken, and whether the error toast was
      raised. */
  datatype Resolution = Resolution(state: TenantState, attempts: nat, waits: seq<nat>, notified: bool)

  /** `fetchOrganization`. */
  method FetchOrganization(user: Option<string>, st: TenantState, replies: seq<AttemptReplies>)
    returns (r: Resolution)
    requires |replies| >= MaxAttempts
    ensures user.None? ==> r == Resolution(st, 0, [], false)
    ensures user.Some? ==> !r.state.loading
    ensures user.Some? ==> 1 <= r.attempts <= MaxAttempts && r.waits == Backoff(r.attempts - 1)
    ensures user.Some? ==> match FirstSettled(replies)
      case Some(k) =>
        && r.attempts == k + 1
        && !r.notified
        && (match AttemptOutcome(replies[k])
            case Found(o, ms) => r.state.organization == Some(o) && r.state.members == ms
            case _ => r.state.organization.None? && r.state.members == [])
      case None =>
        && r.attempts == MaxAttempts
        && r.notified
        && r.state.organization == st.organization && r.state.members == st.members
  {
    if user.None? {
      return Resolution(st, 0, [], false);
    }
    var state := st.(loading := true);
    var waits: seq<nat> := [];
    var attempt: nat := 1;
    var done := false;
    while attempt <= MaxAttempts && !done
      invariant 1 <= attempt <= MaxAttempts + 1
      invariant done ==> attempt <= MaxAttempts
      invariant forall k :: 0 <= k < attempt - 1 ==> AttemptOutcome(replies[k]).Transient?
      invariant waits == Backoff(Min(attempt - 1, MaxAttempts - 1))
      invariant !done ==> state == st.(loading := true)
      invariant done ==> !AttemptOutcome(replies[attempt - 1]).Transient?
      invariant done ==> match AttemptOutcome(replies[attempt - 1])
        case Found(o, ms) => state.organization == Some(o) && state.members == ms
        case _ => state.organization.None? && state.members == []
      decreases MaxAttempts + 1 - attempt, if done then 0 else 1
    {
      var a := replies[attempt - 1];
      match AttemptOutcome(a)
      case Transient =>
        if attempt < MaxAttempts {
          waits := waits + [500 * attempt];
        }
        attempt := attempt + 1;
      case NotFound =>
        state := state.(organization := None, members := []);
        done := true;
      case Found(o, ms) =>
        state := state.(organization := Some(o), members := ms);
        done := true;
    }
    var attempts := if done then attempt else MaxAttempts;
    r := Resolution(state.(loading := false), attempts, waits, !done);
  }

  /** Three failed attempts sleep 500 ms then 1000 ms — 1500 ms in all, with
      no sleep after the last attempt. */
  lemma ExhaustedBackoff()
    ensures Backoff(MaxAttempts - 1) == [500, 1000]
    ensures Sum(Backoff(MaxAttempts - 1)) == 1500
  {
    assert Backoff(2) == [500, 1000];
    assert Sum([1000]) == 1000;
  }

  /** The n-th sleep is 500·n ms, so the sleeps before attempt n + 1 add up
      to 250·n·(n + 1) ms. */
  lemma {:induction false} BackoffTotal(n: nat)
    ensures Sum(Backoff(n)) == 250 * n * (n + 1)
  {
    if n > 0 {
      BackoffTotal(n - 1);
      SumAppend(Backoff(n - 1), [500 * n]);
      assert Backoff(n) == Backoff(n - 1) + [500 * n];
    }
  }

  lemma {:induction false} SumAppend(a: seq<nat>, b: seq<nat>)
    ensures Sum(a + b) == Sum(a) + Sum(b)
  {
    if |a| == 0 {
      assert a + b == b;
    } else {
      SumAppend(a[1..], b);
      assert (a + b)[1..] == a[1..] + b;
    }
  }

  /** `getCurrentUserRole`: null without a user or without members,
      otherwise the role of the first member row of that user, if any. */
  function CurrentUserRole(user: Option<string>, members: seq<OrgMember>): (r: Option<Role>)
    ensures r.Some? <==> user.Some? && exists i :: 0 <= i < |members| && members[i].userId == user.value
    ensures r.Some? ==>
      exists i :: 0 <= i < |members| && members[i].userId == user.value && members[i].role == r.value
        && (forall j :: 0 <= j < i ==> members[j].userId != user.value)
  {
    if user.None? || |members| == 0 then None
    else FindRole(members, user.value)
  }

  /** `members.find(m => m.user_id === id)?.role`. */
  function FindRole(members: seq<OrgMember>, id: string): (r: Option<Role>)
    ensures r.Some? <==> exists i :: 0 <= i < |members| && members[i].userId == id
    ensures r.Some? ==>
      exists i :: 0 <= i < |members| && members[i].userId == id && members[i].role == r.value
        && (forall j :: 0 <= j < i ==> members[j].userId != id)
  {
    if |members| == 0 then None
    else if members[0].userId == id then Some(members[0].role)
    else
      var r := FindRole(members[1..], id);
      assert forall i :: 0 < i < |members| ==> members[i] == members[1..][i - 1];
      if r.Some? then
        var i :| 0 <= i < |members[1..]| && members[1..][i].userId == id && members[1..][i].role == r.value
          && forall j :: 0 <= j < i ==> members[1..][j].userId != id;
        assert members[i + 1] == members[1..][i];
        r
      else r
  }

  /** `canManageOrganization`: the user is an owner or an admin. */
  predicate CanManage(user: Option<string>, members: seq<OrgMember>)
    ensures CanManage(user, members) <==> user.Some? && exists i ::
              && 0 <= i < |members| && members[i].userId == user.value
              && (forall j :: 0 <= j < i ==> members[j].userId != user.value)
              && (members[i].role == Owner || members[i].role == Admin)
  {
    CurrentUserRole(user, members) == Some(Owner) || CurrentUserRole(user, members) == Some(Admin)
  }

  /** `isOwner`. */
  predicate IsOwner(user: Option<string>, members: seq<OrgMember>)
    ensures IsOwner(user, members) <==> user.Some? && exists i ::
              && 0 <= i < |members| && members[i].userId == user.value
              && (forall j :: 0 <= j < i ==> members[j].userId != user.value)
              && members[i].role == Owner
  {
    CurrentUserRole(user, members) == Some(Owner)
  }

  /** An owner can manage; a plain member cannot; nobody without a member
      row can do either. */
  lemma RoleHelpers(user: Option<string>, members: seq<OrgMember>)
    ensures IsOwner(user, members) ==> CanManage(user, members)
    ensures CurrentUserRole(user, members) == Some(Member) ==> !CanManage(user, members)
    ensures (user.None? || forall i :: 0 <= i < |members| ==> members[i].userId != user.value) ==>
      !CanManage(user, members) && !IsOwner(user, members)
  {
  }

  /** The role of the first matching row wins: a user listed twice takes the
      role of the earlier row. */
  lemma FirstRowWins(user: string, a: OrgMember, b: OrgMember)
    requires a.userId == user && b.userId == user
    ensures CurrentUserRole(Some(user), [a, b]) == Some(a.role)
  {
  }

  datatype PlanLimits = PlanLimits(maxProducts: int, maxTransactionsPerMonth: int, plan: Plan)
  datatype Limits = Limits(canAddProducts: bool, canAddTransactions: bool, planLimits: Option<PlanLimits>)

  /** `checkLimits`: nothing is allowed without an organization; with one,
      both flags are set and the limits echo its plan fields. */
  function CheckLimits(org: Option<Organization>): (r: Limits)
    ensures org.None? ==> !r.canAddProducts && !r.canAddTransactions && r.planLimits.None?
    ensures org.Some? ==> r.canAddProducts && r.canAddTransactions
    ensures org.Some? ==> r.planLimits == Some(PlanLimits(org.value.maxProducts, org.value.maxTransactionsPerMonth, org.value.plan))
  {
    match org
    case None => Limits(false, false, None)
    case Some(o) => Limits(true, true, Some(PlanLimits(o.maxProducts, o.maxTransactionsPerMonth, o.plan)))
  }

  function OtherThan(memberId: string): OrgMember -> bool { (m: OrgMember) => m.id != memberId }

  /** `removeMember`: without an organization or on a store error the list is
      left alone and the call answers false; otherwise the rows with that id
      are dropped and the call answers true. */
  function RemoveMember(org: Option<Organization>, members: seq<OrgMember>, memberId: string, deleteFails: bool)
    : (r: (seq<OrgMember>, bool))
    ensures r.1 <==> org.Some? && !deleteFails
    ensures !r.1 ==> r.0 == members
    ensures r.1 ==> forall i :: 0 <= i < |r.0| ==> r.0[i].id != memberId && r.0[i] in members
    ensures r.1 ==> forall i :: 0 <= i < |members| && members[i].id != memberId ==> members[i] in r.0
  {
    if org.None? || deleteFails then (members, false)
    else
      FilterMembers(members, OtherThan(memberId));
      (Filter(members, OtherThan(memberId)), true)
  }

  /** The kept members are exactly the others, in their original order. */
  lemma RemoveMemberKeepsOrder(org: Organization, members: seq<OrgMember>, memberId: string)
    ensures var kept := RemoveMember(Some(org), members, memberId, false).0;
      var idx := KeptIndices(members, OtherThan(memberId));
      && |idx| == |kept|
      && (forall k :: 0 <= k < |idx| ==> idx[k] < |members| && kept[k] == members[idx[k]])
      && (forall k, l :: 0 <= k < l < |idx| ==> idx[k] < idx[l])
      && (forall i :: 0 <= i < |members| ==> (i in idx <==> members[i].id != memberId))
  {
    FilterIsOrderedSubsequence(members, OtherThan(memberId));
  }
}
