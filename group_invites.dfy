/** The pending group invitations of src/components/GroupInvites.tsx:
    loading the signed-in user's pending invites, and answering one, which
    on success drops it from the list. */
module Invites {
  import opened Common

  datatype GroupInvite = GroupInvite(
    id: string,
    status: string,
    createdAt: string,
    groupId: string,
    inviterId: UserId,
    inviteeId: UserId)

  /** The read `fetchInvites` issues: invites whose `invitee_id` and `status`
      equal the given values. */
  datatype InviteQuery = InviteQuery(inviteeId: UserId, status: string)

  /** The write an answer issues: set the status of the invite with this id. */
  datatype StatusUpdate = StatusUpdate(inviteId: string, status: string)

  /** Whether a stored invite is one the query selects. */
  predicate Selects(q: InviteQuery, inv: GroupInvite)
  {
    inv.inviteeId == q.inviteeId && inv.status == q.status
  }

  /** The query for a user's invitations selects exactly those addressed to
      that user that are still pending. */
  function PendingFor(user: UserId): (q: InviteQuery)
    ensures forall inv :: Selects(q, inv) <==> inv.inviteeId == user && inv.status == "pending"
  {
    InviteQuery(user, "pending")
  }

  /** `accept ? 'accepted' : 'declined'` */
  function StatusFor(accept: bool): (s: string)
    ensures s == "accepted" <==> accept
    ensures s == "declined" <==> !accept
  {
    if accept then "accepted" else "declined"
  }

  /** `invites.filter(invite => invite.id !== id)` */
  function Remove(invites: seq<GroupInvite>, id: string): (r: seq<GroupInvite>)
    ensures |r| <= |invites|
    ensures forall inv :: inv in r <==> inv in invites && inv.id != id
  {
    if invites == [] then []
    else if invites[0].id == id then Remove(invites[1..], id)
    else [invites[0]] + Remove(invites[1..], id)
  }

  /** Filtering distributes over concatenation, so every kept invite keeps its
      place relative to the others. */
  lemma {:induction false} RemoveAppend(a: seq<GroupInvite>, b: seq<GroupInvite>, id: string)
    ensures Remove(a + b, id) == Remove(a, id) + Remove(b, id)
  {
    if a == [] {
      assert a + b == b;
    } else {
      assert (a + b)[0] == a[0];
      assert (a + b)[1..] == a[1..] + b;
      RemoveAppend(a[1..], b, id);
    }
  }

  /** Removing an id no invite has changes nothing. */
  lemma {:induction false} RemoveAbsent(invites: seq<GroupInvite>, id: string)
    requires forall inv :: inv in invites ==> inv.id != id
    ensures Remove(invites, id) == invites
  {
    if invites != [] {
      assert invites[0] in invites;
      assert forall inv :: inv in invites[1..] ==> inv in invites;
      RemoveAbsent(invites[1..], id);
      assert invites == [invites[0]] + invites[1..];
    }
  }

  /** Removing the same id twice is removing it once. */
  lemma RemoveIdempotent(invites: seq<GroupInvite>, id: string)
    ensures Remove(Remove(invites, id), id) == Remove(invites, id)
  {
    RemoveAbsent(Remove(invites, id), id);
  }

  /** How many invites in the list carry this id. */
  function CountWithId(invites: seq<GroupInvite>, id: string): nat
  {
    if invites == [] then 0
    else (if invites[0].id == id then 1 else 0) + CountWithId(invites[1..], id)
  }

  /** The list shrinks by exactly the number of invites with that id. */
  lemma {:induction false} RemoveCount(invites: seq<GroupInvite>, id: string)
    ensures |Remove(invites, id)| == |invites| - CountWithId(invites, id)
  {
    if invites != [] {
      RemoveCount(invites[1..], id);
    }
  }

  class GroupInvites {
    var invites: seq<GroupInvite>
    var loading: bool

    constructor ()
      ensures invites == [] && loading
    {
      invites := [];
      loading := true;
    }

    /** `fetchInvites`: without a user nothing happens; otherwise it reads the
        user's pending invites and shows them, keeping the list on failure. */
    method FetchInvites(user: Option<UserId>, outcome: Remote<seq<GroupInvite>>) returns (issued: Option<InviteQuery>)
      modifies this
      ensures user.None? ==> issued.None? && invites == old(invites) && loading == old(loading)
      ensures user.Some? ==> issued == Some(PendingFor(user.value)) && !loading
      ensures user.Some? ==> invites == if outcome.Success? then outcome.data else old(invites)
    {
      if user.None? {
        return None;
      }
      issued := Some(PendingFor(user.value));
      if outcome.Success? {
        invites := outcome.data;
      }
      loading := false;
    }

    /** `handleInviteResponse`: records the answer, and on success drops the
        invite from the list; on failure the list is kept. */
    method HandleInviteResponse(inviteId: string, accept: bool, outcome: Remote<()>) returns (update: StatusUpdate)
      modifies this`invites
      ensures update == StatusUpdate(inviteId, StatusFor(accept))
      ensures invites == if outcome.Success? then Remove(old(invites), inviteId) else old(invites)
    {
      update := StatusUpdate(inviteId, StatusFor(accept));
      if outcome.Success? {
        invites := Remove(invites, inviteId);
      }
    }
  }
}
