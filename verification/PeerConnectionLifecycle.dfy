/**
 One RTCPeerConnection of the client (peer-connection-lifecycle.ts): its negotiation id, the ids it
 has retired, and the candidates waiting for a description on either side.
 */
module PeerConnectionLifecycle {
  import opened Common

  const MAX_PENDING_REMOTE_ICE_CANDIDATES := 256
  const MAX_RETIRED_NEGOTIATION_IDS := 8

  /** Negotiation ids are only compared for equality. */
  type NegotiationId = nat

  /** The n-th candidate a connection has gathered; the end of candidates has no fragment. */
  datatype LocalCandidate = LocalCandidate(number: nat, fragment: Option<nat>)

  /** A candidate of the other side, with the negotiation id and the connection it arrived at. */
  datatype RemoteCandidate = RemoteCandidate(number: nat, id: NegotiationId, connection: nat)

  /**
   The retired ids are in the order in which they were retired (the insertion order of the Set);
   `superseded` is every id that was ever retired, by this connection or the ones it replaces.
   */
  datatype Lifecycle = Lifecycle(
    negotiationId: Option<NegotiationId>, retired: seq<NegotiationId>, superseded: seq<NegotiationId>,
    remoteOffers: set<NegotiationId>, pendingRemote: seq<RemoteCandidate>, overflowWarned: bool,
    pendingLocal: seq<LocalCandidate>, fragments: set<nat>,
    remoteDescriptionSet: bool, published: bool, makingOffer: bool, closed: bool, connectionAttempt: nat)

  function NewLifecycle(connectionAttempt: nat, retired: seq<NegotiationId>, superseded: seq<NegotiationId>): Lifecycle {
    Lifecycle(None, retired, superseded, {}, [], false, [], {}, false, false, false, false, connectionAttempt)
  }

  // ----- negotiation ids -----

  /** The newest eight of some ids. */
  function Newest(ids: seq<NegotiationId>): (r: seq<NegotiationId>)
    ensures |r| <= MAX_RETIRED_NEGOTIATION_IDS
  {
    if |ids| <= MAX_RETIRED_NEGOTIATION_IDS then ids else ids[|ids| - MAX_RETIRED_NEGOTIATION_IDS..]
  }

  function Remember(retired: seq<NegotiationId>, id: Option<NegotiationId>): seq<NegotiationId> {
    if id == None || id.value in retired then retired else Newest(retired + [id.value])
  }

  /** The current id joins the retired ones. */
  function RetireCurrent(p: Lifecycle): Lifecycle {
    p.(retired := Remember(p.retired, p.negotiationId),
       superseded := if p.negotiationId == None || p.negotiationId.value in p.retired then p.superseded
                     else p.superseded + [p.negotiationId.value])
  }

  function ReplaceNegotiationId(p: Lifecycle, id: NegotiationId): Lifecycle {
    if p.negotiationId == Some(id) then p
    else
      RetireCurrent(p).(
        negotiationId := Some(id),
        pendingRemote := [], overflowWarned := false, published := false, pendingLocal := [], fragments := {})
  }

  predicate CanAcceptRemoteOffer(p: Lifecycle, id: NegotiationId) {
    && id !in p.remoteOffers && id !in p.retired
    && (p.negotiationId != Some(id) || (!p.remoteDescriptionSet && !p.published))
  }

  predicate MatchesNegotiation(p: Lifecycle, id: NegotiationId) {
    p.negotiationId == Some(id) && id !in p.retired
  }

  /** Whether a candidate that arrives with this id is for the current negotiation, or starts one. */
  predicate AdoptsOrMatches(p: Lifecycle, id: NegotiationId) {
    MatchesNegotiation(p, id)
    || (p.negotiationId == None && id !in p.retired && !p.remoteDescriptionSet && !p.published)
  }

  // ----- candidates -----

  function QueueRemoteCandidate(p: Lifecycle, candidate: RemoteCandidate): Lifecycle {
    var full := |p.pendingRemote| >= MAX_PENDING_REMOTE_ICE_CANDIDATES;
    p.(pendingRemote := (if full then p.pendingRemote[1..] else p.pendingRemote) + [candidate],
       overflowWarned := p.overflowWarned || full)
  }

  function ResetLocalDescription(p: Lifecycle): Lifecycle {
    p.(published := false, pendingLocal := [])
  }

  predicate CandidateMatches(p: Lifecycle, candidate: LocalCandidate) {
    p.retired == [] || (candidate.fragment.Some? && candidate.fragment.value in p.fragments)
  }

  function Disposed(p: Lifecycle): Lifecycle {
    p.(closed := true, pendingRemote := [], overflowWarned := false, pendingLocal := [], remoteOffers := {})
  }

  // ----- retired ids -----

  lemma NewestAgain(ids: seq<NegotiationId>, id: NegotiationId)
    ensures Newest(Newest(ids) + [id]) == Newest(ids + [id])
  {
  }

  lemma NewestPlus(ids: seq<NegotiationId>, id: NegotiationId)
    requires |ids| <= MAX_RETIRED_NEGOTIATION_IDS
    ensures Newest(ids + [id]) == (if |ids| < MAX_RETIRED_NEGOTIATION_IDS then ids else ids[1..]) + [id]
    ensures id in Newest(ids + [id])
    ensures NoDup(ids) && id !in ids ==> NoDup(Newest(ids + [id]))
  {
  }

  /** The retired ids are the newest eight of those that were ever superseded, in order, each once. */
  ghost predicate RetiredExact(p: Lifecycle) {
    p.retired == Newest(p.superseded) && NoDup(p.retired)
  }

  lemma RetiringKeepsExact(p: Lifecycle)
    requires RetiredExact(p)
    ensures RetiredExact(RetireCurrent(p))
    ensures p.negotiationId.Some? ==> p.negotiationId.value in RetireCurrent(p).retired
    ensures forall id :: id in RetireCurrent(p).retired ==> id in p.retired || Some(id) == p.negotiationId
  {
    if p.negotiationId.Some? && p.negotiationId.value !in p.retired {
      NewestAgain(p.superseded, p.negotiationId.value);
      NewestPlus(p.retired, p.negotiationId.value);
    }
  }

  /** While an id is retired, no signal that carries it is accepted. */
  lemma RetiredIsRefused(p: Lifecycle, id: NegotiationId)
    requires id in p.retired
    ensures !CanAcceptRemoteOffer(p, id) && !MatchesNegotiation(p, id) && !AdoptsOrMatches(p, id)
  {
  }

  /** An id that may be taken over by this connection's own checks is not a retired one afterwards. */
  lemma ReplacingStaysFresh(p: Lifecycle, id: NegotiationId)
    requires RetiredExact(p) && id !in p.retired
    ensures RetiredExact(ReplaceNegotiationId(p, id)) && MatchesNegotiation(ReplaceNegotiationId(p, id), id)
  {
    RetiringKeepsExact(p);
  }

  // ----- the object -----

  class PeerConnectionLifecycle {
    var connectionAttempt: nat
    var remoteDescriptionSet: bool
    var localDescriptionPublished: bool
    var makingOffer: bool
    var closed: bool
    var negotiationId: Option<NegotiationId>
    var retiredNegotiationIds: seq<NegotiationId>
    var remoteOffersInProgress: set<NegotiationId>
    var pendingRemoteCandidates: seq<RemoteCandidate>
    var pendingLocalCandidates: seq<LocalCandidate>
    var localIceUsernameFragments: set<nat>
    var pendingCandidateOverflowWarned: bool
    ghost var superseded: seq<NegotiationId>

    ghost function Model(): Lifecycle
      reads this
    {
      Lifecycle(negotiationId, retiredNegotiationIds, superseded, remoteOffersInProgress, pendingRemoteCandidates,
                pendingCandidateOverflowWarned, pendingLocalCandidates, localIceUsernameFragments,
                remoteDescriptionSet, localDescriptionPublished, makingOffer, closed, connectionAttempt)
    }

    constructor (connectionAttempt: nat, retired: seq<NegotiationId>, ghost superseded: seq<NegotiationId>)
      ensures Model() == NewLifecycle(connectionAttempt, retired, superseded)
    {
      this.superseded := superseded;
      this.connectionAttempt := connectionAttempt;
      remoteDescriptionSet, localDescriptionPublished, makingOffer, closed := false, false, false, false;
      negotiationId, retiredNegotiationIds, remoteOffersInProgress := None, retired, {};
      pendingRemoteCandidates, pendingLocalCandidates := [], [];
      localIceUsernameFragments, pendingCandidateOverflowWarned := {}, false;
    }

    method RememberRetiredNegotiation(id: Option<NegotiationId>)
      requires |retiredNegotiationIds| <= MAX_RETIRED_NEGOTIATION_IDS && id == negotiationId
      modifies `retiredNegotiationIds, `superseded
      ensures Model() == RetireCurrent(old(Model()))
    {
      if id == None || id.value in retiredNegotiationIds {
        return;
      }
      superseded := superseded + [id.value];
      while |retiredNegotiationIds| >= MAX_RETIRED_NEGOTIATION_IDS
        invariant |retiredNegotiationIds| <= |old(retiredNegotiationIds)|
        invariant retiredNegotiationIds == old(retiredNegotiationIds)[|old(retiredNegotiationIds)| - |retiredNegotiationIds|..]
        invariant |retiredNegotiationIds| >= Min(|old(retiredNegotiationIds)|, MAX_RETIRED_NEGOTIATION_IDS - 1)
        invariant superseded == old(superseded) + [id.value]
      {
        retiredNegotiationIds := retiredNegotiationIds[1..];
      }
      ghost var were := old(retiredNegotiationIds);
      NewestPlus(were, id.value);
      assert retiredNegotiationIds == if |were| < MAX_RETIRED_NEGOTIATION_IDS then were else were[1..];
      retiredNegotiationIds := retiredNegotiationIds + [id.value];
    }

    method ReplaceId(id: NegotiationId)
      requires |retiredNegotiationIds| <= MAX_RETIRED_NEGOTIATION_IDS
      modifies this
      ensures Model() == ReplaceNegotiationId(old(Model()), id)
    {
      if negotiationId == Some(id) {
        return;
      }
      RememberRetiredNegotiation(negotiationId);
      negotiationId := Some(id);
      pendingRemoteCandidates, pendingCandidateOverflowWarned := [], false;
      ResetLocal();
      localIceUsernameFragments := {};
    }

    /** `offered` is what the generator would return, in order; it has to come up with a usable id. */
    method StartLocalNegotiation(offered: seq<NegotiationId>) returns (id: NegotiationId)
      requires |retiredNegotiationIds| <= MAX_RETIRED_NEGOTIATION_IDS
      requires exists i :: 0 <= i < |offered| && Some(offered[i]) != negotiationId && offered[i] !in retiredNegotiationIds
      modifies this
      ensures id in offered && Some(id) != old(negotiationId) && id !in old(retiredNegotiationIds)
      ensures Model() == ReplaceNegotiationId(old(Model()), id)
    {
      var i := 0;
      while Some(offered[i]) == negotiationId || offered[i] in retiredNegotiationIds
        invariant 0 <= i < |offered|
        invariant exists j :: i <= j < |offered| && Some(offered[j]) != negotiationId && offered[j] !in retiredNegotiationIds
        decreases |offered| - i
      {
        i := i + 1;
      }
      id := offered[i];
      ReplaceId(id);
    }

    method AdoptOrMatchCandidateNegotiation(id: NegotiationId) returns (accepted: bool)
      requires |retiredNegotiationIds| <= MAX_RETIRED_NEGOTIATION_IDS
      modifies this
      ensures accepted == AdoptsOrMatches(old(Model()), id)
      ensures Model() == if accepted then ReplaceNegotiationId(old(Model()), id) else old(Model())
    {
      if negotiationId == Some(id) && id !in retiredNegotiationIds {
        return true;
      }
      if negotiationId != None || id in retiredNegotiationIds || remoteDescriptionSet || localDescriptionPublished {
        return false;
      }
      ReplaceId(id);
      return true;
    }

    /** The set that a replacement inherits. */
    method RetireNegotiations() returns (retired: seq<NegotiationId>)
      requires |retiredNegotiationIds| <= MAX_RETIRED_NEGOTIATION_IDS
      modifies `retiredNegotiationIds, `superseded
      ensures retired == retiredNegotiationIds && Model() == RetireCurrent(old(Model()))
    {
      RememberRetiredNegotiation(negotiationId);
      return retiredNegotiationIds;
    }

    method QueueCandidate(candidate: RemoteCandidate) returns (shouldWarn: bool)
      modifies `pendingRemoteCandidates, `pendingCandidateOverflowWarned
      ensures Model() == QueueRemoteCandidate(old(Model()), candidate)
      ensures shouldWarn == (pendingCandidateOverflowWarned && !old(pendingCandidateOverflowWarned))
    {
      shouldWarn := false;
      if |pendingRemoteCandidates| >= MAX_PENDING_REMOTE_ICE_CANDIDATES {
        pendingRemoteCandidates := pendingRemoteCandidates[1..];
        if !pendingCandidateOverflowWarned {
          pendingCandidateOverflowWarned := true;
          shouldWarn := true;
        }
      }
      pendingRemoteCandidates := pendingRemoteCandidates + [candidate];
    }

    method ExtractPendingRemoteCandidates() returns (candidates: seq<RemoteCandidate>, overflowWarned: bool)
      modifies `pendingRemoteCandidates, `pendingCandidateOverflowWarned
      ensures candidates == old(pendingRemoteCandidates) && overflowWarned == old(pendingCandidateOverflowWarned)
      ensures Model() == old(Model()).(pendingRemote := [], overflowWarned := false)
    {
      candidates, overflowWarned := pendingRemoteCandidates, pendingCandidateOverflowWarned;
      pendingRemoteCandidates, pendingCandidateOverflowWarned := [], false;
    }

    method ResetLocal()
      modifies `localDescriptionPublished, `pendingLocalCandidates
      ensures Model() == ResetLocalDescription(old(Model()))
    {
      localDescriptionPublished, pendingLocalCandidates := false, [];
    }

    method PublishLocalDescription() returns (candidates: seq<LocalCandidate>)
      modifies `localDescriptionPublished, `pendingLocalCandidates
      ensures candidates == old(pendingLocalCandidates)
      ensures Model() == old(Model()).(published := true, pendingLocal := [])
    {
      localDescriptionPublished := true;
      candidates, pendingLocalCandidates := pendingLocalCandidates, [];
    }

    method Dispose()
      modifies this
      ensures Model() == Disposed(old(Model()))
    {
      closed := true;
      pendingRemoteCandidates, pendingCandidateOverflowWarned := [], false;
      pendingLocalCandidates, remoteOffersInProgress := [], {};
    }
  }
}
