/**
 * The boot sequence as the methods of the service, run without interruption: the loop over the pending
 * entries with its catch around each one, and the three places that start an entry.
 *
 * Models packages/agent-sdk/src/bootstrap/EcsBootstrapService.ts. What the calls to the chain and to the
 * peers answer is a parameter.
 */
module EcsBootstrapServices {
  import opened Options
  import opened EcsBootstrap

  /** The entry is usable and belongs to the agent. */
  predicate IsOwn(p: Participant, schema: nat, role: Role) {
    p.own && p.schema == schema && p.role == role && Usable(p)
  }

  predicate HoldsOne(ps: seq<Participant>, schema: nat, role: Role) {
    exists i :: 0 <= i < |ps| && IsOwn(ps[i], schema, role)
  }

  /** A longer list holds what its beginning holds. */
  lemma HoldsMore(ps: seq<Participant>, qs: seq<Participant>, schema: nat, role: Role)
    requires ps <= qs && HoldsOne(ps, schema, role)
    ensures HoldsOne(qs, schema, role)
  {
    var i :| 0 <= i < |ps| && IsOwn(ps[i], schema, role);
    assert IsOwn(qs[i], schema, role);
  }

  class EcsBootstrapService {
    var participants: seq<Participant>
    /** The start and self-create transactions so far, each of which cost a deposit. */
    var deposits: nat

    constructor (participants: seq<Participant>)
      ensures this.participants == participants && deposits == 0
    {
      this.participants, this.deposits := participants, 0;
    }

    /** `startParticipantOP` and `selfCreateParticipant`; `None` when the chain refuses. */
    method StartEntry(entry: Participant, accepted: bool) returns (id: Option<nat>)
      modifies this
      ensures accepted ==> id == Some(|old(participants)|) && participants == old(participants) + [entry] && deposits == old(deposits) + 1
      ensures !accepted ==> id == None && participants == old(participants) && deposits == old(deposits)
    {
      if !accepted { return None; }
      id := Some(|participants|);
      participants := participants + [entry];
      deposits := deposits + 1;
    }

    /** `resumePendingOnboardings`: `ended` flows are left alone, `failing` entries throw and are skipped. */
    method ResumePendingOnboardings(ended: set<nat>, failing: set<nat>)
      modifies this`participants
      ensures |participants| == |old(participants)|
      ensures forall i :: 0 <= i < |participants| ==>
                var p := old(participants)[i];
                participants[i] ==
                if p.own && p.pending && !p.revoked && !p.slashed && i !in ended && i !in failing &&
                   p.validator.Some? && p.validator.value < |participants| && old(participants)[p.validator.value].own
                then p.(activity := Active, pending := false) else p
    {
      var todo := PendingEntries(participants, |participants|);
      PendingAreListed(participants, |participants|);
      PendingAreDistinct(participants, |participants|);
      var n := 0;
      while n < |todo|
        invariant n <= |todo| && |participants| == |old(participants)|
        invariant forall i :: 0 <= i < |participants| ==>
                    participants[i] ==
                    if i in todo[..n] && i !in ended && i !in failing && ValidatesItself(old(participants), i)
                    then MarkValidated(old(participants)[i]) else old(participants)[i]
      {
        var id := todo[n];
        assert id in todo;
        assert todo[..n + 1] == todo[..n] + [id];
        ResumeOnboarding(id, ended, failing);
        n := n + 1;
      }
      assert todo[..|todo|] == todo;
    }

    /** `resumeOnboarding` and the catch around it. */
    method ResumeOnboarding(id: nat, ended: set<nat>, failing: set<nat>)
      requires id < |participants|
      modifies this`participants
      ensures participants ==
              if id !in ended && id !in failing && ValidatesItself(old(participants), id)
              then old(participants)[id := MarkValidated(old(participants)[id])] else old(participants)
    {
      if id in ended || id in failing { return; }
      if ValidatesItself(participants, id) {
        participants := participants[id := MarkValidated(participants[id])];
      }
    }

    /** `ensureSelfIssuedParticipant`: a start that is validated at once, unless an entry is usable. */
    method EnsureSelfIssuedParticipant(schema: nat, root: nat, startAccepted: bool, validateAccepted: bool)
      returns (thrown: bool)
      modifies this
      ensures HoldsOne(old(participants), schema, Issuer) ==>
                !thrown && participants == old(participants) && deposits == old(deposits)
      ensures !HoldsOne(old(participants), schema, Issuer) ==>
                var entry := NewEntry(schema, Issuer, root, false);
                && thrown == !(startAccepted && validateAccepted)
                && deposits == old(deposits) + (if startAccepted then 1 else 0)
                && participants == old(participants) +
                   (if !startAccepted then [] else if validateAccepted then [MarkValidated(entry)] else [entry])
      ensures startAccepted ==> HoldsOne(participants, schema, Issuer)
    {
      if HoldsOne(participants, schema, Issuer) { return false; }
      var id := StartEntry(NewEntry(schema, Issuer, root, false), startAccepted);
      if id.None? { return true; }
      assert IsOwn(participants[id.value], schema, Issuer);
      if !validateAccepted { return true; }
      participants := participants[id.value := MarkValidated(participants[id.value])];
      assert IsOwn(participants[id.value], schema, Issuer);
      return false;
    }

    /** `ensureHolderParticipant`: the agent's own root makes it an issuer, any other schema a holder. */
    method EnsureHolderParticipant(schema: nat, ownRoot: Option<nat>, validator: Option<nat>, startAccepted: bool,
                                   validateAccepted: bool) returns (thrown: bool)
      modifies this
      ensures var role := if ownRoot.Some? then Issuer else Holder;
              && deposits <= old(deposits) + 1
              && old(participants) <= participants && |participants| - |old(participants)| == deposits - old(deposits)
              && (HoldsOne(old(participants), schema, role) ==>
                    !thrown && participants == old(participants) && deposits == old(deposits))
              && (!thrown ==> HoldsOne(participants, schema, role))
      ensures ownRoot.None? && !HoldsOne(old(participants), schema, Holder) ==>
                thrown == (validator.None? || !startAccepted)
    {
      if ownRoot.Some? {
        thrown := EnsureSelfIssuedParticipant(schema, ownRoot.value, startAccepted, validateAccepted);
        return;
      }
      if HoldsOne(participants, schema, Holder) { return false; }
      if validator.None? { return true; }
      var id := StartEntry(NewEntry(schema, Holder, validator.value, false), startAccepted);
      if id.None? { return true; }
      assert IsOwn(participants[id.value], schema, Holder);
      return false;
    }

    /** `ensureServiceIssuer`: an OPEN schema is self-created, any other one is onboarded. */
    method EnsureServiceIssuer(schema: nat, isOpen: Option<bool>, mayCreate: bool, validator: Option<nat>, accepted: bool)
      returns (thrown: bool)
      modifies this
      ensures HoldsOne(old(participants), schema, Issuer) ==>
                !thrown && participants == old(participants) && deposits == old(deposits)
      ensures !HoldsOne(old(participants), schema, Issuer) ==>
                && thrown == !(isOpen.Some? && (isOpen.value ==> mayCreate) && validator.Some? && accepted)
                && (!thrown ==> participants == old(participants) + [NewEntry(schema, Issuer, validator.value, isOpen.value)])
                && deposits == old(deposits) + (if thrown then 0 else 1)
                && (thrown ==> participants == old(participants))
      ensures !thrown ==> HoldsOne(participants, schema, Issuer)
    {
      if HoldsOne(participants, schema, Issuer) { return false; }
      if isOpen.None? { return true; }
      if isOpen.value && !mayCreate { return true; }
      if validator.None? { return true; }
      var id := StartEntry(NewEntry(schema, Issuer, validator.value, isOpen.value), accepted);
      if id.None? { return true; }
      assert IsOwn(participants[id.value], schema, Issuer);
      return false;
    }

    /**
     * `runStandalone` after its preflight: a normal return leaves both entries usable, each deposit is one
     * entry more, a provisioned agent pays nothing, and nobody pays more than twice.
     */
    method RunStandalone(credential: nat, service: nat, ownRoot: Option<nat>, validator: Option<nat>,
                         startAccepted: bool, validateAccepted: bool, isOpen: Option<bool>, mayCreate: bool,
                         serviceValidator: Option<nat>, accepted: bool) returns (thrown: bool)
      requires credential != service
      modifies this
      ensures !thrown ==>
                && HoldsOne(participants, credential, if ownRoot.Some? then Issuer else Holder)
                && HoldsOne(participants, service, Issuer)
      ensures deposits <= old(deposits) + 2
      ensures old(participants) <= participants && |participants| - |old(participants)| == deposits - old(deposits)
      ensures HoldsOne(old(participants), credential, if ownRoot.Some? then Issuer else Holder) &&
              HoldsOne(old(participants), service, Issuer) ==>
                !thrown && participants == old(participants) && deposits == old(deposits)
    {
      thrown := EnsureHolderParticipant(credential, ownRoot, validator, startAccepted, validateAccepted);
      if thrown { return; }
      ghost var before := participants;
      thrown := EnsureServiceIssuer(service, isOpen, mayCreate, serviceValidator, accepted);
      HoldsMore(before, participants, credential, if ownRoot.Some? then Issuer else Holder);
    }
  }

  lemma {:induction false} PendingAreDistinct(ps: seq<Participant>, n: nat)
    requires n <= |ps|
    ensures forall i, j :: 0 <= i < j < |PendingEntries(ps, n)| ==> PendingEntries(ps, n)[i] < PendingEntries(ps, n)[j]
    ensures forall i :: 0 <= i < |PendingEntries(ps, n)| ==> PendingEntries(ps, n)[i] < n
  {
    if n > 0 {
      PendingAreDistinct(ps, n - 1);
    }
  }
}
