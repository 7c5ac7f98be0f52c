/**
 * The election among the connections of one single-use invitation: each of them is examined when its
 * state changes, on its own view of the siblings, and closed unless it is the accepted one.
 *
 * Models `discardExtraConnection` of packages/agent-sdk/src/events/ConnectionEvents.ts.
 */
module Election {
  import opened Options
  import opened Strings
  import ParentConnection

  /** `tagged` tells whether the connection carries an `invitationId` tag. */
  datatype Sibling = Sibling(id: string, createdAt: int, tagged: bool)

  // ---------------------------------------------------------------- one view of the siblings

  function FindTagged(siblings: seq<Sibling>): Option<Sibling> {
    if siblings == [] then None
    else if siblings[0].tagged then Some(siblings[0])
    else FindTagged(siblings[1..])
  }

  /** `candidate` is older, or as old with the smaller id. */
  predicate Older(candidate: Sibling, oldest: Sibling) {
    || candidate.createdAt < oldest.createdAt
    || (candidate.createdAt == oldest.createdAt && Before(candidate.id, oldest.id))
  }

  /** The fold that keeps the older of two. */
  function Oldest(siblings: seq<Sibling>): Sibling
    requires siblings != []
  {
    if |siblings| == 1 then siblings[0]
    else
      var oldest := Oldest(siblings[..|siblings| - 1]);
      var candidate := siblings[|siblings| - 1];
      if Older(candidate, oldest) then candidate else oldest
  }

  function Accepted(siblings: seq<Sibling>): Sibling
    requires siblings != []
  {
    match FindTagged(siblings)
    case Some(sibling) => sibling
    case None => Oldest(siblings)
  }

  /** An invitation the election leaves alone: reusable, or under a public DID of the agent. */
  datatype Invitation = Invitation(reusable: bool, did: Option<string>)

  /** Whether the examination of a connection ends in its removal. */
  predicate Discards(id: string, v2: bool, invitation: Option<Invitation>, publicDids: set<string>, siblings: seq<Sibling>) {
    && v2
    && invitation.Some? && !invitation.value.reusable
    && !(invitation.value.did.Some? && invitation.value.did.value in publicDids)
    && |siblings| >= 2
    && Accepted(siblings).id != id
  }

  lemma {:induction false} FindTaggedFinds(siblings: seq<Sibling>)
    ensures FindTagged(siblings).None? <==> forall x :: x in siblings ==> !x.tagged
    ensures FindTagged(siblings).Some? ==> FindTagged(siblings).value in siblings && FindTagged(siblings).value.tagged
  {
    if siblings != [] {
      FindTaggedFinds(siblings[1..]);
      assert siblings == [siblings[0]] + siblings[1..];
    }
  }

  lemma OlderIsTransitive(a: Sibling, b: Sibling, c: Sibling)
    requires Older(a, b) && Older(b, c)
    ensures Older(a, c)
  {
    if a.createdAt == b.createdAt == c.createdAt {
      BeforeIsTransitive(a.id, b.id, c.id);
    }
  }

  /** The fold finds the one sibling that is older than all others, whatever the order of the list. */
  lemma {:induction false} OldestIsOldest(siblings: seq<Sibling>)
    requires siblings != [] && forall x, y :: x in siblings && y in siblings && x.id == y.id ==> x == y
    ensures Oldest(siblings) in siblings
    ensures forall x :: x in siblings ==> x == Oldest(siblings) || Older(Oldest(siblings), x)
  {
    var n := |siblings| - 1;
    if n > 0 {
      var oldest, candidate := Oldest(siblings[..n]), siblings[n];
      assert siblings == siblings[..n] + [candidate];
      OldestIsOldest(siblings[..n]);
      forall x | x in siblings ensures x == Oldest(siblings) || Older(Oldest(siblings), x) {
        if Older(candidate, oldest) && x != candidate && x != oldest {
          OlderIsTransitive(candidate, oldest, x);
        }
        BeforeIsTotal(candidate.id, oldest.id);
      }
    }
  }

  // ---------------------------------------------------------------- examinations over a fixed set of siblings

  /** The connections that ever bound to the invitation. */
  ghost predicate Family(all: map<string, Sibling>) {
    all != map[] && forall id :: id in all ==> all[id].id == id
  }

  ghost predicate AtMostOneTagged(all: map<string, Sibling>) {
    forall c, d :: c in all && d in all && all[c].tagged && all[d].tagged ==> c == d
  }

  /** The tagged connection, or else the one that is older than all others. */
  ghost predicate Winner(all: map<string, Sibling>, w: string) {
    && w in all
    && (all[w].tagged || forall x :: x in all ==> !all[x].tagged && (x == w || Older(all[w], all[x])))
  }

  /**
   * `pool` is what storage still holds. An examination that finds its connection to be an extra one
   * dooms it; the removal follows after the hangup. `done` holds the connections with a finished
   * examination.
   */
  datatype State = State(pool: set<string>, doomed: set<string>, done: set<string>)

  datatype Action = Examine(id: string, siblings: seq<Sibling>) | Remove(id: string)

  /** A query result: the stored siblings, each once, in any order. */
  ghost predicate Lists(all: map<string, Sibling>, pool: set<string>, siblings: seq<Sibling>) {
    && (forall i, j :: 0 <= i < j < |siblings| ==> siblings[i].id != siblings[j].id)
    && (forall x :: x in siblings ==> x.id in pool && x.id in all && all[x.id] == x)
    && (forall id :: id in pool && id in all ==> all[id] in siblings)
  }

  ghost predicate Enabled(all: map<string, Sibling>, s: State, a: Action) {
    match a
    case Examine(id, siblings) => id in all && Lists(all, s.pool, siblings)
    case Remove(id) => id in s.doomed
  }

  function Step(s: State, a: Action): State {
    match a
    case Examine(id, siblings) =>
      if |siblings| >= 2 && Accepted(siblings).id != id then s.(doomed := s.doomed + {id})
      else s.(done := s.done + {id})
    case Remove(id) => State(s.pool - {id}, s.doomed - {id}, s.done + {id})
  }

  ghost function Run(all: map<string, Sibling>, actions: seq<Action>): Option<State> {
    if actions == [] then Some(State(all.Keys, {}, {}))
    else match Run(all, actions[..|actions| - 1])
      case None => None
      case Some(s) =>
        var a := actions[|actions| - 1];
        if Enabled(all, s, a) then Some(Step(s, a)) else None
  }

  ghost predicate Reachable(all: map<string, Sibling>, s: State) {
    exists actions :: Run(all, actions) == Some(s)
  }

  /** Every view that still holds the winner elects it. */
  lemma ViewElectsWinner(all: map<string, Sibling>, pool: set<string>, siblings: seq<Sibling>, w: string)
    requires Family(all) && AtMostOneTagged(all) && Winner(all, w)
    requires pool <= all.Keys && w in pool && Lists(all, pool, siblings)
    ensures siblings != [] && Accepted(siblings) == all[w]
  {
    assert all[w] in siblings;
    FindTaggedFinds(siblings);
    if !all[w].tagged {
      OldestIsOldest(siblings);
      BeforeIsTotal(Oldest(siblings).id, w);
    }
  }

  ghost predicate Inv(all: map<string, Sibling>, s: State, w: string) {
    && w in s.pool && w !in s.doomed && s.pool <= all.Keys
    && s.done * s.pool <= {w}
  }

  lemma StepKeepsInv(all: map<string, Sibling>, s: State, a: Action, w: string)
    requires Family(all) && AtMostOneTagged(all) && Winner(all, w)
    requires Inv(all, s, w) && Enabled(all, s, a)
    ensures Inv(all, Step(s, a), w)
  {
    if a.Examine? {
      ViewElectsWinner(all, s.pool, a.siblings, w);
      if a.id in s.pool && a.id != w {
        assert all[a.id] in a.siblings && all[w] in a.siblings;
      }
    }
  }

  lemma {:induction false} RunKeepsInv(all: map<string, Sibling>, actions: seq<Action>, w: string)
    requires Family(all) && AtMostOneTagged(all) && Winner(all, w) && Run(all, actions).Some?
    ensures Inv(all, Run(all, actions).value, w)
  {
    if actions != [] {
      RunKeepsInv(all, actions[..|actions| - 1], w);
      StepKeepsInv(all, Run(all, actions[..|actions| - 1]).value, actions[|actions| - 1], w);
    }
  }

  lemma {:induction false} ListOf(all: map<string, Sibling>, pool: set<string>) returns (siblings: seq<Sibling>)
    requires pool <= all.Keys && Family(all)
    ensures Lists(all, pool, siblings)
    decreases |pool|
  {
    siblings := [];
    if pool != {} {
      var id :| id in pool;
      var rest := ListOf(all, pool - {id});
      siblings := [all[id]] + rest;
    }
  }

  lemma WinnerExists(all: map<string, Sibling>) returns (w: string)
    requires Family(all)
    ensures Winner(all, w)
  {
    var siblings := ListOf(all, all.Keys);
    assert siblings != [] by {
      var id :| id in all;
      assert all[id] in siblings;
    }
    FindTaggedFinds(siblings);
    OldestIsOldest(siblings);
    w := Accepted(siblings).id;
  }

  /**
   * Main result. With at most one tagged connection there is one survivor for all runs: whatever order
   * the connections are examined in, however often, and however late the removals follow, the winner stays; a
   * connection whose examination has finished and that is not the winner is gone; and once all have
   * been examined exactly the winner is left.
   */
  lemma ElectionIsConfluent(all: map<string, Sibling>) returns (w: string)
    requires Family(all) && AtMostOneTagged(all)
    ensures Winner(all, w)
    ensures forall s :: Reachable(all, s) ==> w in s.pool && w !in s.doomed && s.done * s.pool <= {w}
    ensures forall s :: Reachable(all, s) && all.Keys <= s.done ==> s.pool == {w}
  {
    w := WinnerExists(all);
    forall s | Reachable(all, s)
      ensures w in s.pool && w !in s.doomed && s.done * s.pool <= {w}
      ensures all.Keys <= s.done ==> s.pool == {w}
    {
      var actions :| Run(all, actions) == Some(s);
      RunKeepsInv(all, actions, w);
      if all.Keys <= s.done {
        assert s.done * s.pool == s.pool;
      }
    }
  }

  /** A view that elects another connection, examined first, removes `w`. */
  lemma RemovedFirst(all: map<string, Sibling>, w: string, siblings: seq<Sibling>) returns (s: State)
    requires w in all && Lists(all, all.Keys, siblings) && |siblings| >= 2 && Accepted(siblings).id != w
    ensures Reachable(all, s) && w !in s.pool
  {
    var a, b := Examine(w, siblings), Remove(w);
    assert Run(all, []) == Some(State(all.Keys, {}, {}));
    assert [a][..0] == [] && [a, b][..1] == [a];
    var s1 := Step(State(all.Keys, {}, {}), a);
    assert Run(all, [a]) == Some(s1);
    s := Step(s1, b);
    assert Run(all, [a, b]) == Some(s);
  }

  /**
   * Exactly then: some connection survives every run if and only if at most one is tagged. Of two tagged
   * connections each is closed by a view that lists the other one first.
   */
  lemma CommonSurvivorIff(all: map<string, Sibling>)
    requires Family(all)
    ensures (exists w :: w in all && forall s :: Reachable(all, s) ==> w in s.pool) <==> AtMostOneTagged(all)
  {
    if AtMostOneTagged(all) {
      var w := ElectionIsConfluent(all);
    } else {
      forall w | w in all ensures exists s :: Reachable(all, s) && w !in s.pool {
        var t :| t in all && all[t].tagged && t != w;
        var rest := ListOf(all, all.Keys - {t});
        assert all[w] in rest;
        var s := RemovedFirst(all, w, [all[t]] + rest);
      }
    }
  }

  // ---------------------------------------------------------------- the owner wins

  /** The stored connections of invitation `o`, with the creation times `createdAt`. */
  ghost function FamilyOf(s: ParentConnection.State, o: string, createdAt: string -> int): map<string, Sibling> {
    map c | c in s.connections && s.connections[c].outOfBandId == Some(o) ::
      c := Sibling(c, createdAt(c), s.connections[c].invitationId.Some?)
  }

  /**
   * The owner of a single-use invitation wins every election among the stored connections: no
   * examination on any listing of them removes it.
   */
  lemma OwnerWins(cfg: ParentConnection.Config, s: ParentConnection.State, o: string, owner: string,
                  createdAt: string -> int, siblings: seq<Sibling>)
    requires !cfg.resaves && ParentConnection.Reachable(cfg, s) && o !in cfg.reusable
    requires ParentConnection.Owns(s, owner, o)
    requires var all := FamilyOf(s, o, createdAt); Lists(all, all.Keys, siblings)
    ensures siblings != [] && Accepted(siblings).id == owner
    ensures AtMostOneTagged(FamilyOf(s, o, createdAt))
  {
    var all := FamilyOf(s, o, createdAt);
    var actions :| ParentConnection.Run(cfg, actions) == Some(s);
    ParentConnection.RunKeepsInv(cfg, actions);
    forall c | c in all && all[c].tagged ensures ParentConnection.Owns(s, c, o) {
      assert ParentConnection.StoredOk(s, c) && ParentConnection.RecordOk(cfg, s, c);
    }
    assert ParentConnection.OneOwner(s, o);
    assert ParentConnection.StoredOk(s, owner) && ParentConnection.RecordOk(cfg, s, owner);
    assert owner in all;
    ViewElectsWinner(all, all.Keys, siblings, owner);
  }

  // ---------------------------------------------------------------- which connections are examined at all

  /** One examination of a connection: its protocol, its invitation, and the siblings that were found. */
  datatype Examination = Examination(id: string, v2: bool, invitation: Option<Invitation>, publicDids: set<string>,
                                     siblings: seq<Sibling>)

  /** The stored connections after a run of examinations. */
  function AfterExaminations(pool: set<string>, xs: seq<Examination>): set<string> {
    if xs == [] then pool
    else
      var before := AfterExaminations(pool, xs[..|xs| - 1]);
      var x := xs[|xs| - 1];
      if Discards(x.id, x.v2, x.invitation, x.publicDids, x.siblings) then before - {x.id} else before
  }

  /** The election concerns version 2 connections of single-use invitations that name no public DID. */
  predicate IsSubject(x: Examination) {
    && x.v2 && x.invitation.Some? && !x.invitation.value.reusable
    && (x.invitation.value.did.Some? ==> x.invitation.value.did.value !in x.publicDids)
  }

  /**
   * Over any run of examinations a connection is gone exactly when one of them found it to be a version 2
   * connection of a single-use invitation without a public DID, with a sibling, and another one accepted.
   * So a connection of a reusable invitation, or of one under a public DID of the agent, is never removed.
   */
  lemma {:induction false} RemovedIffExtra(pool: set<string>, xs: seq<Examination>, id: string)
    requires id in pool
    ensures id !in AfterExaminations(pool, xs) <==>
            exists k :: 0 <= k < |xs| && xs[k].id == id && IsSubject(xs[k]) && |xs[k].siblings| >= 2 &&
              Accepted(xs[k].siblings).id != id
  {
    if xs != [] {
      var n := |xs| - 1;
      RemovedIffExtra(pool, xs[..n], id);
      assert forall k :: 0 <= k < n ==> xs[..n][k] == xs[k];
    }
  }

  /** What the examination accepts: the first sibling with an `invitationId` tag, or else the oldest. */
  lemma {:induction false} AcceptedIs(siblings: seq<Sibling>)
    requires siblings != [] && forall x, y :: x in siblings && y in siblings && x.id == y.id ==> x == y
    ensures Accepted(siblings) in siblings
    ensures (exists x :: x in siblings && x.tagged) ==> Accepted(siblings).tagged
    ensures !(exists x :: x in siblings && x.tagged) ==>
              forall x :: x in siblings && x != Accepted(siblings) ==>
                || Accepted(siblings).createdAt < x.createdAt
                || (Accepted(siblings).createdAt == x.createdAt && Before(Accepted(siblings).id, x.id))
  {
    FindTaggedFinds(siblings);
    OldestIsOldest(siblings);
  }

  // ---------------------------------------------------------------- the handler

  /** The fields of a connection that its examination reads. */
  datatype Connection = Connection(outOfBandId: Option<string>, v2: bool, createdAt: int, invitationId: Option<string>)

  class ConnectionEvents {
    var connections: map<string, Connection>
    var invitations: map<string, Invitation>
    var publicDids: set<string>

    constructor ()
    {
      connections, invitations, publicDids := map[], map[], {};
    }

    /** The stored connections of an invitation. */
    function Siblings(outOfBandId: string): (all: map<string, Sibling>)
      reads this
      ensures forall id :: id in all ==> all[id].id == id
    {
      map c | c in connections && connections[c].outOfBandId == Some(outOfBandId) ::
        c := Sibling(c, connections[c].createdAt, connections[c].invitationId.Some?)
    }

    /**
     * `discardExtraConnection` without interleaving; `siblings` is the answer to the query. It removes
     * the connection exactly when the election applies to its invitation and another connection wins.
     */
    method DiscardExtraConnection(id: string, record: Connection, siblings: seq<Sibling>) returns (discarded: bool)
      requires record.outOfBandId.Some? ==>
                 var all := Siblings(record.outOfBandId.value); Lists(all, all.Keys, siblings)
      modifies this`connections
      ensures discarded <==>
                && record.outOfBandId.Some?
                && Discards(id, record.v2,
                            if record.outOfBandId.value in invitations then Some(invitations[record.outOfBandId.value])
                            else None, publicDids, siblings)
      ensures connections == if discarded then old(connections) - {id} else old(connections)
      ensures record.outOfBandId.Some? ==>
                var all := old(Siblings(record.outOfBandId.value));
                AtMostOneTagged(all) && id in all && Winner(all, id) ==> !discarded
    {
      if record.outOfBandId.None? || !record.v2 { return false; }
      var o := record.outOfBandId.value;
      if o !in invitations || invitations[o].reusable { return false; }
      var did := invitations[o].did;
      if did.Some? && did.value in publicDids { return false; }
      if |siblings| < 2 { return false; }
      var accepted := Accepted(siblings);
      ghost var all := Siblings(o);
      assert AtMostOneTagged(all) && id in all && Winner(all, id) ==> accepted.id == id by {
        if AtMostOneTagged(all) && id in all && Winner(all, id) {
          ViewElectsWinner(all, all.Keys, siblings, id);
        }
      }
      if accepted.id == id { return false; }
      connections := connections - {id};
      return true;
    }
  }
}
