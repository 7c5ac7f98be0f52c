/**
 * The cache of operator authorizations and the block it covers.
 *
 * Models packages/agent-sdk/src/blockchain/AuthorizationService.ts with `delegationPage` and
 * `listVsOperatorAuthorizations` of packages/agent-sdk/src/blockchain/VeranaIndexerService.ts. The
 * delegation projection of the indexer is a function from blocks to authorizations; a page answers with
 * the projection at the checkpoint of the moment. Times are milliseconds.
 */
module AuthorizationCache {
  import opened Options

  datatype Record = Record(participant: int, msgTypes: seq<string>, withFeegrant: bool)

  /** The authorization records of one corporation and operator. */
  datatype Authorization = Authorization(corporation: int, operator: string, records: seq<Record>)

  datatype Cached = Cached(record: Record, corporation: int, operator: string)

  type Projection = int -> seq<Authorization>

  /** `scope` is the corporation of the agent; `interval` the least time between refreshes that need no block. */
  datatype Config = Config(projection: Projection, scope: Option<int>, interval: nat, timeout: nat,
                           rewinds: bool, overlaps: bool)

  predicate InScope(scope: Option<int>, corporation: int) {
    scope.None? || corporation == scope.value
  }

  // ---------------------------------------------------------------- the projection that is cached

  function AddRecords(m: map<int, Cached>, a: Authorization, n: nat): map<int, Cached>
    requires n <= |a.records|
  {
    if n == 0 then m
    else
      var r := a.records[n - 1];
      AddRecords(m, a, n - 1)[r.participant := Cached(r, a.corporation, a.operator)]
  }

  /** The records of the authorizations in scope; of several for one participant the last one stays. */
  function Rebuild(scope: Option<int>, rows: seq<Authorization>, n: nat): map<int, Cached>
    requires n <= |rows|
  {
    if n == 0 then map[]
    else
      var m := Rebuild(scope, rows, n - 1);
      var a := rows[n - 1];
      if InScope(scope, a.corporation) then AddRecords(m, a, |a.records|) else m
  }

  function Content(scope: Option<int>, rows: seq<Authorization>): map<int, Cached> {
    Rebuild(scope, rows, |rows|)
  }

  /** Record `k` of authorization `i` is in scope, and the last one of its participant in the first `n`. */
  ghost predicate LastRecord(scope: Option<int>, rows: seq<Authorization>, n: nat, i: nat, k: nat)
    requires n <= |rows|
  {
    && i < n && k < |rows[i].records| && InScope(scope, rows[i].corporation)
    && LastOf(rows[i], |rows[i].records|, k, rows[i].records[k].participant)
    && (forall j, l :: i < j < n && InScope(scope, rows[j].corporation) && 0 <= l < |rows[j].records| ==>
          rows[j].records[l].participant != rows[i].records[k].participant)
  }

  /** Record `k` is the last one of participant `p` among the first `n`. */
  ghost predicate LastOf(a: Authorization, n: nat, k: nat, p: int)
    requires n <= |a.records|
  {
    k < n && a.records[k].participant == p && forall l :: k < l < n ==> a.records[l].participant != p
  }

  lemma {:induction false} UntouchedRecord(m: map<int, Cached>, a: Authorization, n: nat, p: int)
    requires n <= |a.records| && forall k :: 0 <= k < n ==> a.records[k].participant != p
    ensures p in AddRecords(m, a, n) <==> p in m
    ensures p in m ==> AddRecords(m, a, n)[p] == m[p]
  {
    if n > 0 {
      UntouchedRecord(m, a, n - 1, p);
    }
  }

  lemma {:induction false} AddedRecord(m: map<int, Cached>, a: Authorization, n: nat, k: nat, p: int)
    requires n <= |a.records| && LastOf(a, n, k, p)
    ensures p in AddRecords(m, a, n) && AddRecords(m, a, n)[p] == Cached(a.records[k], a.corporation, a.operator)
  {
    if k < n - 1 {
      AddedRecord(m, a, n - 1, k, p);
    }
  }

  lemma {:induction false} LastIn(a: Authorization, n: nat, p: int) returns (k: nat)
    requires n <= |a.records| && exists l :: 0 <= l < n && a.records[l].participant == p
    ensures LastOf(a, n, k, p)
  {
    if a.records[n - 1].participant == p {
      k := n - 1;
    } else {
      k := LastIn(a, n - 1, p);
    }
  }

  /** The cache of a snapshot holds, for each participant, its last record in scope. */
  lemma {:induction false} ContentIsLastRecord(scope: Option<int>, rows: seq<Authorization>, n: nat, i: nat, k: nat)
    requires n <= |rows| && LastRecord(scope, rows, n, i, k)
    ensures var p := rows[i].records[k].participant;
            p in Rebuild(scope, rows, n) &&
            Rebuild(scope, rows, n)[p] == Cached(rows[i].records[k], rows[i].corporation, rows[i].operator)
    decreases n
  {
    var p, a, m := rows[i].records[k].participant, rows[n - 1], Rebuild(scope, rows, n - 1);
    if i == n - 1 {
      AddedRecord(m, a, |a.records|, k, p);
    } else {
      ContentIsLastRecord(scope, rows, n - 1, i, k);
      if InScope(scope, a.corporation) {
        UntouchedRecord(m, a, |a.records|, p);
      }
    }
  }

  /** Nothing else is cached. */
  lemma {:induction false} CachedHasRecord(scope: Option<int>, rows: seq<Authorization>, n: nat, p: int)
    returns (i: nat, k: nat)
    requires n <= |rows| && p in Rebuild(scope, rows, n)
    ensures LastRecord(scope, rows, n, i, k) && rows[i].records[k].participant == p
    decreases n
  {
    var m, a := Rebuild(scope, rows, n - 1), rows[n - 1];
    if InScope(scope, a.corporation) && exists l :: 0 <= l < |a.records| && a.records[l].participant == p {
      i := n - 1;
      k := LastIn(a, |a.records|, p);
    } else {
      if InScope(scope, a.corporation) {
        UntouchedRecord(m, a, |a.records|, p);
      }
      i, k := CachedHasRecord(scope, rows, n - 1, p);
    }
  }

  /**
   * Record `k` of authorization `i` names the participant and belongs to the corporation of the agent, if
   * that is configured, and no later record of the list does both.
   */
  ghost predicate LastInScope(scope: Option<int>, rows: seq<Authorization>, p: int, i: int, k: int) {
    && 0 <= i < |rows| && 0 <= k < |rows[i].records| && rows[i].records[k].participant == p
    && (scope.Some? ==> rows[i].corporation == scope.value)
    && forall j, l :: LaterInScope(scope, rows, i, k, j, l) ==> rows[j].records[l].participant != p
  }

  predicate LaterInScope(scope: Option<int>, rows: seq<Authorization>, i: int, k: int, j: int, l: int) {
    && 0 <= j < |rows| && 0 <= l < |rows[j].records| && (i < j || (i == j && k < l))
    && (scope.Some? ==> rows[j].corporation == scope.value)
  }

  lemma LastInScopeIsLast(scope: Option<int>, rows: seq<Authorization>, p: int, i: nat, k: nat)
    ensures LastInScope(scope, rows, p, i, k) <==> LastRecord(scope, rows, |rows|, i, k) && rows[i].records[k].participant == p
  {
    if LastInScope(scope, rows, p, i, k) {
      forall j, l | i < j < |rows| && InScope(scope, rows[j].corporation) && 0 <= l < |rows[j].records|
        ensures rows[j].records[l].participant != p
      {
        assert LaterInScope(scope, rows, i, k, j, l);
      }
      forall l | k < l < |rows[i].records| ensures rows[i].records[l].participant != p {
        assert LaterInScope(scope, rows, i, k, i, l);
      }
    }
  }

  /** The cache of a snapshot, in the terms of its rows: exactly the last record in scope of each participant. */
  lemma ContentIff(scope: Option<int>, rows: seq<Authorization>, p: int)
    ensures p in Content(scope, rows) <==> exists i, k :: LastInScope(scope, rows, p, i, k)
    ensures forall i, k :: LastInScope(scope, rows, p, i, k) ==>
              p in Content(scope, rows) &&
              Content(scope, rows)[p] == Cached(rows[i].records[k], rows[i].corporation, rows[i].operator)
  {
    forall i, k | LastInScope(scope, rows, p, i, k)
      ensures p in Content(scope, rows)
      ensures Content(scope, rows)[p] == Cached(rows[i].records[k], rows[i].corporation, rows[i].operator)
    {
      LastInScopeIsLast(scope, rows, p, i, k);
      ContentIsLastRecord(scope, rows, |rows|, i, k);
    }
    if p in Content(scope, rows) {
      var i, k := CachedHasRecord(scope, rows, |rows|, p);
      LastInScopeIsLast(scope, rows, p, i, k);
    }
  }

  // ---------------------------------------------------------------- refreshes

  /** A refresh that reads; `answer` is the checkpoint of a page that has arrived. */
  datatype Refresh = Refresh(minBlock: Option<int>, deadline: int, answer: Option<nat>)

  /**
   * `head` is the checkpoint of the delegation projection. The specification follows the block the
   * cache was read at (`source`) and what was invalidated since.
   */
  datatype State = State(head: nat, now: int, cache: map<int, Cached>, lastRefreshAt: int, lastRefreshAtBlock: int,
                         inFlight: map<nat, Refresh>, source: Option<nat>, invalidated: set<int>)

  datatype Action =
    | Tick(time: nat)
    | MoveHead(block: nat)
    | Invalidate(participant: int)
    | Call(refresh: nat, minBlock: Option<int>)
    | Answer(refresh: nat)
    | Process(refresh: nat)
    | Throw(refresh: nat)

  function Start(now: int): State {
    State(0, now, map[], 0, 0, map[], None, {})
  }

  /** The rate limit, which a block that the cache has not covered overrides. */
  predicate Skips(cfg: Config, s: State, minBlock: Option<int>) {
    var staleForBlock := minBlock.Some? && minBlock.value > s.lastRefreshAtBlock;
    !staleForBlock && s.now - s.lastRefreshAt < cfg.interval
  }

  predicate Reached(r: Refresh, block: int) {
    r.minBlock.None? || block >= r.minBlock.value
  }

  /** The page is new enough: the cache is rebuilt from it. */
  function Complete(cfg: Config, s: State, id: nat, block: nat): State
    requires id in s.inFlight
  {
    var r := s.inFlight[id];
    s.(cache := Content(cfg.scope, cfg.projection(block)), lastRefreshAt := s.now,
       lastRefreshAtBlock := if r.minBlock.Some? then r.minBlock.value else s.lastRefreshAtBlock,
       inFlight := s.inFlight - {id}, source := Some(block), invalidated := {})
  }

  predicate Enabled(cfg: Config, s: State, a: Action) {
    match a
    case Tick(_) => true
    case MoveHead(block) => block >= s.head || cfg.rewinds
    case Invalidate(_) => true
    case Call(id, _) => id !in s.inFlight && (s.inFlight == map[] || cfg.overlaps)
    case Answer(id) => id in s.inFlight && s.inFlight[id].answer.None?
    case Process(id) => id in s.inFlight && s.inFlight[id].answer.Some?
    case Throw(id) => id in s.inFlight
  }

  function Step(cfg: Config, s: State, a: Action): State
    requires Enabled(cfg, s, a)
  {
    match a
    case Tick(time) => s.(now := s.now + time)
    case MoveHead(block) => s.(head := block)
    case Invalidate(p) => s.(cache := s.cache - {p}, invalidated := s.invalidated + {p})
    case Call(id, m) =>
      if Skips(cfg, s, m) then s else s.(inFlight := s.inFlight[id := Refresh(m, s.now + cfg.timeout, None)])
    case Answer(id) => s.(inFlight := s.inFlight[id := s.inFlight[id].(answer := Some(s.head))])
    case Process(id) =>
      var r := s.inFlight[id];
      if Reached(r, r.answer.value) then Complete(cfg, s, id, r.answer.value)
      else if s.now >= r.deadline then s.(inFlight := s.inFlight - {id})
      else s.(inFlight := s.inFlight[id := r.(answer := None)])
    case Throw(id) => s.(inFlight := s.inFlight - {id})
  }

  /** The block argument of a refresh that returns normally in this step. */
  function Returned(cfg: Config, s: State, a: Action): Option<Option<int>>
    requires Enabled(cfg, s, a)
  {
    match a
    case Call(_, m) => if Skips(cfg, s, m) then Some(m) else None
    case Process(id) =>
      var r := s.inFlight[id];
      if Reached(r, r.answer.value) then Some(r.minBlock) else None
    case _ => None
  }

  ghost function Run(cfg: Config, now: int, actions: seq<Action>): Option<State> {
    if actions == [] then Some(Start(now))
    else match Run(cfg, now, actions[..|actions| - 1])
      case None => None
      case Some(s) =>
        var a := actions[|actions| - 1];
        if Enabled(cfg, s, a) then Some(Step(cfg, s, a)) else None
  }

  /** The process starts when the clock is past the first interval. */
  ghost predicate Reachable(cfg: Config, s: State) {
    exists now, actions :: now >= cfg.interval && Run(cfg, now, actions) == Some(s)
  }

  // ---------------------------------------------------------------- coverage

  /** The cache is the projection at its source block without what was invalidated since. */
  ghost predicate Faithful(cfg: Config, s: State) {
    s.source.Some? && s.cache == Content(cfg.scope, cfg.projection(s.source.value)) - s.invalidated
  }

  /** It covers the block the caller asked for. */
  ghost predicate Covers(cfg: Config, s: State, minBlock: Option<int>) {
    Faithful(cfg, s) && (minBlock.Some? ==> s.source.value >= minBlock.value)
  }

  ghost predicate AlwaysCovers(cfg: Config) {
    forall s, a :: Reachable(cfg, s) && Enabled(cfg, s, a) && Returned(cfg, s, a).Some? ==>
      Covers(cfg, Step(cfg, s, a), Returned(cfg, s, a).value)
  }

  /** What holds however refreshes overlap and checkpoints move. */
  ghost predicate BaseInv(cfg: Config, s: State) {
    && s.lastRefreshAt <= s.now
    && (if s.source.Some? then Faithful(cfg, s)
        else s.lastRefreshAt == 0 && s.lastRefreshAtBlock == 0 && s.now >= cfg.interval)
  }

  /** What one refresh at a time on a growing checkpoint adds. */
  ghost predicate OrderInv(s: State) {
    && (forall i, j :: i in s.inFlight && j in s.inFlight ==> i == j)
    && (s.source.Some? ==> s.lastRefreshAtBlock <= s.source.value <= s.head)
    && (forall i :: i in s.inFlight && s.inFlight[i].answer.Some? ==>
          s.inFlight[i].answer.value <= s.head && (s.source.Some? ==> s.source.value <= s.inFlight[i].answer.value))
  }

  lemma StepKeepsBase(cfg: Config, s: State, a: Action)
    requires BaseInv(cfg, s) && Enabled(cfg, s, a)
    ensures BaseInv(cfg, Step(cfg, s, a))
  {
    if a.Invalidate? && s.source.Some? {
      var content := Content(cfg.scope, cfg.projection(s.source.value));
      assert (content - s.invalidated) - {a.participant} == content - (s.invalidated + {a.participant});
    }
  }

  lemma StepKeepsOrder(cfg: Config, s: State, a: Action)
    requires BaseInv(cfg, s) && OrderInv(s) && Enabled(cfg, s, a) && !cfg.rewinds && !cfg.overlaps
    ensures OrderInv(Step(cfg, s, a))
  {
  }

  lemma {:induction false} RunKeepsInv(cfg: Config, now: int, actions: seq<Action>)
    requires now >= cfg.interval && Run(cfg, now, actions).Some?
    ensures BaseInv(cfg, Run(cfg, now, actions).value)
    ensures !cfg.rewinds && !cfg.overlaps ==> OrderInv(Run(cfg, now, actions).value)
  {
    if actions != [] {
      var front := actions[..|actions| - 1];
      RunKeepsInv(cfg, now, front);
      StepKeepsBase(cfg, Run(cfg, now, front).value, actions[|actions| - 1]);
      if !cfg.rewinds && !cfg.overlaps {
        StepKeepsOrder(cfg, Run(cfg, now, front).value, actions[|actions| - 1]);
      }
    }
  }

  lemma ReachStep(cfg: Config, s: State, a: Action)
    requires Reachable(cfg, s) && Enabled(cfg, s, a)
    ensures Reachable(cfg, Step(cfg, s, a))
  {
    var now, actions :| now >= cfg.interval && Run(cfg, now, actions) == Some(s);
    assert (actions + [a])[..|actions + [a]| - 1] == actions;
    assert Run(cfg, now, actions + [a]) == Some(Step(cfg, s, a));
  }

  // ---------------------------------------------------------------- the wait is bounded

  ghost predicate DeadlinesOk(cfg: Config, s: State) {
    forall id :: id in s.inFlight ==> s.inFlight[id].deadline <= s.now + cfg.timeout
  }

  lemma {:induction false} RunKeepsDeadlines(cfg: Config, now: int, actions: seq<Action>)
    requires Run(cfg, now, actions).Some?
    ensures DeadlinesOk(cfg, Run(cfg, now, actions).value)
  {
    if actions != [] {
      RunKeepsDeadlines(cfg, now, actions[..|actions| - 1]);
    }
  }

  /**
   * A refresh waits no longer than its timeout from any moment on: the first answer that is processed after
   * that ends it. It returns exactly when its page is at or above its block; it gives up with nothing
   * changed when the page is older and the deadline has passed, and polls again before.
   */
  lemma WaitIsBounded(cfg: Config, s: State, id: nat)
    requires Reachable(cfg, s) && Enabled(cfg, s, Process(id))
    ensures s.inFlight[id].deadline <= s.now + cfg.timeout
    ensures var r, t := s.inFlight[id], Step(cfg, s, Process(id));
            var newEnough := r.minBlock.None? || r.answer.value >= r.minBlock.value;
            && Returned(cfg, s, Process(id)).Some? == newEnough
            && (newEnough ==> t.source == r.answer && t.lastRefreshAt == s.now)
            && (!newEnough ==> t == s.(inFlight := t.inFlight))
            && (id !in t.inFlight <==> newEnough || s.now >= r.deadline)
  {
    var now, actions :| now >= cfg.interval && Run(cfg, now, actions) == Some(s);
    RunKeepsDeadlines(cfg, now, actions);
  }

  // ---------------------------------------------------------------- where coverage ends

  /** A refresh for block 2 has covered block 2, long enough ago for the next one to read. */
  lemma CoveredBlock(cfg: Config) returns (s: State)
    ensures Reachable(cfg, s)
    ensures s.head == 2 && s.inFlight == map[] && s.source == Some(2) && s.lastRefreshAtBlock == 2
    ensures s.now - s.lastRefreshAt >= cfg.interval
  {
    var s0 := Start(cfg.interval);
    assert Run(cfg, cfg.interval, []) == Some(s0);
    ReachStep(cfg, s0, MoveHead(2));
    var s1 := Step(cfg, s0, MoveHead(2));
    ReachStep(cfg, s1, Call(0, Some(2)));
    var s2 := Step(cfg, s1, Call(0, Some(2)));
    ReachStep(cfg, s2, Answer(0));
    var s3 := Step(cfg, s2, Answer(0));
    ReachStep(cfg, s3, Process(0));
    var s4 := Step(cfg, s3, Process(0));
    ReachStep(cfg, s4, Tick(cfg.interval));
    s := Step(cfg, s4, Tick(cfg.interval));
  }

  /** The checkpoint goes back, a refresh without a block reads it, and a refresh for the covered block is skipped. */
  lemma RewindUncovers(cfg: Config) returns (s: State)
    requires cfg.rewinds && cfg.interval > 0
    ensures Reachable(cfg, s) && s.inFlight == map[] && Skips(cfg, s, Some(2)) && s.source == Some(1)
  {
    var s1 := CoveredBlock(cfg);
    ReachStep(cfg, s1, MoveHead(1));
    var s2 := Step(cfg, s1, MoveHead(1));
    ReachStep(cfg, s2, Call(0, None));
    var s3 := Step(cfg, s2, Call(0, None));
    ReachStep(cfg, s3, Answer(0));
    var s4 := Step(cfg, s3, Answer(0));
    ReachStep(cfg, s4, Process(0));
    s := Step(cfg, s4, Process(0));
  }

  /** A refresh reads block 1, a second one reads and covers block 2, and then the first one finishes. */
  lemma OverlapUncovers(cfg: Config) returns (s: State)
    requires cfg.overlaps && cfg.interval > 0
    ensures Reachable(cfg, s) && s.inFlight == map[] && Skips(cfg, s, Some(2)) && s.source == Some(1)
  {
    var s0 := Start(cfg.interval);
    assert Run(cfg, cfg.interval, []) == Some(s0);
    ReachStep(cfg, s0, MoveHead(1));
    var s1 := Step(cfg, s0, MoveHead(1));
    ReachStep(cfg, s1, Call(0, None));
    var s2 := Step(cfg, s1, Call(0, None));
    ReachStep(cfg, s2, Answer(0));
    var s3 := Step(cfg, s2, Answer(0));
    ReachStep(cfg, s3, MoveHead(2));
    var s4 := Step(cfg, s3, MoveHead(2));
    ReachStep(cfg, s4, Call(1, Some(2)));
    var s5 := Step(cfg, s4, Call(1, Some(2)));
    ReachStep(cfg, s5, Answer(1));
    var s6 := Step(cfg, s5, Answer(1));
    ReachStep(cfg, s6, Process(1));
    var s7 := Step(cfg, s6, Process(1));
    ReachStep(cfg, s7, Process(0));
    s := Step(cfg, s7, Process(0));
  }

  /**
   * Main result. Every refresh that returns, skipped or not, leaves the projection of a block at or above
   * the one it was asked for, minus later invalidations: in every run exactly when nothing is ever
   * skipped, or the checkpoint never goes back and refreshes do not overlap.
   */
  lemma CacheCoversIff(cfg: Config)
    ensures AlwaysCovers(cfg) <==> cfg.interval == 0 || (!cfg.rewinds && !cfg.overlaps)
  {
    if cfg.interval > 0 && (cfg.rewinds || cfg.overlaps) {
      var s: State;
      if cfg.rewinds {
        s := RewindUncovers(cfg);
      } else {
        s := OverlapUncovers(cfg);
      }
      var a := Call(0, Some(2));
      assert Enabled(cfg, s, a) && Returned(cfg, s, a) == Some(Some(2)) && !Covers(cfg, Step(cfg, s, a), Some(2));
    } else {
      forall s, a | Reachable(cfg, s) && Enabled(cfg, s, a) && Returned(cfg, s, a).Some?
        ensures Covers(cfg, Step(cfg, s, a), Returned(cfg, s, a).value)
      {
        var now, actions :| now >= cfg.interval && Run(cfg, now, actions) == Some(s);
        RunKeepsInv(cfg, now, actions);
        StepKeepsBase(cfg, s, a);
      }
    }
  }

  // ---------------------------------------------------------------- the service

  /** One answer of the indexer to a poll, and the time after it. */
  datatype Poll = Page(block: nat, now: int) | FetchFails

  /** A page that is too old, before the deadline: the service polls again. */
  predicate PollsAgain(poll: Poll, minBlock: Option<int>, deadline: int) {
    poll.Page? && minBlock.Some? && poll.block < minBlock.value && poll.now < deadline
  }

  /** Poll `i` is a page at or above the block, and all polls before it were too old and in time. */
  predicate AnsweredBy(polls: seq<Poll>, minBlock: Option<int>, deadline: int, i: nat) {
    && i < |polls| && polls[i].Page? && (minBlock.Some? ==> polls[i].block >= minBlock.value)
    && forall j :: 0 <= j < i ==> PollsAgain(polls[j], minBlock, deadline)
  }

  /** Such a poll is the answer; without one there is none. */
  ghost predicate Answers(polls: seq<Poll>, minBlock: Option<int>, deadline: int, page: Option<Poll>) {
    match page
    case Some(poll) => exists i: nat :: AnsweredBy(polls, minBlock, deadline, i) && polls[i] == poll
    case None => forall i: nat :: !AnsweredBy(polls, minBlock, deadline, i)
  }

  /** What a signature check reads of a Participant entry; times are absent when the entry has none. */
  datatype Participant = Participant(id: int, effectiveFrom: Option<int>, effectiveUntil: Option<int>, revoked: bool, slashed: bool)

  predicate IsActive(p: Participant, now: int) {
    && p.effectiveFrom.Some? && p.effectiveFrom.value <= now
    && (p.effectiveUntil.Some? ==> now < p.effectiveUntil.value)
    && !p.revoked && !p.slashed
  }

  class AuthorizationService {
    var vsoaByParticipant: map<int, Cached>
    var lastRefreshAt: int
    var lastRefreshAtBlock: int

    constructor ()
      ensures vsoaByParticipant == map[] && lastRefreshAt == 0 && lastRefreshAtBlock == 0
    {
      vsoaByParticipant, lastRefreshAt, lastRefreshAtBlock := map[], 0, 0;
    }

    /** The specification state with the fields of this object. */
    ghost predicate Shows(s: State)
      reads this
    {
      s.cache == vsoaByParticipant && s.lastRefreshAt == lastRefreshAt && s.lastRefreshAtBlock == lastRefreshAtBlock
    }

    /** `delegationPage`: polls until a page is new enough. No poll left counts as a failed fetch. */
    static method DelegationPage(minBlock: Option<int>, deadline: int, polls: seq<Poll>) returns (page: Option<Poll>)
      ensures page.Some? ==> page.value in polls
      ensures Answers(polls, minBlock, deadline, page)
    {
      var i := 0;
      while i < |polls|
        invariant i <= |polls|
        invariant forall j :: 0 <= j < i ==> PollsAgain(polls[j], minBlock, deadline)
      {
        var poll := polls[i];
        assert !PollsAgain(poll, minBlock, deadline) ==> forall k: nat :: AnsweredBy(polls, minBlock, deadline, k) ==> k <= i;
        assert forall j :: 0 <= j < i ==> PollsAgain(polls[j], minBlock, deadline) && !AnsweredBy(polls, minBlock, deadline, j);
        if poll.FetchFails? {
          return None;
        }
        if minBlock.None? || poll.block >= minBlock.value {
          assert AnsweredBy(polls, minBlock, deadline, i);
          return Some(poll);
        }
        if poll.now >= deadline {
          return None;
        }
        i := i + 1;
      }
      return None;
    }

    /** The cache that a page yields. */
    static method BuildCache(scope: Option<int>, rows: seq<Authorization>) returns (rebuilt: map<int, Cached>)
      ensures rebuilt == Content(scope, rows)
    {
      rebuilt := map[];
      for i := 0 to |rows|
        invariant rebuilt == Rebuild(scope, rows, i)
      {
        var vsoa := rows[i];
        if InScope(scope, vsoa.corporation) {
          for k := 0 to |vsoa.records|
            invariant rebuilt == AddRecords(Rebuild(scope, rows, i), vsoa, k)
          {
            var record := vsoa.records[k];
            rebuilt := rebuilt[record.participant := Cached(record, vsoa.corporation, vsoa.operator)];
          }
        }
      }
    }

    /**
     * `refreshForOperator` with nothing in between: skipped with nothing changed, or else decided by the
     * polls: ended by an error with nothing changed, or the same as the steps of a refresh whose last page
     * is `page`.
     */
    method RefreshForOperator(cfg: Config, minBlock: Option<int>, now: int, polls: seq<Poll>, ghost s: State)
      returns (page: Option<Poll>)
      requires Shows(s) && s.now == now && s.inFlight == map[]
      modifies this
      ensures page.None? ==> Shows(s)
      ensures if Skips(cfg, s, minBlock) then page.None? else Answers(polls, minBlock, now + cfg.timeout, page)
      ensures page.Some? ==>
                && page.value.Page? && page.value in polls
                && (minBlock.Some? ==> page.value.block >= minBlock.value)
                && var r := Refresh(minBlock, now + cfg.timeout, Some(page.value.block));
                   Shows(Complete(cfg, s.(now := page.value.now, inFlight := map[0 := r]), 0, page.value.block))
    {
      var staleForBlock := minBlock.Some? && minBlock.value > lastRefreshAtBlock;
      if !staleForBlock && now - lastRefreshAt < cfg.interval {
        return None;
      }
      page := DelegationPage(minBlock, now + cfg.timeout, polls);
      if page.Some? {
        lastRefreshAt := page.value.now;
        if minBlock.Some? {
          lastRefreshAtBlock := minBlock.value;
        }
        vsoaByParticipant := BuildCache(cfg.scope, cfg.projection(page.value.block));
      }
    }

    method InvalidateParticipant(participant: int)
      modifies this`vsoaByParticipant
      ensures vsoaByParticipant == old(vsoaByParticipant) - {participant}
    {
      vsoaByParticipant := vsoaByParticipant - {participant};
    }

    /** `canSign`: an authorized message type, and a Participant entry that is in force. */
    function CanSign(p: Participant, msgType: string, now: int): bool
      reads this
    {
      p.id in vsoaByParticipant && msgType in vsoaByParticipant[p.id].record.msgTypes && IsActive(p, now)
    }

    /**
     * After a refresh that covers a block, a participant can sign exactly what its last record in scope lists
     * in a snapshot at or above that block, while its entry is in force and it was not invalidated since.
     */
    lemma SignersAreAuthorized(cfg: Config, s: State, minBlock: Option<int>, p: Participant, msgType: string, now: int)
      requires Shows(s) && Covers(cfg, s, minBlock)
      ensures s.source.Some? && (minBlock.Some? ==> s.source.value >= minBlock.value)
      ensures CanSign(p, msgType, now) <==>
                && p.id !in s.invalidated
                && p.effectiveFrom.Some? && p.effectiveFrom.value <= now
                && (p.effectiveUntil.None? || now < p.effectiveUntil.value) && !p.revoked && !p.slashed
                && exists i, k :: LastInScope(cfg.scope, cfg.projection(s.source.value), p.id, i, k) &&
                     msgType in cfg.projection(s.source.value)[i].records[k].msgTypes
    {
      ContentIff(cfg.scope, cfg.projection(s.source.value), p.id);
    }
  }
}
