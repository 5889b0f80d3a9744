/**
 * The head lock: agents that share nothing but a directory of lock records write a record, list the
 * directory and are in when their own record is the least active one.
 */
module HeadLock {
  import opened Wrappers
  import opened Ordering

  type Agent = nat

  const HEAD_LOCK_TTL_MS := 30_000

  datatype LockRecord = LockRecord(token: string, owner: Agent, createdAt: int, expiresAt: int)

  /** Creation time first, then token. */
  predicate Before(a: LockRecord, b: LockRecord) {
    a.createdAt < b.createdAt || (a.createdAt == b.createdAt && StringLess(a.token, b.token))
  }

  predicate NotAfter(a: LockRecord, b: LockRecord) {
    a.createdAt < b.createdAt || (a.createdAt == b.createdAt && StringLe(a.token, b.token))
  }

  lemma BeforeIsStrictOrder(a: LockRecord, b: LockRecord, c: LockRecord)
    ensures !Before(a, a)
    ensures Before(a, b) && Before(b, c) ==> Before(a, c)
    ensures !(Before(a, b) && Before(b, a))
    ensures NotAfter(a, b) && a.token != b.token ==> Before(a, b)
  {
    StringLessIrreflexive(a.token);
    if StringLess(a.token, b.token) && StringLess(b.token, c.token) {
      StringLessTransitive(a.token, b.token, c.token);
    }
    if StringLess(a.token, b.token) && StringLess(b.token, a.token) {
      StringLessTransitive(a.token, b.token, a.token);
    }
  }

  lemma NotAfterIsPreorder()
    ensures Preorder(NotAfter)
  {
    StringLeIsPreorder();
  }

  function RecordsAt(tokens: seq<string>, records: map<string, LockRecord>, now: int): (r: seq<LockRecord>)
    ensures forall lock :: lock in r <==> exists t :: t in tokens && t in records && records[t] == lock && lock.expiresAt > now
  {
    if tokens == [] then []
    else
      assert tokens == [tokens[0]] + tokens[1..];
      (if tokens[0] in records && records[tokens[0]].expiresAt > now then [records[tokens[0]]] else [])
      + RecordsAt(tokens[1..], records, now)
  }

  /** The records not expired at `now`, in (creation time, token) order. */
  function ActiveHeadLocks(records: map<string, LockRecord>, now: int): (r: seq<LockRecord>)
    ensures Sorted(NotAfter, r)
    ensures forall lock :: lock in r <==> exists t :: t in records && records[t] == lock && lock.expiresAt > now
  {
    NotAfterIsPreorder();
    Sort(NotAfter, RecordsAt(SortedStrings(records.Keys), records, now))
  }

  predicate Wins(records: map<string, LockRecord>, lock: LockRecord, now: int) {
    var active := ActiveHeadLocks(records, now);
    active != [] && active[0].token == lock.token
  }

  // ----- The protocol as a state machine -----

  /**
   * Where one agent stands: outside, clock read, record written, reading the listed records one by one,
   * lost, holding the lock, or dead.
   */
  datatype Phase =
    | Outside
    | Timed(lock: LockRecord)
    | Written(lock: LockRecord)
    | Listing(lock: LockRecord, pending: set<string>, seen: map<string, LockRecord>)
    | Losing(lock: LockRecord)
    | Inside(lock: LockRecord)
    | Crashed

  datatype State = State(
    clock: int,
    legacyExpiry: Option<int>,
    records: map<string, LockRecord>,
    phases: map<Agent, Phase>,
    lastWritten: Option<LockRecord>)

  datatype Step =
    | Tick(now: int)
    | ReadClock(agent: Agent, token: string)
    | WriteRecord(agent: Agent)
    | List(agent: Agent)
    | ReadRecord(agent: Agent, token: string)
    | Decide(agent: Agent)
    | GiveUp(agent: Agent)
    | DropOwnRecord(agent: Agent)
    | Release(agent: Agent)
    | Crash(agent: Agent)

  function PhaseOf(s: State, a: Agent): Phase {
    if a in s.phases then s.phases[a] else Outside
  }

  function Move(s: State, a: Agent, phase: Phase): State {
    s.(phases := s.phases[a := phase])
  }

  /**
   * What the agent's own program position requires.  Giving up leaves the record behind: the listing
   * failed, or the record could not be deleted.
   */
  predicate Enabled(s: State, step: Step) {
    match step
    case Tick(now) => s.clock <= now
    case ReadClock(a, _) => PhaseOf(s, a).Outside?
    case WriteRecord(a) => PhaseOf(s, a).Timed?
    case List(a) => PhaseOf(s, a).Written?
    case ReadRecord(a, token) => PhaseOf(s, a).Listing? && token in PhaseOf(s, a).pending
    case Decide(a) => PhaseOf(s, a).Listing? && PhaseOf(s, a).pending == {}
    case GiveUp(a) => PhaseOf(s, a).Written? || PhaseOf(s, a).Listing? || PhaseOf(s, a).Losing? || PhaseOf(s, a).Inside?
    case DropOwnRecord(a) => PhaseOf(s, a).Losing?
    case Release(a) => PhaseOf(s, a).Inside?
    case Crash(a) => true
  }

  /** A record that went between listing and reading makes the whole attempt fail, its own record left behind. */
  function AfterRead(s: State, at: Phase, token: string): Phase
    requires at.Listing?
  {
    if token in s.records then Listing(at.lock, at.pending - {token}, at.seen[token := s.records[token]]) else Outside
  }

  function Apply(s: State, step: Step): State
    requires Enabled(s, step)
  {
    match step
    case Tick(now) => s.(clock := now)
    case ReadClock(a, token) =>
      if s.legacyExpiry.Some? && s.legacyExpiry.value > s.clock then s
      else Move(s, a, Timed(LockRecord(token, a, s.clock, s.clock + HEAD_LOCK_TTL_MS)))
    case WriteRecord(a) =>
      var lock := s.phases[a].lock;
      if lock.token in s.records then Move(s, a, Outside)
      else Move(s, a, Written(lock)).(records := s.records[lock.token := lock], lastWritten := Some(lock))
    case List(a) => Move(s, a, Listing(s.phases[a].lock, s.records.Keys, map[]))
    case ReadRecord(a, token) => Move(s, a, AfterRead(s, s.phases[a], token))
    case Decide(a) =>
      var lock := s.phases[a].lock;
      Move(s, a, if Wins(s.phases[a].seen, lock, lock.createdAt) then Inside(lock) else Losing(lock))
    case GiveUp(a) => Move(s, a, Outside)
    case DropOwnRecord(a) => Move(s, a, Outside).(records := s.records - {s.phases[a].lock.token})
    case Release(a) => Move(s, a, Outside).(records := s.records - {s.phases[a].lock.token})
    case Crash(a) => Move(s, a, Crashed)
  }

  /** Environment: records reach the directory in the order of their keys. */
  predicate WriteOrderAgrees(s: State, step: Step) {
    step.WriteRecord? && PhaseOf(s, step.agent).Timed? && s.lastWritten.Some? ==>
      Before(s.lastWritten.value, PhaseOf(s, step.agent).lock)
  }

  /** From the clock reading until the record is dropped or the lock released. */
  predicate Attempting(phase: Phase) {
    phase.Timed? || phase.Written? || phase.Listing? || phase.Inside?
  }

  /** Environment: the clock reaches no live attempt's expiry. */
  ghost predicate WithinTtl(s: State, step: Step) {
    step.Tick? ==> forall a :: a in s.phases && Attempting(s.phases[a]) ==> step.now < s.phases[a].lock.expiresAt
  }

  ghost predicate Next(s: State, s': State) {
    exists step :: Enabled(s, step) && WriteOrderAgrees(s, step) && WithinTtl(s, step) && s' == Apply(s, step)
  }

  predicate Init(s: State) {
    s.records == map[] && s.phases == map[] && s.lastWritten == None
  }

  // ----- Mutual exclusion -----

  ghost predicate OwnsRecord(s: State, a: Agent) {
    a in s.phases && (s.phases[a].Written? || s.phases[a].Listing? || s.phases[a].Losing? || s.phases[a].Inside?)
  }

  ghost predicate Contends(s: State, a: Agent) {
    a in s.phases && (s.phases[a].Written? || s.phases[a].Listing? || s.phases[a].Inside?)
  }

  /** Which of the two environment facts are granted. */
  datatype Facts = Facts(ordered: bool, timely: bool)

  ghost predicate Granted(s: State, step: Step, f: Facts) {
    (f.ordered ==> WriteOrderAgrees(s, step)) && (f.timely ==> WithinTtl(s, step))
  }

  ghost predicate AgentInv(s: State, a: Agent, f: Facts)
    requires a in s.phases
  {
    var phase := s.phases[a];
    && (OwnsRecord(s, a) ==> phase.lock.token in s.records && s.records[phase.lock.token] == phase.lock)
    && (!phase.Outside? && !phase.Crashed? ==> phase.lock.owner == a && phase.lock.createdAt <= s.clock)
    && (f.timely && Attempting(phase) ==> s.clock < phase.lock.expiresAt)
    && (f.ordered && Contends(s, a) ==>
          s.lastWritten.Some? && (phase.lock == s.lastWritten.value || Before(phase.lock, s.lastWritten.value)))
  }

  /** A lock that can win beside another: it comes first, or the other had expired when it was read. */
  predicate Ahead(a: LockRecord, b: LockRecord, f: Facts) {
    Before(a, b) || (!f.timely && a.createdAt >= b.expiresAt)
  }

  /** Whoever is inside is ahead of every other contender. */
  ghost predicate InsideIsFirst(s: State, f: Facts) {
    forall a, b :: a in s.phases && s.phases[a].Inside? && Contends(s, b) && a != b ==> Ahead(s.phases[a].lock, s.phases[b].lock, f)
  }

  /** The record was listed and is still to be read, or has been read. */
  predicate Met(at: Phase, lock: LockRecord)
    requires at.Listing?
  {
    lock.token in at.pending || (lock.token in at.seen && at.seen[lock.token] == lock)
  }

  /** Whoever is reading is ahead of every other contender, or will have seen it. */
  ghost predicate LooksAround(s: State, a: Agent, at: Phase, f: Facts)
    requires at.Listing?
  {
    && Met(at, at.lock)
    && (forall t :: t in at.seen ==> at.seen[t].token == t)
    && (f.ordered ==> forall b :: Contends(s, b) && b != a ==> Ahead(at.lock, s.phases[b].lock, f) || Met(at, s.phases[b].lock))
  }

  ghost predicate ListingsAreGood(s: State, f: Facts) {
    forall a :: a in s.phases && s.phases[a].Listing? ==> LooksAround(s, a, s.phases[a], f)
  }

  ghost predicate Sound(s: State, f: Facts) {
    && (forall a :: a in s.phases ==> AgentInv(s, a, f))
    && (forall t :: t in s.records ==> s.records[t].token == t)
    && (f.ordered ==> InsideIsFirst(s, f))
    && ListingsAreGood(s, f)
  }

  ghost predicate Inv(s: State) {
    Sound(s, Facts(true, true))
  }

  lemma WinnerComesFirst(s: State, a: Agent, b: Agent, f: Facts)
    requires Sound(s, f) && f.ordered
    requires a in s.phases && s.phases[a].Listing? && s.phases[a].pending == {} && Contends(s, b) && a != b
    requires Wins(s.phases[a].seen, s.phases[a].lock, s.phases[a].lock.createdAt)
    ensures Ahead(s.phases[a].lock, s.phases[b].lock, f)
  {
    var at := s.phases[a];
    var mine, other := at.lock, s.phases[b].lock;
    assert AgentInv(s, a, f) && AgentInv(s, b, f) && LooksAround(s, a, at, f);
    if other.expiresAt > mine.createdAt && !Ahead(mine, other, f) {
      var active := ActiveHeadLocks(at.seen, mine.createdAt);
      assert other in active;
      assert active[0] in active;
      var i :| 0 <= i < |active| && active[i] == other;
      assert active[0].token == mine.token && active[0] == mine;
      assert i > 0 && NotAfter(active[0], active[i]);
      BeforeIsStrictOrder(mine, other, mine);
    }
  }

  lemma WriteKeepsSound(s: State, a: Agent, f: Facts)
    requires Sound(s, f) && Enabled(s, WriteRecord(a)) && Granted(s, WriteRecord(a), f)
    ensures Sound(Apply(s, WriteRecord(a)), f)
  {
    hide Ahead, Before, Met;
    var s' := Apply(s, WriteRecord(a));
    var lock := s.phases[a].lock;
    assert AgentInv(s, a, f);
    if lock.token !in s.records {
      forall b | b in s'.phases ensures AgentInv(s', b, f) {
        if b != a {
          assert AgentInv(s, b, f);
          if f.ordered && Contends(s, b) {
            BeforeIsStrictOrder(s.phases[b].lock, s.lastWritten.value, lock);
          }
        }
      }
      forall b | f.ordered && Contends(s, b) && b != a ensures Ahead(s.phases[b].lock, lock, f) {
        LatecomerIsBehind(s, b, lock, f);
      }
      if f.ordered {
        forall b, c | b in s'.phases && s'.phases[b].Inside? && Contends(s', c) && b != c
          ensures Ahead(s'.phases[b].lock, s'.phases[c].lock, f)
        {
          assert Contends(s, b);
        }
      }
      forall b | b in s'.phases && s'.phases[b].Listing? ensures LooksAround(s', b, s'.phases[b], f) {
        assert LooksAround(s, b, s.phases[b], f) && Contends(s, b);
      }
    } else {
      MoveKeepsSound(s, a, Outside, f);
    }
  }

  /** Whoever contends is ahead of a record written in order after it. */
  lemma LatecomerIsBehind(s: State, b: Agent, lock: LockRecord, f: Facts)
    requires Sound(s, f) && f.ordered && Contends(s, b)
    requires s.lastWritten.Some? ==> Before(s.lastWritten.value, lock)
    ensures Ahead(s.phases[b].lock, lock, f)
  {
    assert AgentInv(s, b, f);
    BeforeIsStrictOrder(s.phases[b].lock, s.lastWritten.value, lock);
  }

  /** The listing shows every contender's record. */
  lemma ListKeepsSound(s: State, a: Agent, f: Facts)
    requires Sound(s, f) && Enabled(s, List(a))
    ensures Sound(Apply(s, List(a)), f)
  {
    var at := Listing(s.phases[a].lock, s.records.Keys, map[]);
    assert AgentInv(s, a, f);
    forall c | Contends(s, c) && c != a ensures Met(at, s.phases[c].lock) {
      assert AgentInv(s, c, f);
    }
    MoveKeepsSound(s, a, at, f);
  }

  /** A contender's record is still there when it is read. */
  lemma ReadKeepsSound(s: State, a: Agent, token: string, f: Facts)
    requires Sound(s, f) && Enabled(s, ReadRecord(a, token))
    ensures Sound(Apply(s, ReadRecord(a, token)), f)
  {
    hide Ahead;
    var at := s.phases[a];
    var next := AfterRead(s, at, token);
    assert AgentInv(s, a, f) && LooksAround(s, a, at, f);
    if next.Listing? {
      forall c | Contends(s, c) && Met(at, s.phases[c].lock) ensures Met(next, s.phases[c].lock) {
        assert AgentInv(s, c, f);
      }
      assert Contends(s, a) && Met(next, at.lock);
    }
    MoveKeepsSound(s, a, next, f);
  }

  /** Deciding moves the agent inside only when it is ahead of every other contender. */
  lemma DecideKeepsSound(s: State, a: Agent, f: Facts)
    requires Sound(s, f) && Enabled(s, Decide(a))
    ensures Sound(Apply(s, Decide(a)), f)
  {
    var lock := s.phases[a].lock;
    if Wins(s.phases[a].seen, lock, lock.createdAt) {
      forall c | f.ordered && Contends(s, c) && c != a ensures Ahead(lock, s.phases[c].lock, f) {
        WinnerComesFirst(s, a, c, f);
      }
      MoveKeepsSound(s, a, Inside(lock), f);
    } else {
      MoveKeepsSound(s, a, Losing(lock), f);
    }
  }

  lemma MoveKeepsSound(s: State, a: Agent, phase: Phase, f: Facts)
    requires Sound(s, f)
    requires phase.Losing? || phase.Listing? || phase.Inside? ==> Contends(s, a) && phase.lock == s.phases[a].lock
    requires !phase.Written?
    requires phase.Timed? ==> phase.lock.owner == a && phase.lock.createdAt <= s.clock < phase.lock.expiresAt
    requires phase.Inside? && f.ordered ==> forall c :: Contends(s, c) && c != a ==> Ahead(phase.lock, s.phases[c].lock, f)
    requires phase.Listing? ==> LooksAround(s, a, phase, f)
    ensures Sound(Move(s, a, phase), f)
  {
    hide Ahead, Before, Met;
    var s' := Move(s, a, phase);
    forall b | b in s'.phases ensures AgentInv(s', b, f) {
      if b in s.phases { assert AgentInv(s, b, f); }
    }
    if f.ordered {
      forall b, c | b in s'.phases && s'.phases[b].Inside? && Contends(s', c) && b != c
        ensures Ahead(s'.phases[b].lock, s'.phases[c].lock, f)
      {
        assert Contends(s, c);
      }
    }
    forall b | b in s'.phases && s'.phases[b].Listing? ensures LooksAround(s', b, s'.phases[b], f) {
      assert LooksAround(s, b, s'.phases[b], f);
      FewerContenders(s, s', b, s'.phases[b], f);
    }
  }

  /** Looking around stays good when no contender is new. */
  lemma FewerContenders(s: State, s': State, a: Agent, at: Phase, f: Facts)
    requires at.Listing? && LooksAround(s, a, at, f)
    requires forall b :: Contends(s', b) ==> Contends(s, b) && s'.phases[b].lock == s.phases[b].lock
    ensures LooksAround(s', a, at, f)
  {
    hide Ahead, Met, Contends;
  }

  /** Dropping one's own record leaves every other agent's record in place. */
  lemma DropKeepsSound(s: State, a: Agent, f: Facts)
    requires Sound(s, f) && OwnsRecord(s, a)
    ensures Sound(Move(s, a, Outside).(records := s.records - {s.phases[a].lock.token}), f)
  {
    hide Ahead, Before, Met;
    var s' := Move(s, a, Outside).(records := s.records - {s.phases[a].lock.token});
    assert AgentInv(s, a, f);
    forall b | b in s'.phases ensures AgentInv(s', b, f) {
      if b != a { assert AgentInv(s, b, f); }
    }
    forall b | b in s'.phases && s'.phases[b].Listing? ensures LooksAround(s', b, s'.phases[b], f) {
      FewerContenders(s, s', b, s.phases[b], f);
    }
  }

  /** A step moves no agent but its own. */
  lemma OthersStay(s: State, step: Step, a: Agent)
    requires Enabled(s, step)
    requires step.Tick? || step.agent != a
    ensures PhaseOf(Apply(s, step), a) == PhaseOf(s, a)
  {
  }

  lemma StepKeepsSound(s: State, step: Step, f: Facts)
    requires Sound(s, f) && Enabled(s, step) && Granted(s, step, f)
    ensures Sound(Apply(s, step), f)
  {
    match step
    case WriteRecord(a) => WriteKeepsSound(s, a, f);
    case List(a) => ListKeepsSound(s, a, f);
    case ReadRecord(a, token) => ReadKeepsSound(s, a, token, f);
    case Decide(a) => DecideKeepsSound(s, a, f);
    case DropOwnRecord(a) => DropKeepsSound(s, a, f);
    case Release(a) => DropKeepsSound(s, a, f);
    case ReadClock(a, token) =>
      if !(s.legacyExpiry.Some? && s.legacyExpiry.value > s.clock) {
        MoveKeepsSound(s, a, Timed(LockRecord(token, a, s.clock, s.clock + HEAD_LOCK_TTL_MS)), f);
      }
    case GiveUp(a) => MoveKeepsSound(s, a, Outside, f);
    case Crash(a) => MoveKeepsSound(s, a, Crashed, f);
    case Tick(now) => TickKeepsSound(s, now, f);
  }

  lemma TickKeepsSound(s: State, now: int, f: Facts)
    requires Sound(s, f) && s.clock <= now && Granted(s, Tick(now), f)
    ensures Sound(s.(clock := now), f)
  {
    var s' := s.(clock := now);
    forall b | b in s'.phases ensures AgentInv(s', b, f) {
      assert AgentInv(s, b, f);
    }
    if f.ordered {
      forall b, c | b in s'.phases && s'.phases[b].Inside? && Contends(s', c) && b != c
        ensures Ahead(s'.phases[b].lock, s'.phases[c].lock, f)
      {
        assert Contends(s, c);
      }
    }
    forall b | b in s'.phases && s'.phases[b].Listing? ensures LooksAround(s', b, s'.phases[b], f) {
      FewerContenders(s, s', b, s.phases[b], f);
    }
  }

  lemma StepKeepsInv(s: State, step: Step)
    requires Inv(s) && Enabled(s, step) && WriteOrderAgrees(s, step) && WithinTtl(s, step)
    ensures Inv(Apply(s, step))
  {
    StepKeepsSound(s, step, Facts(true, true));
  }

  ghost predicate IsRun(run: seq<State>) {
    run != [] && Init(run[0]) && forall i :: 0 <= i < |run| - 1 ==> Next(run[i], run[i + 1])
  }

  lemma {:induction false} RunKeepsInv(run: seq<State>, i: nat)
    requires IsRun(run) && i < |run|
    ensures Inv(run[i])
  {
    if i > 0 {
      RunKeepsInv(run, i - 1);
      assert Next(run[i - 1], run[i - 1 + 1]);
      var step :| Enabled(run[i - 1], step) && WriteOrderAgrees(run[i - 1], step) && WithinTtl(run[i - 1], step)
                  && run[i] == Apply(run[i - 1], step);
      StepKeepsInv(run[i - 1], step);
    }
  }

  lemma InvMeansExclusion(s: State, a: Agent, b: Agent)
    requires Inv(s)
    requires PhaseOf(s, a).Inside? && PhaseOf(s, b).Inside?
    ensures a == b
  {
    if a != b {
      assert Contends(s, a) && Contends(s, b);
      BeforeIsStrictOrder(s.phases[a].lock, s.phases[b].lock, s.phases[a].lock);
    }
  }

  /** In every state of every run at most one agent is inside, whatever crashed or left records behind. */
  lemma MutualExclusion(run: seq<State>, i: nat, a: Agent, b: Agent)
    requires IsRun(run) && i < |run|
    requires PhaseOf(run[i], a).Inside? && PhaseOf(run[i], b).Inside?
    ensures a == b
  {
    RunKeepsInv(run, i);
    InvMeansExclusion(run[i], a, b);
  }

  // ----- What each environment fact is needed for -----

  /** Steps that the agents can take, with the granted facts only. */
  ghost predicate StepsTo(s: State, steps: seq<Step>, s': State, f: Facts)
    decreases |steps|
  {
    if steps == [] then s == s'
    else Enabled(s, steps[0]) && Granted(s, steps[0], f) && StepsTo(Apply(s, steps[0]), steps[1..], s', f)
  }

  ghost predicate Reachable(s: State, f: Facts) {
    exists start, steps :: Init(start) && StepsTo(start, steps, s, f)
  }

  lemma {:induction false} StepsKeepSound(s: State, steps: seq<Step>, s': State, f: Facts)
    requires Sound(s, f) && StepsTo(s, steps, s', f)
    ensures Sound(s', f)
    decreases |steps|
  {
    hide Sound, Enabled, Granted, Apply;
    if steps != [] {
      StepKeepsSound(s, steps[0], f);
      StepsKeepSound(Apply(s, steps[0]), steps[1..], s', f);
    }
  }

  /** A lock as an agent makes it. */
  predicate IsLock(lock: LockRecord) {
    lock.expiresAt == lock.createdAt + HEAD_LOCK_TTL_MS
  }

  /** The owners of both locks are inside with them. */
  ghost predicate Clash(s: State, first: LockRecord, second: LockRecord) {
    PhaseOf(s, first.owner) == Inside(first) && PhaseOf(s, second.owner) == Inside(second)
  }

  ghost predicate LeastActive(records: map<string, LockRecord>, lock: LockRecord, now: int) {
    && lock.token in records && records[lock.token] == lock && lock.expiresAt > now
    && forall t :: t in records && t != lock.token ==> records[t].expiresAt <= now || Before(lock, records[t])
  }

  lemma LeastActiveWins(records: map<string, LockRecord>, lock: LockRecord, now: int)
    requires LeastActive(records, lock, now)
    ensures Wins(records, lock, now)
  {
    var active := ActiveHeadLocks(records, now);
    assert lock in active;
    var i :| 0 <= i < |active| && active[i] == lock;
    var head := active[0];
    assert head in active;
    if head != lock {
      assert NotAfter(head, lock);
      assert Before(lock, head);
      NotAfterRefutesBefore(head, lock);
    }
  }

  lemma NotAfterRefutesBefore(a: LockRecord, b: LockRecord)
    requires NotAfter(a, b)
    ensures !Before(b, a)
  {
    if Before(b, a) {
      StringLessIrreflexive(a.token);
      if a.token != b.token {
        StringLessTransitive(a.token, b.token, a.token);
      }
    }
  }

  lemma StepBack(s: State, step: Step, rest: seq<Step>, end: State, f: Facts) returns (steps: seq<Step>)
    requires Enabled(s, step) && Granted(s, step, f) && StepsTo(Apply(s, step), rest, end, f)
    ensures StepsTo(s, steps, end, f)
  {
    hide Enabled, Granted, Apply;
    steps := [step] + rest;
    assert steps[1..] == rest;
  }

  function Looking(s: State, a: Agent, pending: set<string>, seen: map<string, LockRecord>): State
    requires PhaseOf(s, a).Written?
  {
    Move(s, a, Listing(s.phases[a].lock, pending, seen))
  }

  lemma DecideBack(s: State, a: Agent, rest: seq<Step>, end: State, f: Facts) returns (steps: seq<Step>)
    requires PhaseOf(s, a).Written?
    requires LeastActive(s.records, s.phases[a].lock, s.phases[a].lock.createdAt)
    requires StepsTo(Move(s, a, Inside(s.phases[a].lock)), rest, end, f)
    ensures StepsTo(Looking(s, a, {}, s.records), steps, end, f)
  {
    hide StepsTo, LeastActive, ActiveHeadLocks, Wins;
    LeastActiveWins(s.records, s.phases[a].lock, s.phases[a].lock.createdAt);
    var now := Looking(s, a, {}, s.records);
    assert Apply(now, Decide(a)) == Move(s, a, Inside(s.phases[a].lock));
    steps := StepBack(now, Decide(a), rest, end, f);
  }

  /** Reading the records still pending, and then winning. */
  lemma {:induction false} ReadOnBack(s: State, a: Agent, pending: set<string>, seen: map<string, LockRecord>,
      rest: seq<Step>, end: State, f: Facts) returns (steps: seq<Step>)
    requires PhaseOf(s, a).Written?
    requires LeastActive(s.records, s.phases[a].lock, s.phases[a].lock.createdAt)
    requires pending <= s.records.Keys && seen == s.records - pending
    requires StepsTo(Move(s, a, Inside(s.phases[a].lock)), rest, end, f)
    ensures StepsTo(Looking(s, a, pending, seen), steps, end, f)
    decreases |pending|
  {
    hide StepsTo, LeastActive;
    if pending == {} {
      assert seen == s.records;
      steps := DecideBack(s, a, rest, end, f);
    } else {
      var token :| token in pending;
      var more := seen[token := s.records[token]];
      assert more == s.records - (pending - {token});
      steps := ReadOnBack(s, a, pending - {token}, more, rest, end, f);
      var now := Looking(s, a, pending, seen);
      assert Apply(now, ReadRecord(a, token)) == Looking(s, a, pending - {token}, more);
      steps := StepBack(now, ReadRecord(a, token), steps, end, f);
    }
  }

  /** An agent whose record comes first among the active ones gets in. */
  lemma EnterBack(s: State, a: Agent, rest: seq<Step>, end: State, f: Facts) returns (steps: seq<Step>)
    requires PhaseOf(s, a).Written?
    requires LeastActive(s.records, s.phases[a].lock, s.phases[a].lock.createdAt)
    requires StepsTo(Move(s, a, Inside(s.phases[a].lock)), rest, end, f)
    ensures StepsTo(s, steps, end, f)
  {
    hide StepsTo, LeastActive;
    assert s.records - s.records.Keys == map[];
    steps := ReadOnBack(s, a, s.records.Keys, map[], rest, end, f);
    steps := StepBack(s, List(a), steps, end, f);
  }

  function Recorded(s: State, a: Agent, lock: LockRecord): State {
    State(s.clock, s.legacyExpiry, s.records[lock.token := lock], s.phases[a := Written(lock)], Some(lock))
  }

  lemma WriteBack(s: State, a: Agent, lock: LockRecord, rest: seq<Step>, end: State, f: Facts) returns (steps: seq<Step>)
    requires PhaseOf(s, a) == Timed(lock) && lock.token !in s.records
    requires f.ordered && s.lastWritten.Some? ==> Before(s.lastWritten.value, lock)
    requires StepsTo(Recorded(s, a, lock), rest, end, f)
    ensures StepsTo(s, steps, end, f)
  {
    hide StepsTo;
    steps := StepBack(s, WriteRecord(a), rest, end, f);
  }

  lemma ReadBack(s: State, lock: LockRecord, rest: seq<Step>, end: State, f: Facts) returns (steps: seq<Step>)
    requires IsLock(lock) && lock.createdAt == s.clock && PhaseOf(s, lock.owner).Outside? && s.legacyExpiry == None
    requires StepsTo(Move(s, lock.owner, Timed(lock)), rest, end, f)
    ensures StepsTo(s, steps, end, f)
  {
    hide StepsTo;
    steps := StepBack(s, ReadClock(lock.owner, lock.token), rest, end, f);
  }

  lemma TickBack(s: State, now: int, rest: seq<Step>, end: State, f: Facts) returns (steps: seq<Step>)
    requires s.clock <= now && StepsTo(s.(clock := now), rest, end, f)
    requires f.timely ==> WithinTtl(s, Tick(now))
    ensures StepsTo(s, steps, end, f)
  {
    hide StepsTo, WithinTtl;
    steps := StepBack(s, Tick(now), rest, end, f);
  }

  function Start(now: int): State {
    State(now, None, map[], map[], None)
  }

  /** The first to read the clock writes last: both end up inside, with every attempt inside its TTL. */
  lemma LateWriterEnters(first: LockRecord, second: LockRecord) returns (steps: seq<Step>, s: State)
    requires IsLock(first) && IsLock(second) && first.owner != second.owner && first.token != second.token
    requires Before(first, second) && second.createdAt < first.expiresAt
    ensures StepsTo(Start(first.createdAt), steps, s, Facts(false, true)) && Clash(s, first, second)
  {
    var f, a, b := Facts(false, true), first.owner, second.owner;
    var s0 := Start(first.createdAt);
    var s1 := Move(s0, a, Timed(first));
    var s2 := s1.(clock := second.createdAt);
    var s3 := Move(s2, b, Timed(second));
    var s4 := Recorded(s3, b, second);
    var s5 := Move(s4, b, Inside(second));
    var s6 := Recorded(s5, a, first);
    s := Move(s6, a, Inside(first));
    hide StepsTo, Wins, Enabled, Granted, Apply;
    steps := NoSteps(s, f);
    steps := EnterBack(s6, a, steps, s, f);
    steps := WriteBack(s5, a, first, steps, s, f);
    steps := EnterBack(s4, b, steps, s, f);
    steps := WriteBack(s3, b, second, steps, s, f);
    steps := ReadBack(s2, second, steps, s, f);
    steps := TickBack(s1, second.createdAt, steps, s, f);
    steps := ReadBack(s0, first, steps, s, f);
  }

  /** The first holder pauses past its TTL: both end up inside, with every record written in key order. */
  lemma LateComerEnters(first: LockRecord, second: LockRecord) returns (steps: seq<Step>, s: State)
    requires IsLock(first) && IsLock(second) && first.owner != second.owner && first.token != second.token
    requires second.createdAt >= first.expiresAt
    ensures StepsTo(Start(first.createdAt), steps, s, Facts(true, false)) && Clash(s, first, second)
  {
    var f, a, b := Facts(true, false), first.owner, second.owner;
    var s0 := Start(first.createdAt);
    var s1 := Move(s0, a, Timed(first));
    var s2 := Recorded(s1, a, first);
    var s3 := Move(s2, a, Inside(first));
    var s4 := s3.(clock := second.createdAt);
    var s5 := Move(s4, b, Timed(second));
    var s6 := Recorded(s5, b, second);
    s := Move(s6, b, Inside(second));
    hide StepsTo, Wins, Enabled, Granted, Apply;
    steps := NoSteps(s, f);
    steps := EnterBack(s6, b, steps, s, f);
    steps := WriteBack(s5, b, second, steps, s, f);
    steps := ReadBack(s4, second, steps, s, f);
    steps := TickBack(s3, second.createdAt, steps, s, f);
    steps := EnterBack(s2, a, steps, s, f);
    steps := WriteBack(s1, a, first, steps, s, f);
    steps := ReadBack(s0, first, steps, s, f);
  }

  lemma NoSteps(s: State, f: Facts) returns (steps: seq<Step>)
    ensures StepsTo(s, steps, s, f)
  {
    steps := [];
  }

  lemma ReachableIsSound(s: State, f: Facts)
    requires Reachable(s, f)
    ensures Sound(s, f)
  {
    hide StepsTo;
    var start, steps :| Init(start) && StepsTo(start, steps, s, f);
    StepsKeepSound(start, steps, s, f);
  }

  /**
   * With attempts inside their TTL but records in any order, two locks can be held at once exactly when the
   * second one is made before the first one expires.
   */
  lemma LateWriterBreaksExclusion(first: LockRecord, second: LockRecord)
    requires IsLock(first) && IsLock(second) && first.owner != second.owner && first.token != second.token
    requires Before(first, second)
    ensures (exists s :: Reachable(s, Facts(false, true)) && Clash(s, first, second)) <==> second.createdAt < first.expiresAt
  {
    var f := Facts(false, true);
    if second.createdAt < first.expiresAt {
      var steps, s := LateWriterEnters(first, second);
      assert Init(Start(first.createdAt)) && Reachable(s, f);
    }
    if exists s :: Reachable(s, f) && Clash(s, first, second) {
      var s :| Reachable(s, f) && Clash(s, first, second);
      ReachableIsSound(s, f);
      assert AgentInv(s, first.owner, f) && AgentInv(s, second.owner, f);
    }
  }

  /**
   * With records in order but attempts of any length, two locks can be held at once exactly when the second
   * one is made after the first one has expired.
   */
  lemma SlowHolderBreaksExclusion(first: LockRecord, second: LockRecord)
    requires IsLock(first) && IsLock(second) && first.owner != second.owner && first.token != second.token
    requires Before(first, second)
    ensures (exists s :: Reachable(s, Facts(true, false)) && Clash(s, first, second)) <==> second.createdAt >= first.expiresAt
  {
    var f := Facts(true, false);
    if second.createdAt >= first.expiresAt {
      var steps, s := LateComerEnters(first, second);
      assert Init(Start(first.createdAt)) && Reachable(s, f);
    }
    if exists s :: Reachable(s, f) && Clash(s, first, second) {
      var s :| Reachable(s, f) && Clash(s, first, second);
      ReachableIsSound(s, f);
      assert Contends(s, first.owner) && Contends(s, second.owner);
      assert Ahead(second, first, f);
      BeforeIsStrictOrder(first, second, first);
    }
  }
}
