/** The per-app lifecycle controller under every interleaving
    (src/apps/app_manager.go, src/apps/state_machine.go, src/apps/update_app.go,
    the lock probes and state corrections of src/apps/state_observer.go): its
    steps, and the balance of the transition lock.

    Any number of requests for one app run at once, each a thread with a program
    counter. One event moves one thread by one step between two accesses to
    shared state; storing a push, saving a state and the update's final row
    write are one step each. */
module Controller {
  import opened Wrappers
  import opened AppStates

  datatype Outcome = Success | Canceled | NothingDone | Failure

  datatype Pc =
    | Entered(p: Payload)               // RequestAppState called
    | Summoned(p: Payload)              // a cancel, about to look up its transition
    | Canceling(p: Payload, action: Action)
    | Admitted(p: Payload)              // not a cancel, not dropped
    | Holding(p: Payload)               // lock acquired
    | Prepared(p: Payload)              // current state and version adopted
    | Running(p: Payload, action: Action, phase: nat)
    | Ended(outcome: Outcome, update: bool)
    | Verifying                         // unlocked, about to read the row
    | Comparing(row: Payload)           // row read, about to read the app
    | Promoting                         // built, about to publish PRESENT
    | Failing                           // unlocked, about to publish FAILED
    | Settling                          // no action taken, about to read the state
    | Settled(state: AppState)          // ... and about to publish it again
    | Resetting                         // a transfer failed, about to publish REMOVED

  datatype Holder = Free | Request(id: nat) | Probe(id: nat)

  datatype LockEvent = Acquire(holder: Holder) | Release(holder: Holder)

  /** `probes` are the observers between taking and releasing the lock, `log` is
      the lock's history, each release noted by the one who makes it. */
  datatype State = State(
    app: App, lock: Holder, threads: map<nat, Pc>, probes: set<nat>, next: nat, log: seq<LockEvent>)

  datatype Event =
    | Push(p: Payload) | Sync(p: Payload) | Retry(p: Payload) | Reconcile
    | Enter(t: nat) | Summon(t: nat) | SyncFail(t: nat) | TryLock(t: nat) | Adoption(t: nat, saved: bool)
    | Init(t: nat, token: bool, emergency: bool)
    | Publish(t: nat, state: AppState) | InstallVersion(t: nat) | PersistRow(t: nat)
    | Finish(t: nat, outcome: Outcome) | Unlock(t: nat)
    | ReadRow(t: nat) | Compare(t: nat) | Promote(t: nat)
    | PublishFailed(t: nat) | ReadState(t: nat) | Republish(t: nat)
    | ProbeLock | ProbeUnlock(o: nat) | Observe(state: AppState, prod: bool)
    | Correct(state: AppState) | TransferFails | ResetTransfer(t: nat) | Purge

  // ---------------------------------------------------------------------
  // Steps
  // ---------------------------------------------------------------------

  predicate AtRest(a: App) {
    a.current == a.target || a.current == FAILED
  }

  function At(s: State, t: nat): Option<Pc> {
    if t in s.threads then Some(s.threads[t]) else None
  }

  function Move(s: State, t: nat, pc: Pc): State {
    s.(threads := s.threads[t := pc])
  }

  function Leave(s: State, t: nat): State {
    s.(threads := s.threads - {t})
  }

  function Spawn(s: State, pc: Pc): State {
    s.(threads := s.threads[s.next := pc], next := s.next + 1)
  }

  function Unlocked(s: State, h: Holder): State {
    s.(lock := Free, log := s.log + [Release(h)])
  }

  function Locked(s: State, h: Holder): State {
    s.(lock := h, log := s.log + [Acquire(h)])
  }

  /** Targets that cancel an update in flight instead of being dropped. */
  predicate StopsUpdate(target: AppState) {
    target == PRESENT || target == REMOVED || target == UNINSTALLED
  }

  /** Requests that cancel the transition in flight instead of queueing up. */
  predicate IsCancel(current: AppState, p: Payload) {
    p.cancel || (current == UPDATING && StopsUpdate(p.target))
  }

  predicate Drops(current: AppState, p: Payload) {
    current == UPDATING && !IsCancel(current, p)
  }

  /** What happens to a prepared request: refused by the disk guard, or on to the
      transition it names, if there is one. */
  predicate Refuses(p: Payload, emergency: bool) {
    emergency && IsDiskGrowing(p.target)
  }

  predicate Unstartable(a: App, p: Payload, token: bool, emergency: bool) {
    !token || (!Refuses(p, emergency) && Choose(a, p).None?)
  }

  predicate CanPublish(pc: Pc, state: AppState) {
    match pc
    case Running(_, action, phase) =>
      if action.Update? then (phase == 0 && state == UPDATING) || (phase == 2 && state == PRESENT)
      else !action.NoAction? && state != UPDATING
    case Canceling(_, action) => state != UPDATING
    case _ => false
  }

  predicate CanFinish(pc: Pc, outcome: Outcome) {
    match pc
    case Running(_, action, phase) =>
      (match action
       case NoAction => outcome == NothingDone
       case Update => outcome != NothingDone && (outcome == Success ==> phase == 4)
       case RemovedToPresent => true
       case _ => outcome != NothingDone)
    case Canceling(_, _) => true
    case _ => false
  }

  predicate AtUpdatePhase(pc: Pc, phase: nat) {
    pc.Running? && pc.action.Update? && pc.phase == phase
  }

  predicate Enabled(s: State, e: Event) {
    match e
    case Retry(p) => !p.cancel && p.target != s.app.current
    case Reconcile => s.app.row.Some?
    case Enter(t) => t in s.threads && s.threads[t].Entered?
    case Summon(t) => t in s.threads && s.threads[t].Summoned?
    case SyncFail(t) => t in s.threads && s.threads[t].Admitted?
    case TryLock(t) => t in s.threads && s.threads[t].Admitted?
    case Adoption(t, _) => t in s.threads && s.threads[t].Holding?
    case Init(t, _, _) => t in s.threads && s.threads[t].Prepared?
    case Publish(t, state) => t in s.threads && CanPublish(s.threads[t], state)
    case InstallVersion(t) => t in s.threads && AtUpdatePhase(s.threads[t], 1)
    case PersistRow(t) => t in s.threads && AtUpdatePhase(s.threads[t], 3)
    case Finish(t, outcome) => t in s.threads && CanFinish(s.threads[t], outcome)
    case Unlock(t) => t in s.threads && s.threads[t].Ended?
    case ReadRow(t) => t in s.threads && s.threads[t].Verifying?
    case Compare(t) => t in s.threads && s.threads[t].Comparing?
    case Promote(t) => t in s.threads && s.threads[t].Promoting?
    case PublishFailed(t) => t in s.threads && s.threads[t].Failing?
    case ReadState(t) => t in s.threads && s.threads[t].Settling?
    case Republish(t) => t in s.threads && s.threads[t].Settled?
    case ProbeLock => s.lock.Free?
    case ProbeUnlock(o) => o in s.probes
    case Observe(state, _) => state == RUNNING || state == PRESENT || state == FAILED
    case Correct(state) => state != UPDATING
    case TransferFails => s.app.current == TRANSFERING
    case ResetTransfer(t) => t in s.threads && s.threads[t].Resetting?
    case _ => true
  }

  function Step(s: State, e: Event): State
    requires Enabled(s, e)
  {
    if IsRequest(e) then RequestStep(s, e)
    else if IsTransition(e) then TransitionStep(s, e)
    else if IsVerify(e) then VerifyStep(s, e)
    else ObserverStep(s, e)
  }

  predicate IsRequest(e: Event) {
    e.Push? || e.Sync? || e.Retry? || e.Reconcile? || e.Enter? || e.Summon? || e.SyncFail? || e.TryLock?
    || e.Adoption? || e.Init?
  }

  predicate IsTransition(e: Event) {
    e.Publish? || e.InstallVersion? || e.PersistRow? || e.Finish? || e.Unlock?
  }

  predicate IsVerify(e: Event) {
    e.ReadRow? || e.Compare? || e.Promote? || e.PublishFailed? || e.ReadState? || e.Republish?
  }

  predicate IsObserver(e: Event) {
    e.ProbeLock? || e.ProbeUnlock? || e.Observe? || e.Correct? || e.TransferFails? || e.ResetTransfer? || e.Purge?
  }

  /** Pushes, which store a target and request it, synchronisations, which only
      store it, and requests up to the start of their transition. */
  function RequestStep(s: State, e: Event): State
    requires Enabled(s, e) && IsRequest(e)
  {
    match e
    case Push(p) => Spawn(s.(app := Store(s.app, p)), Entered(p))
    case Sync(p) => s.(app := Store(s.app, p))
    case Retry(p) => Spawn(s, Entered(p))
    case Reconcile => Spawn(s, Entered(s.app.row.value))
    case Enter(t) =>
      var p := s.threads[t].p;
      if IsCancel(s.app.current, p) then Move(s, t, Summoned(p))
      else if s.app.current == UPDATING then Leave(s, t)
      else Move(s, t, Admitted(p))
    case Summon(t) =>
      var p := s.threads[t].p;
      (match Transition(s.app.current, p.target)
       case None => Leave(s, t)
       case Some(action) => Move(s, t, Canceling(p, action)))
    case SyncFail(t) => Leave(s, t)
    case TryLock(t) =>
      if s.lock.Free? then Move(Locked(s, Request(t)), t, Holding(s.threads[t].p)) else Leave(s, t)
    case Adoption(t, saved) =>
      var p := s.threads[t].p;
      if saved then Move(s.(app := Prepare(s.app, p)), t, Prepared(p))
      else Leave(Unlocked(s.(app := Adopt(s.app, p)), Request(t)), t)
    case Init(t, token, emergency) =>
      var p := s.threads[t].p;
      if Unstartable(s.app, p, token, emergency) then Leave(Unlocked(s, Request(t)), t)
      else if Refuses(p, emergency) then Move(s, t, Ended(Failure, false))
      else Move(s, t, Running(p, Choose(s.app, p).value, 0))
  }

  /** Steps of a transition function, and the release of the lock after it. */
  function TransitionStep(s: State, e: Event): State
    requires Enabled(s, e) && IsTransition(e)
  {
    match e
    case Publish(t, state) =>
      var pc := s.threads[t];
      var after := s.(app := Notify(s.app, state));
      if pc.Running? && pc.action.Update? then Move(after, t, pc.(phase := pc.phase + 1)) else after
    case InstallVersion(t) =>
      Move(s.(app := Install(s.app, s.threads[t].p)), t, s.threads[t].(phase := 2))
    case PersistRow(t) =>
      Move(s.(app := Persist(s.app, s.threads[t].p)), t, s.threads[t].(phase := 4))
    case Finish(t, outcome) =>
      if s.threads[t].Canceling? then Leave(s, t) else Move(s, t, Ended(outcome, s.threads[t].action.Update?))
    case Unlock(t) => Move(Unlocked(s, Request(t)), t, Onward(s.threads[t].outcome))
  }

  /** Where a request goes on after the unlock. */
  function Onward(outcome: Outcome): Pc {
    match outcome
    case Success | Canceled => Verifying
    case NothingDone => Settling
    case Failure => Failing
  }

  predicate Redrives(a: App, row: Payload) {
    a.current != a.target || PendingUpdate(row)
  }

  /** What a request does after it released the lock. */
  function VerifyStep(s: State, e: Event): State
    requires Enabled(s, e) && IsVerify(e)
  {
    match e
    case ReadRow(t) => if s.app.row.None? then Leave(s, t) else Move(s, t, Comparing(s.app.row.value))
    case Compare(t) =>
      var row := s.threads[t].row;
      if s.app.current == FAILED then Leave(s, t)
      else
        var after := if Redrives(s.app, row) then Spawn(s, Entered(row)) else s;
        if s.app.current == BUILT && s.app.target == BUILT then Move(after, t, Promoting) else Leave(after, t)
    case Promote(t) => Leave(s.(app := Notify(s.app, PRESENT)), t)
    case PublishFailed(t) => Leave(s.(app := Notify(s.app, FAILED)), t)
    case ReadState(t) => Move(s, t, Settled(s.app.current))
    case Republish(t) => Leave(s.(app := Notify(s.app, s.threads[t].state)), t)
  }

  /** Observers probe the lock and report container states. `CorrectAppStates`
      publishes what docker shows at start and on every reconnect, without the lock
      and without a request, from a state it read some time before; whatever it
      finds, it never publishes UPDATING. A failed transfer resets its app; a
      synchronisation deletes the rows of an unknown one. */
  function ObserverStep(s: State, e: Event): State
    requires Enabled(s, e) && IsObserver(e)
  {
    match e
    case ProbeLock => Locked(s, Probe(s.next)).(probes := s.probes + {s.next}, next := s.next + 1)
    case ProbeUnlock(o) => Unlocked(s, Probe(o)).(probes := s.probes - {o})
    case Observe(state, prod) =>
      var seen := s.(app := Notify(s.app, state));
      if Reports(seen.app, state, prod) then Spawn(seen, Entered(seen.app.row.value)) else seen
    case Correct(state) => s.(app := Notify(s.app, state))
    case TransferFails => Spawn(s, Resetting)
    case ResetTransfer(t) => Leave(s.(app := Notify(s.app, REMOVED)), t)
    case Purge => s.(app := Purged(s.app))
  }

  /** An observation that leads to a request for the stored row. */
  predicate Reports(a: App, state: AppState, prod: bool) {
    prod && state != FAILED && a.row.Some?
  }

  // ---------------------------------------------------------------------
  // Runs
  // ---------------------------------------------------------------------

  /** An app nobody works on, as the agent loads it when it starts or adds it on
      the first push: in whatever state the last run left it, UPDATING included,
      with or without a row. */
  predicate Initial(s: State) {
    && RowMatches(s.app)
    && s.lock == Free && s.threads == map[] && s.probes == {} && s.log == []
  }

  /** A run: the events and the states before, between and after them. */
  datatype Trace = Trace(states: seq<State>, events: seq<Event>)

  predicate Follows(r: Trace, i: nat)
    requires i < |r.events| < |r.states|
  {
    Enabled(r.states[i], r.events[i]) && r.states[i + 1] == Step(r.states[i], r.events[i])
  }

  ghost predicate IsRun(r: Trace) {
    && |r.states| == |r.events| + 1 && Initial(r.states[0])
    && forall i :: 0 <= i < |r.events| ==> Follows(r, i)
  }

  // ---------------------------------------------------------------------
  // How a step treats lock and threads
  // ---------------------------------------------------------------------

  predicate InLock(pc: Pc) {
    pc.Holding? || pc.Prepared? || pc.Running? || pc.Ended?
  }

  predicate Inside(s: State, t: nat) {
    t in s.threads && InLock(s.threads[t])
  }

  predicate PreLock(pc: Pc) {
    pc.Entered? || pc.Admitted?
  }

  /** Exactly the lock holder is inside the locked section. */
  ghost predicate LockHeld(s: State) {
    && (forall t :: t in s.threads ==> t < s.next)
    && (forall o :: o in s.probes ==> o < s.next && o !in s.threads && s.lock == Probe(o))
    && (forall t :: t in s.threads && InLock(s.threads[t]) ==> s.lock == Request(t))
    && (s.lock.Request? ==> s.lock.id in s.threads && InLock(s.threads[s.lock.id]))
    && (s.lock.Probe? ==> s.lock.id in s.probes)
  }

  /** The ways a step can treat the lock and the threads: spawn, move or end a
      thread outside the locked section, enter it, go on inside it, or leave it. */
  ghost predicate Threads(s: State, s': State) {
    || Outside(s, s')
    || (exists t :: Acquires(s, s', t))
    || (exists t :: Continues(s, s', t))
    || (exists t :: Unlocks(s, s', t))
    || ProbeTakes(s, s')
    || (exists o :: ProbeGives(s, s', o))
  }

  /** One thread outside the locked section moves or ends; one may be spawned. */
  ghost predicate Outside(s: State, s': State) {
    && s'.lock == s.lock && s'.log == s.log && s'.probes == s.probes && s.next <= s'.next
    && (forall t :: t in s'.threads ==>
          || (t in s.threads && s'.threads[t] == s.threads[t])
          || (t in s.threads && !InLock(s.threads[t]) && !InLock(s'.threads[t])
              && (PreLock(s'.threads[t]) ==> PreLock(s.threads[t])))
          || (s.next <= t < s'.next && t !in s.threads && !InLock(s'.threads[t])))
    && (forall t :: t in s.threads && t !in s'.threads ==> !InLock(s.threads[t]))
  }

  ghost predicate Acquires(s: State, s': State, t: nat) {
    && s.lock.Free? && t in s.threads && s.threads[t].Admitted?
    && s'.threads == s.threads[t := Holding(s.threads[t].p)] && s'.next == s.next && s'.probes == s.probes
    && s'.lock == Request(t) && s'.log == s.log + [Acquire(Request(t))]
  }

  ghost predicate Continues(s: State, s': State, t: nat) {
    && t in s.threads && t in s'.threads && InLock(s.threads[t]) && InLock(s'.threads[t])
    && s'.threads == s.threads[t := s'.threads[t]] && s'.next == s.next && s'.probes == s.probes
    && s'.lock == s.lock && s'.log == s.log
  }

  ghost predicate Unlocks(s: State, s': State, t: nat) {
    && t in s.threads && InLock(s.threads[t])
    && s'.next == s.next && s'.probes == s.probes && s'.lock == Free && s'.log == s.log + [Release(Request(t))]
    && (s'.threads == s.threads - {t}
        || (t in s'.threads && s'.threads == s.threads[t := s'.threads[t]]
            && !InLock(s'.threads[t]) && !PreLock(s'.threads[t])))
  }

  ghost predicate ProbeTakes(s: State, s': State) {
    && s.lock.Free? && s'.threads == s.threads && s'.probes == s.probes + {s.next} && s'.next == s.next + 1
    && s'.lock == Probe(s.next) && s'.log == s.log + [Acquire(Probe(s.next))]
  }

  ghost predicate ProbeGives(s: State, s': State, o: nat) {
    && o in s.probes && s'.threads == s.threads && s'.probes == s.probes - {o} && s'.next == s.next
    && s'.lock == Free && s'.log == s.log + [Release(Probe(o))]
  }

  lemma RequestSteps(s: State, e: Event)
    requires LockHeld(s) && Enabled(s, e) && IsRequest(e) && !e.Adoption? && !e.Init?
    ensures Threads(s, RequestStep(s, e))
  {
    var s' := RequestStep(s, e);
    if e.TryLock? && s.lock.Free? { assert Acquires(s, s', e.t); } else { assert Outside(s, s'); }
  }

  lemma LockedSteps(s: State, e: Event)
    requires LockHeld(s) && Enabled(s, e) && (e.Adoption? || e.Init?)
    ensures Threads(s, RequestStep(s, e))
  {
    var s' := RequestStep(s, e);
    if s'.lock == Free { assert Unlocks(s, s', e.t); } else { assert Continues(s, s', e.t); }
  }

  lemma TransitionSteps(s: State, e: Event)
    requires LockHeld(s) && Enabled(s, e) && IsTransition(e)
    ensures Threads(s, TransitionStep(s, e))
  {
    var s' := TransitionStep(s, e);
    if e.Unlock? {
      assert Unlocks(s, s', e.t);
    } else if s.threads[e.t].Running? {
      assert Continues(s, s', e.t);
    } else {
      assert Outside(s, s');
    }
  }

  lemma VerifySteps(s: State, e: Event)
    requires LockHeld(s) && Enabled(s, e) && IsVerify(e)
    ensures Threads(s, VerifyStep(s, e))
  {
    if e.Compare? { CompareSteps(s, e); } else { assert Outside(s, VerifyStep(s, e)); }
  }

  lemma CompareSteps(s: State, e: Event)
    requires LockHeld(s) && Enabled(s, e) && e.Compare?
    ensures Outside(s, VerifyStep(s, e))
  {
  }

  lemma ObserverSteps(s: State, e: Event)
    requires LockHeld(s) && Enabled(s, e) && IsObserver(e)
    ensures Threads(s, ObserverStep(s, e))
  {
    var s' := ObserverStep(s, e);
    if e.ProbeUnlock? {
      assert ProbeGives(s, s', e.o);
    } else if !e.ProbeLock? {
      assert Outside(s, s');
    }
  }

  /** Every step of every thread enters, continues or leaves the locked section,
      or stays outside it. */
  lemma EveryStepTreatsThreads(s: State, e: Event)
    requires LockHeld(s) && Enabled(s, e)
    ensures Threads(s, Step(s, e))
  {
    if e.Adoption? || e.Init? { LockedSteps(s, e); }
    else if IsRequest(e) { RequestSteps(s, e); }
    else if IsTransition(e) { TransitionSteps(s, e); }
    else if IsVerify(e) { VerifySteps(s, e); }
    else { ObserverSteps(s, e); }
  }

  lemma LockHeldStep(s: State, s': State)
    requires LockHeld(s) && Threads(s, s')
    ensures LockHeld(s')
  {
  }

  // ---------------------------------------------------------------------
  // The lock's history
  // ---------------------------------------------------------------------

  /** Matched pairs: each acquire directly followed by its own release. */
  predicate Paired(log: seq<LockEvent>) {
    log == [] || (|log| >= 2 && log[|log| - 1].Release? && log[|log| - 2] == Acquire(log[|log| - 1].holder)
                  && Paired(log[..|log| - 2]))
  }

  predicate Balanced(log: seq<LockEvent>, lock: Holder) {
    if lock.Free? then Paired(log)
    else log != [] && log[|log| - 1] == Acquire(lock) && Paired(log[..|log| - 1])
  }

  predicate HasLocked(s: State, t: nat) {
    t in s.threads ==> !PreLock(s.threads[t])
  }

  /** No holder acquires twice, and who acquired is past the lock. */
  ghost predicate AcquiresOnce(s: State) {
    && (forall i, j :: 0 <= i < j < |s.log| && s.log[i].Acquire? && s.log[j].Acquire? ==>
          s.log[i].holder != s.log[j].holder)
    && (forall i :: 0 <= i < |s.log| ==> PastLock(s, s.log[i].holder))
  }

  predicate PastLock(s: State, h: Holder) {
    match h
    case Free => false
    case Request(t) => t < s.next && HasLocked(s, t)
    case Probe(o) => o < s.next && o !in s.threads
  }

  lemma PairedAppend(log: seq<LockEvent>, h: Holder)
    requires Paired(log)
    ensures Paired(log + [Acquire(h)] + [Release(h)]) && (log + [Acquire(h)])[..|log|] == log
  {
    var longer := log + [Acquire(h)] + [Release(h)];
    assert longer[..|longer| - 2] == log && longer[|longer| - 2] == Acquire(h);
  }

  /** A step leaves the lock alone, takes the free lock, or releases a held one,
      and then the holder itself does. */
  predicate LockMoves(s: State, s': State) {
    || (s'.lock == s.lock && s'.log == s.log)
    || (s.lock.Free? && !s'.lock.Free? && s'.log == s.log + [Acquire(s'.lock)])
    || (!s.lock.Free? && s'.lock.Free? && s'.log == s.log + [Release(s.lock)])
  }

  lemma HolderReleases(s: State, s': State)
    requires LockHeld(s) && Threads(s, s')
    ensures LockMoves(s, s')
  {
  }

  lemma BalancedStep(s: State, s': State)
    requires LockMoves(s, s') && Balanced(s.log, s.lock)
    ensures Balanced(s'.log, s'.lock)
  {
    if s'.lock != s.lock {
      if s.lock.Free? {
        PairedAppend(s.log, s'.lock);
      } else {
        var before := s.log[..|s.log| - 1];
        assert s.log == before + [Acquire(s.lock)];
        PairedAppend(before, s.lock);
      }
    }
  }

  lemma PastLockStep(s: State, s': State, h: Holder)
    requires LockHeld(s) && Threads(s, s') && PastLock(s, h)
    ensures PastLock(s', h)
  {
  }

  lemma AcquiresOnceStep(s: State, s': State)
    requires LockHeld(s) && Threads(s, s') && AcquiresOnce(s) && Balanced(s.log, s.lock)
    ensures AcquiresOnce(s')
  {
    if s.lock != Free { assert s.log[|s.log| - 1].holder == s.lock; }
    forall i | 0 <= i < |s'.log| ensures PastLock(s', s'.log[i].holder) {
      if i < |s.log| { PastLockStep(s, s', s.log[i].holder); }
    }
    forall i, j | 0 <= i < j < |s'.log| && s'.log[i].Acquire? && s'.log[j].Acquire?
      ensures s'.log[i].holder != s'.log[j].holder
    {
      assert s'.log[i] == s.log[i];
    }
  }

  ghost predicate Inv(s: State) {
    LockHeld(s) && Balanced(s.log, s.lock) && AcquiresOnce(s)
  }

  lemma InvStep(s: State, e: Event)
    requires Inv(s) && Enabled(s, e)
    ensures Inv(Step(s, e))
  {
    EveryStepTreatsThreads(s, e);
    LockHeldStep(s, Step(s, e));
    HolderReleases(s, Step(s, e));
    BalancedStep(s, Step(s, e));
    AcquiresOnceStep(s, Step(s, e));
  }

  lemma {:induction false} InvAlways(r: Trace, i: nat)
    requires IsRun(r) && i < |r.states|
    ensures Inv(r.states[i])
  {
    if i > 0 {
      InvAlways(r, i - 1);
      assert Follows(r, i - 1);
      InvStep(r.states[i - 1], r.events[i - 1]);
    }
  }

  /** Lock balance over every run. The lock's history is a sequence of acquires
      each followed by its own release, open only while somebody holds the lock;
      no request or probe acquires twice; and at most one thread is inside the
      locked section, every other running transition being a cancel. */
  lemma LockIsBalanced(r: Trace, i: nat)
    requires IsRun(r) && i < |r.states|
    ensures var now := r.states[i];
            && Balanced(now.log, now.lock)
            && (forall m, n :: 0 <= m < n < |now.log| && now.log[m].Acquire? && now.log[n].Acquire? ==>
                  now.log[m].holder != now.log[n].holder)
            && (forall t, u :: Inside(now, t) && Inside(now, u) ==> t == u)
            && (forall t :: Inside(now, t) ==> now.lock == Request(t))
  {
    InvAlways(r, i);
  }
}
