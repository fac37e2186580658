/** Cancellation of compose transitions (src/apps/state_machine.go,
    src/apps/pull_app.go, src/apps/run_app.go, src/apps/update_app.go,
    src/apps/cancel_transitions.go).

    A cancelable transition registers a cancel function under its app, runs
    docker compose commands under the context that function cancels, and clears
    the registration on the way out. A cancel request looks the function up and
    calls it, with any steps of the transition in between. */
module ComposeCancel {
  import opened Wrappers
  import AppStates

  type AppId = (Stage, nat)

  datatype Outcome = Done | Canceled | Failed

  /** Installs register before they publish DOWNLOADING; the compose update
      publishes UPDATING before it registers. */
  datatype Kind = Install | Update

  /** A transition in flight; its identity doubles as its context's. */
  datatype Work = Work(app: AppId, kind: Kind, registered: bool, published: bool, outcome: Option<Outcome>)

  /** `cancels` are the registered functions, `dead` the canceled contexts,
      `calls` the cancel requests that have looked up but not yet called. */
  datatype State = State(
    work: map<nat, Work>, locks: map<AppId, nat>, cancels: map<AppId, nat>,
    dead: set<nat>, calls: map<nat, (AppId, Option<nat>)>, next: nat)

  datatype Event =
    | Begin(app: AppId, kind: Kind) | Beside(app: AppId, current: AppStates.AppState, target: AppStates.AppState)
    | Register(t: nat) | Publish(t: nat)
    | CommandFails(t: nat) | OtherError(t: nat) | Succeed(t: nat)
    | Return(t: nat) | Unlock(app: AppId)
    | Lookup(app: AppId) | Call(c: nat)

  /** How an error of a compose command is reported: as a cancel exactly when
      the transition's context has been canceled. */
  function Classify(dead: set<nat>, context: nat): Outcome {
    if context in dead then Canceled else Failed
  }

  predicate Going(s: State, t: nat) {
    t in s.work && s.work[t].outcome.None?
  }

  /** The table's entries that pull a compose app's images. */
  predicate Installs(current: AppStates.AppState, target: AppStates.AppState) {
    match AppStates.Transition(current, target)
    case None => false
    case Some(action) =>
      action.Run? || action.Pull? || action.RemovedToPresent? || action.RecoverRunning? || action.RecoverPresent?
  }

  /** `Begin` is a transition under the app's lock. `Beside` is a cancel request: it
      runs the table's entry for the state the app is in right then, without the
      lock, and an entry that installs then runs beside whatever else is going on.
      Observers and corrections write the app's state at any time, so it is free. */
  predicate Enabled(s: State, e: Event) {
    match e
    case Begin(app, kind) => app !in s.locks
    case Beside(app, current, target) => Installs(current, target)
    case Register(t) => Going(s, t) && !s.work[t].registered && (s.work[t].kind.Update? ==> s.work[t].published)
    case Publish(t) => Going(s, t) && !s.work[t].published && (s.work[t].kind.Install? ==> s.work[t].registered)
    case CommandFails(t) => Going(s, t) && s.work[t].registered && s.work[t].published
    case OtherError(t) => Going(s, t)
    case Succeed(t) => Going(s, t) && s.work[t].registered && s.work[t].published
    case Return(t) => t in s.work && s.work[t].outcome.Some?
    case Unlock(app) => app in s.locks && s.locks[app] !in s.work
    case Lookup(app) => true
    case Call(c) => c in s.calls
  }

  /** The install has published DOWNLOADING and not returned. */
  predicate Downloading(w: Work) {
    w.kind.Install? && w.published
  }

  function Step(s: State, e: Event): State
    requires Enabled(s, e)
  {
    match e
    case Begin(app, kind) =>
      s.(work := s.work[s.next := Work(app, kind, false, false, None)],
         locks := s.locks[app := s.next], next := s.next + 1)
    case Beside(app, _, _) =>
      s.(work := s.work[s.next := Work(app, Install, false, false, None)], next := s.next + 1)
    case Register(t) =>
      s.(work := s.work[t := s.work[t].(registered := true)], cancels := s.cancels[s.work[t].app := t])
    case Publish(t) => s.(work := s.work[t := s.work[t].(published := true)])
    case CommandFails(t) => s.(work := s.work[t := s.work[t].(outcome := Some(Classify(s.dead, t)))])
    case OtherError(t) => s.(work := s.work[t := s.work[t].(outcome := Some(Failed))])
    case Succeed(t) => s.(work := s.work[t := s.work[t].(outcome := Some(Done))])
    case Return(t) =>
      var left := s.(work := s.work - {t});
      if s.work[t].registered then left.(cancels := s.cancels - {s.work[t].app}, dead := s.dead + {t}) else left
    case Unlock(app) => s.(locks := s.locks - {app})
    case Lookup(app) =>
      s.(calls := s.calls[s.next := (app, if app in s.cancels then Some(s.cancels[app]) else None)], next := s.next + 1)
    case Call(c) =>
      s.(calls := s.calls - {c}, dead := match s.calls[c].1 case Some(t) => s.dead + {t} case None => s.dead)
  }

  const IDLE := State(map[], map[], map[], {}, map[], 0)

  datatype Trace = Trace(states: seq<State>, events: seq<Event>)

  predicate Follows(r: Trace, i: nat)
    requires i < |r.events| < |r.states|
  {
    Enabled(r.states[i], r.events[i]) && r.states[i + 1] == Step(r.states[i], r.events[i])
  }

  ghost predicate IsRun(r: Trace) {
    && |r.states| == |r.events| + 1 && r.states[0] == IDLE
    && forall i :: 0 <= i < |r.events| ==> Follows(r, i)
  }

  // ---------------------------------------------------------------------
  // Whose cancel function is registered
  // ---------------------------------------------------------------------

  /** Transitions are numbered, an install registers before it publishes, and what
      is registered belongs to a registered transition, as long as that is there. */
  ghost predicate Ordered(s: State) {
    && (forall t :: t in s.work ==> t < s.next)
    && (forall t :: t in s.work && Downloading(s.work[t]) ==> s.work[t].registered)
    && (forall a :: a in s.cancels ==> s.cancels[a] < s.next)
    && (forall a :: a in s.cancels && s.cancels[a] in s.work ==>
          s.work[s.cancels[a]].registered && s.work[s.cancels[a]].app == a)
  }

  lemma OrderedStep(s: State, e: Event)
    requires Ordered(s) && Enabled(s, e)
    ensures Ordered(Step(s, e))
  {
  }

  lemma {:induction false} OrderedAlways(r: Trace, i: nat)
    requires IsRun(r) && i < |r.states|
    ensures Ordered(r.states[i])
  {
    if i > 0 {
      OrderedAlways(r, i - 1);
      assert Follows(r, i - 1);
      OrderedStep(r.states[i - 1], r.events[i - 1]);
    }
  }

  /** Another transition of the app registers, or returns after it registered and
      so clears whatever is registered. */
  predicate Displaces(s: State, e: Event, app: AppId, t: nat) {
    && (e.Register? || e.Return?) && e.t != t && e.t in s.work && s.work[e.t].app == app
    && (e.Return? ==> s.work[e.t].registered)
  }

  /** The cancel function registered for the app of `t` is its own. */
  predicate Owns(s: State, t: nat) {
    t in s.work && s.work[t].app in s.cancels && s.cancels[s.work[t].app] == t
  }

  lemma OwnershipStep(s: State, e: Event, t: nat)
    requires Ordered(s) && Enabled(s, e) && t in s.work && t in Step(s, e).work
    ensures Step(s, e).work[t].app == s.work[t].app
    ensures Step(s, e).work[t].registered <==> s.work[t].registered || e == Register(t)
    ensures Owns(Step(s, e), t) <==> e == Register(t) || (Owns(s, t) && !Displaces(s, e, s.work[t].app, t))
  {
  }

  lemma NewWorkOwnsNothing(s: State, e: Event, t: nat)
    requires Ordered(s) && Enabled(s, e) && t !in s.work && t in Step(s, e).work
    ensures s.next <= t && !Owns(Step(s, e), t)
  {
  }

  /** Step `g` registers `t`, and nothing has displaced it since. */
  ghost predicate Undisplaced(r: Trace, g: nat, i: nat, t: nat)
    requires g < i <= |r.events| < |r.states| && t in r.states[i].work
  {
    && r.events[g] == Register(t)
    && forall m :: g < m < i ==> !Displaces(r.states[m], r.events[m], r.states[i].work[t].app, t)
  }

  /** Numbers are not used again. */
  lemma {:induction false} NumbersGrow(r: Trace, g: nat, i: nat)
    requires IsRun(r) && g <= i < |r.states|
    ensures r.states[g].next <= r.states[i].next
    decreases i
  {
    if g < i {
      NumbersGrow(r, g, i - 1);
      assert Follows(r, i - 1);
    }
  }

  lemma NotYetRegistered(r: Trace, g: nat, i: nat, t: nat)
    requires IsRun(r) && g <= i < |r.events| && r.states[i].next <= t
    ensures r.events[g] != Register(t)
  {
    NumbersGrow(r, g, i);
    OrderedAlways(r, g);
    assert Follows(r, g);
  }

  /** The cancel function registered for its app is a transition's own if and only
      if the transition has registered it, and since then no other transition of
      the app has registered, or returned after registering. */
  lemma {:induction false} OwnCancelIff(r: Trace, i: nat, t: nat)
    requires IsRun(r) && i < |r.states| && t in r.states[i].work
    ensures Owns(r.states[i], t) <==> exists g :: 0 <= g < i && Undisplaced(r, g, i, t)
  {
    assert i > 0;
    var s, e := r.states[i - 1], r.events[i - 1];
    assert Follows(r, i - 1);
    OrderedAlways(r, i - 1);
    if t in s.work {
      OwnCancelIff(r, i - 1, t);
      OwnershipStep(s, e, t);
      UndisplacedStep(r, i - 1, i, t);
    } else {
      NewWorkOwnsNothing(s, e, t);
      forall g | 0 <= g < i ensures !Undisplaced(r, g, i, t) {
        NotYetRegistered(r, g, i - 1, t);
      }
    }
  }

  lemma UndisplacedStep(r: Trace, i: nat, j: nat, t: nat)
    requires IsRun(r) && i < |r.events| && j == i + 1 && t in r.states[i].work && t in r.states[j].work
    requires r.states[j].work[t].app == r.states[i].work[t].app
    ensures (exists g :: 0 <= g < j && Undisplaced(r, g, j, t))
            <==> || r.events[i] == Register(t)
                 || ((exists g :: 0 <= g < i && Undisplaced(r, g, i, t))
                     && !Displaces(r.states[i], r.events[i], r.states[i].work[t].app, t))
  {
    if r.events[i] == Register(t) { assert Undisplaced(r, i, j, t); }
    if g: nat :| g < i && Undisplaced(r, g, i, t) {
      if !Displaces(r.states[i], r.events[i], r.states[i].work[t].app, t) { assert Undisplaced(r, g, j, t); }
    }
    if g: nat :| g < j && Undisplaced(r, g, j, t) {
      if g < i { assert Undisplaced(r, g, i, t); }
    }
  }

  /** From the moment an install publishes DOWNLOADING until it returns, it has
      registered; so the cancel registered for its app is its own if and only if no
      other transition of the app displaced it. */
  lemma CancelableIffUndisplaced(r: Trace, i: nat, t: nat) returns (g: nat)
    requires IsRun(r) && i < |r.states| && t in r.states[i].work
    requires r.states[i].work[t].registered || Downloading(r.states[i].work[t])
    ensures g < i && r.events[g] == Register(t)
    ensures Owns(r.states[i], t) <==> Undisplaced(r, g, i, t)
  {
    OrderedAlways(r, i);
    g := RegistrationStep(r, i, t);
    OwnCancelIff(r, i, t);
    forall f | 0 <= f < i && Undisplaced(r, f, i, t) ensures f == g {
      RegistersOnce(r, f, g, i, t);
    }
  }

  lemma {:induction false} RegistrationStep(r: Trace, i: nat, t: nat) returns (g: nat)
    requires IsRun(r) && i < |r.states| && t in r.states[i].work && r.states[i].work[t].registered
    ensures g < i && r.events[g] == Register(t)
  {
    assert i > 0;
    g := i - 1;
    assert Follows(r, g);
    if r.events[g] != Register(t) {
      g := RegistrationStep(r, i - 1, t);
    }
  }

  lemma {:induction false} RegisteredStays(r: Trace, g: nat, i: nat, t: nat)
    requires IsRun(r) && g < i < |r.states| && r.events[g] == Register(t) && t in r.states[i].work
    ensures r.states[i].work[t].registered
    decreases i
  {
    assert Follows(r, i - 1) && Follows(r, g);
    if g < i - 1 {
      if t !in r.states[i - 1].work {
        OrderedAlways(r, i - 1);
        NewWorkOwnsNothing(r.states[i - 1], r.events[i - 1], t);
        NotYetRegistered(r, g, i - 1, t);
      }
      RegisteredStays(r, g, i - 1, t);
    }
    OrderedAlways(r, i - 1);
    OwnershipStep(r.states[i - 1], r.events[i - 1], t);
  }

  lemma RegistersOnce(r: Trace, f: nat, g: nat, i: nat, t: nat)
    requires IsRun(r) && f < i < |r.states| && g < i && r.events[f] == Register(t) && r.events[g] == Register(t)
    ensures f == g
  {
    assert Follows(r, f) && Follows(r, g);
    if f < g { RegisteredStays(r, f, g, t); }
    if g < f { RegisteredStays(r, g, f, t); }
  }

  // ---------------------------------------------------------------------
  // Runs without an install beside
  // ---------------------------------------------------------------------

  /** No cancel request starts an install of its own. */
  ghost predicate NothingBeside(r: Trace) {
    forall i :: 0 <= i < |r.events| ==> !r.events[i].Beside?
  }

  /** Every transition holds its app's lock. */
  ghost predicate Locks(s: State) {
    && (forall t :: t in s.work ==> t < s.next && s.work[t].app in s.locks && s.locks[s.work[t].app] == t)
    && (forall a :: a in s.locks ==> s.locks[a] < s.next)
  }

  lemma LocksStep(s: State, e: Event)
    requires Locks(s) && Enabled(s, e) && !e.Beside?
    ensures Locks(Step(s, e))
  {
  }

  lemma {:induction false} LocksAlways(r: Trace, i: nat)
    requires IsRun(r) && NothingBeside(r) && i < |r.states|
    ensures Locks(r.states[i])
  {
    if i > 0 {
      LocksAlways(r, i - 1);
      assert Follows(r, i - 1);
      LocksStep(r.states[i - 1], r.events[i - 1]);
    }
  }

  lemma {:induction false} WorkSince(r: Trace, m: nat, i: nat, t: nat)
    requires IsRun(r) && m <= i < |r.states| && t in r.states[i].work && t < r.states[m].next
    ensures t in r.states[m].work && r.states[m].work[t].app == r.states[i].work[t].app
    decreases i
  {
    if m < i {
      assert Follows(r, i - 1);
      OrderedAlways(r, i - 1);
      NumbersGrow(r, m, i - 1);
      if t !in r.states[i - 1].work { NewWorkOwnsNothing(r.states[i - 1], r.events[i - 1], t); }
      OwnershipStep(r.states[i - 1], r.events[i - 1], t);
      WorkSince(r, m, i - 1, t);
    }
  }

  /** The lock keeps others away: as long as no cancel request starts an install,
      every registered transition, and so every install that has published
      DOWNLOADING, has its own cancel function registered until it returns. */
  lemma LockKeepsTheRegistration(r: Trace, i: nat, t: nat)
    requires IsRun(r) && NothingBeside(r) && i < |r.states| && t in r.states[i].work
    ensures r.states[i].work[t].registered <==> Owns(r.states[i], t)
    ensures Downloading(r.states[i].work[t]) ==> Owns(r.states[i], t)
  {
    OrderedAlways(r, i);
    if r.states[i].work[t].registered {
      var g := CancelableIffUndisplaced(r, i, t);
      assert Follows(r, g);
      OrderedAlways(r, g);
      forall m | g < m < i ensures !Displaces(r.states[m], r.events[m], r.states[i].work[t].app, t) {
        NumbersGrow(r, g, m);
        WorkSince(r, m, i, t);
        LocksAlways(r, m);
      }
    }
  }

  // ---------------------------------------------------------------------
  // A cancel reaches the transition it was aimed at, and no other
  // ---------------------------------------------------------------------

  lemma CallStays(s: State, e: Event, c: nat)
    requires Enabled(s, e) && c in s.calls && e != Call(c) && c < s.next
    ensures c in Step(s, e).calls && Step(s, e).calls[c] == s.calls[c] && c < Step(s, e).next
  {
  }

  lemma {:induction false} LookupIsKept(r: Trace, i: nat, j: nat, c: nat)
    requires IsRun(r) && i < j < |r.states| && r.events[i].Lookup? && c == r.states[i].next
    requires forall k :: i < k < j ==> r.events[k] != Call(c)
    ensures c in r.states[i + 1].calls && c in r.states[j].calls
    ensures r.states[j].calls[c] == r.states[i + 1].calls[c] && c < r.states[j].next
    decreases j
  {
    assert Follows(r, i);
    if i + 1 < j {
      LookupIsKept(r, i, j - 1, c);
      assert Follows(r, j - 1);
      CallStays(r.states[j - 1], r.events[j - 1], c);
    }
  }

  lemma {:induction false} DeadStays(r: Trace, i: nat, j: nat, t: nat)
    requires IsRun(r) && i <= j < |r.states| && t in r.states[i].dead
    ensures t in r.states[j].dead
    decreases j
  {
    if i < j {
      DeadStays(r, i, j - 1, t);
      assert Follows(r, j - 1);
    }
  }

  /** A cancel looks up its app (step `i`) and later calls what it found (step
      `j`). The call cancels transition `t` of that app if and only if `t` owned
      the registration at the lookup: exactly when no other displaced it. */
  lemma CancelReachesItsTransitionIff(r: Trace, i: nat, j: nat, t: nat)
    requires IsRun(r) && i < j < |r.events| && t in r.states[i].work
    requires r.events[i] == Lookup(r.states[i].work[t].app) && r.events[j] == Call(r.states[i].next)
    requires forall m :: i < m < j ==> r.events[m] != Call(r.states[i].next)
    ensures r.states[i].next in r.states[j].calls
    ensures r.states[j].calls[r.states[i].next].1 == Some(t) <==> exists g :: 0 <= g < i && Undisplaced(r, g, i, t)
    ensures (exists g :: 0 <= g < i && Undisplaced(r, g, i, t)) ==> t in r.states[j + 1].dead
  {
    assert Follows(r, i) && Follows(r, j);
    LookupIsKept(r, i, j, r.states[i].next);
    OwnCancelIff(r, i, t);
  }

  /** Once canceled, a transition never fails: any later error of its compose
      command (step `k`) counts as canceled. */
  lemma CancelIsNeverLost(r: Trace, i: nat, j: nat, k: nat, t: nat)
    requires IsRun(r) && i < j < k < |r.events| && t in r.states[i].work
    requires r.events[i] == Lookup(r.states[i].work[t].app) && r.events[j] == Call(r.states[i].next)
    requires forall m :: i < m < j ==> r.events[m] != Call(r.states[i].next)
    requires exists g :: 0 <= g < i && Undisplaced(r, g, i, t)
    requires r.events[k] == CommandFails(t)
    ensures t in r.states[k + 1].work && r.states[k + 1].work[t].outcome == Some(Canceled)
  {
    CancelReachesItsTransitionIff(r, i, j, t);
    DeadStays(r, j + 1, k, t);
    assert Follows(r, k);
  }

  /** The end of the work of transition `t`, whichever way. */
  predicate EndsWork(e: Event, t: nat) {
    e == CommandFails(t) || e == OtherError(t) || e == Succeed(t)
  }

  /** A transition returns, and so gives up its registration, exactly once its work
      has ended. */
  lemma {:induction false} ReturnsOnceEnded(r: Trace, i: nat, t: nat)
    requires IsRun(r) && i < |r.states| && t in r.states[i].work
    ensures Enabled(r.states[i], Return(t)) <==> exists j :: 0 <= j < i && EndsWork(r.events[j], t)
  {
    assert i > 0;
    assert Follows(r, i - 1);
    OrderedAlways(r, i - 1);
    if t in r.states[i - 1].work {
      ReturnsOnceEnded(r, i - 1, t);
    } else {
      NewWorkOwnsNothing(r.states[i - 1], r.events[i - 1], t);
      forall j | 0 <= j < i ensures !EndsWork(r.events[j], t) {
        NotYetAtWork(r, j, i - 1, t);
      }
    }
    assert EndsWork(r.events[i - 1], t) ==> exists j :: 0 <= j < i && EndsWork(r.events[j], t);
  }

  lemma NotYetAtWork(r: Trace, j: nat, i: nat, t: nat)
    requires IsRun(r) && j <= i < |r.events| && r.states[i].next <= t
    ensures !EndsWork(r.events[j], t)
  {
    NumbersGrow(r, j, i);
    OrderedAlways(r, j);
    assert Follows(r, j);
  }

  /** Step `j` calls the cancel function of transition `t`. */
  predicate Cancels(r: Trace, j: nat, t: nat)
    requires j < |r.events| < |r.states|
  {
    && r.events[j].Call? && r.events[j].c in r.states[j].calls
    && r.states[j].calls[r.events[j].c].1 == Some(t)
  }

  lemma {:induction false} DeadWasCanceled(r: Trace, i: nat, t: nat) returns (j: nat)
    requires IsRun(r) && i < |r.states| && t in r.states[i].dead
    ensures j < i && (Cancels(r, j, t) || r.events[j] == Return(t))
  {
    assert i > 0;
    assert Follows(r, i - 1);
    if t in r.states[i - 1].dead {
      j := DeadWasCanceled(r, i - 1, t);
    } else {
      j := i - 1;
    }
  }

  lemma ReturnedIsGone(r: Trace, j: nat, i: nat, t: nat)
    requires IsRun(r) && j < i < |r.states| && r.events[j] == Return(t)
    ensures t !in r.states[i].work
  {
    if t in r.states[i].work {
      assert Follows(r, j);
      OrderedAlways(r, j);
      NumbersGrow(r, j, j + 1);
      WorkSince(r, j + 1, i, t);
    }
  }

  /** A command's error counts as canceled if and only if somebody has called the
      cancel function of that very transition; otherwise it counts as failed. */
  lemma ErrorIsCanceledIff(r: Trace, k: nat, t: nat)
    requires IsRun(r) && k < |r.events| && r.events[k] == CommandFails(t)
    ensures t in r.states[k + 1].work
    ensures r.states[k + 1].work[t].outcome
            == Some(if exists j :: 0 <= j < k && Cancels(r, j, t) then Canceled else Failed)
  {
    assert Follows(r, k);
    if t in r.states[k].dead {
      var j := DeadWasCanceled(r, k, t);
      if r.events[j] == Return(t) { ReturnedIsGone(r, j, k, t); }
    }
    forall j | 0 <= j < k && Cancels(r, j, t) ensures t in r.states[k].dead {
      assert Follows(r, j);
      DeadStays(r, j + 1, k, t);
    }
  }

  /** A looked-up function always belongs to a transition of the same app. */
  ghost predicate Aimed(s: State, owners: map<nat, AppId>) {
    && (forall t :: t in s.work ==> t in owners && owners[t] == s.work[t].app)
    && (forall t :: t in owners ==> t < s.next)
    && (forall a :: a in s.cancels ==> s.cancels[a] in owners && owners[s.cancels[a]] == a)
    && (forall c :: c in s.calls && s.calls[c].1.Some? ==>
          s.calls[c].1.value in owners && owners[s.calls[c].1.value] == s.calls[c].0)
  }

  predicate Starts(e: Event) {
    e.Begin? || e.Beside?
  }

  /** Which app each transition of the run was started for. */
  function Owners(r: Trace, i: nat): map<nat, AppId>
    requires i <= |r.events| < |r.states|
  {
    if i == 0 then map[]
    else if Starts(r.events[i - 1]) then Owners(r, i - 1)[r.states[i - 1].next := r.events[i - 1].app]
    else Owners(r, i - 1)
  }

  lemma AimedStep(s: State, owners: map<nat, AppId>, e: Event)
    requires Aimed(s, owners) && Enabled(s, e)
    ensures Aimed(Step(s, e), if Starts(e) then owners[s.next := e.app] else owners)
  {
    if Starts(e) { AimedStart(s, owners, e); }
    else if e.Lookup? || e.Call? { AimedCall(s, owners, e); }
    else { AimedWork(s, owners, e); }
  }

  lemma AimedStart(s: State, owners: map<nat, AppId>, e: Event)
    requires Aimed(s, owners) && Enabled(s, e) && Starts(e)
    ensures Aimed(Step(s, e), owners[s.next := e.app])
  {
  }

  lemma AimedCall(s: State, owners: map<nat, AppId>, e: Event)
    requires Aimed(s, owners) && Enabled(s, e) && (e.Lookup? || e.Call?)
    ensures Aimed(Step(s, e), owners)
  {
  }

  lemma AimedWork(s: State, owners: map<nat, AppId>, e: Event)
    requires Aimed(s, owners) && Enabled(s, e) && !Starts(e) && !e.Lookup? && !e.Call?
    ensures Aimed(Step(s, e), owners)
  {
  }

  lemma {:induction false} AimedAlways(r: Trace, i: nat)
    requires IsRun(r) && i < |r.states|
    ensures Aimed(r.states[i], Owners(r, i))
  {
    if i > 0 {
      AimedAlways(r, i - 1);
      assert Follows(r, i - 1);
      AimedStep(r.states[i - 1], Owners(r, i - 1), r.events[i - 1]);
    }
  }

  /** A cancel is never misdirected: what it cancels is a transition of the app
      it was sent for, in every run. */
  lemma CancelHitsItsOwnApp(r: Trace, j: nat, c: nat, t: nat)
    requires IsRun(r) && j < |r.events| && r.events[j] == Call(c)
    requires t !in r.states[j].dead && t in r.states[j + 1].dead
    ensures t in Owners(r, j) && c in r.states[j].calls && Owners(r, j)[t] == r.states[j].calls[c].0
  {
    assert Follows(r, j);
    AimedAlways(r, j);
  }

  // ---------------------------------------------------------------------
  // Where the guarantee ends
  // ---------------------------------------------------------------------

  /** The states in which some cancel request installs. */
  lemma InstallingStates(current: AppStates.AppState)
    ensures (exists target :: Installs(current, target)) <==> !NeverInstalls(current)
  {
    if current.DOWNLOADING? || current.TRANSFERED? {
      assert Installs(current, AppStates.PRESENT);
    } else if !NeverInstalls(current) {
      assert Installs(current, AppStates.RUNNING);
    }
  }

  predicate NeverInstalls(current: AppStates.AppState) {
    || current.PUBLISHING? || current.BUILDING? || current.TRANSFERING?
    || current.RUNNING? || current.UPDATING? || current.DELETING?
  }

  /** In any of them a cancel request can start an install beside whatever is going
      on for the app, a download included, and as soon as that install registers,
      the other one has lost its registration. */
  lemma InstallBesideDisplaces(s: State, t: nat, current: AppStates.AppState, target: AppStates.AppState)
    requires Ordered(s) && t in s.work && Installs(current, target)
    ensures var beside := Beside(s.work[t].app, current, target);
            && Enabled(s, beside) && Enabled(Step(s, beside), Register(s.next))
            && Displaces(Step(s, beside), Register(s.next), s.work[t].app, t)
            && !Owns(Step(Step(s, beside), Register(s.next)), t)
  {
  }

  /** A transition that has not registered, such as a compose update that has only
      published UPDATING, is found by no lookup. */
  lemma UnregisteredIsNotFound(r: Trace, i: nat, t: nat)
    requires IsRun(r) && i < |r.states| && t in r.states[i].work && !r.states[i].work[t].registered
    ensures !Owns(r.states[i], t)
    ensures forall g :: 0 <= g < i ==> !Undisplaced(r, g, i, t)
  {
    OrderedAlways(r, i);
    OwnCancelIff(r, i, t);
  }

  lemma LostHead(app: AppId, s1: State, s2: State, s3: State)
    requires s1 == State(map[0 := Work(app, Update, false, false, None)], map[app := 0], map[], {}, map[], 1)
    requires s2 == s1.(work := map[0 := Work(app, Update, false, true, None)])
    requires s3 == s2.(calls := map[1 := (app, None)], next := 2)
    ensures Enabled(IDLE, Begin(app, Update)) && Step(IDLE, Begin(app, Update)) == s1
    ensures Enabled(s1, Publish(0)) && Step(s1, Publish(0)) == s2
    ensures Enabled(s2, Lookup(app)) && Step(s2, Lookup(app)) == s3
  {
  }

  lemma LostTail(app: AppId, s3: State, s4: State, s5: State, s6: State)
    requires s3.work == map[0 := Work(app, Update, false, true, None)] && s3.locks == map[app := 0]
    requires s3.cancels == map[] && s3.dead == {} && s3.calls == map[1 := (app, None)] && s3.next == 2
    requires s4 == s3.(calls := map[])
    requires s5 == s4.(work := map[0 := Work(app, Update, true, true, None)], cancels := map[app := 0])
    requires s6 == s5.(work := map[0 := Work(app, Update, true, true, Some(Failed))])
    ensures Enabled(s3, Call(1)) && Step(s3, Call(1)) == s4
    ensures Enabled(s4, Register(0)) && Step(s4, Register(0)) == s5
    ensures Enabled(s5, CommandFails(0)) && Step(s5, CommandFails(0)) == s6
  {
  }

  /** The gap is real: a run whose update has published UPDATING, where a cancel
      looked up and called, and where the compose command then fails as FAILED. */
  lemma CancelBeforeRegistrationIsLost(app: AppId) returns (r: Trace)
    ensures IsRun(r) && NothingBeside(r)
    ensures r.events == [Begin(app, Update), Publish(0), Lookup(app), Call(1), Register(0), CommandFails(0)]
    ensures 0 in r.states[6].work && r.states[6].work[0].outcome == Some(Failed)
  {
    var es := [Begin(app, Update), Publish(0), Lookup(app), Call(1), Register(0), CommandFails(0)];
    var w := Work(app, Update, false, false, None);
    var s1 := State(map[0 := w], map[app := 0], map[], {}, map[], 1);
    var s2 := s1.(work := map[0 := w.(published := true)]);
    var s3 := s2.(calls := map[1 := (app, None)], next := 2);
    var s4 := s3.(calls := map[]);
    var s5 := s4.(work := map[0 := w.(published := true, registered := true)], cancels := map[app := 0]);
    var s6 := s5.(work := map[0 := Work(app, Update, true, true, Some(Failed))]);
    LostHead(app, s1, s2, s3);
    LostTail(app, s3, s4, s5, s6);
    r := Trace([IDLE, s1, s2, s3, s4, s5, s6], es);
    assert Follows(r, 0) && Follows(r, 1) && Follows(r, 2) && Follows(r, 3) && Follows(r, 4) && Follows(r, 5);
  }
}
