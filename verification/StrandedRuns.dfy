/** Runs of the controller of `Controller` that do strand a target: one for each
    way a request that gave way to a transition can go unanswered although that
    transition did not fail, and two that begin with a start of the agent. */
module StrandedRuns {
  import opened Wrappers
  import opened AppStates
  import opened Controller
  import opened Targets
  import opened Rest

  function Last(r: Trace): State
    requires r.states != []
  {
    r.states[|r.states| - 1]
  }

  ghost predicate Reachable(s: State) {
    exists r: Trace :: IsRun(r) && Last(r) == s
  }

  lemma Extend(s: State, e: Event, s': State)
    requires Reachable(s) && Enabled(s, e) && Step(s, e) == s'
    ensures Reachable(s')
  {
    var r: Trace :| IsRun(r) && Last(r) == s;
    var longer := Trace(r.states + [s'], r.events + [e]);
    forall i | 0 <= i < |longer.events| ensures Follows(longer, i) {
      if i < |r.events| { assert Follows(r, i); }
    }
    assert IsRun(longer) && Last(longer) == s';
  }

  const RUNNING_APP :=
    State(App(RUNNING, RUNNING, "1", Some((RUNNING, "1")), Some(Ask(RUNNING))), Free, map[], {}, 0, [])

  /** The running app after a push of `p`, with the pusher's request at `pc`. */
  function Pushed(p: Payload, pc: Pc): State {
    RUNNING_APP.(app := RUNNING_APP.app.(target := p.target, row := Some(p)), threads := map[0 := pc], next := 1)
  }

  /** ... and holding the lock. */
  function Held(p: Payload, pc: Pc): State {
    Pushed(p, pc).(lock := Request(0), log := [Acquire(Request(0))])
  }

  lemma ReachEntered(p: Payload)
    requires !p.cancel && p.target == TransientToActual(p.target) && p.present == "1"
    ensures Reachable(Pushed(p, Entered(p)))
  {
    var r := Trace([RUNNING_APP], []);
    assert IsRun(r) && Last(r) == RUNNING_APP;
    Extend(RUNNING_APP, Push(p), Pushed(p, Entered(p)));
  }

  lemma ReachHolding(p: Payload)
    requires !p.cancel && p.target == TransientToActual(p.target) && p.present == "1"
    ensures Reachable(Held(p, Holding(p)))
  {
    ReachEntered(p);
    Extend(Pushed(p, Entered(p)), Enter(0), Pushed(p, Admitted(p)));
    Extend(Pushed(p, Admitted(p)), TryLock(0), Held(p, Holding(p)));
  }

  lemma ReachPrepared(p: Payload)
    requires !p.cancel && p.target == TransientToActual(p.target) && p.present == "1"
    ensures Reachable(Held(p, Prepared(p)))
  {
    ReachHolding(p);
    Extend(Held(p, Holding(p)), Adoption(0, true), Held(p, Prepared(p)));
  }

  /** A request for `p` has just started its transition. */
  lemma ReachStarted(p: Payload, action: Action)
    requires !p.cancel && p.target == TransientToActual(p.target) && p.present == "1"
    requires Choose(RUNNING_APP.app, p) == Some(action)
    ensures Reachable(Held(p, Running(p, action, 0)))
  {
    ReachPrepared(p);
    Extend(Held(p, Prepared(p)), Init(0, true, false), Held(p, Running(p, action, 0)));
  }

  /** The lock's history once request 0 has released it. */
  const RELEASED := [Acquire(Request(0)), Release(Request(0))]

  // ---------------------------------------------------------------------
  // The row is missing
  // ---------------------------------------------------------------------

  const REMOVAL := Running(Ask(REMOVED), Remove, 0)

  /** The removal of a running app is under way, deletion published. */
  function Removing(pc: Pc): State {
    var p := Ask(REMOVED);
    Held(p, pc).(app := App(DELETING, REMOVED, "1", Some((DELETING, "1")), Some(p.(reported := Some(DELETING)))))
  }

  /** Meanwhile an uninstall was pushed. */
  function Overtaken(threads: map<nat, Pc>): State {
    var s := Removing(Verifying);
    s.(app := s.app.(target := UNINSTALLED, row := Some(Ask(UNINSTALLED))), threads := threads, next := 2)
  }

  /** The removal is done, and with it the row. */
  function Emptied(threads: map<nat, Pc>): State {
    Overtaken(threads).(app := App(REMOVED, UNINSTALLED, "1", None, None))
  }

  lemma ReachRemoving()
    ensures Reachable(Removing(REMOVAL))
  {
    ReachStarted(Ask(REMOVED), Remove);
    Extend(Held(Ask(REMOVED), REMOVAL), Event.Publish(0, DELETING), Removing(REMOVAL));
  }

  lemma ReachOvertaken()
    ensures Reachable(Overtaken(map[0 := REMOVAL, 1 := Entered(Ask(UNINSTALLED))]))
  {
    ReachRemoving();
    Extend(Removing(REMOVAL), Push(Ask(UNINSTALLED)), Overtaken(map[0 := REMOVAL, 1 := Entered(Ask(UNINSTALLED))]));
  }

  lemma ReachRefused()
    ensures Reachable(Overtaken(map[0 := REMOVAL]))
  {
    ReachOvertaken();
    var admitted := Overtaken(map[0 := REMOVAL, 1 := Admitted(Ask(UNINSTALLED))]);
    Extend(Overtaken(map[0 := REMOVAL, 1 := Entered(Ask(UNINSTALLED))]), Enter(1), admitted);
    Extend(admitted, TryLock(1), Overtaken(map[0 := REMOVAL]));
  }

  lemma ReachEmptied()
    ensures Reachable(Emptied(map[0 := REMOVAL]))
  {
    ReachRefused();
    Extend(Overtaken(map[0 := REMOVAL]), Event.Publish(0, REMOVED), Emptied(map[0 := REMOVAL]));
  }

  lemma ReachRemoved()
    ensures Reachable(Emptied(map[0 := Ended(Success, false)]))
  {
    ReachEmptied();
    Extend(Emptied(map[0 := REMOVAL]), Finish(0, Success), Emptied(map[0 := Ended(Success, false)]));
  }

  /** An uninstall pushed while a removal runs is refused by the lock. The
      removal's REMOVED deletes the row, so nobody re-drives the uninstall. */
  lemma UninstallDuringRemovalIsStranded() returns (r: Trace)
    ensures IsRun(r) && Quiet(Last(r))
    ensures Last(r).app.current == REMOVED && Last(r).app.target == UNINSTALLED && Last(r).app.row.None?
  {
    ReachRemoved();
    var s := Emptied(map[0 := Verifying]).(lock := Free, log := RELEASED);
    Extend(Emptied(map[0 := Ended(Success, false)]), Unlock(0), s);
    Extend(s, ReadRow(0), s.(threads := map[]));
    r :| IsRun(r) && Last(r) == s.(threads := map[]);
  }

  // ---------------------------------------------------------------------
  // The transition takes no action
  // ---------------------------------------------------------------------

  const NOTHING := Running(Ask(RUNNING), NoAction, 0)

  /** A running app was asked to run; meanwhile a stop was pushed. */
  function Stopped(threads: map<nat, Pc>): State {
    var s := Held(Ask(RUNNING), Verifying);
    s.(app := s.app.(target := PRESENT, row := Some(Ask(PRESENT))), threads := threads, next := 2)
  }

  lemma ReachStop()
    ensures Reachable(Stopped(map[0 := NOTHING, 1 := Entered(Ask(PRESENT))]))
  {
    ReachStarted(Ask(RUNNING), NoAction);
    Extend(Held(Ask(RUNNING), NOTHING), Push(Ask(PRESENT)), Stopped(map[0 := NOTHING, 1 := Entered(Ask(PRESENT))]));
  }

  lemma ReachStopRefused()
    ensures Reachable(Stopped(map[0 := NOTHING]))
  {
    ReachStop();
    var admitted := Stopped(map[0 := NOTHING, 1 := Admitted(Ask(PRESENT))]);
    Extend(Stopped(map[0 := NOTHING, 1 := Entered(Ask(PRESENT))]), Enter(1), admitted);
    assert Defers(admitted, TryLock(1), 0);
    Extend(admitted, TryLock(1), Stopped(map[0 := NOTHING]));
  }

  lemma ReachSettling(s: State)
    requires s == Stopped(map[0 := Settling]).(lock := Free, log := RELEASED)
    ensures Reachable(s)
  {
    ReachStopRefused();
    Extend(Stopped(map[0 := NOTHING]), Finish(0, NothingDone), Stopped(map[0 := Ended(NothingDone, false)]));
    Extend(Stopped(map[0 := Ended(NothingDone, false)]), Unlock(0), s);
  }

  /** A stop pushed while a request to run takes no action is refused by the lock,
      and that request publishes RUNNING again without verifying. */
  lemma StopDuringNoActionIsStranded() returns (r: Trace)
    ensures IsRun(r) && Quiet(Last(r))
    ensures Last(r).app.current == RUNNING && Last(r).app.target == PRESENT && Last(r).app.row == Some(Ask(PRESENT))
  {
    var s := Stopped(map[0 := Settling]).(lock := Free, log := RELEASED);
    ReachRepublished(s);
    r :| IsRun(r) && Last(r) == s.(threads := map[]);
  }

  lemma ReachRepublished(s: State)
    requires s == Stopped(map[0 := Settling]).(lock := Free, log := RELEASED)
    ensures Reachable(s.(threads := map[]))
  {
    ReachSettling(s);
    Extend(s, ReadState(0), s.(threads := map[0 := Settled(RUNNING)]));
    Extend(s.(threads := map[0 := Settled(RUNNING)]), Republish(0), s.(threads := map[]));
  }

  // ---------------------------------------------------------------------
  // UPDATING is left behind
  // ---------------------------------------------------------------------

  const UPGRADE := Ask(RUNNING).(requestUpdate := true, newest := "2")

  const UPGRADE_ROW := UPGRADE.(reported := Some(UPDATING))

  /** An update of a running app is under way, UPDATING published. */
  function Upgrading(pc: Pc): State {
    Held(UPGRADE, pc).(app := App(UPDATING, RUNNING, "1", Some((UPDATING, "1")), Some(UPGRADE_ROW)))
  }

  /** ... and over, but still published. */
  function Orphaned(threads: map<nat, Pc>, next: nat): State {
    Upgrading(Verifying).(lock := Free, log := RELEASED, threads := threads, next := next)
  }

  lemma ReachUpgrading()
    ensures Reachable(Upgrading(Running(UPGRADE, Update, 1)))
  {
    ReachStarted(UPGRADE, Update);
    var running := Upgrading(Running(UPGRADE, Update, 1));
    Extend(Held(UPGRADE, Running(UPGRADE, Update, 0)), Event.Publish(0, UPDATING), running);
  }

  lemma ReachUpgradeEnded()
    ensures Reachable(Upgrading(Ended(Canceled, true)))
  {
    ReachUpgrading();
    Extend(Upgrading(Running(UPGRADE, Update, 1)), Finish(0, Canceled), Upgrading(Ended(Canceled, true)));
  }

  lemma ReachOrphaned()
    ensures Reachable(Orphaned(map[0 := Verifying], 1))
  {
    ReachUpgradeEnded();
    Extend(Upgrading(Ended(Canceled, true)), Unlock(0), Orphaned(map[0 := Verifying], 1));
  }

  lemma ReachCompared()
    ensures Reachable(Orphaned(map[0 := Comparing(UPGRADE_ROW)], 1))
  {
    ReachOrphaned();
    Extend(Orphaned(map[0 := Verifying], 1), ReadRow(0), Orphaned(map[0 := Comparing(UPGRADE_ROW)], 1));
  }

  lemma ReachRedriven()
    ensures Reachable(Orphaned(map[1 := Entered(UPGRADE_ROW)], 2))
  {
    ReachCompared();
    Extend(Orphaned(map[0 := Comparing(UPGRADE_ROW)], 1), Compare(0), Orphaned(map[1 := Entered(UPGRADE_ROW)], 2));
  }

  /** An update whose pull stream is closed under it ends canceled with UPDATING
      still published. The request it re-drives is dropped for that very state. */
  lemma CanceledUpdateIsStranded() returns (r: Trace)
    ensures IsRun(r) && Quiet(Last(r)) && LeftOver(Last(r)) && Last(r).app.target == RUNNING
  {
    ReachDropped();
    r :| IsRun(r) && Last(r) == Orphaned(map[], 2);
  }

  lemma ReachDropped()
    ensures Reachable(Orphaned(map[], 2))
  {
    ReachRedriven();
    Extend(Orphaned(map[1 := Entered(UPGRADE_ROW)], 2), Enter(1), Orphaned(map[], 2));
  }

  // ---------------------------------------------------------------------
  // The agent starts, or connects again
  // ---------------------------------------------------------------------

  lemma Start(s: State)
    requires Initial(s)
    ensures Reachable(s)
  {
    var r := Trace([s], []);
    assert IsRun(r) && Last(r) == s;
  }

  /** The agent ended in the middle of an update and starts with UPDATING. The
      request it makes for the stored row is dropped for that state. */
  lemma RestartDuringUpdateIsStranded() returns (r: Trace)
    ensures IsRun(r) && Quiet(Last(r)) && LeftOver(Last(r)) && Last(r).app.target == RUNNING
  {
    var app := App(UPDATING, RUNNING, "1", Some((UPDATING, "1")), Some(UPGRADE_ROW));
    var s := State(app, Free, map[], {}, 0, []);
    Start(s);
    Extend(s, Reconcile, s.(threads := map[0 := Entered(UPGRADE_ROW)], next := 1));
    Extend(s.(threads := map[0 := Entered(UPGRADE_ROW)], next := 1), Enter(0), s.(next := 1));
    r :| IsRun(r) && Last(r) == s.(next := 1);
  }

  /** A stopped app's image is gone when the session connects again. The correction
      publishes REMOVED, and no request follows for a DEV app. */
  lemma CorrectedAppIsStranded() returns (r: Trace)
    ensures IsRun(r) && Quiet(Last(r)) && r.events == [Correct(REMOVED)]
    ensures r.states[0].app.current == r.states[0].app.target == PRESENT
  {
    var row := Ask(PRESENT);
    var s := State(App(PRESENT, PRESENT, "1", Some((PRESENT, "1")), Some(row)), Free, map[], {}, 0, []);
    var removed := s.(app := Notify(s.app, REMOVED));
    r := Trace([s, removed], [Correct(REMOVED)]);
    assert Follows(r, 0);
  }
}
