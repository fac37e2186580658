/** Why an app may rest away from its target under the controller of
    `Controller`: the exact history of an UPDATING nobody works on, the requests
    it swallows, and the steps after which nobody compares any more. */
module Rest {
  import opened Wrappers
  import opened AppStates
  import opened Controller
  import opened Targets

  // ---------------------------------------------------------------------
  // UPDATING without an update
  // ---------------------------------------------------------------------

  predicate Updating(pc: Pc) {
    (pc.Running? && pc.action.Update?) || (pc.Ended? && pc.update)
  }

  predicate UpdateInFlight(s: State) {
    s.lock.Request? && s.lock.id in s.threads && Updating(s.threads[s.lock.id])
  }

  predicate LeftOver(s: State) {
    s.app.current == UPDATING && !UpdateInFlight(s)
  }

  predicate StartsUpdate(s: State, e: Event) {
    && e.Init? && e.t in s.threads && s.threads[e.t].Prepared?
    && var p := s.threads[e.t].p;
       && !Unstartable(s.app, p, e.token, e.emergency) && !Refuses(p, e.emergency)
       && Choose(s.app, p) == Some(Update)
  }

  /** The three steps that leave UPDATING behind: an update is unlocked with it
      still published, a request adopts it from the cloud's view of a built or
      published app, or a transition without action publishes it again after the
      update it had seen is over. */
  predicate LeavesUpdating(s: State, e: Event) {
    match e
    case Unlock(t) => t in s.threads && s.threads[t].Ended? && s.threads[t].update && s.app.current == UPDATING
    case Adoption(t, _) =>
      && t in s.threads && s.threads[t].Holding?
      && s.app.current != UPDATING && Adopt(s.app, s.threads[t].p).current == UPDATING
    case Republish(t) =>
      && t in s.threads && s.threads[t] == Settled(UPDATING)
      && s.app.current != UPDATING && !UpdateInFlight(s)
    case _ => false
  }

  ghost predicate LeftOverAfter(s: State, e: Event, s': State) {
    LeftOver(s') <==> LeavesUpdating(s, e) || (LeftOver(s) && s'.app.current == UPDATING && !StartsUpdate(s, e))
  }

  lemma LeftOverStep(s: State, e: Event)
    requires LockHeld(s) && Enabled(s, e)
    ensures LeftOverAfter(s, e, Step(s, e))
  {
    if IsRequest(e) { LeftOverRequest(s, e); }
    else if IsTransition(e) { LeftOverTransition(s, e); }
    else if IsVerify(e) { LeftOverVerify(s, e); }
    else { LeftOverObserver(s, e); }
  }

  lemma LeftOverRequest(s: State, e: Event)
    requires LockHeld(s) && Enabled(s, e) && IsRequest(e)
    ensures LeftOverAfter(s, e, RequestStep(s, e))
  {
  }

  lemma LeftOverTransition(s: State, e: Event)
    requires LockHeld(s) && Enabled(s, e) && IsTransition(e)
    ensures LeftOverAfter(s, e, TransitionStep(s, e))
  {
  }

  lemma LeftOverVerify(s: State, e: Event)
    requires LockHeld(s) && Enabled(s, e) && IsVerify(e)
    ensures LeftOverAfter(s, e, VerifyStep(s, e))
  {
  }

  lemma LeftOverObserver(s: State, e: Event)
    requires LockHeld(s) && Enabled(s, e) && IsObserver(e)
    ensures LeftOverAfter(s, e, ObserverStep(s, e))
  {
  }

  /** Step `k` left UPDATING behind, no other state has been written since, and no
      update started. */
  ghost predicate LeftBehind(r: Trace, k: nat, i: nat)
    requires k < i <= |r.events| < |r.states|
  {
    && LeavesUpdating(r.states[k], r.events[k])
    && (forall m :: k < m <= i ==> r.states[m].app.current == UPDATING)
    && (forall m :: k < m < i ==> !StartsUpdate(r.states[m], r.events[m]))
  }

  lemma LeftOverRunStep(r: Trace, i: nat)
    requires IsRun(r) && i < |r.events|
    ensures LeftOverAfter(r.states[i], r.events[i], r.states[i + 1])
  {
    assert Follows(r, i);
    InvAlways(r, i);
    LeftOverStep(r.states[i], r.events[i]);
  }

  /** The run started with UPDATING, as an agent does that ended in the middle of
      an update, no other state has been written since, and no update started. */
  ghost predicate LoadedUpdating(r: Trace, i: nat)
    requires i <= |r.events| < |r.states|
  {
    && (forall m :: 0 <= m <= i ==> r.states[m].app.current == UPDATING)
    && (forall m :: 0 <= m < i ==> !StartsUpdate(r.states[m], r.events[m]))
  }

  ghost predicate UpdatingWithoutCause(r: Trace, i: nat)
    requires i <= |r.events| < |r.states|
  {
    LoadedUpdating(r, i) || exists k :: 0 <= k < i && LeftBehind(r, k, i)
  }

  lemma {:induction false} LoadedMeansLeftOver(r: Trace, i: nat)
    requires IsRun(r) && i < |r.states| && LoadedUpdating(r, i)
    ensures LeftOver(r.states[i])
  {
    if i > 0 {
      LeftOverRunStep(r, i - 1);
      LoadedMeansLeftOver(r, i - 1);
    }
  }

  lemma {:induction false} LeftBehindMeansLeftOver(r: Trace, k: nat, i: nat)
    requires IsRun(r) && k < i < |r.states| && LeftBehind(r, k, i)
    ensures LeftOver(r.states[i])
    decreases i
  {
    LeftOverRunStep(r, i - 1);
    if k < i - 1 {
      LeftBehindMeansLeftOver(r, k, i - 1);
    }
  }

  lemma {:induction false} LeftOverHasItsHistory(r: Trace, i: nat)
    requires IsRun(r) && i < |r.states| && LeftOver(r.states[i])
    ensures UpdatingWithoutCause(r, i)
  {
    if i > 0 {
      LeftOverRunStep(r, i - 1);
      if LeavesUpdating(r.states[i - 1], r.events[i - 1]) {
        assert LeftBehind(r, i - 1, i);
      } else {
        LeftOverHasItsHistory(r, i - 1);
        StillWithoutCause(r, i - 1, i);
      }
    }
  }

  lemma StillWithoutCause(r: Trace, i: nat, j: nat)
    requires IsRun(r) && j == i + 1 < |r.states| && UpdatingWithoutCause(r, i)
    requires r.states[j].app.current == UPDATING && !StartsUpdate(r.states[i], r.events[i])
    ensures UpdatingWithoutCause(r, j)
  {
    if !LoadedUpdating(r, i) {
      var k :| 0 <= k < i && LeftBehind(r, k, i);
      assert LeftBehind(r, k, j);
    }
  }

  /** UPDATING is published with no update in flight if and only if the agent
      started with it, or some step left it behind, and since then no other state
      was written and no update started. */
  lemma LeftOverIffLeftBehind(r: Trace, i: nat)
    requires IsRun(r) && i < |r.states|
    ensures LeftOver(r.states[i]) <==> UpdatingWithoutCause(r, i)
  {
    if LeftOver(r.states[i]) { LeftOverHasItsHistory(r, i); }
    if LoadedUpdating(r, i) { LoadedMeansLeftOver(r, i); }
    forall k | 0 <= k < i && LeftBehind(r, k, i) ensures LeftOver(r.states[i]) {
      LeftBehindMeansLeftOver(r, k, i);
    }
  }

  lemma EnterDrops(s: State, t: nat)
    requires Enabled(s, Enter(t))
    ensures t !in Step(s, Enter(t)).threads <==> Drops(s.app.current, s.threads[t].p)
  {
  }

  /** A request is dropped with no update in flight if and only if UPDATING was
      loaded or left behind, the request is no cancel, and its target is none that stops an
      update. Every other dropped request gives way to the update that holds the
      lock. */
  lemma DroppedWithoutUpdateIff(r: Trace, i: nat, t: nat)
    requires IsRun(r) && i < |r.events| && r.events[i] == Enter(t)
    ensures t in r.states[i].threads && r.states[i].threads[t].Entered?
    ensures var p := r.states[i].threads[t].p;
            t !in r.states[i + 1].threads && !UpdateInFlight(r.states[i])
            <==> UpdatingWithoutCause(r, i) && !p.cancel && !StopsUpdate(p.target)
    ensures t !in r.states[i + 1].threads && UpdateInFlight(r.states[i]) ==>
              Defers(r.states[i], r.events[i], r.states[i].lock.id)
  {
    assert Follows(r, i);
    EnterDrops(r.states[i], t);
    LeftOverIffLeftBehind(r, i);
  }

  // ---------------------------------------------------------------------
  // Nobody is left to compare
  // ---------------------------------------------------------------------

  /** The steps after which nobody compares state and target on behalf of the
      thread that ends, or of the state that is reported. */
  predicate Unheeded(s: State, e: Event)
    requires Enabled(s, e)
  {
    match e
    case Sync(_) => true                                        // a target is stored and not requested
    case SyncFail(_) => true                                    // the port rules could not be synchronised
    case TryLock(_) => s.lock.Probe?                            // an observer probed the lock just then
    case Adoption(_, saved) => !saved                           // the record could not be saved
    case Init(t, token, emergency) =>                           // no token, or no such transition
      Unstartable(s.app, s.threads[t].p, token, emergency)
    case ReadRow(_) => s.app.row.None?                          // the row is gone
    case Republish(_) => true                                   // a transition without action
    case Promote(_) => true                                     // a build is put to PRESENT
    case Enter(t) => Drops(s.app.current, s.threads[t].p) && !UpdateInFlight(s)
    case Summon(t) => Transition(s.app.current, s.threads[t].p.target).None?
    case Finish(t, _) => s.threads[t].Canceling?                // a cancel ends without verification
    case Observe(state, prod) => !Reports(Notify(s.app, state), state, prod)
    case Correct(_) => true                                     // a correction publishes what docker shows
    case ResetTransfer(_) => true                               // a failed transfer resets the app
    case _ => false
  }

  ghost predicate Quiet(s: State) {
    s.threads == map[] && !AtRest(s.app)
  }

  lemma NonEmpty(threads: map<nat, Pc>, t: nat)
    requires t in threads
    ensures threads != map[]
  {
  }

  ghost predicate QuietAfter(s: State, e: Event, s': State)
    requires Enabled(s, e)
  {
    Quiet(s') ==> Unheeded(s, e) || Quiet(s)
  }

  lemma QuietStep(s: State, e: Event)
    requires LockHeld(s) && Enabled(s, e)
    ensures QuietAfter(s, e, Step(s, e))
  {
    if IsRequest(e) { QuietRequest(s, e); }
    else if IsTransition(e) { QuietTransition(s, e); }
    else if IsVerify(e) { QuietVerify(s, e); }
    else { QuietObserver(s, e); }
  }

  lemma QuietRequest(s: State, e: Event)
    requires LockHeld(s) && Enabled(s, e) && IsRequest(e)
    ensures QuietAfter(s, e, RequestStep(s, e))
  {
    var s' := RequestStep(s, e);
    if e.Push? || e.Retry? || e.Reconcile? {
      NonEmpty(s'.threads, s.next);
    } else if e.Sync? {
      assert Unheeded(s, e);
    } else if e.t in s'.threads {
      NonEmpty(s'.threads, e.t);
    } else if s.lock.Request? && s.lock.id != e.t {
      NonEmpty(s'.threads, s.lock.id);
    }
  }

  lemma QuietTransition(s: State, e: Event)
    requires Enabled(s, e) && IsTransition(e)
    ensures QuietAfter(s, e, TransitionStep(s, e))
  {
    var s' := TransitionStep(s, e);
    if e.t in s'.threads { NonEmpty(s'.threads, e.t); }
  }

  lemma QuietVerify(s: State, e: Event)
    requires LockHeld(s) && Enabled(s, e) && IsVerify(e)
    ensures QuietAfter(s, e, VerifyStep(s, e))
  {
    var s' := VerifyStep(s, e);
    if e.t in s'.threads { NonEmpty(s'.threads, e.t); }
    if s.next in s'.threads { NonEmpty(s'.threads, s.next); }
  }

  lemma QuietObserver(s: State, e: Event)
    requires LockHeld(s) && Enabled(s, e) && IsObserver(e)
    ensures QuietAfter(s, e, ObserverStep(s, e))
  {
    var s' := ObserverStep(s, e);
    if s.next in s'.threads { NonEmpty(s'.threads, s.next); }
  }

  /** When all requests have run their course and the app is neither at its target
      nor FAILED, then it has been so since the agent started, or one of the listed
      steps put it there, and since then nobody has worked on it. A request refused by a transition that holds the
      lock, or dropped for an update in flight, is not among them: its target
      rests with that transition, see `FateOfARefusedTarget`. */
  lemma {:induction false} WhyAnAppRestsAwayFromItsTarget(r: Trace, i: nat) returns (step: Option<nat>)
    requires IsRun(r) && i < |r.states| && Quiet(r.states[i])
    ensures match step
            case None => QuietSince(r, 0, i) && forall m :: 0 <= m < i ==> !r.events[m].Compare?
            case Some(k) =>
              && k < i && Enabled(r.states[k], r.events[k]) && Unheeded(r.states[k], r.events[k])
              && QuietSince(r, k + 1, i) && forall m :: k < m < i ==> !r.events[m].Compare?
  {
    step := None;
    if i > 0 {
      assert Follows(r, i - 1);
      InvAlways(r, i - 1);
      QuietStep(r.states[i - 1], r.events[i - 1]);
      if Unheeded(r.states[i - 1], r.events[i - 1]) {
        step := Some(i - 1);
      } else {
        step := WhyAnAppRestsAwayFromItsTarget(r, i - 1);
      }
    }
  }

  /** Nobody works on the app, so nobody compares either, in any of these states. */
  ghost predicate QuietSince(r: Trace, a: nat, b: nat)
    requires b < |r.states|
  {
    forall m :: a <= m <= b ==> Quiet(r.states[m])
  }
}
