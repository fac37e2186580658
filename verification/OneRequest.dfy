/** One request alone in the controller of `Controller` does exactly what a round of
    `Redrive` says: the interleaved and the sequential account of a request are
    accounts of one thing. */
module OneRequest {
  import opened Wrappers
  import opened AppStates
  import opened Controller
  import Redrive

  ghost predicate Leads(s: State, events: seq<Event>, s': State)
    decreases |events|
  {
    if events == [] then s == s'
    else Enabled(s, events[0]) && Leads(Step(s, events[0]), events[1..], s')
  }

  lemma {:induction false} Joined(s: State, first: seq<Event>, m: State, second: seq<Event>, s': State)
    requires Leads(s, first, m) && Leads(m, second, s')
    ensures Leads(s, first + second, s')
    decreases |first|
  {
    if first == [] {
      assert first + second == second;
    } else {
      Joined(Step(s, first[0]), first[1..], m, second, s');
      assert (first + second)[1..] == first[1..] + second;
    }
  }

  lemma One(s: State, e: Event, s': State)
    requires Enabled(s, e) && Step(s, e) == s'
    ensures Leads(s, [e], s')
  {
    assert [e][1..] == [];
  }

  lemma Then(s: State, first: seq<Event>, m: State, e: Event, s': State)
    requires Leads(s, first, m) && Enabled(m, e) && Step(m, e) == s'
    ensures Leads(s, first + [e], s')
  {
    One(m, e, s');
    Joined(s, first, m, [e], s');
  }

  /** Nobody but request `t` for `p`, just called. */
  ghost predicate Alone(s: State, t: nat, p: Payload) {
    s.threads == map[t := Entered(p)] && t < s.next && s.lock.Free?
  }

  function Admitting(s: State, t: nat, p: Payload): State {
    s.(threads := map[t := Admitted(p)])
  }

  /** ... inside the locked section. */
  function During(s: State, t: nat, app: App, pc: Pc): State {
    s.(app := app, threads := map[t := pc], lock := Request(t), log := s.log + [Acquire(Request(t))])
  }

  /** ... and after it. */
  function Released(s: State, t: nat, app: App, threads: map<nat, Pc>, next: nat): State {
    s.(app := app, threads := threads, next := next, lock := Free,
    log := s.log + [Acquire(Request(t))] + [Release(Request(t))])
  }

  lemma EnterStep(s: State, t: nat, p: Payload)
    requires Alone(s, t, p) && !Redrive.Cancels(s.app, p) && s.app.current != UPDATING
    ensures Leads(s, [Enter(t)], Admitting(s, t, p))
  {
    One(s, Enter(t), Admitting(s, t, p));
  }

  lemma LockStep(s: State, t: nat, p: Payload)
    requires Alone(s, t, p)
    ensures Leads(Admitting(s, t, p), [TryLock(t)], During(s, t, s.app, Holding(p)))
  {
    One(Admitting(s, t, p), TryLock(t), During(s, t, s.app, Holding(p)));
  }

  lemma AdoptStep(s: State, t: nat, p: Payload)
    ensures Leads(During(s, t, s.app, Holding(p)), [Adoption(t, true)], During(s, t, Prepare(s.app, p), Prepared(p)))
  {
    One(During(s, t, s.app, Holding(p)), Adoption(t, true), During(s, t, Prepare(s.app, p), Prepared(p)));
  }

  function Prelude(t: nat): seq<Event> {
    [Enter(t)] + [TryLock(t)] + [Adoption(t, true)]
  }

  lemma Preparing(s: State, t: nat, p: Payload)
    requires Alone(s, t, p) && !Redrive.Cancels(s.app, p) && s.app.current != UPDATING
    ensures Leads(s, Prelude(t), During(s, t, Prepare(s.app, p), Prepared(p)))
  {
    EnterStep(s, t, p);
    LockStep(s, t, p);
    AdoptStep(s, t, p);
    Joined(s, [Enter(t)], Admitting(s, t, p), [TryLock(t)], During(s, t, s.app, Holding(p)));
    Joined(s, [Enter(t)] + [TryLock(t)], During(s, t, s.app, Holding(p)), [Adoption(t, true)],
           During(s, t, Prepare(s.app, p), Prepared(p)));
  }

  // ---------------------------------------------------------------------
  // Ways out
  // ---------------------------------------------------------------------

  lemma InitLeaves(s: State, t: nat, app: App, p: Payload, token: bool)
    requires !token || Choose(app, p).None?
    ensures Leads(During(s, t, app, Prepared(p)), [Init(t, token, false)], Released(s, t, app, map[], s.next))
  {
    One(During(s, t, app, Prepared(p)), Init(t, token, false), Released(s, t, app, map[], s.next));
  }

  lemma InitRefused(s: State, t: nat, app: App, p: Payload)
    requires IsDiskGrowing(p.target)
    ensures Leads(During(s, t, app, Prepared(p)), [Init(t, true, true)], During(s, t, app, Ended(Failure, false)))
  {
    One(During(s, t, app, Prepared(p)), Init(t, true, true), During(s, t, app, Ended(Failure, false)));
  }

  lemma InitStarts(s: State, t: nat, app: App, p: Payload)
    requires Choose(app, p).Some?
    ensures Leads(During(s, t, app, Prepared(p)), [Init(t, true, false)],
                  During(s, t, app, Running(p, Choose(app, p).value, 0)))
  {
    One(During(s, t, app, Prepared(p)), Init(t, true, false), During(s, t, app, Running(p, Choose(app, p).value, 0)));
  }

  lemma UnlockStep(s: State, t: nat, app: App, outcome: Outcome, update: bool)
    ensures Leads(During(s, t, app, Ended(outcome, update)), [Unlock(t)],
                  Released(s, t, app, map[t := Onward(outcome)], s.next))
  {
    One(During(s, t, app, Ended(outcome, update)), Unlock(t), Released(s, t, app, map[t := Onward(outcome)], s.next));
  }

  lemma FailStep(s: State, t: nat, app: App)
    ensures Leads(Released(s, t, app, map[t := Failing], s.next), [PublishFailed(t)],
                  Released(s, t, Notify(app, FAILED), map[], s.next))
  {
    One(Released(s, t, app, map[t := Failing], s.next), PublishFailed(t),
        Released(s, t, Notify(app, FAILED), map[], s.next));
  }

  /** A finished transition that failed. */
  lemma FailureTail(s: State, t: nat, app: App, update: bool)
    ensures Leads(During(s, t, app, Ended(Failure, update)), [Unlock(t)] + [PublishFailed(t)],
                  Released(s, t, Notify(app, FAILED), map[], s.next))
  {
    UnlockStep(s, t, app, Failure, update);
    FailStep(s, t, app);
    Joined(During(s, t, app, Ended(Failure, update)), [Unlock(t)], Released(s, t, app, map[t := Failing], s.next),
           [PublishFailed(t)], Released(s, t, Notify(app, FAILED), map[], s.next));
  }

  lemma SettleSteps(s: State, t: nat, app: App)
    ensures Leads(Released(s, t, app, map[t := Settling], s.next), [ReadState(t)] + [Republish(t)],
                  Released(s, t, Notify(app, app.current), map[], s.next))
  {
    var read := Released(s, t, app, map[t := Settled(app.current)], s.next);
    One(Released(s, t, app, map[t := Settling], s.next), ReadState(t), read);
    One(read, Republish(t), Released(s, t, Notify(app, app.current), map[], s.next));
    Joined(Released(s, t, app, map[t := Settling], s.next), [ReadState(t)], read, [Republish(t)],
           Released(s, t, Notify(app, app.current), map[], s.next));
  }

  /** What verification leaves: nobody, or the request it spawns. */
  function Left(next: nat, spawned: Option<Payload>): map<nat, Pc> {
    if spawned.Some? then map[next := Entered(spawned.value)] else map[]
  }

  function Numbers(next: nat, spawned: Option<Payload>): nat {
    if spawned.Some? then next + 1 else next
  }

  lemma ReadStep(s: State, t: nat, app: App)
    ensures Leads(Released(s, t, app, map[t := Verifying], s.next), [ReadRow(t)],
                  Released(s, t, app, if app.row.None? then map[] else map[t := Comparing(app.row.value)], s.next))
  {
    One(Released(s, t, app, map[t := Verifying], s.next), ReadRow(t),
        Released(s, t, app, if app.row.None? then map[] else map[t := Comparing(app.row.value)], s.next));
  }

  lemma CompareStep(s: State, t: nat, app: App)
    requires t < s.next && app.row.Some? && !Redrive.Promotes(app)
    ensures Leads(Released(s, t, app, map[t := Comparing(app.row.value)], s.next), [Compare(t)],
                  Released(s, t, app, Left(s.next, Redrive.Verify(app)), Numbers(s.next, Redrive.Verify(app))))
  {
    var read := Released(s, t, app, map[t := Comparing(app.row.value)], s.next);
    var done := Released(s, t, app, Left(s.next, Redrive.Verify(app)), Numbers(s.next, Redrive.Verify(app)));
    assert Step(read, Compare(t)).threads == done.threads;
    One(read, Compare(t), done);
  }

  /** A finished build has been compared and is about to be put to PRESENT. */
  function BuildCompared(s: State, t: nat, app: App): State {
    Released(s, t, app, Left(s.next, Redrive.Verify(app))[t := Promoting], Numbers(s.next, Redrive.Verify(app)))
  }

  lemma CompareBuilt(s: State, t: nat, app: App)
    requires t < s.next && Redrive.Promotes(app)
    ensures Leads(Released(s, t, app, map[t := Comparing(app.row.value)], s.next), [Compare(t)],
                  BuildCompared(s, t, app))
  {
    var read := Released(s, t, app, map[t := Comparing(app.row.value)], s.next);
    assert Step(read, Compare(t)).threads == BuildCompared(s, t, app).threads;
    One(read, Compare(t), BuildCompared(s, t, app));
  }

  lemma PromoteBuilt(s: State, t: nat, app: App)
    requires t < s.next && Redrive.Promotes(app)
    ensures Leads(BuildCompared(s, t, app), [Promote(t)],
                  Released(s, t, Redrive.Promoted(app), Left(s.next, Redrive.Verify(app)),
                           Numbers(s.next, Redrive.Verify(app))))
  {
    var next := Redrive.Verify(app);
    var done := Released(s, t, Redrive.Promoted(app), Left(s.next, next), Numbers(s.next, next));
    assert Step(BuildCompared(s, t, app), Promote(t)).threads == done.threads;
    One(BuildCompared(s, t, app), Promote(t), done);
  }

  lemma PromoteSteps(s: State, t: nat, app: App)
    requires t < s.next && Redrive.Promotes(app)
    ensures Leads(Released(s, t, app, map[t := Comparing(app.row.value)], s.next), [Compare(t)] + [Promote(t)],
                  Released(s, t, Redrive.Promoted(app), Left(s.next, Redrive.Verify(app)),
                           Numbers(s.next, Redrive.Verify(app))))
  {
    CompareBuilt(s, t, app);
    PromoteBuilt(s, t, app);
    Joined(Released(s, t, app, map[t := Comparing(app.row.value)], s.next), [Compare(t)], BuildCompared(s, t, app),
           [Promote(t)], Released(s, t, Redrive.Promoted(app), Left(s.next, Redrive.Verify(app)),
                                  Numbers(s.next, Redrive.Verify(app))));
  }

  function CompareEvents(t: nat, app: App): seq<Event> {
    if Redrive.Promotes(app) then [Compare(t)] + [Promote(t)] else [Compare(t)]
  }

  function VerifyEvents(t: nat, app: App): seq<Event> {
    if app.row.None? then [ReadRow(t)] else [ReadRow(t)] + CompareEvents(t, app)
  }

  /** Reading the row, comparing and promoting spawn exactly what `VerifyState`
      decides, and leave the record it leaves. */
  lemma VerifySpawnsWhatItDecides(s: State, t: nat, app: App)
    requires t < s.next
    ensures Leads(Released(s, t, app, map[t := Verifying], s.next), VerifyEvents(t, app),
                  Released(s, t, Redrive.Promoted(app), Left(s.next, Redrive.Verify(app)),
                           Numbers(s.next, Redrive.Verify(app))))
  {
    ReadStep(s, t, app);
    if app.row.Some? {
      if Redrive.Promotes(app) { PromoteSteps(s, t, app); } else { CompareStep(s, t, app); }
      Joined(Released(s, t, app, map[t := Verifying], s.next), [ReadRow(t)],
             Released(s, t, app, map[t := Comparing(app.row.value)], s.next), CompareEvents(t, app),
             Released(s, t, Redrive.Promoted(app), Left(s.next, Redrive.Verify(app)),
                      Numbers(s.next, Redrive.Verify(app))));
    }
  }

  /** A finished transition that succeeded. */
  lemma SuccessTail(s: State, t: nat, app: App, update: bool)
    requires t < s.next
    ensures Leads(During(s, t, app, Ended(Success, update)), [Unlock(t)] + VerifyEvents(t, app),
                  Released(s, t, Redrive.Promoted(app), Left(s.next, Redrive.Verify(app)),
                           Numbers(s.next, Redrive.Verify(app))))
  {
    UnlockStep(s, t, app, Success, update);
    VerifySpawnsWhatItDecides(s, t, app);
    Joined(During(s, t, app, Ended(Success, update)), [Unlock(t)],
           Released(s, t, app, map[t := Verifying], s.next), VerifyEvents(t, app),
           Released(s, t, Redrive.Promoted(app), Left(s.next, Redrive.Verify(app)),
                    Numbers(s.next, Redrive.Verify(app))));
  }

  // ---------------------------------------------------------------------
  // Transitions
  // ---------------------------------------------------------------------

  function Publishing(t: nat, via: seq<AppState>): seq<Event> {
    if via == [] then [] else Publishing(t, via[..|via| - 1]) + [Event.Publish(t, via[|via| - 1])]
  }

  lemma PublishStep(s: State, t: nat, app: App, p: Payload, action: Action, state: AppState)
    requires !action.Update? && !action.NoAction? && state != UPDATING
    ensures Leads(During(s, t, app, Running(p, action, 0)), [Event.Publish(t, state)],
                  During(s, t, Notify(app, state), Running(p, action, 0)))
  {
    One(During(s, t, app, Running(p, action, 0)), Event.Publish(t, state),
        During(s, t, Notify(app, state), Running(p, action, 0)));
  }

  lemma {:induction false} PublishSteps(s: State, t: nat, app: App, p: Payload, action: Action, via: seq<AppState>)
    requires !action.Update? && !action.NoAction? && UPDATING !in via
    ensures Leads(During(s, t, app, Running(p, action, 0)), Publishing(t, via),
                  During(s, t, Redrive.PublishAll(app, via), Running(p, action, 0)))
  {
    if via != [] {
      var n := |via| - 1;
      PublishSteps(s, t, app, p, action, via[..n]);
      PublishStep(s, t, Redrive.PublishAll(app, via[..n]), p, action, via[n]);
      Joined(During(s, t, app, Running(p, action, 0)), Publishing(t, via[..n]),
             During(s, t, Redrive.PublishAll(app, via[..n]), Running(p, action, 0)), [Event.Publish(t, via[n])],
             During(s, t, Redrive.PublishAll(app, via), Running(p, action, 0)));
    }
  }

  lemma FinishStep(s: State, t: nat, app: App, p: Payload, action: Action, phase: nat, outcome: Outcome)
    requires CanFinish(Running(p, action, phase), outcome)
    ensures Leads(During(s, t, app, Running(p, action, phase)), [Finish(t, outcome)],
                  During(s, t, app, Ended(outcome, action.Update?)))
  {
    One(During(s, t, app, Running(p, action, phase)), Finish(t, outcome),
        During(s, t, app, Ended(outcome, action.Update?)));
  }

  lemma UpdateStep(s: State, t: nat, app: App, p: Payload, phase: nat)
    requires phase < 4
    ensures var (e, after) := if phase == 0 then (Event.Publish(t, UPDATING), Notify(app, UPDATING))
                              else if phase == 1 then (InstallVersion(t), Install(app, p))
                              else if phase == 2 then (Event.Publish(t, PRESENT), Notify(app, PRESENT))
                              else (PersistRow(t), Persist(app, p));
            Leads(During(s, t, app, Running(p, Update, phase)), [e], During(s, t, after, Running(p, Update, phase + 1)))
  {
    var (e, after) := if phase == 0 then (Event.Publish(t, UPDATING), Notify(app, UPDATING))
                      else if phase == 1 then (InstallVersion(t), Install(app, p))
                      else if phase == 2 then (Event.Publish(t, PRESENT), Notify(app, PRESENT))
                      else (PersistRow(t), Persist(app, p));
    One(During(s, t, app, Running(p, Update, phase)), e, During(s, t, after, Running(p, Update, phase + 1)));
  }

  lemma UpdateFirstHalf(s: State, t: nat, app: App, p: Payload)
    ensures Leads(During(s, t, app, Running(p, Update, 0)), [Event.Publish(t, UPDATING)] + [InstallVersion(t)],
                  During(s, t, Install(Notify(app, UPDATING), p), Running(p, Update, 2)))
  {
    var middle := During(s, t, Notify(app, UPDATING), Running(p, Update, 1));
    UpdateStep(s, t, app, p, 0);
    UpdateStep(s, t, Notify(app, UPDATING), p, 1);
    Joined(During(s, t, app, Running(p, Update, 0)), [Event.Publish(t, UPDATING)], middle, [InstallVersion(t)],
           During(s, t, Install(Notify(app, UPDATING), p), Running(p, Update, 2)));
  }

  lemma UpdateSecondHalf(s: State, t: nat, app: App, p: Payload)
    ensures Leads(During(s, t, app, Running(p, Update, 2)), [Event.Publish(t, PRESENT)] + [PersistRow(t)],
                  During(s, t, Persist(Notify(app, PRESENT), p), Running(p, Update, 4)))
  {
    var middle := During(s, t, Notify(app, PRESENT), Running(p, Update, 3));
    UpdateStep(s, t, app, p, 2);
    UpdateStep(s, t, Notify(app, PRESENT), p, 3);
    Joined(During(s, t, app, Running(p, Update, 2)), [Event.Publish(t, PRESENT)], middle, [PersistRow(t)],
           During(s, t, Persist(Notify(app, PRESENT), p), Running(p, Update, 4)));
  }

  function UpdateEvents(t: nat): seq<Event> {
    ([Event.Publish(t, UPDATING)] + [InstallVersion(t)]) + ([Event.Publish(t, PRESENT)] + [PersistRow(t)])
  }

  lemma UpdateSteps(s: State, t: nat, app: App, p: Payload)
    ensures Leads(During(s, t, app, Running(p, Update, 0)), UpdateEvents(t),
                  During(s, t, Redrive.Complete(app, Update, p, []), Running(p, Update, 4)))
  {
    var half := Install(Notify(app, UPDATING), p);
    UpdateFirstHalf(s, t, app, p);
    UpdateSecondHalf(s, t, half, p);
    Joined(During(s, t, app, Running(p, Update, 0)), [Event.Publish(t, UPDATING)] + [InstallVersion(t)],
           During(s, t, half, Running(p, Update, 2)), [Event.Publish(t, PRESENT)] + [PersistRow(t)],
           During(s, t, Redrive.Complete(app, Update, p, []), Running(p, Update, 4)));
  }

  // ---------------------------------------------------------------------
  // The whole request
  // ---------------------------------------------------------------------

  /** The states a transition can publish: UPDATING only as an update, and first. */
  predicate Playable(action: Action, how: Redrive.How) {
    how.Fails? || how.Succeeds? ==>
      if action.Update? then how.Succeeds? || how.via == [] || how.via == [UPDATING] else UPDATING !in how.via
  }

  /** The controller's state once the round is over: the record the round leaves,
      the lock released, and the request the round leads to, if any. */
  function RoundOver(s: State, t: nat, p: Payload, how: Redrive.How): State {
    var (app, next) := Redrive.Round(s.app, p, how);
    Released(s, t, app, Left(s.next, next), Numbers(s.next, next))
  }

  lemma NeverStarted(s: State, t: nat, p: Payload, how: Redrive.How) returns (events: seq<Event>)
    requires Alone(s, t, p) && !Redrive.Cancels(s.app, p) && s.app.current != UPDATING
    requires how.TokenLost? || (!how.Refused? && Choose(Prepare(s.app, p), p).None?)
    ensures Leads(s, events, RoundOver(s, t, p, how))
  {
    var ready := Prepare(s.app, p);
    Preparing(s, t, p);
    InitLeaves(s, t, ready, p, !how.TokenLost?);
    events := Prelude(t) + [Init(t, !how.TokenLost?, false)];
    Joined(s, Prelude(t), During(s, t, ready, Prepared(p)), [Init(t, !how.TokenLost?, false)],
           Released(s, t, ready, map[], s.next));
  }

  lemma GuardRefused(s: State, t: nat, p: Payload) returns (events: seq<Event>)
    requires Alone(s, t, p) && !Redrive.Cancels(s.app, p) && s.app.current != UPDATING && IsDiskGrowing(p.target)
    ensures Leads(s, events, RoundOver(s, t, p, Redrive.Refused))
  {
    var ready := Prepare(s.app, p);
    var ended := During(s, t, ready, Ended(Failure, false));
    Preparing(s, t, p);
    InitRefused(s, t, ready, p);
    FailureTail(s, t, ready, false);
    Joined(s, Prelude(t), During(s, t, ready, Prepared(p)), [Init(t, true, true)], ended);
    events := Prelude(t) + [Init(t, true, true)] + ([Unlock(t)] + [PublishFailed(t)]);
    Joined(s, Prelude(t) + [Init(t, true, true)], ended, [Unlock(t)] + [PublishFailed(t)],
           Released(s, t, Notify(ready, FAILED), map[], s.next));
  }

  /** The request has started its transition. */
  lemma Starting(s: State, t: nat, p: Payload)
    requires Alone(s, t, p) && !Redrive.Cancels(s.app, p) && s.app.current != UPDATING
    requires Choose(Prepare(s.app, p), p).Some?
    ensures var ready := Prepare(s.app, p);
            Leads(s, Prelude(t) + [Init(t, true, false)], During(s, t, ready, Running(p, Choose(ready, p).value, 0)))
  {
    var ready := Prepare(s.app, p);
    Preparing(s, t, p);
    InitStarts(s, t, ready, p);
    Joined(s, Prelude(t), During(s, t, ready, Prepared(p)), [Init(t, true, false)],
           During(s, t, ready, Running(p, Choose(ready, p).value, 0)));
  }

  lemma TookNoAction(s: State, t: nat, app: App, p: Payload) returns (events: seq<Event>)
    ensures Leads(During(s, t, app, Running(p, NoAction, 0)), events,
                  Released(s, t, Notify(app, app.current), map[], s.next))
  {
    var start := During(s, t, app, Running(p, NoAction, 0));
    var settling := Released(s, t, app, map[t := Settling], s.next);
    FinishStep(s, t, app, p, NoAction, 0, NothingDone);
    UnlockStep(s, t, app, NothingDone, false);
    SettleSteps(s, t, app);
    Joined(start, [Finish(t, NothingDone)], During(s, t, app, Ended(NothingDone, false)), [Unlock(t)], settling);
    events := [Finish(t, NothingDone)] + [Unlock(t)] + ([ReadState(t)] + [Republish(t)]);
    Joined(start, [Finish(t, NothingDone)] + [Unlock(t)], settling, [ReadState(t)] + [Republish(t)],
           Released(s, t, Notify(app, app.current), map[], s.next));
  }

  /** A transition that does nothing more and ends. */
  lemma Ends(s: State, t: nat, app: App, p: Payload, action: Action, phase: nat, ok: bool) returns (events: seq<Event>)
    requires t < s.next && CanFinish(Running(p, action, phase), if ok then Success else Failure)
    requires ok ==> app.current != BUILT
    ensures var next := if ok then Redrive.Verify(app) else None;
            Leads(During(s, t, app, Running(p, action, phase)), events,
                  Released(s, t, if ok then app else Notify(app, FAILED), Left(s.next, next), Numbers(s.next, next)))
  {
    var outcome := if ok then Success else Failure;
    var ended := During(s, t, app, Ended(outcome, action.Update?));
    var tail := [Unlock(t)] + if ok then VerifyEvents(t, app) else [PublishFailed(t)];
    FinishStep(s, t, app, p, action, phase, outcome);
    if ok { SuccessTail(s, t, app, action.Update?); } else { FailureTail(s, t, app, action.Update?); }
    var next := if ok then Redrive.Verify(app) else None;
    events := [Finish(t, outcome)] + tail;
    Joined(During(s, t, app, Running(p, action, phase)), [Finish(t, outcome)], ended, tail,
           Released(s, t, if ok then app else Notify(app, FAILED), Left(s.next, next), Numbers(s.next, next)));
  }

  /** A table transition publishes its states and ends. */
  lemma RanTable(s: State, t: nat, app: App, p: Payload, action: Action, via: seq<AppState>, ok: bool)
    returns (events: seq<Event>)
    requires t < s.next && !action.Update? && !action.NoAction? && UPDATING !in via
    requires ok ==> Redrive.PublishAll(app, via).current != BUILT
    ensures var b := Redrive.PublishAll(app, via);
            var next := if ok then Redrive.Verify(b) else None;
            Leads(During(s, t, app, Running(p, action, 0)), events,
                  Released(s, t, if ok then b else Notify(b, FAILED), Left(s.next, next), Numbers(s.next, next)))
  {
    var b := Redrive.PublishAll(app, via);
    PublishSteps(s, t, app, p, action, via);
    var rest := Ends(s, t, b, p, action, 0, ok);
    var next := if ok then Redrive.Verify(b) else None;
    events := Publishing(t, via) + rest;
    Joined(During(s, t, app, Running(p, action, 0)), Publishing(t, via), During(s, t, b, Running(p, action, 0)), rest,
           Released(s, t, if ok then b else Notify(b, FAILED), Left(s.next, next), Numbers(s.next, next)));
  }

  lemma RanUpdate(s: State, t: nat, app: App, p: Payload) returns (events: seq<Event>)
    requires t < s.next
    ensures var b := Redrive.Complete(app, Update, p, []);
            Leads(During(s, t, app, Running(p, Update, 0)), events,
                  Released(s, t, b, Left(s.next, Redrive.Verify(b)), Numbers(s.next, Redrive.Verify(b))))
  {
    var b := Redrive.Complete(app, Update, p, []);
    UpdateSteps(s, t, app, p);
    var rest := Ends(s, t, b, p, Update, 4, true);
    events := UpdateEvents(t) + rest;
    Joined(During(s, t, app, Running(p, Update, 0)), UpdateEvents(t), During(s, t, b, Running(p, Update, 4)), rest,
           Released(s, t, b, Left(s.next, Redrive.Verify(b)), Numbers(s.next, Redrive.Verify(b))));
  }

  lemma FailedUpdate(s: State, t: nat, app: App, p: Payload, via: seq<AppState>) returns (events: seq<Event>)
    requires t < s.next && (via == [] || via == [UPDATING])
    ensures Leads(During(s, t, app, Running(p, Update, 0)), events,
                  Released(s, t, Notify(Redrive.PublishAll(app, via), FAILED), map[], s.next))
  {
    if via == [] {
      events := Ends(s, t, app, p, Update, 0, false);
    } else {
      var b := Notify(app, UPDATING);
      assert via[..0] == [];
      UpdateStep(s, t, app, p, 0);
      var rest := Ends(s, t, b, p, Update, 1, false);
      events := [Event.Publish(t, UPDATING)] + rest;
      Joined(During(s, t, app, Running(p, Update, 0)), [Event.Publish(t, UPDATING)],
             During(s, t, b, Running(p, Update, 1)), rest, Released(s, t, Notify(b, FAILED), map[], s.next));
    }
  }

  /** A request that has started its transition goes on as its round says. */
  lemma Goes(s: State, t: nat, p: Payload, how: Redrive.How) returns (events: seq<Event>)
    requires t < s.next && !Redrive.Cancels(s.app, p) && s.app.current != UPDATING && (how.Fails? || how.Succeeds?)
    requires Redrive.Fits(s.app, p, how) && Choose(Prepare(s.app, p), p).Some?
    requires Playable(Choose(Prepare(s.app, p), p).value, how)
    ensures var ready := Prepare(s.app, p);
            Leads(During(s, t, ready, Running(p, Choose(ready, p).value, 0)), events, RoundOver(s, t, p, how))
  {
    var ready := Prepare(s.app, p);
    var action := Choose(ready, p).value;
    var ok := how.Succeeds? && Redrive.CanSucceed(action);
    if ok { Redrive.SuccessIsNeverBuilt(s.app, p, how); }
    if action.NoAction? {
      events := TookNoAction(s, t, ready, p);
    } else if !action.Update? {
      events := RanTable(s, t, ready, p, action, how.via, ok);
    } else if ok {
      events := RanUpdate(s, t, ready, p);
    } else {
      events := FailedUpdate(s, t, ready, p, how.via);
    }
  }

  /** A request nobody interferes with has a run in the controller, from the call to
      the end, that leaves the record its round leaves, releases the lock, and
      spawns exactly the request its round leads to. */
  lemma RequestRunsItsRound(s: State, t: nat, p: Payload, how: Redrive.How) returns (events: seq<Event>)
    requires Alone(s, t, p) && !Redrive.Cancels(s.app, p) && s.app.current != UPDATING && Redrive.Fits(s.app, p, how)
    requires Choose(Prepare(s.app, p), p).Some? ==> Playable(Choose(Prepare(s.app, p), p).value, how)
    ensures Leads(s, events, RoundOver(s, t, p, how))
  {
    if how.Refused? {
      events := GuardRefused(s, t, p);
    } else if how.TokenLost? || Choose(Prepare(s.app, p), p).None? {
      events := NeverStarted(s, t, p, how);
    } else {
      var ready := Prepare(s.app, p);
      var rest := Goes(s, t, p, how);
      Starting(s, t, p);
      events := Prelude(t) + [Init(t, true, false)] + rest;
      Joined(s, Prelude(t) + [Init(t, true, false)], During(s, t, ready, Running(p, Choose(ready, p).value, 0)), rest,
             RoundOver(s, t, p, how));
    }
  }

  // ---------------------------------------------------------------------
  // Cancels and dropped requests
  // ---------------------------------------------------------------------

  function OffLock(s: State, t: nat, app: App, pc: Pc): State {
    s.(app := app, threads := map[t := pc])
  }

  lemma {:induction false} CancelPublishes(s: State, t: nat, app: App, p: Payload, action: Action, via: seq<AppState>)
    requires UPDATING !in via
    ensures Leads(OffLock(s, t, app, Canceling(p, action)), Publishing(t, via),
                  OffLock(s, t, Redrive.PublishAll(app, via), Canceling(p, action)))
  {
    if via != [] {
      var n := |via| - 1;
      var before := Redrive.PublishAll(app, via[..n]);
      CancelPublishes(s, t, app, p, action, via[..n]);
      One(OffLock(s, t, before, Canceling(p, action)), Event.Publish(t, via[n]),
          OffLock(s, t, Notify(before, via[n]), Canceling(p, action)));
      Joined(OffLock(s, t, app, Canceling(p, action)), Publishing(t, via[..n]),
             OffLock(s, t, before, Canceling(p, action)), [Event.Publish(t, via[n])],
             OffLock(s, t, Redrive.PublishAll(app, via), Canceling(p, action)));
    }
  }

  lemma CancelEnters(s: State, t: nat, p: Payload)
    requires Alone(s, t, p) && Redrive.Cancels(s.app, p)
    ensures Leads(s, [Enter(t)] + [Summon(t)],
                  match Transition(s.app.current, p.target)
                  case None => s.(threads := map[])
                  case Some(action) => OffLock(s, t, s.app, Canceling(p, action)))
  {
    var summoned := OffLock(s, t, s.app, Summoned(p));
    var after := match Transition(s.app.current, p.target)
      case None => s.(threads := map[])
      case Some(action) => OffLock(s, t, s.app, Canceling(p, action));
    One(s, Enter(t), summoned);
    One(summoned, Summon(t), after);
    Joined(s, [Enter(t)], summoned, [Summon(t)], after);
  }

  /** A cancel alone has a run that leaves the record its round leaves, and never
      touches the lock. */
  lemma CancelRunsItsRound(s: State, t: nat, p: Payload, how: Redrive.How) returns (events: seq<Event>)
    requires Alone(s, t, p) && Redrive.Cancels(s.app, p)
    requires how.Fails? || how.Succeeds? ==> UPDATING !in how.via
    ensures Redrive.Round(s.app, p, how).1 == None
    ensures Leads(s, events, s.(app := Redrive.Round(s.app, p, how).0, threads := map[]))
  {
    CancelEnters(s, t, p);
    events := [Enter(t)] + [Summon(t)];
    var action := Transition(s.app.current, p.target);
    if action.Some? {
      var via := if how.TokenLost? || how.Refused? then [] else how.via;
      var app := Redrive.PublishAll(s.app, via);
      var canceling := OffLock(s, t, s.app, Canceling(p, action.value));
      CancelPublishes(s, t, s.app, p, action.value, via);
      One(OffLock(s, t, app, Canceling(p, action.value)), Finish(t, Success), s.(app := app, threads := map[]));
      Joined(canceling, Publishing(t, via), OffLock(s, t, app, Canceling(p, action.value)), [Finish(t, Success)],
             s.(app := app, threads := map[]));
      Joined(s, events, canceling, Publishing(t, via) + [Finish(t, Success)], s.(app := app, threads := map[]));
      events := events + (Publishing(t, via) + [Finish(t, Success)]);
    }
  }

  /** A request that is no cancel is dropped while the app is UPDATING, as its round
      says. */
  lemma DroppedAsItsRoundSays(s: State, t: nat, p: Payload, how: Redrive.How)
    requires Alone(s, t, p) && !Redrive.Cancels(s.app, p) && s.app.current == UPDATING
    ensures Redrive.Round(s.app, p, how) == (s.app, None)
    ensures Leads(s, [Enter(t)], s.(threads := map[]))
  {
    One(s, Enter(t), s.(threads := map[]));
  }
}
