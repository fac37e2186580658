/** The re-drive chain of one PROD app (src/apps/app_manager.go,
    src/apps/state_machine.go, src/apps/update_app.go): a request runs its
    transition, `VerifyState` compares, and what it finds missing becomes the
    next request. No pushes and no cancels arrive meanwhile. */
module Redrive {
  import opened Wrappers
  import opened AppStates

  /** How the environment answers a request: without a registry token, with a
      refusal by the disk guard, or with a transition. `via` are the states that
      publishes on the way; a success ends with the transition's final state. */
  datatype How =
    | TokenLost
    | Refused
    | Fails(via: seq<AppState>)
    | Succeeds(via: seq<AppState>)

  function PublishAll(a: App, via: seq<AppState>): App {
    if via == [] then a else Notify(PublishAll(a, via[..|via| - 1]), via[|via| - 1])
  }

  /** Transitions a PROD app can complete. Building and transferring are
      refused for PROD; `RemoveAndPublish` returns without doing anything. */
  predicate CanSucceed(action: Action) {
    !action.Build? && !action.CancelBuild? && !action.CancelTransfer? && !action.NoAction?
  }

  function Final(action: Action, p: Payload): AppState
    requires CanSucceed(action) && !action.RemoveAndPublish?
  {
    match action
    case Run | RecoverRunning => RUNNING
    case Publish => PUBLISHED
    case Uninstall | CancelUpdateAndUninstall => UNINSTALLED
    case Remove | CancelPush | CancelUpdateAndRemove => REMOVED
    case CancelPull => if p.compose && p.target == UNINSTALLED then UNINSTALLED else REMOVED
    case _ => PRESENT
  }

  /** Transitions that may publish nothing but their final state. */
  predicate Immediate(action: Action, p: Payload) {
    action.RecoverPresent? || action.CancelPush? || action.CancelUpdate? || (action.CancelPull? && !p.compose)
  }

  predicate Proper(action: Action, p: Payload, via: seq<AppState>) {
    if action.RemoveAndPublish? then via == []
    else
      && CanSucceed(action) && via != [] && via[|via| - 1] == Final(action, p)
      && (Immediate(action, p) || exists i :: 0 <= i < |via| && via[i] != Final(action, p))
  }

  function Complete(a: App, action: Action, p: Payload, via: seq<AppState>): App {
    if action.Update? then Persist(Notify(Install(Notify(a, UPDATING), p), PRESENT), p)
    else PublishAll(a, via)
  }

  function Verify(a: App): Option<Payload> {
    if a.row.None? || a.current == FAILED then None
    else if a.current != a.target || PendingUpdate(a.row.value) then a.row
    else None
  }

  /** A finished build is put to PRESENT. */
  predicate Promotes(a: App) {
    a.row.Some? && a.current == BUILT && a.target == BUILT
  }

  function Promoted(a: App): App {
    if Promotes(a) then Notify(a, PRESENT) else a
  }

  /** Requests that cancel instead of queueing up. */
  predicate Cancels(a: App, p: Payload) {
    p.cancel || (a.current == UPDATING && (p.target == PRESENT || p.target == REMOVED || p.target == UNINSTALLED))
  }

  /** A cancel runs the table's transition for the current state, if there is one,
      without lock and verification, whatever becomes of it. */
  function CancelRound(a: App, p: Payload, how: How): App {
    if Transition(a.current, p.target).None? || how.TokenLost? || how.Refused? then a else PublishAll(a, how.via)
  }

  /** One request from start to finish, and the request it leads to. */
  function Round(a: App, p: Payload, how: How): (App, Option<Payload>) {
    if Cancels(a, p) then (CancelRound(a, p, how), None)
    else if a.current == UPDATING then (a, None)
    else
      var b := Prepare(a, p);
      if how.TokenLost? then (b, None)
      else if how.Refused? then (Notify(b, FAILED), None)
      else match Choose(b, p)
        case None => (b, None)
        case Some(action) =>
          if action.NoAction? then (Notify(b, b.current), None)
          else if how.Succeeds? && CanSucceed(action) then
            var c := Complete(b, action, p, how.via);
            (Promoted(c), Verify(c))
          else (Notify(PublishAll(b, how.via), FAILED), None)
  }

  /** The answer fits what the transition would do. */
  predicate Fits(a: App, p: Payload, how: How) {
    var choice := Choose(Prepare(a, p), p);
    if how.Refused? then IsDiskGrowing(p.target)
    else how.Succeeds? && choice.Some? && !choice.value.Update? && CanSucceed(choice.value) ==>
      Proper(choice.value, p, how.via)
  }

  // ---------------------------------------------------------------------
  // What publishing does to the record
  // ---------------------------------------------------------------------

  function Refreshed(a: App, final: AppState): Option<Payload> {
    match a.row
    case None => None
    case Some(r) => Some(r.(target := a.target, present := a.version, reported := Some(final)))
  }

  /** After publishing, the row is gone, or refreshed with the live version, or
      untouched because only one state was ever published. */
  lemma {:induction false} PublishAllLeaves(a: App, via: seq<AppState>)
    requires via != []
    ensures var b := PublishAll(a, via);
            var final := via[|via| - 1];
            && b.current == final && b.target == a.target && b.version == a.version
            && (b.stored.Some? ==> b.stored.value == (final, a.version))
            && (b.row.None? || b.row == Refreshed(a, final)
                || (b.row == a.row && forall i :: 0 <= i < |via| ==> via[i] == final))
  {
    var n := |via| - 1;
    if n > 0 {
      PublishAllLeaves(a, via[..n]);
      var b := PublishAll(a, via[..n]);
      assert via[..n][n - 1] == via[n - 1];
      if b.row == a.row && (forall i :: 0 <= i < n ==> via[..n][i] == via[n - 1]) {
        forall i | 0 <= i < n ensures via[i] == via[n - 1] { assert via[..n][i] == via[i]; }
      }
    } else {
      assert via[..n] == [];
    }
  }

  /** A completed update closes both update gates: the one `VerifyState` looks
      through and the one the next request's transition is chosen by. */
  lemma UpdateClosesBothGates(a: App, p: Payload)
    requires RowAgrees(a)
    ensures var done := Complete(a, Update, p, []);
            && done.current == PRESENT && done.version == p.newest && done.target == a.target
            && done.row.Some? && done.row.value.target == a.target
            && !PendingUpdate(done.row.value)
            && !UpdateGate(done.row.value, Prepare(done, done.row.value).version)
  {
  }

  // ---------------------------------------------------------------------
  // The measure
  // ---------------------------------------------------------------------

  /** A record whose own row is the next request. */
  predicate Pending(a: App) {
    RowAgrees(a) && a.row.Some?
  }

  predicate GateOpen(a: App)
    requires Pending(a)
  {
    UpdateGate(a.row.value, Adopt(a, a.row.value).version)
  }

  /** The state the next transition starts from. */
  function From(a: App): AppState
    requires Pending(a)
  {
    Adopt(a, a.row.value).current
  }

  /** The pair whose transition reports success and does nothing. */
  predicate Spins(a: App)
    requires Pending(a)
  {
    !GateOpen(a) && From(a) == RUNNING && a.target == PUBLISHED && a.current != UPDATING
  }

  function Rank(a: App): nat
    requires Pending(a)
  {
    if GateOpen(a) then 3
    else if From(a) == RUNNING && a.target == BUILT then 2
    else if From(a) != a.target then 1
    else 0
  }

  /** What a request that leads to another one has done: its transition
      succeeded, and the next request is the row it left. */
  lemma SpawnedBy(a: App, p: Payload, how: How)
    requires Fits(a, p, how) && Round(a, p, how).1.Some?
    ensures var ready := Prepare(a, p);
            && !Cancels(a, p) && a.current != UPDATING && how.Succeeds?
            && Choose(ready, p).Some? && CanSucceed(Choose(ready, p).value)
            && Round(a, p, how).0 == Complete(ready, Choose(ready, p).value, p, how.via)
            && Round(a, p, how).1 == Round(a, p, how).0.row
            && Verify(Round(a, p, how).0).Some?
  {
    SuccessIsNeverBuilt(a, p, how);
  }

  /** No transition a PROD app completes ends BUILT, so verification promotes
      nothing in the chain. */
  lemma SuccessIsNeverBuilt(a: App, p: Payload, how: How)
    requires Fits(a, p, how) && how.Succeeds? && Choose(Prepare(a, p), p).Some?
    requires CanSucceed(Choose(Prepare(a, p), p).value)
    ensures Complete(Prepare(a, p), Choose(Prepare(a, p), p).value, p, how.via).current != BUILT
  {
    var ready := Prepare(a, p);
    if !Choose(ready, p).value.Update? && how.via != [] { PublishAllLeaves(ready, how.via); }
  }

  /** Every re-driven request strictly lowers the rank, unless it spins. */
  lemma RoundLowersRank(a: App, how: How)
    requires Pending(a) && Fits(a, a.row.value, how) && !Spins(a)
    ensures var (b, next) := Round(a, a.row.value, how);
            next.Some? ==> Pending(b) && next == b.row && !Spins(b) && Rank(b) < Rank(a)
  {
    var p := a.row.value;
    if Round(a, p, how).1.Some? {
      SpawnedBy(a, p, how);
      var action := Choose(Prepare(a, p), p).value;
      if action.Update? {
        UpdateRoundLowersRank(a);
      } else {
        StateRoundLowersRank(a, action, how.via);
      }
    }
  }

  lemma UpdateRoundLowersRank(a: App)
    requires Pending(a) && Choose(Prepare(a, a.row.value), a.row.value) == Some(Update)
    ensures var b := Complete(Prepare(a, a.row.value), Update, a.row.value, []);
            Pending(b) && !Spins(b) && Rank(b) < Rank(a)
  {
    PreparedRow(a);
    UpdateClosesBothGates(Prepare(a, a.row.value), a.row.value);
  }

  /** Where a table transition leads: to the requested state, except that a
      running app asked to be BUILT is only stopped, and a plain download asked
      to be uninstalled is only removed. */
  lemma TableReachesTarget(from: AppState, p: Payload, action: Action)
    requires Transition(from, p.target) == Some(action) && CanSucceed(action) && !action.RemoveAndPublish?
    ensures Final(action, p) == p.target
            || (from == RUNNING && p.target == BUILT && Final(action, p) == PRESENT)
            || (p.target == UNINSTALLED && Final(action, p) == REMOVED)
    ensures from == p.target ==> p.target == PUBLISHED
    ensures Immediate(action, p) ==> Final(action, p) == REMOVED || (p.target == PRESENT && from != PRESENT)
    ensures Final(action, p) == REMOVED ==> IsTeardown(p.target)
  {
  }

  /** Preparing a request from the own row leaves the gate as it was. */
  lemma PreparedRow(a: App)
    requires Pending(a)
    ensures var p := a.row.value;
            var ready := Prepare(a, p);
            && RowAgrees(ready) && ready.row.Some? && ready.target == a.target && ready.current == From(a)
            && ready.row.value.requestUpdate == p.requestUpdate && ready.row.value.newest == p.newest
            && (ready.row.value.present != "" ==> ready.row.value.present == ready.version)
            && UpdateGate(p, ready.version) == GateOpen(a)
  {
    EveryWriteKeepsTheRow(a, RUNNING, a.row.value);
  }

  lemma TeardownRowIsGone(a: App, via: seq<AppState>)
    requires RowAgrees(a) && via != [] && via[|via| - 1] == REMOVED && IsTeardown(a.target)
    ensures PublishAll(a, via).row.None?
  {
    var n := |via| - 1;
    if n > 0 { PublishAllLeaves(a, via[..n]); } else { assert via[..n] == []; }
  }

  lemma StateRoundLowersRank(a: App, action: Action, via: seq<AppState>)
    requires Pending(a) && !Spins(a) && a.current != UPDATING
    requires Choose(Prepare(a, a.row.value), a.row.value) == Some(action) && !action.Update?
    requires CanSucceed(action) && Proper(action, a.row.value, via)
    requires Verify(PublishAll(Prepare(a, a.row.value), via)).Some?
    ensures var b := PublishAll(Prepare(a, a.row.value), via);
            Pending(b) && !Spins(b) && Rank(b) < Rank(a)
  {
    var p := a.row.value;
    var ready := Prepare(a, p);
    PreparedRow(a);
    PublishAllLeaves(ready, via);
    var final := Final(action, p);
    TableReachesTarget(From(a), p, action);
    if final == REMOVED { TeardownRowIsGone(ready, via); }
    FinishedRow(ready, PublishAll(ready, via), final);
  }

  /** The gate stays closed over a finished transition, and the next request
      starts from the state it ended in. */
  lemma FinishedRow(ready: App, b: App, final: AppState)
    requires Pending(ready) && (ready.row.value.present != "" ==> ready.row.value.present == ready.version)
    requires !UpdateGate(ready.row.value, ready.version)
    requires b.row.Some? && b.current == final && b.target == ready.target && b.version == ready.version
    requires b.row == Refreshed(ready, final) || b.row == ready.row
    ensures Pending(b) && !GateOpen(b)
    ensures b.row == Refreshed(ready, final) ==> From(b) == final && !PendingUpdate(b.row.value)
    ensures b.target == PRESENT && final == PRESENT ==> From(b) == PRESENT
  {
  }

  // ---------------------------------------------------------------------
  // The chain
  // ---------------------------------------------------------------------

  /** How many requests run when the environment answers with `hows`. */
  function Rounds(a: App, p: Payload, hows: seq<How>): nat
    decreases |hows|
  {
    if hows == [] then 0
    else
      var (b, next) := Round(a, p, hows[0]);
      1 + if next.None? then 0 else Rounds(b, next.value, hows[1..])
  }

  /** The environment's answers fit every transition they meet. */
  predicate AllFit(a: App, p: Payload, hows: seq<How>)
    decreases |hows|
  {
    hows == [] ||
    (Fits(a, p, hows[0])
     && var (b, next) := Round(a, p, hows[0]);
        next.None? || AllFit(b, next.value, hows[1..]))
  }

  /** A chain that does not spin runs at most `Rank` + 1 requests, so four. */
  lemma {:induction false} ChainIsBounded(a: App, hows: seq<How>)
    requires Pending(a) && !Spins(a) && AllFit(a, a.row.value, hows)
    ensures Rounds(a, a.row.value, hows) <= Rank(a) + 1 <= 4
    decreases |hows|
  {
    if hows != [] {
      RoundLowersRank(a, hows[0]);
      var (b, next) := Round(a, a.row.value, hows[0]);
      if next.Some? { ChainIsBounded(b, hows[1..]); }
    }
  }

  function Again(n: nat): (hows: seq<How>)
    ensures |hows| == n && forall i :: 0 <= i < n ==> hows[i] == Succeeds([])
  {
    if n == 0 then [] else [Succeeds([])] + Again(n - 1)
  }

  lemma SpinsAgain(a: App)
    requires Pending(a) && Spins(a)
    ensures var (b, next) := Round(a, a.row.value, Succeeds([]));
            Fits(a, a.row.value, Succeeds([])) && next.Some? && Pending(b) && next == b.row && Spins(b)
  {
    PreparedRow(a);
  }

  lemma {:induction false} SpinningChainNeverEnds(a: App, n: nat)
    requires Pending(a) && Spins(a)
    ensures AllFit(a, a.row.value, Again(n)) && Rounds(a, a.row.value, Again(n)) == n
    decreases n
  {
    if n > 0 {
      SpinsAgain(a);
      var (b, next) := Round(a, a.row.value, Succeeds([]));
      SpinningChainNeverEnds(b, n - 1);
      assert Again(n)[1..] == Again(n - 1);
    }
  }

  /** The chain is bounded for every behaviour of the environment if and only if
      it does not start from a running app whose target is PUBLISHED. */
  lemma ChainIsBoundedExactlyWhenItDoesNotSpin(a: App)
    requires Pending(a)
    ensures !Spins(a) <==> forall hows :: AllFit(a, a.row.value, hows) ==> Rounds(a, a.row.value, hows) <= 4
  {
    if Spins(a) {
      SpinningChainNeverEnds(a, 5);
    } else {
      forall hows | AllFit(a, a.row.value, hows) ensures Rounds(a, a.row.value, hows) <= 4 {
        ChainIsBounded(a, hows);
      }
    }
  }

  // ---------------------------------------------------------------------
  // Where the chain ends
  // ---------------------------------------------------------------------

  /** The last request of the chain, the record it started from and the record it
      left. */
  function Chain(a: App, p: Payload, hows: seq<How>): (App, Payload, App)
    requires hows != []
    decreases |hows|
  {
    var (b, next) := Round(a, p, hows[0]);
    if next.None? || |hows| == 1 then (a, p, b) else Chain(b, next.value, hows[1..])
  }

  /** At its target with no update pending; or the row is gone, the table has no
      transition or none that does anything, PROD cannot complete it, the app is
      UPDATING, or the request was a cancel. */
  predicate Ends(a: App, p: Payload, b: App) {
    var choice := Choose(Prepare(a, p), p);
    || (b.row.Some? && b.current == b.target && !PendingUpdate(b.row.value))
    || b.row.None?
    || choice.None? || choice.value.NoAction?
    || (!CanSucceed(choice.value) && b.current == FAILED)
    || a.current == UPDATING || Cancels(a, p)
  }

  lemma SuccessIsNeverFailed(a: App, p: Payload, how: How)
    requires Fits(a, p, how) && how.Succeeds? && Choose(Prepare(a, p), p).Some?
    requires CanSucceed(Choose(Prepare(a, p), p).value)
    ensures Complete(Prepare(a, p), Choose(Prepare(a, p), p).value, p, how.via).current != FAILED
  {
    var ready := Prepare(a, p);
    if !Choose(ready, p).value.Update? && how.via != [] { PublishAllLeaves(ready, how.via); }
  }

  lemma LastRoundEnds(a: App, p: Payload, how: How)
    requires Fits(a, p, how) && how.Succeeds? && Round(a, p, how).1.None?
    ensures Ends(a, p, Round(a, p, how).0)
  {
    var choice := Choose(Prepare(a, p), p);
    if choice.Some? && CanSucceed(choice.value) {
      SuccessIsNeverBuilt(a, p, how);
      SuccessIsNeverFailed(a, p, how);
    }
  }

  lemma {:induction false} StoppedChainEnds(a: App, p: Payload, hows: seq<How>)
    requires RowAgrees(a) && hows != [] && AllFit(a, p, hows) && Rounds(a, p, hows) < |hows|
    requires forall i :: 0 <= i < |hows| ==> hows[i].Succeeds?
    ensures var (x, q, b) := Chain(a, p, hows); Ends(x, q, b)
    decreases |hows|
  {
    ChainStep(a, p, hows);
    var (b, next) := Round(a, p, hows[0]);
    if next.None? {
      LastRoundEnds(a, p, hows[0]);
    } else {
      StoppedChainEnds(b, next.value, hows[1..]);
    }
  }

  /** When every transition succeeds, a chain that does not spin is over after four
      requests, and it has brought the app to its target with no update pending,
      unless it ended for one of the listed reasons. */
  lemma SuccessfulChainReachesItsTarget(a: App, hows: seq<How>)
    requires Pending(a) && !Spins(a) && |hows| > 4 && AllFit(a, a.row.value, hows)
    requires forall i :: 0 <= i < |hows| ==> hows[i].Succeeds?
    ensures var (x, q, b) := Chain(a, a.row.value, hows); Ends(x, q, b)
  {
    ChainIsBounded(a, hows);
    StoppedChainEnds(a, a.row.value, hows);
  }

  // ---------------------------------------------------------------------
  // Requests that do not succeed
  // ---------------------------------------------------------------------

  /** A request without a token ends where it was prepared. */
  lemma LostTokenChangesNothing(a: App, p: Payload)
    requires !Cancels(a, p) && a.current != UPDATING
    ensures Round(a, p, TokenLost) == (Prepare(a, p), None)
    ensures Prepare(a, p).target == a.target && (Prepare(a, p).row.Some? <==> a.row.Some?)
  {
  }

  /** Whatever the disk guard refuses leaves the app FAILED with target and row, and
      leads to no other request. */
  lemma RefusalLeavesFailed(a: App, p: Payload)
    requires !Cancels(a, p) && a.current != UPDATING
    ensures var (b, next) := Round(a, p, Refused);
            && b.current == FAILED && b.target == a.target && next == None
            && (b.row.Some? <==> a.row.Some?) && (RowMatches(a) ==> RowMatches(b))
  {
    if RowMatches(a) { EveryWriteKeepsTheRow(a, FAILED, p); }
  }

  predicate DoesNotSucceed(action: Action, how: How) {
    !action.NoAction? && (how.Fails? || (how.Succeeds? && !CanSucceed(action)))
  }

  /** So does whatever transition fails or cannot be completed by a PROD app; the
      row is kept unless the transition got as far as publishing REMOVED. */
  lemma FailureLeavesFailed(a: App, p: Payload, how: How)
    requires !Cancels(a, p) && a.current != UPDATING && Choose(Prepare(a, p), p).Some?
    requires DoesNotSucceed(Choose(Prepare(a, p), p).value, how)
    ensures Round(a, p, how) == (Notify(PublishAll(Prepare(a, p), how.via), FAILED), None)
    ensures var b := Round(a, p, how).0;
            && b.current == FAILED && b.target == a.target
            && (a.row.Some? && REMOVED !in how.via ==> b.row.Some?)
            && (RowMatches(a) ==> RowMatches(b))
  {
    var ready := Prepare(a, p);
    PublishAllKeepsRow(ready, how.via);
    if RowMatches(a) {
      EveryWriteKeepsTheRow(a, FAILED, p);
      EveryWriteKeepsTheRow(PublishAll(ready, how.via), FAILED, p);
    }
  }

  lemma {:induction false} PublishAllKeepsRow(a: App, via: seq<AppState>)
    ensures PublishAll(a, via).target == a.target
    ensures a.row.Some? && REMOVED !in via ==> PublishAll(a, via).row.Some?
    ensures RowMatches(a) ==> RowMatches(PublishAll(a, via))
  {
    if via != [] { PublishAllKeepsRow(a, via[..|via| - 1]); }
  }

  // ---------------------------------------------------------------------
  // The manager object
  // ---------------------------------------------------------------------

  /** What a request does that others can see, in order. */
  datatype Effect = Take | Give | Report(state: AppState)

  function Reports(states: seq<AppState>): (effects: seq<Effect>)
    ensures |effects| == |states| && forall i :: 0 <= i < |states| ==> effects[i] == Report(states[i])
  {
    if states == [] then [] else Reports(states[..|states| - 1]) + [Report(states[|states| - 1])]
  }

  lemma ReportsAppend(states: seq<AppState>, state: AppState)
    ensures Reports(states + [state]) == Reports(states) + [Report(state)]
  {
    assert (states + [state])[..|states|] == states;
  }

  /** The states a request publishes while it holds the lock: an update publishes
      UPDATING and then PRESENT, any other transition its own. */
  function Inside(a: App, p: Payload, how: How): seq<AppState> {
    var choice := Choose(Prepare(a, p), p);
    if how.TokenLost? || how.Refused? || choice.None? || choice.value.NoAction? then []
    else if choice.value.Update? && how.Succeeds? then [UPDATING, PRESENT]
    else how.via
  }

  /** The lock is taken and given back once, everything the transition publishes lies
      in between, and at most one more state is published after it. */
  ghost predicate LockedAround(before: seq<Effect>, inside: seq<AppState>, after: seq<Effect>) {
    exists tail: seq<AppState> ::
      |tail| <= 1 && after == before + [Take] + Reports(inside) + [Give] + Reports(tail)
  }

  lemma NothingInside(start: seq<Effect>, tail: seq<AppState>)
    ensures start + Reports([]) + [Give] + Reports(tail) == start + [Give] + Reports(tail)
    ensures tail == [] ==> start + Reports([]) + [Give] + Reports(tail) == start + [Give]
  {
  }

  class AppManager {
    var app: App
    var locked: bool
    var effects: seq<Effect>

    constructor (record: App)
      ensures app == record && !locked && effects == []
    {
      app, locked, effects := record, false, [];
    }

    method SecureTransition() returns (refused: bool)
      modifies this`locked, this`effects
      ensures refused == old(locked) && locked
      ensures effects == if refused then old(effects) else old(effects) + [Take]
    {
      if locked {
        return true;
      }
      locked := true;
      effects := effects + [Take];
      refused := false;
    }

    method UnlockTransition()
      modifies this`locked, this`effects
      ensures !locked && effects == old(effects) + [Give]
    {
      locked := false;
      effects := effects + [Give];
    }

    method Publish(state: AppState)
      modifies this`app, this`effects
      ensures app == Notify(old(app), state) && effects == old(effects) + Reports([state])
    {
      app := Notify(app, state);
      effects := effects + [Report(state)];
    }

    method CreateOrUpdateApp(p: Payload)
      modifies this`app
      ensures app == Store(old(app), p)
      ensures var pushed := TransientToActual(p.target);
              if KeptOut(old(app).current, old(app).target, pushed) then app == old(app)
              else app.target == pushed && app.row == Some(p.(target := pushed, cancel := false))
                   && app.current == old(app).current && app.version == old(app).version
    {
      var target := TransientToActual(p.target);
      var teardown := target == UNINSTALLED || target == REMOVED;
      if app.current == BUILT && app.target != BUILT && !teardown {
        return;
      }
      app := app.(target := target);
      app := app.(row := Some(p.(target := target, cancel := false)));
    }

    method UpdateCurrentAppState(p: Payload)
      modifies this`app
      ensures app == Prepare(old(app), p)
    {
      var before := app.current;
      if before == BUILT || before == PUBLISHED || (before == PRESENT && app.target == BUILT) {
        if p.reported.Some? {
          app := app.(current := p.reported.value);
        }
      }
      if p.present != "" {
        app := app.(version := p.present);
      }
      app := Upsert(app, before);
    }

    /** The request `VerifyState` would spawn, if any. */
    method VerifyState() returns (next: Option<Payload>)
      modifies this`app, this`effects
      ensures next == Verify(old(app)) && app == Promoted(old(app))
      ensures effects == old(effects) + Reports(if Promotes(old(app)) then [PRESENT] else [])
    {
      assert effects + [] == effects;
      if app.row.None? {
        return None;
      }
      if app.current == FAILED {
        return None;
      }
      var row := app.row.value;
      var pendingUpdate := row.requestUpdate && row.newest != row.present && row.target != UNINSTALLED;
      next := if app.current != app.target || pendingUpdate then Some(row) else None;
      if app.current == BUILT && app.target == BUILT {
        Publish(PRESENT);
      }
    }

    method PublishStates(via: seq<AppState>)
      modifies this`app, this`effects
      ensures app == PublishAll(old(app), via) && effects == old(effects) + Reports(via)
    {
      assert via[..0] == [];
      for i := 0 to |via|
        invariant app == PublishAll(old(app), via[..i]) && effects == old(effects) + Reports(via[..i])
      {
        Publish(via[i]);
        assert via[..i + 1] == via[..i] + [via[i]];
        ReportsAppend(via[..i], via[i]);
      }
      assert via[..|via|] == via;
    }

    method UpdateApp(p: Payload)
      modifies this`app, this`effects
      ensures app == Complete(old(app), Update, p, [])
      ensures effects == old(effects) + Reports([UPDATING, PRESENT])
    {
      Publish(UPDATING);
      app := app.(version := p.newest);
      Publish(PRESENT);
      app := Persist(app, p);
    }

    /** One request. A cancel runs without the lock, a request that finds the lock
        taken is refused; every other path takes the lock and has released it again
        on the way out. */
    method RequestAppState(p: Payload, how: How) returns (next: Option<Payload>)
      modifies this
      ensures locked == old(locked)
      ensures (app, next) == if old(locked) && !Cancels(old(app), p) then (old(app), None) else Round(old(app), p, how)
      ensures if Cancels(old(app), p) then exists states :: effects == old(effects) + Reports(states)
              else if old(app).current == UPDATING || old(locked) then effects == old(effects)
              else LockedAround(old(effects), Inside(old(app), p, how), effects)
    {
      assert effects + Reports([]) == effects;
      if p.cancel {
        CancelTransition(p, how);
        return None;
      }
      if app.current == UPDATING {
        if p.target == PRESENT || p.target == REMOVED || p.target == UNINSTALLED {
          CancelTransition(p, how);
        }
        return None;
      }
      var refused := SecureTransition();
      if refused {
        return None;
      }
      next := RunLocked(p, how);
    }

    /** The request from the lock on. */
    method RunLocked(p: Payload, how: How) returns (next: Option<Payload>)
      requires locked && !Cancels(app, p) && app.current != UPDATING
      modifies this
      ensures !locked && (app, next) == Round(old(app), p, how)
      ensures exists tail: seq<AppState> :: |tail| <= 1
                && effects == old(effects) + Reports(Inside(old(app), p, how)) + [Give] + Reports(tail)
    {
      next := None;
      ghost var start := effects;
      UpdateCurrentAppState(p);
      var action := Choose(app, p);
      if how.TokenLost? || (!how.Refused? && action.None?) {
        UnlockTransition();
        NothingInside(start, []);
      } else if how.Refused? {
        UnlockTransition();
        Publish(FAILED);
        NothingInside(start, [FAILED]);
      } else if action.value.NoAction? {
        UnlockTransition();
        ghost var state := app.current;
        Publish(app.current);
        NothingInside(start, [state]);
      } else {
        next := RunTransition(p, how, action.value);
      }
    }

    /** The transition, and what follows it. */
    method RunTransition(p: Payload, how: How, action: Action) returns (next: Option<Payload>)
      requires locked && !action.NoAction? && (how.Fails? || how.Succeeds?)
      modifies this
      ensures !locked
      ensures (app, next) == if how.Succeeds? && CanSucceed(action)
                             then (Promoted(Complete(old(app), action, p, how.via)),
                                   Verify(Complete(old(app), action, p, how.via)))
                             else (Notify(PublishAll(old(app), how.via), FAILED), None)
      ensures var inside := if action.Update? && how.Succeeds? then [UPDATING, PRESENT] else how.via;
              exists tail: seq<AppState> :: |tail| <= 1
                && effects == old(effects) + Reports(inside) + [Give] + Reports(tail)
    {
      ghost var start := effects;
      if how.Succeeds? && CanSucceed(action) {
        if action.Update? {
          UpdateApp(p);
        } else {
          PublishStates(how.via);
        }
        UnlockTransition();
        next := VerifyState();
      } else {
        PublishStates(how.via);
        UnlockTransition();
        Publish(FAILED);
        next := None;
      }
    }

    method CancelTransition(p: Payload, how: How)
      modifies this`app, this`effects
      ensures app == CancelRound(old(app), p, how)
      ensures exists states :: effects == old(effects) + Reports(states)
    {
      assert effects + Reports([]) == effects;
      if Transition(app.current, p.target).None? || how.TokenLost? || how.Refused? {
        return;
      }
      PublishStates(how.via);
    }

    /** Drives the stored row until `VerifyState` has nothing left to spawn. */
    method Redrive(hows: seq<How>) returns (rounds: nat)
      requires !locked && Pending(app) && AllFit(app, app.row.value, hows)
      modifies this
      ensures !locked && rounds == Rounds(old(app), old(app).row.value, hows)
      ensures !Spins(old(app)) ==> rounds <= 4
    {
      if !Spins(app) { ChainIsBounded(app, hows); }
      rounds := 0;
      var next := app.row;
      ghost var rest := hows;
      while next.Some? && rounds < |hows|
        invariant !locked && rounds <= |hows| && rest == hows[rounds..]
        invariant next.Some? ==> Pending(app) && next == app.row && !next.value.cancel && AllFit(app, next.value, rest)
        invariant rounds + (if next.Some? then Rounds(app, next.value, rest) else 0)
                  == Rounds(old(app), old(app).row.value, hows)
        decreases |hows| - rounds
      {
        ChainStep(app, next.value, rest);
        next := RequestAppState(next.value, hows[rounds]);
        rounds := rounds + 1;
        rest := rest[1..];
      }
    }
  }

  /** A request ends on a record that can be re-driven again. */
  lemma RecordStaysPending(a: App, p: Payload, how: How)
    requires RowAgrees(a) && Fits(a, p, how)
    ensures var (b, next) := Round(a, p, how);
            next.Some? ==> Pending(b) && next == b.row && !next.value.cancel
  {
    if Round(a, p, how).1.Some? {
      SpawnedBy(a, p, how);
      EveryWriteKeepsTheRow(a, RUNNING, p);
      PublishAllAgrees(Prepare(a, p), how.via);
    }
  }

  /** One turn of the chain. */
  lemma ChainStep(a: App, p: Payload, hows: seq<How>)
    requires RowAgrees(a) && hows != [] && AllFit(a, p, hows)
    ensures var (b, next) := Round(a, p, hows[0]);
            && (next.Some? ==> Pending(b) && next == b.row && !next.value.cancel && AllFit(b, next.value, hows[1..]))
            && Rounds(a, p, hows) == 1 + if next.Some? then Rounds(b, next.value, hows[1..]) else 0
  {
    RecordStaysPending(a, p, hows[0]);
  }

  /** The chain that starts with any request at all, whatever it asks for. */
  lemma AnyRequestChainIsBounded(a: App, p: Payload, hows: seq<How>)
    requires RowAgrees(a) && AllFit(a, p, hows) && hows != []
    requires var (b, next) := Round(a, p, hows[0]); next.Some? && Pending(b) ==> !Spins(b)
    ensures Rounds(a, p, hows) <= 5
  {
    RecordStaysPending(a, p, hows[0]);
    var (b, next) := Round(a, p, hows[0]);
    if next.Some? { ChainIsBounded(b, hows[1..]); }
  }

  lemma {:induction false} PublishAllAgrees(a: App, via: seq<AppState>)
    requires RowAgrees(a)
    ensures RowAgrees(PublishAll(a, via))
  {
    if via != [] {
      PublishAllAgrees(a, via[..|via| - 1]);
    }
  }
}
