/** What becomes of a target that the controller of `Controller` could not serve
    at once: the exact fate of a request refused by the transition that holds the
    lock, or dropped for an update in flight. */
module Targets {
  import opened Wrappers
  import opened AppStates
  import opened Controller

  // ---------------------------------------------------------------------
  // A thread moves by its own steps only
  // ---------------------------------------------------------------------

  function Actor(e: Event): Option<nat> {
    if e.Push? || e.Sync? || e.Retry? || e.Reconcile? then None
    else if e.ProbeLock? || e.ProbeUnlock? || e.Observe? || e.Correct? || e.TransferFails? || e.Purge? then None
    else Some(e.t)
  }

  lemma OtherThreads(s: State, e: Event, h: nat)
    requires LockHeld(s) && Enabled(s, e) && h < s.next && Actor(e) != Some(h)
    ensures At(Step(s, e), h) == At(s, h) && h < Step(s, e).next
  {
    if IsRequest(e) { OtherThreadsRequest(s, e, h); }
    else if IsTransition(e) { OtherThreadsTransition(s, e, h); }
    else if IsVerify(e) { OtherThreadsVerify(s, e, h); }
    else { OtherThreadsObserver(s, e, h); }
  }

  lemma OtherThreadsRequest(s: State, e: Event, h: nat)
    requires LockHeld(s) && Enabled(s, e) && IsRequest(e) && h < s.next && Actor(e) != Some(h)
    ensures At(RequestStep(s, e), h) == At(s, h) && h < RequestStep(s, e).next
  {
  }

  lemma OtherThreadsTransition(s: State, e: Event, h: nat)
    requires LockHeld(s) && Enabled(s, e) && IsTransition(e) && h < s.next && Actor(e) != Some(h)
    ensures At(TransitionStep(s, e), h) == At(s, h) && h < TransitionStep(s, e).next
  {
  }

  lemma OtherThreadsVerify(s: State, e: Event, h: nat)
    requires LockHeld(s) && Enabled(s, e) && IsVerify(e) && h < s.next && Actor(e) != Some(h)
    ensures At(VerifyStep(s, e), h) == At(s, h) && h < VerifyStep(s, e).next
  {
  }

  lemma OtherThreadsObserver(s: State, e: Event, h: nat)
    requires LockHeld(s) && Enabled(s, e) && IsObserver(e) && h < s.next && Actor(e) != Some(h)
    ensures At(ObserverStep(s, e), h) == At(s, h) && h < ObserverStep(s, e).next
  {
  }

  /** How far a lock holder has come: not finished, on its way to verify, past the
      comparison, on its way to publish FAILED, or to do nothing. */
  datatype Course = NotHolding | Open | Verifies | Compared | Fails | Idles

  function OutcomeCourse(outcome: Outcome): Course {
    match outcome
    case Success | Canceled => Verifies
    case NothingDone => Idles
    case Failure => Fails
  }

  function CourseOf(pc: Pc): Course {
    match pc
    case Holding(_) | Prepared(_) | Running(_, _, _) => Open
    case Ended(outcome, _) => OutcomeCourse(outcome)
    case Verifying | Comparing(_) => Verifies
    case Promoting => Compared
    case Failing => Fails
    case Settling | Settled(_) => Idles
    case _ => NotHolding
  }

  /** The disk guard refuses the request of `h` right before its transition. */
  predicate GuardRefuses(s: State, e: Event, h: nat) {
    && e.Init? && e.t == h && e.token
    && h in s.threads && s.threads[h].Prepared? && Refuses(s.threads[h].p, e.emergency)
  }

  /** The course a step of `h` puts it on. */
  function Turned(e: Event, h: nat): Option<Course> {
    if e.Finish? && e.t == h then Some(OutcomeCourse(e.outcome))
    else if e == Compare(h) then Some(Compared)
    else None
  }

  /** One step of a lock holder: it keeps its course, turns, or leaves. */
  predicate Goes(s: State, e: Event, h: nat, to: Option<Pc>)
    requires h in s.threads
  {
    var pc := s.threads[h];
    match to
    case None =>
      (match pc
       case Holding(_) => e == Adoption(h, false)
       case Prepared(p) => e.Init? && e.t == h && Unstartable(s.app, p, e.token, e.emergency)
       case Verifying => e == ReadRow(h) && s.app.row.None?
       case Comparing(_) => e == Compare(h)
       case Promoting => e == Promote(h)
       case Failing => e == PublishFailed(h)
       case Settled(_) => e == Republish(h)
       case _ => CourseOf(pc) == NotHolding)
    case Some(next) =>
      (InLock(next) ==> InLock(pc) || pc.Admitted?) &&
      match CourseOf(pc)
      case NotHolding => CourseOf(next) == NotHolding || CourseOf(next) == Open
      case Open =>
        || (CourseOf(next) == Open && Turned(e, h).None?)
        || (pc.Running? && Turned(e, h) == Some(CourseOf(next)) && CourseOf(next) != Compared)
        || (CourseOf(next) == Fails && GuardRefuses(s, e, h))
      case Verifies =>
        || (CourseOf(next) == Verifies && Turned(e, h).None?)
        || (CourseOf(next) == Compared && Turned(e, h) == Some(Compared))
      case Compared => false
      case c => CourseOf(next) == c && Turned(e, h).None?
  }

  lemma OwnStep(s: State, e: Event, h: nat)
    requires LockHeld(s) && Enabled(s, e) && h in s.threads && Actor(e) == Some(h)
    ensures Goes(s, e, h, At(Step(s, e), h))
  {
    if IsRequest(e) { OwnRequestStep(s, e, h); }
    else if IsTransition(e) { OwnTransitionStep(s, e, h); }
    else if IsVerify(e) { OwnVerifyStep(s, e, h); }
  }

  lemma OwnRequestStep(s: State, e: Event, h: nat)
    requires LockHeld(s) && Enabled(s, e) && IsRequest(e) && h in s.threads && Actor(e) == Some(h)
    ensures Goes(s, e, h, At(RequestStep(s, e), h))
  {
  }

  lemma OwnTransitionStep(s: State, e: Event, h: nat)
    requires LockHeld(s) && Enabled(s, e) && IsTransition(e) && h in s.threads && Actor(e) == Some(h)
    ensures Goes(s, e, h, At(TransitionStep(s, e), h))
  {
  }

  lemma OwnVerifyStep(s: State, e: Event, h: nat)
    requires LockHeld(s) && Enabled(s, e) && IsVerify(e) && h in s.threads && Actor(e) == Some(h)
    ensures Goes(s, e, h, At(VerifyStep(s, e), h))
  {
  }

  /** One step of the run, as thread `h` sees it. */
  lemma Seen(r: Trace, i: nat, h: nat)
    requires IsRun(r) && i < |r.events| && h < r.states[i].next
    ensures h < r.states[i + 1].next && LockHeld(r.states[i])
    ensures Actor(r.events[i]) != Some(h) ==> At(r.states[i + 1], h) == At(r.states[i], h)
    ensures Actor(r.events[i]) == Some(h) ==> h in r.states[i].threads
    ensures h in r.states[i].threads && Actor(r.events[i]) == Some(h) ==>
              Goes(r.states[i], r.events[i], h, At(r.states[i + 1], h))
  {
    InvAlways(r, i);
    InvAlways(r, i + 1);
    assert Follows(r, i);
    ActorIsThere(r.states[i], r.events[i]);
    if Actor(r.events[i]) == Some(h) {
      OwnStep(r.states[i], r.events[i], h);
      NumbersGrow(r.states[i], r.events[i]);
    } else {
      OtherThreads(r.states[i], r.events[i], h);
    }
  }

  lemma ActorIsThere(s: State, e: Event)
    requires Enabled(s, e)
    ensures Actor(e).Some? ==> Actor(e).value in s.threads
  {
  }

  lemma NumbersGrow(s: State, e: Event)
    requires LockHeld(s) && Enabled(s, e)
    ensures s.next <= Step(s, e).next
  {
    EveryStepTreatsThreads(s, e);
  }

  // ---------------------------------------------------------------------
  // What a request may do next
  // ---------------------------------------------------------------------

  /** A request that has been called cancels, is dropped or goes on: it cancels if it
      asks to, or if it would settle or tear down an app that is UPDATING; any other
      request for an app that is UPDATING is dropped. */
  lemma EnterDecides(s: State, t: nat)
    requires Enabled(s, Enter(t))
    ensures var p, current := s.threads[t].p, s.app.current;
            var settles := p.target == PRESENT || p.target == REMOVED || p.target == UNINSTALLED;
            At(Step(s, Enter(t)), t) ==
            if p.cancel then Some(Summoned(p))
            else if current != UPDATING then Some(Admitted(p))
            else if settles then Some(Summoned(p))
            else None
    ensures Step(s, Enter(t)).app == s.app && Step(s, Enter(t)).lock == s.lock
  {
  }

  /** An update publishes UPDATING, installs its version, publishes PRESENT, writes
      its row and then succeeds, in this order and nothing else, and may fail or be
      canceled in between. A transition without action publishes nothing. Every
      other one publishes what it likes, but never UPDATING. */
  lemma TransitionsKeepToTheirScript(s: State, t: nat, state: AppState, outcome: Outcome)
    requires t in s.threads && s.threads[t].Running?
    ensures var action, phase := s.threads[t].action, s.threads[t].phase;
            && (Enabled(s, Event.Publish(t, state)) <==>
                  match action
                  case Update => phase in {0, 2} && state == (if phase == 0 then UPDATING else PRESENT)
                  case NoAction => false
                  case _ => state != UPDATING)
            && (Enabled(s, InstallVersion(t)) <==> action == Update && phase == 1)
            && (Enabled(s, PersistRow(t)) <==> action == Update && phase == 3)
            && (Enabled(s, Finish(t, outcome)) <==>
                  match action
                  case NoAction => outcome == NothingDone
                  case Update => outcome == Failure || outcome == Outcome.Canceled || (outcome == Success && phase == 4)
                  case RemovedToPresent => true
                  case _ => outcome != NothingDone)
    ensures Enabled(s, Event.Publish(t, state)) && s.threads[t].action.Update? ==>
              At(Step(s, Event.Publish(t, state)), t) == Some(s.threads[t].(phase := s.threads[t].phase + 1))
  {
  }

  /** A cancel's transition publishes what it likes but UPDATING, may end at any time
      and then leaves without verification, whoever holds the lock. */
  lemma CancelsEndAtAnyTime(s: State, t: nat, state: AppState, outcome: Outcome)
    requires t in s.threads && s.threads[t].Canceling?
    ensures Enabled(s, Finish(t, outcome)) && (Enabled(s, Event.Publish(t, state)) <==> state != UPDATING)
    ensures Step(s, Finish(t, outcome)) == s.(threads := s.threads - {t})
  {
  }

  /** What others do to the app. An observer reports RUNNING, PRESENT or FAILED, and
      requests the stored row again for a PROD app that has not failed; a correction
      publishes anything but UPDATING and requests nothing. */
  lemma ReportsAndCorrections(s: State, state: AppState, prod: bool)
    requires LockHeld(s)
    ensures Enabled(s, Observe(state, prod)) <==> state == RUNNING || state == PRESENT || state == FAILED
    ensures Enabled(s, Correct(state)) <==> state != UPDATING
    ensures Enabled(s, Observe(state, prod)) ==>
              var s' := Step(s, Observe(state, prod));
              && s'.app.current == state && s'.app.target == s.app.target && s'.lock == s.lock
              && At(s', s.next) == (if prod && (state == RUNNING || state == PRESENT) && s'.app.row.Some?
                                    then Some(Entered(s'.app.row.value)) else None)
    ensures Enabled(s, Correct(state)) ==>
              var s' := Step(s, Correct(state));
              s'.app.current == state && s'.app.target == s.app.target && s'.threads == s.threads
  {
  }

  /** A failed transfer takes an app from TRANSFERING to REMOVED, in two steps; a
      finished build is put to PRESENT; a retry requests what it failed to reach, as
      long as the app is elsewhere. */
  lemma ResetsAndRetries(s: State, t: nat, p: Payload)
    requires LockHeld(s)
    ensures Enabled(s, TransferFails) <==> s.app.current == TRANSFERING
    ensures Enabled(s, TransferFails) ==> At(Step(s, TransferFails), s.next) == Some(Resetting)
    ensures Enabled(s, ResetTransfer(t)) ==>
              Step(s, ResetTransfer(t)).app.current == REMOVED && t !in Step(s, ResetTransfer(t)).threads
    ensures Enabled(s, Promote(t)) ==>
              Step(s, Promote(t)).app.current == PRESENT && t !in Step(s, Promote(t)).threads
    ensures Enabled(s, Retry(p)) <==> !p.cancel && s.app.current != p.target
    ensures Enabled(s, Retry(p)) ==> At(Step(s, Retry(p)), s.next) == Some(Entered(p))
  {
  }

  // ---------------------------------------------------------------------
  // The exact fate of a refused target
  // ---------------------------------------------------------------------

  /** At this step a request is refused because `h` holds the lock, or dropped
      because `h` is an update in flight. */
  predicate Defers(s: State, e: Event, h: nat) {
    && Enabled(s, e) && s.lock == Request(h)
    && (e.TryLock? || (e.Enter? && Drops(s.app.current, s.threads[e.t].p)))
  }

  /** The ways out of the controller for a request that held the lock. */
  datatype Fate = Unstarted | RowMissing | Failed | Idle | Answered

  predicate Meets(s: State, e: Event, h: nat, fate: Fate) {
    match fate
    case Unstarted =>
      e == Adoption(h, false)
      || (e.Init? && e.t == h && h in s.threads && s.threads[h].Prepared?
          && Unstartable(s.app, s.threads[h].p, e.token, e.emergency))
    case RowMissing => e == ReadRow(h) && s.app.row.None?
    case Failed => e == PublishFailed(h)
    case Idle => e == Republish(h)
    case Answered => e == Compare(h) || e == Promote(h)
  }

  predicate Exits(r: Trace, k: nat, h: nat)
    requires k < |r.events| < |r.states|
  {
    h in r.states[k].threads && h !in r.states[k + 1].threads
  }

  /** A thread that is gone left at some step. */
  lemma {:induction false} ExitStep(r: Trace, j: nat, i: nat, h: nat) returns (k: nat)
    requires IsRun(r) && j < i < |r.states| && h in r.states[j].threads && h !in r.states[i].threads
    ensures j <= k < i && Exits(r, k, h)
  {
    if h in r.states[i - 1].threads {
      k := i - 1;
    } else {
      k := ExitStep(r, j, i - 1, h);
    }
  }

  /** Who is gone stays gone. */
  lemma {:induction false} GoneStays(r: Trace, k: nat, i: nat, h: nat)
    requires IsRun(r) && k <= i < |r.states| && h < r.states[k].next && h !in r.states[k].threads
    ensures h < r.states[i].next && h !in r.states[i].threads
    decreases i
  {
    if k < i {
      GoneStays(r, k, i - 1, h);
      Seen(r, i - 1, h);
    }
  }

  lemma Numbered(r: Trace, i: nat, h: nat)
    requires IsRun(r) && i < |r.states| && h in r.states[i].threads
    ensures h < r.states[i].next
  {
    InvAlways(r, i);
  }

  /** The turns of `h` that its present course tells of. */
  ghost predicate Told(r: Trace, i: nat, h: nat, c: Course)
    requires i <= |r.events| < |r.states|
  {
    match c
    case Verifies => Finished(r, i, h, Verifies)
    case Compared => Finished(r, i, h, Verifies) && exists n :: 0 <= n < i && r.events[n] == Compare(h)
    case Fails => Finished(r, i, h, Fails) || Guarded(r, i, h)
    case Idles => Finished(r, i, h, Idles)
    case _ => true
  }

  /** The transition of `h` has ended with an outcome of this course. */
  ghost predicate Finished(r: Trace, i: nat, h: nat, c: Course)
    requires i <= |r.events|
  {
    exists f :: 0 <= f < i && r.events[f].Finish? && r.events[f].t == h && OutcomeCourse(r.events[f].outcome) == c
  }

  ghost predicate Guarded(r: Trace, i: nat, h: nat)
    requires i <= |r.events| < |r.states|
  {
    exists f :: 0 <= f < i && GuardRefuses(r.states[f], r.events[f], h)
  }

  lemma ToldLater(r: Trace, i: nat, h: nat, c: Course)
    requires i < |r.events| < |r.states| && Told(r, i, h, c)
    ensures Told(r, i + 1, h, c)
  {
    if c == Verifies || c == Compared || (c == Fails && Finished(r, i, h, Fails)) || c == Idles {
      var d := if c == Compared then Verifies else c;
      var f :| 0 <= f < i && r.events[f].Finish? && r.events[f].t == h && OutcomeCourse(r.events[f].outcome) == d;
      assert r.events[f].Finish?;
    }
  }

  /** Every course has its turn in the past. */
  lemma {:induction false} CourseWasTurnedTo(r: Trace, i: nat, h: nat)
    requires IsRun(r) && i < |r.states| && h in r.states[i].threads
    ensures Told(r, i, h, CourseOf(r.states[i].threads[h]))
  {
    if i > 0 && h < r.states[i - 1].next {
      Seen(r, i - 1, h);
      if h in r.states[i - 1].threads {
        CourseWasTurnedTo(r, i - 1, h);
        ToldLater(r, i - 1, h, CourseOf(r.states[i - 1].threads[h]));
        TurnIsTold(r, i - 1, h);
      }
    } else if i > 0 {
      NewThreadHoldsNothing(r, i - 1, h);
    }
  }

  lemma TurnIsTold(r: Trace, i: nat, h: nat)
    requires IsRun(r) && i < |r.events| && h in r.states[i].threads && h in r.states[i + 1].threads
    requires Told(r, i + 1, h, CourseOf(r.states[i].threads[h]))
    ensures Told(r, i + 1, h, CourseOf(r.states[i + 1].threads[h]))
  {
    Numbered(r, i, h);
    Seen(r, i, h);
    var e := r.events[i];
    if GuardRefuses(r.states[i], e, h) { assert Guarded(r, i + 1, h); }
  }

  lemma NewThreadHoldsNothing(r: Trace, i: nat, h: nat)
    requires IsRun(r) && i < |r.events| && r.states[i].next <= h && h in r.states[i + 1].threads
    ensures CourseOf(r.states[i + 1].threads[h]) == NotHolding
  {
    InvAlways(r, i);
    assert Follows(r, i);
    FreshThread(r.states[i], r.events[i], h);
  }

  lemma FreshThread(s: State, e: Event, h: nat)
    requires LockHeld(s) && Enabled(s, e) && s.next <= h && h in Step(s, e).threads
    ensures CourseOf(Step(s, e).threads[h]) == NotHolding
  {
    assert h !in s.threads;
    if IsRequest(e) {
      assert RequestStep(s, e).threads[h].Entered?;
    } else if IsVerify(e) {
      assert VerifyStep(s, e).threads[h].Entered?;
    }
  }

  /** A course once taken is kept until the thread is gone; only verification
      moves on, to the comparison. */
  lemma {:induction false} CourseStays(r: Trace, a: nat, b: nat, h: nat)
    requires IsRun(r) && a <= b < |r.states| && h in r.states[a].threads && h in r.states[b].threads
    requires CourseOf(r.states[a].threads[h]) != NotHolding
    ensures var c, d := CourseOf(r.states[a].threads[h]), CourseOf(r.states[b].threads[h]);
            && d != NotHolding
            && (c != Open ==> d == c || (c == Verifies && d == Compared))
    decreases b
  {
    if a < b {
      Numbered(r, a, h);
      if h !in r.states[b - 1].threads {
        StillNumbered(r, a, b - 1, h);
        GoneStays(r, b - 1, b, h);
      }
      CourseStays(r, a, b - 1, h);
      Numbered(r, b - 1, h);
      Seen(r, b - 1, h);
    }
  }

  lemma {:induction false} StillNumbered(r: Trace, a: nat, b: nat, h: nat)
    requires IsRun(r) && a <= b < |r.states| && h < r.states[a].next
    ensures h < r.states[b].next
    decreases b
  {
    if a < b {
      StillNumbered(r, a, b - 1, h);
      Seen(r, b - 1, h);
    }
  }

  lemma StepTurns(s: State, e: Event, h: nat)
    requires Enabled(s, e) && h in Step(s, e).threads
    ensures e.Finish? && e.t == h ==> CourseOf(Step(s, e).threads[h]) == OutcomeCourse(e.outcome)
    ensures e == Compare(h) && h < s.next ==> CourseOf(Step(s, e).threads[h]) == Compared
    ensures GuardRefuses(s, e, h) ==> CourseOf(Step(s, e).threads[h]) == Fails
  {
  }

  /** A turn decides the course from then on. */
  lemma TurnDecides(r: Trace, f: nat, i: nat, h: nat)
    requires IsRun(r) && f < i < |r.states| && h in r.states[i].threads
    ensures r.events[f].Finish? && r.events[f].t == h ==>
              var c, d := OutcomeCourse(r.events[f].outcome), CourseOf(r.states[i].threads[h]);
              d == c || (c == Verifies && d == Compared)
    ensures r.events[f] == Compare(h) ==> CourseOf(r.states[i].threads[h]) == Compared
    ensures GuardRefuses(r.states[f], r.events[f], h) ==> CourseOf(r.states[i].threads[h]) == Fails
  {
    assert Follows(r, f);
    if Actor(r.events[f]) == Some(h) {
      ActorIsThere(r.states[f], r.events[f]);
      Numbered(r, f, h);
      Seen(r, f, h);
      if h !in r.states[f + 1].threads { GoneStays(r, f + 1, i, h); }
      StepTurns(r.states[f], r.events[f], h);
      if CourseOf(r.states[f + 1].threads[h]) != NotHolding { CourseStays(r, f + 1, i, h); }
    }
  }

  /** The way out of a thread that held the lock. */
  function FateAt(s: State, e: Event, h: nat): Fate {
    if e.Compare? || e.Promote? then Answered
    else if e.ReadRow? then RowMissing
    else if e.PublishFailed? then Failed
    else if e.Republish? then Idle
    else Unstarted
  }

  lemma ExitMeetsItsFate(s: State, e: Event, h: nat)
    requires h in s.threads && CourseOf(s.threads[h]) != NotHolding && Goes(s, e, h, None)
    ensures var c, fate := CourseOf(s.threads[h]), FateAt(s, e, h);
            && Meets(s, e, h, fate)
            && (c == Open <==> fate == Unstarted) && (c == Fails <==> fate == Failed) && (c == Idles <==> fate == Idle)
            && (c == Verifies <==> fate == RowMissing || e == Compare(h)) && (c == Compared <==> e == Promote(h))
  {
  }

  /** A refused or dropped request gave way to `h`, and `h` is gone: then `h` left
      at one step after that, in one of five ways. It compared, and so answered
      the target stored by then, if and only if that step is a comparison or the
      promotion after one. It verified at all if and only if its transition ended
      with success or canceled, and went without an answer then exactly when the
      row was missing. It published FAILED exactly after a failure or a refusal
      by the disk guard, did nothing exactly after a transition without action,
      and never started one exactly when saving, token or transition failed. */
  lemma FateOfARefusedTarget(r: Trace, j: nat, i: nat, h: nat) returns (k: nat, fate: Fate)
    requires IsRun(r) && j < i < |r.states| && Defers(r.states[j], r.events[j], h) && h !in r.states[i].threads
    ensures j < k < i && Exits(r, k, h) && Meets(r.states[k], r.events[k], h, fate)
    ensures fate.Answered? <==> exists n :: j < n <= k && r.events[n] == Compare(h)
    ensures fate.Answered? || fate.RowMissing? <==> Finished(r, k, h, Verifies)
    ensures fate.Failed? <==> Finished(r, k, h, Fails) || Guarded(r, k, h)
    ensures fate.Idle? <==> Finished(r, k, h, Idles)
  {
    HolderAtDeferral(r, j, h);
    k := ExitStep(r, j, i, h);
    Numbered(r, k, h);
    Seen(r, k, h);
    CourseStays(r, j, k, h);
    var s, e := r.states[k], r.events[k];
    ExitMeetsItsFate(s, e, h);
    fate := FateAt(s, e, h);
    CourseWasTurnedTo(r, k, h);
    FinishedIffCourse(r, k, h);
    AnsweredIffCompared(r, j, k, h);
  }

  lemma HolderAtDeferral(r: Trace, j: nat, h: nat)
    requires IsRun(r) && j < |r.events| && Defers(r.states[j], r.events[j], h)
    ensures Inside(r.states[j], h) && Actor(r.events[j]).Some? && Actor(r.events[j]) != Some(h)
    ensures CourseOf(r.states[j].threads[h]) != NotHolding && CourseOf(r.states[j].threads[h]) != Compared
    ensures h in r.states[j + 1].threads
  {
    InvAlways(r, j);
    Numbered(r, j, h);
    Seen(r, j, h);
  }

  /** The course of a holder tells exactly how its transition ended. */
  lemma FinishedIffCourse(r: Trace, k: nat, h: nat)
    requires IsRun(r) && k < |r.states| && h in r.states[k].threads
    requires CourseOf(r.states[k].threads[h]) != NotHolding
    ensures var c := CourseOf(r.states[k].threads[h]);
            && (Finished(r, k, h, Verifies) <==> c == Verifies || c == Compared)
            && (Finished(r, k, h, Idles) <==> c == Idles)
            && (Finished(r, k, h, Fails) || Guarded(r, k, h) <==> c == Fails)
  {
    CourseWasTurnedTo(r, k, h);
    forall f | 0 <= f < k ensures
      && (r.events[f].Finish? && r.events[f].t == h ==>
            var c, d := OutcomeCourse(r.events[f].outcome), CourseOf(r.states[k].threads[h]);
            d == c || (c == Verifies && d == Compared))
      && (GuardRefuses(r.states[f], r.events[f], h) ==> CourseOf(r.states[k].threads[h]) == Fails)
    {
      TurnDecides(r, f, k, h);
    }
  }

  lemma AnsweredIffCompared(r: Trace, j: nat, k: nat, h: nat)
    requires IsRun(r) && j < k < |r.events| && Defers(r.states[j], r.events[j], h) && Exits(r, k, h)
    requires Goes(r.states[k], r.events[k], h, None) && CourseOf(r.states[k].threads[h]) != NotHolding
    ensures r.events[k] == Compare(h) || r.events[k] == Promote(h)
            <==> exists n :: j < n <= k && r.events[n] == Compare(h)
  {
    HolderAtDeferral(r, j, h);
    ExitMeetsItsFate(r.states[k], r.events[k], h);
    forall n | j < n < k && r.events[n] == Compare(h) ensures r.events[k] == Promote(h) {
      TurnDecides(r, n, k, h);
    }
    if r.events[k] == Promote(h) {
      CourseWasTurnedTo(r, k, h);
      var n :| 0 <= n < k && r.events[n] == Compare(h);
      if n < j { TurnDecides(r, n, j, h); }
      assert n != j;
    }
  }

  // ---------------------------------------------------------------------
  // The row that answers
  // ---------------------------------------------------------------------

  /** A thread compares the row it read itself. */
  lemma ReadsItsRow(s: State, e: Event, h: nat)
    requires LockHeld(s) && Enabled(s, e) && h in s.threads && Actor(e) == Some(h)
    requires h in Step(s, e).threads && Step(s, e).threads[h].Comparing?
    ensures e == ReadRow(h) && s.app.row == Some(Step(s, e).threads[h].row)
  {
  }

  lemma {:induction false} ComparedRowWasRead(r: Trace, n: nat, h: nat) returns (m: nat)
    requires IsRun(r) && n < |r.states| && h in r.states[n].threads && r.states[n].threads[h].Comparing?
    ensures m < n && r.events[m] == ReadRow(h) && h in r.states[m].threads
    ensures r.states[m].app.row == Some(r.states[n].threads[h].row)
  {
    m := n - 1;
    if r.states[m].next <= h { NewThreadHoldsNothing(r, m, h); }
    Seen(r, m, h);
    if Actor(r.events[m]) == Some(h) {
      assert Follows(r, m);
      ReadsItsRow(r.states[m], r.events[m], h);
    } else {
      m := ComparedRowWasRead(r, m, h);
    }
  }

  /** Pushes and synchronisations store a target. */
  predicate Stores(e: Event) {
    e.Push? || e.Sync?
  }

  lemma TargetStep(s: State, e: Event)
    requires Enabled(s, e) && !Stores(e)
    ensures Step(s, e).app.target == s.app.target
  {
    if IsRequest(e) {
      assert RequestStep(s, e).app.target == s.app.target;
    } else if IsTransition(e) {
      assert TransitionStep(s, e).app.target == s.app.target;
    } else if IsVerify(e) {
      assert VerifyStep(s, e).app.target == s.app.target;
    }
  }

  /** Only a push or a synchronisation changes an app's target. */
  lemma {:induction false} TargetStays(r: Trace, j: nat, m: nat)
    requires IsRun(r) && j <= m < |r.states|
    requires forall k :: j <= k < m ==> !Stores(r.events[k])
    ensures r.states[m].app.target == r.states[j].app.target
    decreases m
  {
    if j < m {
      TargetStays(r, j, m - 1);
      assert Follows(r, m - 1);
      TargetStep(r.states[m - 1], r.events[m - 1]);
    }
  }

  lemma RowStep(s: State, e: Event)
    requires RowMatches(s.app) && Enabled(s, e)
    ensures if e.Purge? then RowMatches(Step(s, e).app) else KeepsRow(s.app, Step(s, e).app)
  {
    if IsRequest(e) {
      RowRequestStep(s, e);
    } else if IsTransition(e) {
      RowTransitionStep(s, e);
    } else if IsVerify(e) {
      RowVerifyStep(s, e);
    } else if e.Observe? || e.Correct? {
      EveryWriteKeepsTheRow(s.app, e.state, Ask(PRESENT));
    } else {
      EveryWriteKeepsTheRow(s.app, REMOVED, Ask(PRESENT));
    }
  }

  /** A plain request for a state. */
  function Ask(target: AppState): Payload {
    Payload(target, false, "1", "1", None, false, false)
  }

  lemma RowRequestStep(s: State, e: Event)
    requires RowMatches(s.app) && Enabled(s, e) && IsRequest(e)
    ensures KeepsRow(s.app, RequestStep(s, e).app)
  {
    if e.Push? || e.Sync? { EveryWriteKeepsTheRow(s.app, RUNNING, e.p); }
    if e.Adoption? { EveryWriteKeepsTheRow(s.app, RUNNING, s.threads[e.t].p); }
  }

  lemma RowTransitionStep(s: State, e: Event)
    requires RowMatches(s.app) && Enabled(s, e) && IsTransition(e)
    ensures KeepsRow(s.app, TransitionStep(s, e).app)
  {
    if e.Publish? { EveryWriteKeepsTheRow(s.app, e.state, s.threads[e.t].p); }
    if e.InstallVersion? || e.PersistRow? { EveryWriteKeepsTheRow(s.app, RUNNING, s.threads[e.t].p); }
  }

  lemma RowVerifyStep(s: State, e: Event)
    requires RowMatches(s.app) && Enabled(s, e) && IsVerify(e)
    ensures KeepsRow(s.app, VerifyStep(s, e).app)
  {
    var published := if e.Promote? then PRESENT else if e.Republish? then s.threads[e.t].state else FAILED;
    EveryWriteKeepsTheRow(s.app, published, Ask(PRESENT));
  }

  lemma {:induction false} RowMatchesAlways(r: Trace, i: nat)
    requires IsRun(r) && i < |r.states|
    ensures RowMatches(r.states[i].app)
  {
    if i > 0 {
      RowMatchesAlways(r, i - 1);
      assert Follows(r, i - 1);
      RowStep(r.states[i - 1], r.events[i - 1]);
    }
  }

  ghost predicate NoRow(r: Trace, a: nat, b: nat)
    requires b < |r.states|
  {
    forall m :: a <= m <= b ==> r.states[m].app.row.None?
  }

  /** No row has been there since the start, or since a clean-up took it. */
  ghost predicate RowTaken(r: Trace, i: nat)
    requires i < |r.states| == |r.events| + 1
  {
    NoRow(r, 0, i) || exists k :: 0 <= k < i && r.events[k] == Purge && NoRow(r, k + 1, i)
  }

  /** A row is missing for one of two reasons: the target is a teardown, or the row
      was missing from the start or the clean-up took it, and nothing has stored
      one since. */
  lemma {:induction false} WhyTheRowIsMissing(r: Trace, i: nat)
    requires IsRun(r) && i < |r.states| && r.states[i].app.row.None? && !IsTeardown(r.states[i].app.target)
    ensures RowTaken(r, i)
  {
    if i > 0 {
      assert Follows(r, i - 1);
      RowMatchesAlways(r, i - 1);
      RowStep(r.states[i - 1], r.events[i - 1]);
      if r.events[i - 1] != Purge {
        WhyTheRowIsMissing(r, i - 1);
        StillTaken(r, i - 1, i);
      }
    }
  }

  lemma StillTaken(r: Trace, i: nat, j: nat)
    requires IsRun(r) && j == i + 1 < |r.states| && RowTaken(r, i) && r.states[j].app.row.None?
    ensures RowTaken(r, j)
  {
    if !NoRow(r, 0, i) {
      var k :| 0 <= k < i && r.events[k] == Purge && NoRow(r, k + 1, i);
      assert NoRow(r, k + 1, j);
    }
  }

  /** `h` compares: it finds the app FAILED, or at its target with no update
      pending, or it spawns a request built from the row it read. */
  predicate SettlesOrRedrives(s: State, s': State, row: Payload) {
    || s.app.current == FAILED
    || !Redrives(s.app, row)
    || At(s', s.next) == Some(Entered(row))
  }

  lemma CompareSettlesOrRedrives(s: State, h: nat)
    requires LockHeld(s) && Enabled(s, Compare(h))
    ensures SettlesOrRedrives(s, Step(s, Compare(h)), s.threads[h].row)
  {
  }

  /** The comparison, in full. It spawns a request for the row exactly when the app
      has not failed and is away from its target or the row asks for a version it
      does not have; it puts a finished build to PRESENT next; and it touches
      nothing else. */
  lemma CompareSpawnsIff(s: State, h: nat)
    requires LockHeld(s) && Enabled(s, Compare(h))
    ensures var s', row, a := Step(s, Compare(h)), s.threads[h].row, s.app;
            var wanted := a.current != FAILED
                          && (a.current != a.target
                              || (row.requestUpdate && row.newest != row.present && row.target != UNINSTALLED));
            && s'.app == s.app && s'.lock == s.lock && s'.log == s.log && s'.probes == s.probes
            && s'.next == (if wanted then s.next + 1 else s.next)
            && At(s', s.next) == (if wanted then Some(Entered(row)) else None)
            && At(s', h) == (if a.current == BUILT && a.target == BUILT then Some(Promoting) else None)
            && forall t :: t != h && t != s.next ==> At(s', t) == At(s, t)
  {
  }

  /** A push or a synchronisation is stored in every run, unless it is kept out;
      a push also starts its request. */
  lemma StoredInEveryRun(r: Trace, i: nat)
    requires IsRun(r) && i < |r.events| && Stores(r.events[i])
    ensures var p, before, after := r.events[i].p, r.states[i].app, r.states[i + 1].app;
            var pushed := TransientToActual(p.target);
            && (if KeptOut(before.current, before.target, pushed) then after == before
                else after.target == pushed && after.row == Some(p.(target := pushed, cancel := false))
                     && after.current == before.current)
            && At(r.states[i + 1], r.states[i].next) == (if r.events[i].Push? then Some(Entered(p)) else None)
  {
    assert Follows(r, i);
    InvAlways(r, i);
    PushIsStored(r.states[i].app, r.events[i].p);
  }

  /** The row `m` reads answers the comparison at `n`: it carries the target that
      is stored when it is read. */
  ghost predicate Answers(r: Trace, j: nat, m: nat, n: nat, h: nat)
    requires m < |r.events| < |r.states| && n < |r.events|
  {
    var read := r.states[m].app;
    && j < m < n && r.events[m] == ReadRow(h) && r.events[n] == Compare(h)
    && read.row.Some? && read.row.value.target == read.target
    && SettlesOrRedrives(r.states[n], r.states[n + 1], read.row.value)
  }

  /** A comparison of the holder a request gave way to reads the row after that. */
  lemma ComparisonAnswers(r: Trace, j: nat, n: nat, h: nat) returns (m: nat)
    requires IsRun(r) && j < n < |r.events| && Defers(r.states[j], r.events[j], h) && r.events[n] == Compare(h)
    ensures m < n && Answers(r, j, m, n, h)
  {
    assert Follows(r, n);
    m := ComparedRowWasRead(r, n, h);
    RowMatchesAlways(r, m);
    InvAlways(r, n);
    CompareSettlesOrRedrives(r.states[n], h);
    HolderAtDeferral(r, j, h);
    if m < j {
      ReadBeforeMeansUnlocked(r, m, j, h);
    }
    assert m != j;
  }

  /** Who has read the row is outside the locked section for good. */
  lemma {:induction false} ReadBeforeMeansUnlocked(r: Trace, m: nat, i: nat, h: nat)
    requires IsRun(r) && m < i < |r.states| && r.events[m] == ReadRow(h)
    ensures h < r.states[i].next && !Inside(r.states[i], h)
    decreases i
  {
    if m + 1 == i {
      assert Follows(r, m);
      Numbered(r, m, h);
      Seen(r, m, h);
      InvAlways(r, m);
      ReadRowUnlocked(r.states[m], h);
    } else {
      ReadBeforeMeansUnlocked(r, m, i - 1, h);
      NotBackInside(r, i - 1, m, h);
    }
  }

  lemma ReadRowUnlocked(s: State, h: nat)
    requires LockHeld(s) && Enabled(s, ReadRow(h))
    ensures !Inside(Step(s, ReadRow(h)), h)
  {
  }

  lemma NotBackInside(r: Trace, i: nat, m: nat, h: nat)
    requires IsRun(r) && m < i < |r.events| && r.events[m] == ReadRow(h)
    requires h < r.states[i].next && !Inside(r.states[i], h)
    ensures h < r.states[i + 1].next && !Inside(r.states[i + 1], h)
  {
    Seen(r, i, h);
    assert Follows(r, m);
    Numbered(r, m, h);
    if h in r.states[i].threads {
      CourseStays(r, m, i, h);
    } else {
      GoneStays(r, i, i + 1, h);
    }
  }

  /** No stranded target. A request was refused or dropped in favour of `h`, the
      transition of `h` ended with success or canceled, and `h` is gone. Then `h`
      read the row after the request gave way. Either it compared, and settled or
      spawned a request from the row it read, which carries the target stored at
      that moment: the one stored when the request gave way, unless a newer one
      came. Or the row was missing, and then the target is a teardown, or the row
      has been missing since the start or since a clean-up took it. */
  lemma NoStrandedTarget(r: Trace, j: nat, f: nat, i: nat, h: nat) returns (m: nat, n: nat)
    requires IsRun(r) && j < i < |r.states| && f < i
    requires Defers(r.states[j], r.events[j], h) && h !in r.states[i].threads
    requires r.events[f] == Finish(h, Success) || r.events[f] == Finish(h, Canceled)
    ensures j < m < i && r.events[m] == ReadRow(h)
    ensures r.states[m].app.row.Some? ==> n < i && Answers(r, j, m, n, h)
    ensures r.states[m].app.row.None? && !IsTeardown(r.states[m].app.target) ==> RowTaken(r, m)
    ensures (forall k :: j <= k < m ==> !Stores(r.events[k])) ==> r.states[m].app.target == r.states[j].app.target
  {
    var k, fate := FateOfARefusedTarget(r, j, i, h);
    FinishIsBeforeTheExit(r, f, k, h, fate);
    if fate.Answered? {
      n :| j < n <= k && r.events[n] == Compare(h);
      m := ComparisonAnswers(r, j, n, h);
    } else {
      m, n := k, k;
      if !IsTeardown(r.states[m].app.target) {
        WhyTheRowIsMissing(r, m);
      }
    }
    if forall q :: j <= q < m ==> !Stores(r.events[q]) { TargetStays(r, j, m); }
  }

  lemma FinishIsBeforeTheExit(r: Trace, f: nat, k: nat, h: nat, fate: Fate)
    requires IsRun(r) && k < |r.events| && f < |r.events| && Exits(r, k, h)
    requires r.events[f] == Finish(h, Success) || r.events[f] == Finish(h, Canceled)
    requires Meets(r.states[k], r.events[k], h, fate)
    ensures Finished(r, k, h, Verifies)
  {
    assert Follows(r, f) && r.events[f].Finish?;
    ActorIsThere(r.states[f], r.events[f]);
    if k < f {
      Numbered(r, k, h);
      Seen(r, k, h);
      GoneStays(r, k + 1, f, h);
    }
  }
}
