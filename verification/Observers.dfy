/** Ownership of app observers (src/apps/state_observer.go): pollers registered
    in a map under a mutex, started before they are registered, and removing
    their own entry when they end. */
module Observers {
  type Name = string
  type Context = nat

  /** Who is inside the critical section of `addObserver` or
      `addComposeObserver`, and how far. */
  datatype Mutex = Free | Checking(name: Name) | Started(name: Name, ctx: Context)

  /** A poller goroutine runs under its own context until it returns. */
  datatype Poller = Poller(name: Name, returning: bool)

  datatype State = State(
    mutex: Mutex,
    active: map<Name, Context>,
    pollers: map<Context, Poller>,
    next: Context)

  datatype Event =
    | Lock(name: Name)
    | Spawn
    | Skip
    | Register
    | Return(ctx: Context)
    | Cleanup(ctx: Context)
    | Replace(name: Name)

  const NO_OBSERVERS := State(Free, map[], map[], 0)

  /** `Return` is a poller leaving its loop: canceled context, vanished
      container, or an error. `Replace` is the environment putting a fresh
      observer in the place of a registered one, whose poller runs on. */
  predicate Enabled(s: State, e: Event) {
    match e
    case Lock(_) => s.mutex.Free?
    case Spawn => s.mutex.Checking? && s.mutex.name !in s.active
    case Skip => s.mutex.Checking? && s.mutex.name in s.active
    case Register => s.mutex.Started?
    case Return(ctx) => ctx in s.pollers
    case Cleanup(ctx) => s.mutex.Free? && ctx in s.pollers && s.pollers[ctx].returning
    case Replace(name) => s.mutex.Free? && name in s.active
  }

  /** `removeOwnObserver`. */
  function WithoutOwn(active: map<Name, Context>, name: Name, own: Context): map<Name, Context> {
    if name in active && active[name] == own then active - {name} else active
  }

  function Step(s: State, e: Event): State
    requires Enabled(s, e)
  {
    match e
    case Lock(name) => s.(mutex := Checking(name))
    case Spawn =>
      s.(mutex := Started(s.mutex.name, s.next),
      pollers := s.pollers[s.next := Poller(s.mutex.name, false)], next := s.next + 1)
    case Skip => s.(mutex := Free)
    case Register => s.(mutex := Free, active := s.active[s.mutex.name := s.mutex.ctx])
    case Return(ctx) => s.(pollers := s.pollers[ctx := s.pollers[ctx].(returning := true)])
    case Cleanup(ctx) =>
      s.(active := WithoutOwn(s.active, s.pollers[ctx].name, ctx), pollers := s.pollers - {ctx})
    case Replace(name) =>
      s.(active := s.active[name := s.next],
      pollers := s.pollers[s.next := Poller(name, false)], next := s.next + 1)
  }

  datatype Trace = Trace(states: seq<State>, events: seq<Event>)

  predicate Follows(r: Trace, i: nat)
    requires i < |r.events| < |r.states|
  {
    Enabled(r.states[i], r.events[i]) && r.states[i + 1] == Step(r.states[i], r.events[i])
  }

  ghost predicate IsRun(r: Trace) {
    && |r.states| == |r.events| + 1 && r.states[0] == NO_OBSERVERS
    && forall i :: 0 <= i < |r.events| ==> Follows(r, i)
  }

  // ---------------------------------------------------------------------
  // Every entry has its poller, whatever the environment replaces
  // ---------------------------------------------------------------------

  ghost predicate Attended(s: State) {
    && (forall ctx :: ctx in s.pollers ==> ctx < s.next)
    && (forall name :: name in s.active ==> s.active[name] in s.pollers && s.pollers[s.active[name]].name == name)
    && (s.mutex.Started? ==>
          && s.mutex.name !in s.active
          && s.mutex.ctx in s.pollers && s.pollers[s.mutex.ctx].name == s.mutex.name)
  }

  lemma AttendedStep(s: State, e: Event)
    requires Attended(s) && Enabled(s, e)
    ensures Attended(Step(s, e))
  {
  }

  lemma {:induction false} EveryEntryHasItsPoller(r: Trace, i: nat)
    requires IsRun(r) && i < |r.states|
    ensures Attended(r.states[i])
  {
    if i > 0 {
      EveryEntryHasItsPoller(r, i - 1);
      assert Follows(r, i - 1);
      AttendedStep(r.states[i - 1], r.events[i - 1]);
    }
  }

  /** A poller may clean up exactly when it is there, has left its loop at some step
      before, and nobody holds the mutex. */
  lemma {:induction false} ReturnsBeforeCleanup(r: Trace, i: nat, ctx: Context)
    requires IsRun(r) && i < |r.states| && ctx in r.states[i].pollers
    ensures r.states[i].pollers[ctx].returning <==> exists j :: 0 <= j < i && r.events[j] == Return(ctx)
    ensures Enabled(r.states[i], Cleanup(ctx)) <==>
              r.states[i].mutex.Free? && exists j :: 0 <= j < i && r.events[j] == Return(ctx)
  {
    assert i > 0;
    assert Follows(r, i - 1);
    EveryEntryHasItsPoller(r, i - 1);
    if ctx in r.states[i - 1].pollers {
      ReturnsBeforeCleanup(r, i - 1, ctx);
    } else {
      NotYetThere(r, i - 1, ctx);
    }
    assert r.events[i - 1] == Return(ctx) ==> exists j :: 0 <= j < i && r.events[j] == Return(ctx);
  }

  /** A context that is still to come has not returned. */
  lemma {:induction false} NotYetThere(r: Trace, i: nat, ctx: Context)
    requires IsRun(r) && i < |r.states| && r.states[i].next <= ctx
    ensures forall j :: 0 <= j < i ==> r.events[j] != Return(ctx)
  {
    if i > 0 {
      assert Follows(r, i - 1);
      EveryEntryHasItsPoller(r, i - 1);
      NotYetThere(r, i - 1, ctx);
    }
  }

  /** An entry once made stays until its own poller cleans up or the environment
      replaces it: no other poller's cleanup and no second add touches it. */
  lemma EntryOutlivesForeignCleanups(r: Trace, i: nat, name: Name)
    requires IsRun(r) && i < |r.events| && name in r.states[i].active
    requires r.events[i] != Cleanup(r.states[i].active[name]) && r.events[i] != Replace(name)
    ensures name in r.states[i + 1].active && r.states[i + 1].active[name] == r.states[i].active[name]
  {
    EveryEntryHasItsPoller(r, i);
    assert Follows(r, i);
  }

  /** Over a whole run: a replacement survives until its own poller ends or it
      is replaced in turn. */
  lemma {:induction false} ReplacementSurvives(r: Trace, i: nat, j: nat, name: Name, ctx: Context)
    requires IsRun(r) && i <= j < |r.states|
    requires name in r.states[i].active && r.states[i].active[name] == ctx
    requires forall k :: i <= k < j ==> r.events[k] != Cleanup(ctx) && r.events[k] != Replace(name)
    ensures name in r.states[j].active && r.states[j].active[name] == ctx && ctx in r.states[j].pollers
    decreases j
  {
    if i < j {
      ReplacementSurvives(r, i, j - 1, name, ctx);
      EntryOutlivesForeignCleanups(r, j - 1, name);
    }
    EveryEntryHasItsPoller(r, j);
  }

  // ---------------------------------------------------------------------
  // The bijection, in the agent's own runs
  // ---------------------------------------------------------------------

  ghost predicate NothingReplaced(r: Trace) {
    forall i :: 0 <= i < |r.events| ==> !r.events[i].Replace?
  }

  /** `ctx` has its entry, or is about to get it. */
  predicate Owns(s: State, ctx: Context)
    requires ctx in s.pollers
  {
    var name := s.pollers[ctx].name;
    (name in s.active && s.active[name] == ctx) || s.mutex == Started(name, ctx)
  }

  ghost predicate Bijective(s: State) {
    Attended(s) && forall ctx :: ctx in s.pollers ==> Owns(s, ctx)
  }

  lemma BijectiveStep(s: State, e: Event)
    requires Bijective(s) && Enabled(s, e) && !e.Replace?
    ensures Bijective(Step(s, e))
  {
    AttendedStep(s, e);
    forall ctx | ctx in Step(s, e).pollers ensures Owns(Step(s, e), ctx) {
      assert ctx in s.pollers ==> Owns(s, ctx);
    }
  }

  lemma {:induction false} BijectiveAlways(r: Trace, i: nat)
    requires IsRun(r) && NothingReplaced(r) && i < |r.states|
    ensures Bijective(r.states[i])
  {
    if i > 0 {
      BijectiveAlways(r, i - 1);
      assert Follows(r, i - 1);
      BijectiveStep(r.states[i - 1], r.events[i - 1]);
    }
  }

  /** Every running poller's name is registered for it, or will be before it can
      clean up; and no two run for one name. */
  ghost predicate OnePollerPerName(s: State) {
    && (forall name :: name in s.active ==> s.active[name] in s.pollers && s.pollers[s.active[name]].name == name)
    && (forall c, d :: c in s.pollers && d in s.pollers && s.pollers[c].name == s.pollers[d].name ==> c == d)
    && (forall c :: c in s.pollers && s.pollers[c].name !in s.active ==> s.mutex == Started(s.pollers[c].name, c))
  }

  lemma BijectiveMeansOnePollerPerName(s: State)
    requires Bijective(s)
    ensures OnePollerPerName(s)
  {
    forall c, d | c in s.pollers && d in s.pollers && s.pollers[c].name == s.pollers[d].name ensures c == d {
      assert Owns(s, c) && Owns(s, d);
    }
    forall c | c in s.pollers && s.pollers[c].name !in s.active ensures s.mutex == Started(s.pollers[c].name, c) {
      assert Owns(s, c);
    }
  }

  lemma BijectiveMeansEqualCounts(s: State)
    requires Bijective(s)
    ensures |s.pollers| == |s.active| + (if s.mutex.Started? then 1 else 0)
  {
    var owners := if s.mutex.Started? then s.active[s.mutex.name := s.mutex.ctx] else s.active;
    forall c | c in s.pollers ensures s.pollers[c].name in owners && owners[s.pollers[c].name] == c {
      assert Owns(s, c);
    }
    SameSize(owners, s.pollers);
    if s.mutex.Started? {
      assert owners.Keys == s.active.Keys + {s.mutex.name};
      assert |owners| == |owners.Keys| && |s.active| == |s.active.Keys|;
    }
  }

  /** Registered names and running pollers are in bijection in every
      interleaving: each name has exactly one poller, and each poller owns the
      entry of its name. The one poller in between is the one whose adder still
      holds the mutex, and it cannot clean up before it is registered. */
  lemma NamesAndPollersAreInBijection(r: Trace, i: nat)
    requires IsRun(r) && NothingReplaced(r) && i < |r.states|
    ensures OnePollerPerName(r.states[i])
    ensures |r.states[i].pollers| == |r.states[i].active| + (if r.states[i].mutex.Started? then 1 else 0)
    ensures forall c :: Enabled(r.states[i], Cleanup(c)) ==> r.states[i].pollers[c].name in r.states[i].active
  {
    BijectiveAlways(r, i);
    BijectiveMeansOnePollerPerName(r.states[i]);
    BijectiveMeansEqualCounts(r.states[i]);
  }

  /** Two maps that invert each other have the same size. */
  lemma {:induction false} SameSize(owners: map<Name, Context>, pollers: map<Context, Poller>)
    requires forall name :: name in owners ==> owners[name] in pollers && pollers[owners[name]].name == name
    requires forall c :: c in pollers ==> pollers[c].name in owners && owners[pollers[c].name] == c
    ensures |owners| == |pollers|
    decreases |owners|
  {
    if owners == map[] {
      assert pollers == map[];
    } else {
      var name :| name in owners;
      var fewer, rest := owners - {name}, pollers - {owners[name]};
      assert fewer.Keys == owners.Keys - {name} && |fewer| == |fewer.Keys| && |owners| == |owners.Keys|;
      assert rest.Keys == pollers.Keys - {owners[name]} && |rest| == |rest.Keys| && |pollers| == |pollers.Keys|;
      SameSize(fewer, rest);
    }
  }

  /** A poller that ends takes its name with it and nobody else's, so the name
      can be observed again at once. */
  lemma CleanupFreesExactlyItsName(r: Trace, i: nat, ctx: Context)
    requires IsRun(r) && NothingReplaced(r) && i < |r.events| && r.events[i] == Cleanup(ctx)
    ensures ctx in r.states[i].pollers
    ensures r.states[i].pollers[ctx].name in r.states[i].active
    ensures r.states[i + 1].active == r.states[i].active - {r.states[i].pollers[ctx].name}
  {
    BijectiveAlways(r, i);
    assert Follows(r, i);
    assert Owns(r.states[i], ctx);
  }

  // ---------------------------------------------------------------------
  // The map itself
  // ---------------------------------------------------------------------

  class StateObserver {
    var activeObservers: map<Name, Context>

    constructor ()
      ensures activeObservers == map[]
    {
      activeObservers := map[];
    }

    /** The critical section of `addObserver` and `addComposeObserver`. */
    method Add(name: Name, ctx: Context) returns (created: bool)
      modifies this
      ensures created <==> name !in old(activeObservers)
      ensures activeObservers == if created then old(activeObservers)[name := ctx] else old(activeObservers)
    {
      created := false;
      if name !in activeObservers {
        activeObservers := activeObservers[name := ctx];
        created := true;
      }
    }

    method RemoveOwnObserver(name: Name, own: Context)
      modifies this
      ensures activeObservers == WithoutOwn(old(activeObservers), name, own)
      ensures forall other :: other in old(activeObservers) && old(activeObservers)[other] != own ==>
                other in activeObservers && activeObservers[other] == old(activeObservers)[other]
    {
      if name in activeObservers && activeObservers[name] == own {
        activeObservers := activeObservers - {name};
      }
    }
  }
}
