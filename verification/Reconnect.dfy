/** The WAMP session's reconnect machinery (src/messenger/wamp.go).

    Each connection is a generation: its client, its heartbeat channel, its
    watcher and its heartbeat. Whoever may bring up the next generation holds
    the reconnect token, which moves from goroutine to goroutine. */
module Reconnect {
  import opened Wrappers

  const MAX_CONSECUTIVE_FAILURES: nat := 2

  /** What a goroutine on the connect path is doing. */
  datatype Role =
    | DialStart(again: bool)            // before an attempt, context not yet checked
    | Dialing(again: bool)              // a connection attempt is under way
    | Dialed(again: bool)               // dial returned a client, not yet installed
    | Setup(gen: nat, again: bool)      // client and heartbeat channel installed
    | Watch(gen: nat)                   // parked on the client, the channel, the context
    | Streams                           // watcher fired, canceling container streams

  datatype Phase = Waiting | Checked | Sending

  /** A goroutine that spawned its watcher and is about to start the heartbeat,
      or the heartbeat itself. */
  datatype Heart =
    | Spawned(gen: nat)
    | Beat(gen: nat, failures: nat, phase: Phase)

  /** Goroutines are numbered; a number is never used again. `down` are the
      generations whose client is done, `signals` those whose heartbeat channel was
      closed. */
  datatype State = State(
    tokens: map<nat, Role>, hearts: map<nat, Heart>, next: nat,
    client: Option<nat>, gen: Option<nat>, gens: nat,
    down: set<nat>, signals: set<nat>,
    closed: bool, started: bool)

  datatype Event =
    | DialBegin(t: nat) | DialFails(t: nat) | DialOk(t: nat) | DialAborted(t: nat)
    | InstallClient(t: nat) | TestamentFails(t: nat) | SpawnWatcher(t: nat)
    | Fire(t: nat) | WatchExit(t: nat) | StreamsDone(t: nat)
    | StartHeartbeat(t: nat) | Check(t: nat) | Probe(t: nat, up: bool) | Send(t: nat, ok: bool) | BeatExit(t: nat)
    | TransportLost(gen: nat) | Reconnect | CancelContext | DropClient

  const NEW_SESSION :=
    State(map[0 := DialStart(false)], map[], 1, None, None, 0, {}, {}, false, false)

  predicate OnConnectPath(e: Event) {
    e.DialBegin? || e.DialFails? || e.DialOk? || e.DialAborted? || e.InstallClient? || e.TestamentFails?
    || e.SpawnWatcher? || e.Fire? || e.WatchExit? || e.StreamsDone?
  }

  predicate OnHeartbeat(e: Event) {
    e.StartHeartbeat? || e.Check? || e.Probe? || e.Send? || e.BeatExit?
  }

  predicate ConnectEnabled(s: State, e: Event)
    requires OnConnectPath(e)
  {
    && e.t in s.tokens
    && var role := s.tokens[e.t];
       match e
       case DialBegin(_) => role.DialStart?
       case DialFails(_) => role.Dialing?
       case DialOk(_) => role.Dialing?
       case DialAborted(_) => role.Dialing? && s.closed
       case InstallClient(_) => role.Dialed?
       case TestamentFails(_) => role.Setup? && !role.again
       case SpawnWatcher(_) => role.Setup?
       case Fire(_) => role.Watch? && (role.gen in s.down || role.gen in s.signals)
       case WatchExit(_) => role.Watch? && s.closed
       case StreamsDone(_) => role.Streams?
  }

  predicate HeartEnabled(s: State, e: Event)
    requires OnHeartbeat(e)
  {
    && e.t in s.hearts
    && var heart := s.hearts[e.t];
       match e
       case StartHeartbeat(_) => heart.Spawned?
       case Check(_) => heart.Beat? && heart.phase.Waiting?
       case Probe(_, up) => heart.Beat? && heart.phase.Checked? && (up ==> s.client.Some?)
       case Send(_, _) => heart.Beat? && heart.phase.Sending?
       case BeatExit(_) => heart.Beat? && heart.phase.Waiting? && s.closed
  }

  predicate Enabled(s: State, e: Event) {
    if OnConnectPath(e) then ConnectEnabled(s, e)
    else if OnHeartbeat(e) then HeartEnabled(s, e)
    else match e
      case TransportLost(gen) => gen < s.gens
      case DropClient => s.closed
      case _ => true
  }

  function Move(s: State, t: nat, role: Role): State {
    s.(tokens := s.tokens[t := role])
  }

  function Quit(s: State, t: nat): State {
    s.(tokens := s.tokens - {t})
  }

  /** `connect` and `watchDisconnect`. */
  function ConnectStep(s: State, e: Event): State
    requires OnConnectPath(e) && ConnectEnabled(s, e)
  {
    var t := e.t;
    var role := s.tokens[t];
    match e
    case DialBegin(_) => if s.closed then Quit(s, t) else Move(s, t, Dialing(role.again))
    case DialFails(_) => Move(s, t, DialStart(role.again))
    case DialOk(_) => Move(s, t, Dialed(role.again))
    case DialAborted(_) => Quit(s, t)
    case InstallClient(_) =>
      Move(s, t, Setup(s.gens, role.again)).(client := Some(s.gens), gen := Some(s.gens), gens := s.gens + 1)
    case TestamentFails(_) => Quit(s, t).(client := None, down := s.down + {role.gen})
    case SpawnWatcher(_) =>
      Move(Quit(s, t), s.next, Watch(role.gen)).(
        hearts := s.hearts[t := Spawned(role.gen)], next := s.next + 1, started := true)
    case Fire(_) => Move(s, t, Streams)
    case WatchExit(_) => Quit(s, t)
    case StreamsDone(_) => Move(s, t, DialStart(true))
  }

  /** A failed status update that is one too many. */
  predicate GivesUp(heart: Heart, e: Event) {
    e.Send? && !e.ok && heart.Beat? && heart.failures + 1 >= MAX_CONSECUTIVE_FAILURES
  }

  /** What the heartbeat does next, if it goes on; `newest` tells that its channel
      is still the session's. */
  function Beats(heart: Heart, e: Event, newest: bool): (next: Option<Heart>)
    requires OnHeartbeat(e) && (heart.Spawned? <==> e.StartHeartbeat?)
    ensures next.Some? ==> next.value.Beat? && next.value.gen == heart.gen
    ensures next.Some? && !next.value.phase.Waiting? ==> newest || e.Probe?
  {
    match e
    case StartHeartbeat(_) => Some(Beat(heart.gen, 0, Waiting))
    case Check(_) => if newest then Some(heart.(phase := Checked)) else None
    case Probe(_, up) => if up then Some(heart.(phase := Sending)) else Some(Beat(heart.gen, 0, Waiting))
    case Send(_, ok) =>
      if ok then Some(Beat(heart.gen, 0, Waiting))
      else if GivesUp(heart, e) then None
      else Some(Beat(heart.gen, heart.failures + 1, Waiting))
    case BeatExit(_) => None
  }

  /** `startHeartbeat`. */
  function HeartStep(s: State, e: Event): State
    requires OnHeartbeat(e) && HeartEnabled(s, e)
  {
    var heart := s.hearts[e.t];
    var g, newest := heart.gen, s.gen == Some(heart.gen);
    var next := Beats(heart, e, newest);
    var hearts := if next.Some? then s.hearts[e.t := next.value] else s.hearts - {e.t};
    if !e.Send? then s.(hearts := hearts)
    else
      s.(hearts := hearts,
      signals := if GivesUp(heart, e) then s.signals + {g} else s.signals)
  }

  function Step(s: State, e: Event): State
    requires Enabled(s, e)
  {
    if OnConnectPath(e) then ConnectStep(s, e)
    else if OnHeartbeat(e) then HeartStep(s, e)
    else match e
      case TransportLost(gen) => s.(down := s.down + {gen})
      case Reconnect => s.(down := match s.client case Some(g) => s.down + {g} case None => s.down)
      case CancelContext => s.(closed := true)
      case DropClient =>
        s.(client := None, down := match s.client case Some(g) => s.down + {g} case None => s.down)
      case _ => s
  }

  datatype Trace = Trace(states: seq<State>, events: seq<Event>)

  predicate Follows(r: Trace, i: nat)
    requires i < |r.events| < |r.states|
  {
    Enabled(r.states[i], r.events[i]) && r.states[i + 1] == Step(r.states[i], r.events[i])
  }

  ghost predicate IsRun(r: Trace) {
    && |r.states| == |r.events| + 1 && r.states[0] == NEW_SESSION
    && forall i :: 0 <= i < |r.events| ==> Follows(r, i)
  }

  // ---------------------------------------------------------------------
  // One reconnect token
  // ---------------------------------------------------------------------

  /** A goroutine of the very first connect. */
  predicate First(role: Role) {
    (role.DialStart? || role.Dialing? || role.Dialed? || role.Setup?) && !role.again
  }

  ghost predicate Numbered(s: State) {
    && (forall t :: t in s.tokens ==> t < s.next && t !in s.hearts)
    && (forall t :: t in s.hearts ==> t < s.next)
  }

  /** Never two tokens; before the first success only the first connect can hold
      one; it is given up only after `Close`, or when that first connect fails. */
  ghost predicate OneToken(s: State) {
    && (forall t, u :: t in s.tokens && u in s.tokens ==> t == u)
    && (forall t :: t in s.tokens ==> (First(s.tokens[t]) <==> !s.started))
    && (s.started && !s.closed ==> exists t :: t in s.tokens)
  }

  lemma TokenConnectStep(s: State, e: Event)
    requires Numbered(s) && OneToken(s) && OnConnectPath(e) && ConnectEnabled(s, e)
    ensures OneToken(ConnectStep(s, e))
  {
    var s' := ConnectStep(s, e);
    assert e.t in s.tokens;
    if e.SpawnWatcher? {
      assert s.next in s'.tokens;
    } else if s'.started && !s'.closed {
      assert e.t in s'.tokens;
    }
  }

  lemma NumberedConnectStep(s: State, e: Event)
    requires Numbered(s) && OnConnectPath(e) && ConnectEnabled(s, e)
    ensures Numbered(ConnectStep(s, e))
  {
  }

  lemma TokenHeartStep(s: State, e: Event)
    requires Numbered(s) && OneToken(s) && OnHeartbeat(e) && HeartEnabled(s, e)
    ensures Numbered(HeartStep(s, e)) && OneToken(HeartStep(s, e))
  {
  }

  // ---------------------------------------------------------------------
  // Generations
  // ---------------------------------------------------------------------

  /** Setup and watcher belong to the newest generation. */
  ghost predicate Newest(s: State) {
    && (s.gen.Some? ==> s.gen.value < s.gens)
    && (forall t :: t in s.tokens && (s.tokens[t].Setup? || s.tokens[t].Watch?) ==> s.gen == Some(s.tokens[t].gen))
    && (forall t :: t in s.hearts ==> s.hearts[t].gen < s.gens)
  }

  lemma NewestConnectStep(s: State, e: Event)
    requires OneToken(s) && Newest(s) && OnConnectPath(e) && ConnectEnabled(s, e)
    ensures Newest(ConnectStep(s, e))
  {
  }

  lemma NewestHeartStep(s: State, e: Event)
    requires Newest(s) && OnHeartbeat(e) && HeartEnabled(s, e)
    ensures Newest(HeartStep(s, e))
  {
  }

  /** One heartbeat per generation, none before its watcher is spawned, and none
      once its channel is closed. */
  ghost predicate OneHeart(s: State) {
    && (forall t, u :: t in s.hearts && u in s.hearts && s.hearts[t].gen == s.hearts[u].gen ==> t == u)
    && (forall t, u :: t in s.tokens && u in s.hearts && s.tokens[t].Setup? ==> s.hearts[u].gen != s.tokens[t].gen)
    && (forall t :: t in s.hearts ==> s.hearts[t].gen !in s.signals)
    && (forall t :: t in s.tokens && s.tokens[t].Setup? ==> s.tokens[t].gen !in s.signals)
    && (forall g :: g in s.signals ==> g < s.gens)
  }

  lemma OneHeartConnectStep(s: State, e: Event)
    requires OneToken(s) && Newest(s) && OneHeart(s) && OnConnectPath(e) && ConnectEnabled(s, e)
    ensures OneHeart(ConnectStep(s, e))
  {
  }

  lemma OneHeartHeartStep(s: State, e: Event)
    requires Numbered(s) && Newest(s) && OneHeart(s) && OnHeartbeat(e) && HeartEnabled(s, e)
    ensures OneHeart(HeartStep(s, e))
  {
  }

  ghost predicate Inv(s: State) {
    Numbered(s) && OneToken(s) && Newest(s) && OneHeart(s)
  }

  lemma InvStep(s: State, e: Event)
    requires Inv(s) && Enabled(s, e)
    ensures Inv(Step(s, e))
  {
    if OnConnectPath(e) {
      NumberedConnectStep(s, e);
      TokenConnectStep(s, e);
      NewestConnectStep(s, e);
      OneHeartConnectStep(s, e);
    } else if OnHeartbeat(e) {
      TokenHeartStep(s, e);
      NewestHeartStep(s, e);
      OneHeartHeartStep(s, e);
    }
  }

  lemma {:induction false} InvAlways(r: Trace, i: nat)
    requires IsRun(r) && i < |r.states|
    ensures Inv(r.states[i])
  {
    if i > 0 {
      InvAlways(r, i - 1);
      assert Follows(r, i - 1);
      var s, e := r.states[i - 1], r.events[i - 1];
      InvStep(s, e);
    }
  }

  /** From the first successful connect until the session is closed exactly one
      goroutine holds the reconnect token: one live watcher of the newest
      generation, or one reconnect in progress. Never are there two, not even
      before or after. */
  lemma ExactlyOneToken(r: Trace, i: nat)
    requires IsRun(r) && i < |r.states|
    ensures |r.states[i].tokens| <= 1
    ensures r.states[i].started && !r.states[i].closed ==> |r.states[i].tokens| == 1
    ensures forall t :: t in r.states[i].tokens && r.states[i].tokens[t].Watch? ==>
              r.states[i].gen == Some(r.states[i].tokens[t].gen)
  {
    InvAlways(r, i);
    var s := r.states[i];
    if t :| t in s.tokens {
      assert s.tokens.Keys == {t};
      assert |s.tokens| == |s.tokens.Keys|;
    } else {
      assert s.tokens == map[];
    }
  }

  /** The generation goroutine `t` beats for. */
  function HeartOf(s: State, t: nat): Option<nat> {
    if t in s.hearts then Some(s.hearts[t].gen) else None
  }

  /** A heartbeat channel is closed at most once, and only by the one heartbeat
      of its own generation, which ends with that. */
  lemma ChannelIsClosedOnceByItsHeartbeat(r: Trace, i: nat, g: nat, t: nat)
    requires IsRun(r) && i < |r.events|
    ensures g in r.states[i].signals ==> g in r.states[i + 1].signals
    ensures g in r.states[i].signals ==> HeartOf(r.states[i], t) != Some(g)
    ensures g in r.states[i + 1].signals ==> HeartOf(r.states[i + 1], t) != Some(g)
    ensures g in r.states[i + 1].signals && g !in r.states[i].signals ==>
              OnHeartbeat(r.events[i]) && HeartOf(r.states[i], r.events[i].t) == Some(g)
  {
    InvAlways(r, i);
    InvAlways(r, i + 1);
    assert Follows(r, i);
  }

  // ---------------------------------------------------------------------
  // What wakes a watcher, and what it does
  // ---------------------------------------------------------------------

  /** A watcher can fire exactly when its client is done or its heartbeat gave up, and
      can leave exactly when the session is closed. Once it fires it goes on to dial
      again, and gives the token up only to `Close`. */
  lemma WatcherFiresAndDials(s: State, u: nat, g: nat)
    requires u in s.tokens && s.tokens[u] == Watch(g)
    ensures Enabled(s, Fire(u)) <==> g in s.down || g in s.signals
    ensures Enabled(s, WatchExit(u)) <==> s.closed
    ensures Enabled(s, Fire(u)) ==>
              var fired := Step(s, Fire(u));
              && Enabled(fired, StreamsDone(u)) && Step(fired, StreamsDone(u)).tokens == s.tokens[u := DialStart(true)]
              && Step(fired, StreamsDone(u)).client == s.client
  {
  }

  /** `Reconnect` closes the current client, so its watcher can fire, and does nothing
      without one; `Close` drops the client and closes it. A lost transport wakes the
      watcher of its own generation only. */
  lemma ClosingTheClientWakesItsWatcher(s: State, u: nat, g: nat, lost: nat)
    requires u in s.tokens && s.tokens[u] == Watch(g)
    ensures Step(s, Event.Reconnect).client == s.client
    ensures s.client == Some(g) ==> Enabled(Step(s, Event.Reconnect), Fire(u))
    ensures s.client == None ==> Step(s, Event.Reconnect) == s
    ensures Step(s, CancelContext) == s.(closed := true)
    ensures s.closed ==> Step(s, DropClient).client == None && (s.client == Some(g) ==> g in Step(s, DropClient).down)
    ensures lost < s.gens ==>
              (Enabled(Step(s, TransportLost(lost)), Fire(u)) <==> Enabled(s, Fire(u)) || lost == g)
  {
  }

  /** A connection that has just been dialed becomes the session's newest; only the
      very first connect gives up on a failed testament, and takes its client with
      it. A dial ends without a client only in a closed session. */
  lemma InstallsTheNewest(s: State, t: nat)
    requires t in s.tokens
    ensures Enabled(s, InstallClient(t)) ==>
              var s' := Step(s, InstallClient(t));
              && s'.client == Some(s.gens) && s'.gen == Some(s.gens) && s'.gens == s.gens + 1
              && s'.tokens == s.tokens[t := Setup(s.gens, s.tokens[t].again)]
    ensures Enabled(s, TestamentFails(t)) <==> s.tokens[t].Setup? && !s.tokens[t].again
    ensures Enabled(s, TestamentFails(t)) ==>
              var s' := Step(s, TestamentFails(t));
              s'.client == None && s.tokens[t].gen in s'.down && t !in s'.tokens
    ensures Enabled(s, DialAborted(t)) ==> s.closed
    ensures Enabled(s, DialBegin(t)) ==>
              (t in Step(s, DialBegin(t)).tokens <==> !s.closed)
    ensures Enabled(s, DialFails(t)) ==> Step(s, DialFails(t)).tokens == s.tokens[t := DialStart(s.tokens[t].again)]
  {
  }

  // ---------------------------------------------------------------------
  // When a heartbeat gives up
  // ---------------------------------------------------------------------

  /** The last status update of heartbeat `t` before step `i` failed, and it has not
      seen the connection down since. */
  ghost predicate FailedBefore(r: Trace, i: nat, t: nat)
    requires i <= |r.events|
  {
    exists k :: 0 <= k < i && r.events[k] == Send(t, false)
                && forall m :: k < m < i ==> !ForgetsFailures(r.events[m], t)
  }

  /** A status update starts the count anew, and so does a connection seen down. */
  predicate ForgetsFailures(e: Event, t: nat) {
    (e.Send? && e.t == t) || e == Probe(t, false)
  }

  lemma FailedBeforeStep(r: Trace, i: nat, j: nat, t: nat)
    requires j == i + 1 <= |r.events|
    ensures FailedBefore(r, j, t)
            <==> r.events[i] == Send(t, false) || (FailedBefore(r, i, t) && !ForgetsFailures(r.events[i], t))
  {
    if FailedBefore(r, i, t) && !ForgetsFailures(r.events[i], t) {
      var k :| 0 <= k < i && r.events[k] == Send(t, false)
               && forall m :: k < m < i ==> !ForgetsFailures(r.events[m], t);
      assert forall m :: k < m < j ==> !ForgetsFailures(r.events[m], t);
    }
    if FailedBefore(r, j, t) && r.events[i] != Send(t, false) {
      var k :| 0 <= k < j && r.events[k] == Send(t, false)
               && forall m :: k < m < j ==> !ForgetsFailures(r.events[m], t);
      assert k < i && !ForgetsFailures(r.events[i], t);
    }
  }

  /** What a step does to the count of heartbeat `t`. */
  lemma CountStep(s: State, e: Event, t: nat)
    requires Inv(s) && Enabled(s, e) && t in Step(s, e).hearts && Step(s, e).hearts[t].Beat?
    ensures t in s.hearts
    ensures e == Send(t, false) ==> s.hearts[t].Beat? && Step(s, e).hearts[t].failures == s.hearts[t].failures + 1
    ensures s.hearts[t].Spawned? ==> e == StartHeartbeat(t) && Step(s, e).hearts[t].failures == 0
    ensures s.hearts[t].Beat? && e != Send(t, false) ==>
              Step(s, e).hearts[t].failures == if ForgetsFailures(e, t) then 0 else s.hearts[t].failures
  {
    if OnConnectPath(e) { CountConnectStep(s, e, t); }
  }

  lemma CountConnectStep(s: State, e: Event, t: nat)
    requires Inv(s) && OnConnectPath(e) && ConnectEnabled(s, e)
    requires t in ConnectStep(s, e).hearts && ConnectStep(s, e).hearts[t].Beat?
    ensures t in s.hearts && s.hearts[t] == ConnectStep(s, e).hearts[t]
  {
  }

  /** A goroutine that does not beat yet has sent nothing. */
  ghost predicate Silent(r: Trace, i: nat, t: nat)
    requires i <= |r.events|
  {
    forall k :: 0 <= k < i ==> !(r.events[k].Send? && r.events[k].t == t)
  }

  predicate NotBeating(s: State, t: nat) {
    s.next <= t || t in s.tokens || (t in s.hearts && s.hearts[t].Spawned?)
  }

  lemma NotBeatingStep(s: State, e: Event, t: nat)
    requires Inv(s) && Enabled(s, e) && NotBeating(Step(s, e), t)
    ensures NotBeating(s, t) && !(e.Send? && e.t == t)
  {
    if OnConnectPath(e) { NotBeatingConnectStep(s, e, t); }
  }

  lemma NotBeatingConnectStep(s: State, e: Event, t: nat)
    requires Inv(s) && OnConnectPath(e) && ConnectEnabled(s, e) && NotBeating(ConnectStep(s, e), t)
    ensures NotBeating(s, t)
  {
  }

  lemma {:induction false} NotBeatingIsSilent(r: Trace, i: nat, t: nat)
    requires IsRun(r) && i < |r.states| && NotBeating(r.states[i], t)
    ensures Silent(r, i, t)
  {
    if i > 0 {
      assert Follows(r, i - 1);
      InvAlways(r, i - 1);
      NotBeatingStep(r.states[i - 1], r.events[i - 1], t);
      NotBeatingIsSilent(r, i - 1, t);
    }
  }

  /** The count is what the run says: one after a failed update, else none. */
  lemma {:induction false} CountIsTheRuns(r: Trace, i: nat, t: nat)
    requires IsRun(r) && i < |r.states| && t in r.states[i].hearts && r.states[i].hearts[t].Beat?
    ensures r.states[i].hearts[t].failures == if FailedBefore(r, i, t) then 1 else 0
  {
    assert i > 0;
    var s, e := r.states[i - 1], r.events[i - 1];
    assert Follows(r, i - 1);
    InvAlways(r, i - 1);
    CountStep(s, e, t);
    FailedBeforeStep(r, i - 1, i, t);
    if s.hearts[t].Spawned? {
      NotBeatingIsSilent(r, i - 1, t);
    } else {
      CountIsTheRuns(r, i - 1, t);
      if e == Send(t, false) { SurvivesOneFailure(s, e, t); }
    }
  }

  lemma SurvivesOneFailure(s: State, e: Event, t: nat)
    requires Inv(s) && Enabled(s, e) && t in s.hearts && s.hearts[t].Beat? && e == Send(t, false)
    ensures t in Step(s, e).hearts <==> s.hearts[t].failures + 1 < MAX_CONSECUTIVE_FAILURES
    ensures s.hearts[t].gen in Step(s, e).signals <==> s.hearts[t].failures + 1 >= MAX_CONSECUTIVE_FAILURES
  {
  }

  lemma OnlyFailuresSignal(s: State, e: Event)
    requires Inv(s) && Enabled(s, e) && !(e.Send? && !e.ok)
    ensures Step(s, e).signals == s.signals
  {
  }

  lemma SendingStep(s: State, e: Event, t: nat)
    requires Inv(s) && Enabled(s, e) && t in Step(s, e).hearts
    requires Step(s, e).hearts[t].Beat? && Step(s, e).hearts[t].phase.Sending?
    ensures (e == Probe(t, true) && s.client.Some?)
            || (t in s.hearts && s.hearts[t] == Step(s, e).hearts[t] && (OnHeartbeat(e) ==> e.t != t))
  {
    if OnConnectPath(e) { CountConnectStep(s, e, t); }
  }

  lemma {:induction false} SendingWasProbed(r: Trace, i: nat, t: nat) returns (k: nat)
    requires IsRun(r) && i < |r.states| && t in r.states[i].hearts
    requires r.states[i].hearts[t].Beat? && r.states[i].hearts[t].phase.Sending?
    ensures k < i && r.events[k] == Probe(t, true) && r.states[k].client.Some?
    ensures forall m :: k < m < i && OnHeartbeat(r.events[m]) ==> r.events[m].t != t
  {
    assert i > 0;
    assert Follows(r, i - 1);
    InvAlways(r, i - 1);
    SendingStep(r.states[i - 1], r.events[i - 1], t);
    if r.events[i - 1] == Probe(t, true) {
      k := i - 1;
    } else {
      k := SendingWasProbed(r, i - 1, t);
    }
  }

  /** A heartbeat sends a status update only right after it has seen a client, so it
      counts no failure against a session that is reconnecting. */
  lemma UpdateFollowsAClient(r: Trace, i: nat, t: nat, ok: bool) returns (k: nat)
    requires IsRun(r) && i < |r.events| && r.events[i] == Send(t, ok)
    ensures k < i && r.events[k] == Probe(t, true) && r.states[k].client.Some?
    ensures forall m :: k < m < i && OnHeartbeat(r.events[m]) ==> r.events[m].t != t
  {
    assert Follows(r, i);
    k := SendingWasProbed(r, i, t);
  }

  /** A heartbeat closes its channel with a status update if and only if that update
      fails and the one before it failed too, with no connection seen down in
      between: two failures in a row. The watcher of its generation, if it is still
      parked, can then fire, and so brings up the next connection. */
  lemma SecondFailureSignals(r: Trace, i: nat, t: nat, ok: bool, u: nat)
    requires IsRun(r) && i < |r.events| && r.events[i] == Send(t, ok)
    ensures t in r.states[i].hearts && r.states[i].hearts[t].gen !in r.states[i].signals
    ensures var g := r.states[i].hearts[t].gen;
            && (g in r.states[i + 1].signals <==> !ok && FailedBefore(r, i, t))
            && (g in r.states[i + 1].signals && u in r.states[i + 1].tokens && r.states[i + 1].tokens[u] == Watch(g) ==>
                  Enabled(r.states[i + 1], Fire(u)))
  {
    assert Follows(r, i);
    InvAlways(r, i);
    CountIsTheRuns(r, i, t);
    if ok { OnlyFailuresSignal(r.states[i], r.events[i]); } else { SurvivesOneFailure(r.states[i], r.events[i], t); }
  }

  /** A heartbeat whose generation has been replaced leaves connection and token
      alone, and wakes no watcher. */
  lemma StaleHeartbeatIsHarmless(r: Trace, i: nat, u: nat)
    requires IsRun(r) && i < |r.events| && OnHeartbeat(r.events[i])
    requires r.states[i].gen != HeartOf(r.states[i], r.events[i].t)
    ensures var s, s' := r.states[i], r.states[i + 1];
            && s'.client == s.client && s'.gen == s.gen && s'.down == s.down && s'.tokens == s.tokens
            && (Enabled(s, Fire(u)) <==> Enabled(s', Fire(u)))
  {
    InvAlways(r, i);
    assert Follows(r, i);
    StaleHeartStep(r.states[i], r.events[i], u);
  }

  lemma StaleHeartStep(s: State, e: Event, u: nat)
    requires Inv(s) && OnHeartbeat(e) && HeartEnabled(s, e) && s.gen != HeartOf(s, e.t)
    ensures var s' := HeartStep(s, e);
            && s'.client == s.client && s'.gen == s.gen && s'.down == s.down && s'.tokens == s.tokens
            && (ConnectEnabled(s, Fire(u)) <==> ConnectEnabled(s', Fire(u)))
  {
  }

  /** Goroutine `t` is done with connecting, and if it still beats, it is for a
      replaced generation and waits for its interval. */
  predicate Winding(s: State, t: nat) {
    && t < s.next && t !in s.tokens
    && (t in s.hearts ==> s.hearts[t].Beat? && s.hearts[t].phase.Waiting? && s.gen != Some(s.hearts[t].gen))
  }

  lemma WindingConnectStep(s: State, e: Event, t: nat)
    requires Inv(s) && Winding(s, t) && OnConnectPath(e) && ConnectEnabled(s, e)
    ensures Winding(ConnectStep(s, e), t)
  {
  }

  lemma WindingHeartStep(s: State, e: Event, t: nat)
    requires Inv(s) && Winding(s, t) && OnHeartbeat(e) && HeartEnabled(s, e)
    ensures Winding(HeartStep(s, e), t)
  {
  }

  lemma {:induction false} WindingStays(r: Trace, i: nat, j: nat, t: nat)
    requires IsRun(r) && i <= j < |r.states| && Winding(r.states[i], t)
    ensures Winding(r.states[j], t)
    decreases j
  {
    if i < j {
      WindingStays(r, i, j - 1, t);
      InvAlways(r, j - 1);
      assert Follows(r, j - 1);
      var s, e := r.states[j - 1], r.events[j - 1];
      if OnConnectPath(e) {
        WindingConnectStep(s, e, t);
      } else if OnHeartbeat(e) {
        WindingHeartStep(s, e, t);
      }
    }
  }

  /** Step `i` is a status update of heartbeat `t`, sent after its generation was
      replaced. */
  predicate SendsLate(r: Trace, i: nat, t: nat)
    requires i < |r.events| < |r.states|
  {
    r.events[i].Send? && r.events[i].t == t && r.states[i].gen != HeartOf(r.states[i], t)
  }

  /** After its generation is replaced a heartbeat sends at most one more status
      update. */
  lemma AtMostOneLateUpdate(r: Trace, i: nat, j: nat, t: nat)
    requires IsRun(r) && i < |r.events| && j < |r.events| && SendsLate(r, i, t) && SendsLate(r, j, t)
    ensures i == j
  {
    assert Follows(r, i) && Follows(r, j);
    if i != j {
      var first, second := if i < j then i else j, if i < j then j else i;
      LateSenderWinds(r, first, t);
      WindingStays(r, first + 1, second, t);
    }
  }

  lemma LateSenderWinds(r: Trace, i: nat, t: nat)
    requires IsRun(r) && i < |r.events| && SendsLate(r, i, t)
    ensures Winding(r.states[i + 1], t)
  {
    InvAlways(r, i);
    InvAlways(r, i + 1);
    assert Follows(r, i);
  }

  // ---------------------------------------------------------------------
  // Close
  // ---------------------------------------------------------------------

  /** Nobody can install a client any more. */
  ghost predicate Sealed(s: State) {
    s.closed && s.client.None? && forall t :: t in s.tokens ==> !s.tokens[t].Dialing? && !s.tokens[t].Dialed?
  }

  lemma SealedStep(s: State, e: Event)
    requires Sealed(s) && Enabled(s, e)
    ensures Sealed(Step(s, e))
  {
  }

  /** If no connection attempt is in flight when `Close` drops the client, the
      session stays without one. */
  lemma {:induction false} CloseIsFinalUnlessDialing(r: Trace, i: nat, j: nat)
    requires IsRun(r) && i < j < |r.states| && r.events[i] == DropClient
    requires forall t :: t in r.states[i].tokens ==> !r.states[i].tokens[t].Dialing? && !r.states[i].tokens[t].Dialed?
    ensures Sealed(r.states[j]) && r.states[j].client.None?
    decreases j
  {
    assert Follows(r, j - 1);
    if i + 1 < j {
      CloseIsFinalUnlessDialing(r, i, j - 1);
      SealedStep(r.states[j - 1], r.events[j - 1]);
    }
  }

  lemma Extend(r: Trace, e: Event) returns (longer: Trace)
    requires IsRun(r) && Enabled(r.states[|r.events|], e)
    ensures IsRun(longer) && longer.events == r.events + [e]
    ensures longer.states[|longer.events|] == Step(r.states[|r.events|], e)
  {
    longer := Trace(r.states + [Step(r.states[|r.events|], e)], r.events + [e]);
    forall i | 0 <= i < |longer.events| ensures Follows(longer, i) {
      if i < |r.events| { assert Follows(r, i); }
    }
  }

  /** The condition is exact: whenever a connection attempt is in flight, closed
      session or not, the run can go on to install its client. */
  lemma AttemptInFlightCanInstall(r: Trace, t: nat) returns (longer: Trace)
    requires IsRun(r) && t in r.states[|r.events|].tokens
    requires r.states[|r.events|].tokens[t].Dialing? || r.states[|r.events|].tokens[t].Dialed?
    ensures IsRun(longer) && r.events <= longer.events && longer.states[|longer.events|].client.Some?
    ensures longer.states[|longer.events|].closed == r.states[|r.events|].closed
  {
    longer := r;
    if r.states[|r.events|].tokens[t].Dialing? {
      longer := Extend(longer, DialOk(t));
    }
    longer := Extend(longer, InstallClient(t));
  }

  /** The session's connection is lost and its watcher has fired. */
  const FIRED :=
    State(map[1 := Streams], map[0 := Spawned(0)], 2, Some(0), Some(0), 1, {0}, {}, false, true)

  /** `Close` is over while the reconnect holds a client it has not installed. */
  const TOO_LATE :=
    State(map[1 := Dialed(true)], map[0 := Spawned(0)], 2, None, Some(0), 1, {0}, {}, true, true)

  lemma ReachFired() returns (r: Trace)
    ensures IsRun(r) && r.states[|r.events|] == FIRED
  {
    r := Trace([NEW_SESSION], []);
    r := Extend(r, DialBegin(0));
    r := Extend(r, DialOk(0));
    r := Extend(r, InstallClient(0));
    r := Extend(r, SpawnWatcher(0));
    r := Extend(r, TransportLost(0));
    r := Extend(r, Fire(1));
    assert r.states[|r.events|].tokens == FIRED.tokens;
  }

  lemma ReachTooLate(fired: Trace) returns (r: Trace)
    requires IsRun(fired) && fired.states[|fired.events|] == FIRED
    ensures IsRun(r) && r.states[|r.events|] == TOO_LATE
  {
    r := Extend(fired, StreamsDone(1));
    assert r.states[|r.events|].tokens == map[1 := DialStart(true)];
    r := Extend(r, DialBegin(1));
    assert r.states[|r.events|].tokens == map[1 := Dialing(true)];
    r := Extend(r, DialOk(1));
    assert r.states[|r.events|].tokens == TOO_LATE.tokens;
    r := CloseSession(r);
  }

  lemma CloseSession(dialed: Trace) returns (r: Trace)
    requires IsRun(dialed) && dialed.states[|dialed.events|] == TOO_LATE.(closed := false, client := Some(0))
    ensures IsRun(r) && r.states[|r.events|] == TOO_LATE
  {
    r := Extend(dialed, CancelContext);
    r := Extend(r, DropClient);
  }

  /** Otherwise the race is lost: a run in which `Close` is over, nobody holds the
      token any more, and a client that nobody will close is installed. */
  lemma CloseDuringDialLeaksTheClient() returns (r: Trace)
    ensures IsRun(r)
    ensures var end := r.states[|r.events|];
            end.closed && end.client == Some(1) && 1 !in end.down && end.tokens == map[]
  {
    r := ReachFired();
    r := ReachTooLate(r);
    r := Extend(r, InstallClient(1));
    r := Extend(r, SpawnWatcher(1));
    r := Extend(r, WatchExit(2));
    assert r.states[|r.events|].tokens == map[];
  }
}
