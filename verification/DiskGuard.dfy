/** The disk guard (src/diskguard/diskguard.go): passes that read the free space,
    clean up, read again, and keep the device's emergency flag. */
module DiskGuard {

  datatype Config = Config(warnFree: int, emergencyFree: int)

  datatype Action = Nothing | Warn | Emergency

  /** What a pass does to the device, in order. `flag` is the emergency flag at
      the moment the cleanup starts. */
  datatype Effect = StopForeignContainers | SafeCleanup(flag: bool) | OnRecover

  datatype State = State(emergency: bool, effects: seq<Effect>)

  const INITIAL := State(false, [])

  function Decide(cfg: Config, free: int): Action {
    if free < cfg.emergencyFree then Emergency
    else if free < cfg.warnFree then Warn
    else Nothing
  }

  // ---------------------------------------------------------------------
  // The specification: a latch with two thresholds
  // ---------------------------------------------------------------------

  predicate Critical(cfg: Config, free: int) {
    free < cfg.emergencyFree
  }

  predicate Clears(cfg: Config, free: int) {
    cfg.emergencyFree <= free && cfg.warnFree <= free
  }

  /** Set by a critical reading, cleared at the warning threshold, held between. */
  function Latch(cfg: Config, readings: seq<int>): bool {
    if readings == [] then false
    else
      var last := readings[|readings| - 1];
      Critical(cfg, last) || (!Clears(cfg, last) && Latch(cfg, readings[..|readings| - 1]))
  }

  /** The latch is on exactly when some reading was critical and none since has
      reached the warning threshold. */
  lemma {:induction false} LatchMeaning(cfg: Config, readings: seq<int>)
    ensures Latch(cfg, readings) <==>
            exists i :: 0 <= i < |readings| && Critical(cfg, readings[i])
                        && forall j :: i < j < |readings| ==> !Clears(cfg, readings[j])
  {
    if readings != [] {
      var n := |readings| - 1;
      var fewer := readings[..n];
      LatchMeaning(cfg, fewer);
      if Critical(cfg, readings[n]) {
        assert 0 <= n < |readings|;
      } else if Latch(cfg, fewer) && !Clears(cfg, readings[n]) {
        var i :| 0 <= i < n && Critical(cfg, fewer[i]) && forall j :: i < j < n ==> !Clears(cfg, fewer[j]);
        forall j | i < j < |readings| ensures !Clears(cfg, readings[j]) {
          if j < n { assert readings[j] == fewer[j]; }
        }
        assert Critical(cfg, readings[i]);
      } else {
        forall i | 0 <= i < |readings| && Critical(cfg, readings[i])
          ensures exists j :: i < j < |readings| && Clears(cfg, readings[j])
        {
          if !Clears(cfg, readings[n]) {
            assert Critical(cfg, fewer[i]);
            var j :| i < j < n && Clears(cfg, fewer[j]);
            assert Clears(cfg, readings[j]);
          }
        }
      }
    }
  }

  /** How often the latch came on, and how often it went off. */
  function Rises(cfg: Config, readings: seq<int>): nat {
    if readings == [] then 0
    else
      var fewer := readings[..|readings| - 1];
      Rises(cfg, fewer) + (if !Latch(cfg, fewer) && Latch(cfg, readings) then 1 else 0)
  }

  function Falls(cfg: Config, readings: seq<int>): nat {
    if readings == [] then 0
    else
      var fewer := readings[..|readings| - 1];
      Falls(cfg, fewer) + (if Latch(cfg, fewer) && !Latch(cfg, readings) then 1 else 0)
  }

  lemma {:induction false} RisesMinusFalls(cfg: Config, readings: seq<int>)
    ensures Rises(cfg, readings) - Falls(cfg, readings) == if Latch(cfg, readings) then 1 else 0
  {
    if readings != [] { RisesMinusFalls(cfg, readings[..|readings| - 1]); }
  }

  // ---------------------------------------------------------------------
  // The guard
  // ---------------------------------------------------------------------

  function Updated(cfg: Config, s: State, free: int): State {
    match Decide(cfg, free)
    case Emergency => State(true, s.effects + [StopForeignContainers])
    case Warn => s
    case Nothing => State(false, if s.emergency then s.effects + [OnRecover] else s.effects)
  }

  function Cleaned(s: State): State {
    s.(effects := s.effects + [SafeCleanup(s.emergency)])
  }

  /** One pass; `second` is what is read after the cleanup, if there is one. */
  function Pass(cfg: Config, s: State, first: int, second: int): State {
    var latched := if Decide(cfg, first) == Emergency then Updated(cfg, s, first) else s;
    if Decide(cfg, first) == Nothing then Updated(cfg, latched, first)
    else Updated(cfg, Cleaned(latched), second)
  }

  /** The readings a pass takes. */
  function Readings(cfg: Config, first: int, second: int): seq<int> {
    if Clears(cfg, first) then [first] else [first, second]
  }

  function After(cfg: Config, passes: seq<(int, int)>): State {
    if passes == [] then INITIAL
    else
      var last := passes[|passes| - 1];
      Pass(cfg, After(cfg, passes[..|passes| - 1]), last.0, last.1)
  }

  function AllReadings(cfg: Config, passes: seq<(int, int)>): seq<int> {
    if passes == [] then []
    else
      var last := passes[|passes| - 1];
      AllReadings(cfg, passes[..|passes| - 1]) + Readings(cfg, last.0, last.1)
  }

  function Recoveries(effects: seq<Effect>): nat {
    if effects == [] then 0
    else Recoveries(effects[..|effects| - 1]) + (if effects[|effects| - 1] == OnRecover then 1 else 0)
  }

  function Stops(effects: seq<Effect>): nat {
    if effects == [] then 0
    else Stops(effects[..|effects| - 1]) + (if effects[|effects| - 1] == StopForeignContainers then 1 else 0)
  }

  function Criticals(cfg: Config, readings: seq<int>): nat {
    if readings == [] then 0
    else Criticals(cfg, readings[..|readings| - 1]) + (if Critical(cfg, readings[|readings| - 1]) then 1 else 0)
  }

  lemma EffectsAppend(effects: seq<Effect>, effect: Effect)
    ensures Recoveries(effects + [effect]) == Recoveries(effects) + (if effect == OnRecover then 1 else 0)
    ensures Stops(effects + [effect]) == Stops(effects) + (if effect == StopForeignContainers then 1 else 0)
  {
    assert (effects + [effect])[..|effects|] == effects;
  }

  lemma LatchAppend(cfg: Config, readings: seq<int>, free: int)
    ensures Latch(cfg, readings + [free]) == (Critical(cfg, free) || (!Clears(cfg, free) && Latch(cfg, readings)))
    ensures Falls(cfg, readings + [free])
         == Falls(cfg, readings) + (if Latch(cfg, readings) && !Latch(cfg, readings + [free]) then 1 else 0)
    ensures Criticals(cfg, readings + [free]) == Criticals(cfg, readings) + (if Critical(cfg, free) then 1 else 0)
  {
    assert (readings + [free])[..|readings|] == readings;
  }

  /** The guard's state agrees with the latch over everything read so far. */
  ghost predicate Refines(cfg: Config, s: State, readings: seq<int>) {
    && s.emergency == Latch(cfg, readings) && Recoveries(s.effects) == Falls(cfg, readings)
    && Stops(s.effects) == Criticals(cfg, readings)
  }

  lemma UpdateRefines(cfg: Config, s: State, readings: seq<int>, free: int)
    requires Refines(cfg, s, readings)
    ensures Refines(cfg, Updated(cfg, s, free), readings + [free])
  {
    LatchAppend(cfg, readings, free);
    EffectsAppend(s.effects, StopForeignContainers);
    EffectsAppend(s.effects, OnRecover);
  }

  /** A reading in the warning band is passed over without harm, and a critical
      one counted twice would be counted once. */
  lemma PassRefines(cfg: Config, s: State, readings: seq<int>, first: int, second: int)
    requires Refines(cfg, s, readings)
    ensures Refines(cfg, Pass(cfg, s, first, second), readings + Readings(cfg, first, second))
  {
    UpdateRefines(cfg, s, readings, first);
    if !Clears(cfg, first) {
      var latched := Updated(cfg, s, first);
      CleanupRefines(cfg, latched, readings + [first]);
      UpdateRefines(cfg, Cleaned(latched), readings + [first], second);
      assert readings + [first] + [second] == readings + [first, second];
    }
  }

  lemma CleanupRefines(cfg: Config, s: State, readings: seq<int>)
    requires Refines(cfg, s, readings)
    ensures Refines(cfg, Cleaned(s), readings)
  {
    EffectsAppend(s.effects, SafeCleanup(s.emergency));
  }

  lemma {:induction false} GuardRefinesLatch(cfg: Config, passes: seq<(int, int)>)
    ensures Refines(cfg, After(cfg, passes), AllReadings(cfg, passes))
  {
    if passes != [] {
      var fewer, last := passes[..|passes| - 1], passes[|passes| - 1];
      GuardRefinesLatch(cfg, fewer);
      PassRefines(cfg, After(cfg, fewer), AllReadings(cfg, fewer), last.0, last.1);
    }
  }

  /** Over any sequence of passes: the flag is the latch over all readings, those
      before and those after cleanup; recovery ran exactly once per time the latch
      went off; entries are ahead of recoveries by one exactly while the device is
      in emergency; and every critical reading stopped the foreign containers. */
  lemma FlagIsTheLatchOverAllReadings(cfg: Config, passes: seq<(int, int)>)
    ensures var s, readings := After(cfg, passes), AllReadings(cfg, passes);
            && s.emergency == Latch(cfg, readings)
            && Recoveries(s.effects) == Falls(cfg, readings)
            && Rises(cfg, readings) - Recoveries(s.effects) == (if s.emergency then 1 else 0)
            && Stops(s.effects) == Criticals(cfg, readings)
  {
    GuardRefinesLatch(cfg, passes);
    RisesMinusFalls(cfg, AllReadings(cfg, passes));
  }

  /** A critical first reading raises the flag before cleanup starts: the pass
      stops containers, then cleans up under a raised flag. Cleanup runs in a pass
      exactly when its first reading is below a threshold. */
  lemma FlagIsUpBeforeCleanup(cfg: Config, s: State, first: int, second: int)
    ensures s.effects <= Pass(cfg, s, first, second).effects
    ensures var done := Pass(cfg, s, first, second).effects[|s.effects|..];
            && (Critical(cfg, first) ==> [StopForeignContainers, SafeCleanup(true)] <= done)
            && (!Critical(cfg, first) && !Clears(cfg, first) ==> [SafeCleanup(s.emergency)] <= done)
            && (Clears(cfg, first) <==> forall flag :: SafeCleanup(flag) !in done)
  {
    var done := Pass(cfg, s, first, second).effects[|s.effects|..];
    if Critical(cfg, first) {
      assert done[0] == StopForeignContainers && done[1] == SafeCleanup(true);
    } else if !Clears(cfg, first) {
      assert done[0] == SafeCleanup(s.emergency);
    }
  }

  class Guard {
    const cfg: Config
    var emergency: bool
    var effects: seq<Effect>   // the calls made on the device

    ghost function View(): State
      reads this
    {
      State(emergency, effects)
    }

    constructor (cfg: Config)
      ensures this.cfg == cfg && View() == INITIAL
    {
      this.cfg := cfg;
      emergency, effects := false, [];
    }

    method SetEmergency(value: bool) returns (changed: bool)
      modifies this
      ensures emergency == value && effects == old(effects)
      ensures changed <==> old(emergency) != value
    {
      changed := emergency != value;
      emergency := value;
    }

    method UpdateEmergency(free: int)
      modifies this
      ensures View() == Updated(cfg, old(View()), free)
    {
      match Decide(cfg, free)
      case Emergency =>
        var _ := SetEmergency(true);
        effects := effects + [StopForeignContainers];
      case Warn =>
      case Nothing =>
        var changed := SetEmergency(false);
        if changed {
          effects := effects + [OnRecover];
        }
    }

    method RunOnce(first: int, second: int)
      modifies this
      ensures View() == Pass(cfg, old(View()), first, second)
    {
      var free := first;
      if Decide(cfg, free) == Emergency {
        UpdateEmergency(free);
      }
      if Decide(cfg, free) != Nothing {
        effects := effects + [SafeCleanup(emergency)];
        free := second;
      }
      UpdateEmergency(free);
    }
  }
}
