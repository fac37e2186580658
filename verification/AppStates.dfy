/** App states, the transition table and the record the agent keeps of one app
    (src/common/constants.go, src/apps/state_machine.go, src/apps/app_manager.go,
    src/apps/state_observer.go, src/persistence/database.go). */
module AppStates {
  import opened Wrappers

  datatype AppState =
    | PRESENT | REMOVED | UNINSTALLED | FAILED | BUILT | BUILDING | TRANSFERED | TRANSFERING
    | PUBLISHING | PUBLISHED | DOWNLOADING | STARTING | STOPPING | STOPPED | UPDATING | DELETING | RUNNING

  function TransientToActual(s: AppState): AppState {
    match s
    case BUILDING | TRANSFERED | DOWNLOADING | TRANSFERING | PUBLISHING | UPDATING | STOPPING => PRESENT
    case DELETING => REMOVED
    case STARTING => RUNNING
    case _ => s
  }

  predicate IsDiskGrowing(s: AppState) {
    s in {RUNNING, PRESENT, BUILT, BUILDING, PUBLISHING, PUBLISHED, DOWNLOADING, UPDATING}
  }

  predicate IsTeardown(s: AppState) {
    s == REMOVED || s == UNINSTALLED
  }

  /** A stored target is never a state an app only passes through: STARTING stands
      for RUNNING, DELETING for REMOVED, the other seven for PRESENT, and every
      other state for itself. */
  lemma ActualStates(s: AppState)
    ensures var actual := TransientToActual(s);
            if s.STARTING? then actual.RUNNING?
            else if s.DELETING? then actual.REMOVED?
            else if s.BUILDING? || s.TRANSFERED? || s.TRANSFERING? || s.PUBLISHING? then actual.PRESENT?
            else if s.DOWNLOADING? || s.UPDATING? || s.STOPPING? then actual.PRESENT?
            else actual == s
    ensures TransientToActual(TransientToActual(s)) == TransientToActual(s)
  {
  }

  /** The transitions that pull, build, publish or start. */
  predicate UsesDisk(action: Action) {
    || action.Run? || action.RecoverRunning? || action.Build? || action.Publish? || action.Pull?
    || action.RemovedToPresent? || action.RecoverPresent? || action.RemoveAndPublish?
  }

  /** On a full disk every target some transition reaches by using disk is refused,
      and so are the transient states on the way there; teardown, the ends of
      failed work, transfers and whatever stops are not. */
  lemma FullDiskRefuses(s: AppState)
    ensures (exists from :: Transition(from, s).Some? && UsesDisk(Transition(from, s).value)) ==> IsDiskGrowing(s)
    ensures s.BUILDING? || s.PUBLISHING? || s.DOWNLOADING? || s.UPDATING? ==> IsDiskGrowing(s)
    ensures IsTeardown(s) || s.FAILED? || s.TRANSFERED? || s.TRANSFERING? || s.STARTING? ==> !IsDiskGrowing(s)
    ensures s.STOPPING? || s.STOPPED? || s.DELETING? ==> !IsDiskGrowing(s)
    ensures s.RUNNING? || s.PRESENT? || s.BUILT? || s.PUBLISHED? ==> IsDiskGrowing(s)
  {
  }

  /** The transition functions the table can name, and the update. */
  datatype Action =
    | NoAction | RemovedToPresent | Run | Build | Publish | Uninstall | Pull | Remove | Stop
    | RecoverPresent | RecoverRunning | RemoveAndPublish
    | CancelPush | CancelBuild | CancelTransfer | CancelPull
    | CancelUpdate | CancelUpdateAndRemove | CancelUpdateAndUninstall
    | Update

  function Transition(prev: AppState, next: AppState): (action: Option<Action>)
    ensures action != Some(Update)
  {
    match prev
    case REMOVED => (match next
      case PRESENT => Some(RemovedToPresent) case RUNNING => Some(Run) case BUILT => Some(Build)
      case PUBLISHED => Some(Publish) case UNINSTALLED => Some(Uninstall) case REMOVED => Some(NoAction)
      case _ => None)
    case UNINSTALLED => (match next
      case PRESENT => Some(Pull) case RUNNING => Some(Run) case BUILT => Some(Build)
      case PUBLISHED => Some(Publish) case UNINSTALLED => Some(NoAction)
      case _ => None)
    case PUBLISHING => if next == REMOVED then Some(CancelPush) else None
    case BUILDING => if next == REMOVED then Some(CancelBuild) else None
    case STOPPED => (match next
      case REMOVED => Some(Remove) case UNINSTALLED => Some(Uninstall) case RUNNING => Some(Run)
      case BUILT => Some(Build) case PUBLISHED => Some(Publish) case STOPPED => Some(NoAction)
      case _ => None)
    case PRESENT => (match next
      case REMOVED => Some(Remove) case UNINSTALLED => Some(Uninstall) case RUNNING => Some(Run)
      case BUILT => Some(Build) case PUBLISHED => Some(Publish) case PRESENT => Some(NoAction)
      case _ => None)
    case FAILED => (match next
      case REMOVED => Some(Remove) case UNINSTALLED => Some(Uninstall) case PRESENT => Some(RecoverPresent)
      case RUNNING => Some(RecoverRunning) case BUILT => Some(Build) case PUBLISHED => Some(Publish)
      case _ => None)
    case BUILT => (match next
      case REMOVED => Some(Remove) case UNINSTALLED => Some(Uninstall) case PRESENT => Some(NoAction)
      case RUNNING => Some(Run) case BUILT => Some(Build) case PUBLISHED => Some(Publish)
      case _ => None)
    case TRANSFERED => (match next
      case REMOVED => Some(Remove) case UNINSTALLED => Some(Uninstall) case PRESENT => Some(Pull)
      case _ => None)
    case TRANSFERING => if next in {REMOVED, UNINSTALLED, PRESENT} then Some(CancelTransfer) else None
    case PUBLISHED => (match next
      case REMOVED => Some(Remove) case UNINSTALLED => Some(Uninstall) case RUNNING => Some(Run)
      case PRESENT => Some(NoAction) case BUILT => Some(Build) case PUBLISHED => Some(Publish)
      case _ => None)
    case RUNNING => (match next
      case RUNNING => Some(NoAction) case PRESENT => Some(Stop) case BUILT => Some(Stop)
      case PUBLISHED => Some(RemoveAndPublish) case REMOVED => Some(Remove) case UNINSTALLED => Some(Uninstall)
      case _ => None)
    case DOWNLOADING => (match next
      case PRESENT => Some(Pull) case REMOVED => Some(CancelPull) case UNINSTALLED => Some(CancelPull)
      case _ => None)
    case STARTING => (match next
      case PRESENT => Some(Stop) case REMOVED => Some(Remove) case UNINSTALLED => Some(Uninstall)
      case RUNNING => Some(Run)
      case _ => None)
    case STOPPING => (match next
      case PRESENT => Some(Stop) case REMOVED => Some(Remove) case UNINSTALLED => Some(Uninstall)
      case RUNNING => Some(Run)
      case _ => None)
    case UPDATING => (match next
      case PRESENT => Some(CancelUpdate) case REMOVED => Some(CancelUpdateAndRemove)
      case UNINSTALLED => Some(CancelUpdateAndUninstall)
      case _ => None)
    case DELETING => (match next
      case REMOVED => Some(Remove) case UNINSTALLED => Some(Uninstall)
      case _ => None)
  }

  // ---------------------------------------------------------------------
  // The table, target by target
  // ---------------------------------------------------------------------

  /** Towards PRESENT apps are pulled, stopped, or left where they are; what is on
      its way is canceled. */
  lemma TowardsPresent(from: AppState)
    ensures Transition(from, PRESENT) == match from
            case REMOVED => Some(RemovedToPresent)
            case UNINSTALLED | TRANSFERED | DOWNLOADING => Some(Pull)
            case FAILED => Some(RecoverPresent)
            case PRESENT | BUILT | PUBLISHED => Some(NoAction)
            case RUNNING | STARTING | STOPPING => Some(Stop)
            case TRANSFERING => Some(CancelTransfer)
            case UPDATING => Some(CancelUpdate)
            case STOPPED | PUBLISHING | BUILDING | DELETING => None
  {
  }

  /** Towards RUNNING everything installed or removed is run. */
  lemma TowardsRunning(from: AppState)
    ensures Transition(from, RUNNING) == match from
            case REMOVED | UNINSTALLED | STOPPED | PRESENT | BUILT | PUBLISHED | STARTING | STOPPING => Some(Run)
            case FAILED => Some(RecoverRunning)
            case RUNNING => Some(NoAction)
            case TRANSFERED | TRANSFERING | DOWNLOADING | PUBLISHING | BUILDING | UPDATING | DELETING => None
  {
  }

  /** Towards BUILT and PUBLISHED whatever rests is built or published; a running
      app is stopped, or removed for publishing. */
  lemma TowardsBuiltAndPublished(from: AppState)
    ensures Transition(from, BUILT) == match from
            case REMOVED | UNINSTALLED | STOPPED | PRESENT | FAILED | BUILT | PUBLISHED => Some(Build)
            case RUNNING => Some(Stop)
            case _ => None
    ensures Transition(from, PUBLISHED) == match from
            case REMOVED | UNINSTALLED | STOPPED | PRESENT | FAILED | BUILT | PUBLISHED => Some(Publish)
            case RUNNING => Some(RemoveAndPublish)
            case _ => None
  {
  }

  /** Towards a teardown everything there is removed or uninstalled, and what is on
      its way is canceled. */
  lemma TowardsTeardown(from: AppState)
    ensures Transition(from, REMOVED) == match from
            case STOPPED | PRESENT | FAILED | BUILT | TRANSFERED | PUBLISHED => Some(Remove)
            case RUNNING | STARTING | STOPPING | DELETING => Some(Remove)
            case REMOVED => Some(NoAction)
            case PUBLISHING => Some(CancelPush)
            case BUILDING => Some(CancelBuild)
            case TRANSFERING => Some(CancelTransfer)
            case DOWNLOADING => Some(CancelPull)
            case UPDATING => Some(CancelUpdateAndRemove)
            case UNINSTALLED => None
    ensures Transition(from, UNINSTALLED) == match from
            case REMOVED | STOPPED | PRESENT | FAILED | BUILT | TRANSFERED | PUBLISHED => Some(Uninstall)
            case RUNNING | STARTING | STOPPING | DELETING => Some(Uninstall)
            case UNINSTALLED => Some(NoAction)
            case TRANSFERING => Some(CancelTransfer)
            case DOWNLOADING => Some(CancelPull)
            case UPDATING => Some(CancelUpdateAndUninstall)
            case PUBLISHING | BUILDING => None
  {
  }

  /** No other state is ever a target, but for a stopped app that stays stopped. */
  lemma TowardsNothingElse(from: AppState, to: AppState)
    requires !to.PRESENT? && !to.RUNNING? && !to.BUILT? && !to.PUBLISHED? && !IsTeardown(to)
    ensures Transition(from, to) == if from.STOPPED? && to.STOPPED? then Some(NoAction) else None
  {
  }

  // ---------------------------------------------------------------------
  // The record of one app
  // ---------------------------------------------------------------------

  type Version = string

  /** A request, or the stored requested-state row one is rebuilt from.
      `reported` is the current state the sender believes in, if it names one. */
  datatype Payload = Payload(
    target: AppState, requestUpdate: bool, newest: Version, present: Version,
    reported: Option<AppState>, cancel: bool, compose: bool)

  /** `stored` is the app-state row, `row` the requested-state row. */
  datatype App = App(
    current: AppState, target: AppState, version: Version,
    stored: Option<(AppState, Version)>, row: Option<Payload>)

  /** Saving the app state also refreshes the requested-state row, unless the
      saved state and version are the ones already there. */
  function Upsert(a: App, state: AppState): App {
    match a.stored
    case None => a.(stored := Some((a.current, a.version)))
    case Some(saved) =>
      if saved == (state, a.version) then a
      else a.(stored := Some((state, a.version)),
              row := match a.row
                     case None => None
                     case Some(r) => Some(r.(target := a.target, present := a.version, reported := Some(state))))
  }

  /** Publishing a state. Reaching REMOVED with a teardown requested deletes
      both rows. */
  function Notify(a: App, state: AppState): App {
    var saved := Upsert(a.(current := state), state);
    if state == REMOVED && saved.row.Some? && IsTeardown(saved.row.value.target)
    then saved.(stored := None, row := None)
    else saved
  }

  /** A cloud push stores its target and its row, except on a built app that is
      already on its way somewhere else. */
  predicate Skips(a: App, p: Payload) {
    a.current == BUILT && a.target != BUILT && !IsTeardown(TransientToActual(p.target))
  }

  function Store(a: App, p: Payload): App {
    if Skips(a, p) then a
    else a.(target := TransientToActual(p.target),
            row := Some(p.(target := TransientToActual(p.target), cancel := false)))
  }

  /** A push that is kept out: the app is built and on its way somewhere else, and
      what is pushed, STARTING and the like taken for what they lead to, tears
      nothing down. */
  ghost predicate KeptOut(current: AppState, target: AppState, pushed: AppState) {
    current == BUILT && target != BUILT && pushed != REMOVED && pushed != UNINSTALLED
  }

  /** Any other push leaves its target and its own row, and changes nothing else. */
  lemma PushIsStored(a: App, p: Payload)
    ensures var pushed := TransientToActual(p.target);
            Store(a, p) ==
            if KeptOut(a.current, a.target, pushed) then a
            else App(a.current, pushed, a.version, a.stored,
                     Some(Payload(pushed, p.requestUpdate, p.newest, p.present, p.reported, false, p.compose)))
  {
  }

  /** What a request changes in memory once it holds the lock. */
  function Adopt(a: App, p: Payload): App {
    var adopts := a.current == BUILT || a.current == PUBLISHED || (a.current == PRESENT && a.target == BUILT);
    a.(current := if adopts && p.reported.Some? then p.reported.value else a.current,
       version := if p.present != "" then p.present else a.version)
  }

  /** A request takes over the state the cloud believes in only for an app that is
      built or published, or present on its way to be built; it takes over a version
      whenever it names one; and nothing else. */
  lemma RequestAdopts(a: App, p: Payload)
    ensures var believed := p.reported.Some?
                            && (a.current == BUILT || a.current == PUBLISHED
                                || (a.current == PRESENT && a.target == BUILT));
            Adopt(a, p) == App(if believed then p.reported.value else a.current, a.target,
                               if p.present == "" then a.version else p.present, a.stored, a.row)
  {
  }

  function Prepare(a: App, p: Payload): App {
    Upsert(Adopt(a, p), a.current)
  }

  predicate UpdateGate(p: Payload, version: Version) {
    p.requestUpdate && p.newest != version && p.target != UNINSTALLED
  }

  predicate PendingUpdate(row: Payload) {
    UpdateGate(row, row.present)
  }

  function Choose(a: App, p: Payload): Option<Action> {
    if UpdateGate(p, a.version) then Some(Update) else Transition(a.current, p.target)
  }

  /** A request runs the update exactly when it asks for one to a version the app does
      not have, and does not uninstall; else the table decides. */
  lemma UpdateIsChosenIff(a: App, p: Payload)
    ensures Choose(a, p) == Some(Update) <==> p.requestUpdate && p.newest != a.version && p.target != UNINSTALLED
    ensures Choose(a, p) != Some(Update) ==> Choose(a, p) == Transition(a.current, p.target)
    ensures PendingUpdate(p) <==> p.requestUpdate && p.newest != p.present && p.target != UNINSTALLED
  {
  }

  function Install(a: App, p: Payload): App {
    a.(version := p.newest)
  }

  function Persist(a: App, p: Payload): App {
    a.(row := Some(p.(newest := a.version, present := a.version, target := a.target, cancel := false)))
  }

  /** The clean-up after a synchronisation deletes both rows of an app the cloud
      no longer names. */
  function Purged(a: App): App {
    a.(stored := None, row := None)
  }

  /** The stored row always carries the live target. */
  predicate RowMatches(a: App) {
    a.row.Some? ==> a.row.value.target == a.target && !a.row.value.cancel
  }

  /** ... and is missing only when that target is a teardown. */
  predicate RowAgrees(a: App) {
    RowMatches(a) && (a.row.None? ==> IsTeardown(a.target))
  }

  /** A write leaves the row on the live target, and the row goes missing only
      with a teardown as target. */
  predicate KeepsRow(a: App, b: App) {
    RowMatches(b) && (b.row.None? ==> (a.row.None? && b.target == a.target) || IsTeardown(b.target))
  }

  /** Every write to the record keeps the row, but for the clean-up, which may
      take it whatever the target is. */
  lemma EveryWriteKeepsTheRow(a: App, state: AppState, p: Payload)
    requires RowMatches(a)
    ensures KeepsRow(a, Notify(a, state)) && KeepsRow(a, Store(a, p)) && KeepsRow(a, Adopt(a, p))
    ensures KeepsRow(a, Prepare(a, p)) && KeepsRow(a, Install(a, p)) && KeepsRow(a, Persist(a, p))
    ensures RowMatches(Purged(a))
  {
  }
}
