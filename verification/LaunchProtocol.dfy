/**
 * Launches, stops, cleanups and shutdown of many sessions, interleaved.
 *
 * A step is one section under the session-map lock, one foreign call of a launch or a
 * cleanup, or one counter update. A launch handler is identified by the session id it
 * generates, ids never repeating. `Stop` stands for every caller of stop_session: the stop
 * API, the idle reaper, the container-death monitor, a grace timer and a failed WebSocket
 * start. Cleanups that the source runs one after the other (shutdown) may overlap here.
 *
 * `Step` is total: an event that is not enabled changes nothing, so the theorems range over
 * every schedule.
 */
module LaunchProtocol {
  import opened Wrappers
  import opened SessionStore

  datatype Stage =
    | Scanning
    | StoppingConflicts(rest: set<Sid>)
    | AwaitingCleanup(victim: Sid, rest: set<Sid>)
    | CheckingCaps
    | CreatingStream
    | StartingCompositor
    | CreatingSink
    | StartingContainer
    | AbortingStream
    | AbortingSink
    | Inserting
    | CountingLaunched
    | CountingActive
    | Returned(ok: bool)

  datatype Handler = Handler(launch: Launch, stage: Stage, held: Held)

  datatype CleanupStage =
    | StoppingStream | StoppingContainer | UnloadingSink | DecrementingActive | CountingStopped

  datatype Cleanup = Cleanup(session: Session, stage: CleanupStage)

  datatype Event =
    | Begin(sid: Sid, launch: Launch)
    | Advance(sid: Sid, ok: bool, victim: Sid)
    | Stop(sid: Sid)
    | StopAll
    | Clean(sid: Sid)

  datatype World = World(
    sessions: map<Sid, Session>,
    launches: map<Sid, Handler>,
    cleanups: map<Sid, Cleanup>,
    resources: set<Resource>,
    launchedTotal: nat,
    active: int,
    stoppedTotal: nat,
    // history: whose insert, counter updates and cleanup have taken place
    registered: set<Sid>,
    counted: set<Sid>,
    activated: set<Sid>,
    decremented: set<Sid>,
    cleaned: set<Sid>,
    cleanupStarts: multiset<Sid>
  )

  const START := World(map[], map[], map[], {}, 0, 0, 0, {}, {}, {}, {}, {}, multiset{})

  // ----- stop and cleanup -----------------------------------------------------

  /** The section of stop_session that removes the session, and the start of its cleanup. */
  function Remove(w: World, sid: Sid): World {
    if sid !in w.sessions then w else
      w.(sessions := w.sessions - {sid},
         cleanups := w.cleanups[sid := Cleanup(w.sessions[sid], StoppingStream)],
         cleanupStarts := w.cleanupStarts + multiset{sid})
  }

  /** Shutdown takes the whole map. */
  function RemoveAll(w: World): World {
    w.(sessions := map[],
       cleanups := w.cleanups + (map s | s in w.sessions :: Cleanup(w.sessions[s], StoppingStream)),
       cleanupStarts := w.cleanupStarts + multiset(w.sessions.Keys))
  }

  function CleanStep(w: World, sid: Sid): World {
    if sid !in w.cleanups then w else
      var c := w.cleanups[sid];
      match c.stage
      case StoppingStream =>
        w.(resources := w.resources - {Compositor(sid)}, cleanups := w.cleanups[sid := c.(stage := StoppingContainer)])
      case StoppingContainer =>
        w.(resources := if c.session.held.container then w.resources - {Container(sid)} else w.resources,
           cleanups := w.cleanups[sid := c.(stage := UnloadingSink)])
      case UnloadingSink =>
        w.(resources := if c.session.held.sink then w.resources - {Sink(sid)} else w.resources,
           cleanups := w.cleanups[sid := c.(stage := DecrementingActive)])
      case DecrementingActive =>
        w.(active := w.active - 1, decremented := w.decremented + {sid},
           cleanups := w.cleanups[sid := c.(stage := CountingStopped)])
      case CountingStopped =>
        w.(stoppedTotal := w.stoppedTotal + 1, cleaned := w.cleaned + {sid},
           cleanups := w.cleanups - {sid})
  }

  // ----- launch ---------------------------------------------------------------

  function Move(w: World, sid: Sid, h: Handler): World { w.(launches := w.launches[sid := h]) }

  predicate TouchesMap(stage: Stage) {
    stage.Scanning? || stage.StoppingConflicts? || stage.AwaitingCleanup? || stage.CheckingCaps?
  }

  /** The sections that scan, stop conflicting sessions and check the caps. */
  function AdmissionStep(cfg: Config, w: World, sid: Sid, h: Handler, victim: Sid): World {
    match h.stage
    case Scanning => Move(w, sid, h.(stage := StoppingConflicts(Conflicts(w.sessions, h.launch))))
    case StoppingConflicts(rest) =>
      if rest == {} then Move(w, sid, h.(stage := CheckingCaps))
      else if victim !in rest then w
      else if victim !in w.sessions then Move(w, sid, h.(stage := StoppingConflicts(rest - {victim})))
      else Move(Remove(w, victim), sid, h.(stage := AwaitingCleanup(victim, rest - {victim})))
    case AwaitingCleanup(awaited, rest) =>
      if awaited in w.cleanups then w else Move(w, sid, h.(stage := StoppingConflicts(rest)))
    case CheckingCaps =>
      Move(w, sid, h.(stage := if CapsAllow(cfg, w.sessions, h.launch.owner) then CreatingStream else Returned(false)))
    case _ => w
  }

  predicate Acquiring(stage: Stage) {
    stage.CreatingStream? || stage.StartingCompositor? || stage.CreatingSink? || stage.StartingContainer?
    || stage.AbortingStream? || stage.AbortingSink?
  }

  /** A foreign call of the acquisition, or of giving back what was acquired. */
  function AcquireStep(cfg: Config, h: Handler, ok: bool): Handler {
    match h.stage
    case CreatingStream => h.(stage := if ok then StartingCompositor else Returned(false))
    case StartingCompositor =>
      if !h.launch.startCompositor then h.(stage := CreatingSink)
      else if ok then h.(stage := CreatingSink, held := h.held.(compositor := true))
      else h.(stage := Returned(false))
    case CreatingSink =>
      h.(stage := StartingContainer, held := h.held.(sink := h.held.sink || (h.launch.startAudio && ok)))
    case StartingContainer =>
      if !h.launch.wantsContainer then h.(stage := Inserting)
      else if cfg.hasRuntime && ok then h.(stage := Inserting, held := h.held.(container := true))
      else h.(stage := AbortingStream)
    case AbortingStream => h.(stage := AbortingSink, held := h.held.(compositor := false))
    case AbortingSink => h.(stage := Returned(false), held := h.held.(sink := false))
    case _ => h
  }

  /** What the foreign call does to the resources that exist. */
  function AcquireEffect(cfg: Config, rs: set<Resource>, sid: Sid, h: Handler, ok: bool): set<Resource> {
    match h.stage
    case StartingCompositor => if h.launch.startCompositor && ok then rs + {Compositor(sid)} else rs
    case CreatingSink => if h.launch.startAudio && ok then rs + {Sink(sid)} else rs
    case StartingContainer =>
      if h.launch.wantsContainer && cfg.hasRuntime && ok then rs + {Container(sid)} else rs
    case AbortingStream => rs - {Compositor(sid)}
    case AbortingSink => if h.held.sink then rs - {Sink(sid)} else rs
    case _ => rs
  }

  function RegisterStep(w: World, sid: Sid, h: Handler): World {
    match h.stage
    case Inserting =>
      Move(w.(sessions := w.sessions[sid := NewSession(h.launch, h.held)], registered := w.registered + {sid}),
           sid, h.(stage := CountingLaunched))
    case CountingLaunched =>
      Move(w.(launchedTotal := w.launchedTotal + 1, counted := w.counted + {sid}), sid, h.(stage := CountingActive))
    case CountingActive =>
      Move(w.(active := w.active + 1, activated := w.activated + {sid}), sid, h.(stage := Returned(true)))
    case _ => w
  }

  function AdvanceHandler(cfg: Config, w: World, sid: Sid, ok: bool, victim: Sid): World {
    if sid !in w.launches then w else
      var h := w.launches[sid];
      if TouchesMap(h.stage) then AdmissionStep(cfg, w, sid, h, victim)
      else if Acquiring(h.stage) then
        Move(w.(resources := AcquireEffect(cfg, w.resources, sid, h, ok)), sid, AcquireStep(cfg, h, ok))
      else RegisterStep(w, sid, h)
  }

  function Step(cfg: Config, w: World, e: Event): World {
    match e
    case Begin(sid, launch) =>
      if sid in w.launches then w else Move(w, sid, Handler(launch, Scanning, NOTHING))
    case Advance(sid, ok, victim) => AdvanceHandler(cfg, w, sid, ok, victim)
    case Stop(sid) => Remove(w, sid)
    case StopAll => RemoveAll(w)
    case Clean(sid) => CleanStep(w, sid)
  }

  function Exec(cfg: Config, w: World, es: seq<Event>): World
    decreases |es|
  {
    if es == [] then w else Exec(cfg, Step(cfg, w, es[0]), es[1..])
  }

  /** No launch and no cleanup is under way. */
  predicate Quiescent(w: World) {
    w.cleanups == map[] && forall s :: s in w.launches ==> w.launches[s].stage.Returned?
  }

  // ----- every session is accounted for -----------------------------------------

  predicate Registered(stage: Stage) {
    stage.CountingLaunched? || stage.CountingActive? || stage == Returned(true)
  }

  predicate CountedLaunch(stage: Stage) { stage.CountingActive? || stage == Returned(true) }

  /** Where session s stands: every register that mentions it tells the same story. */
  predicate Accounted(w: World, s: Sid) {
    && (s in w.registered <==> s in w.launches && Registered(w.launches[s].stage))
    && (s in w.counted <==> s in w.launches && CountedLaunch(w.launches[s].stage))
    && (s in w.activated <==> s in w.launches && w.launches[s].stage == Returned(true))
    && (s in w.registered <==> s in w.sessions || s in w.cleanups || s in w.cleaned)
    && !(s in w.sessions && s in w.cleanups)
    && !(s in w.sessions && s in w.cleaned)
    && !(s in w.cleanups && s in w.cleaned)
    && (s in w.decremented <==> s in w.cleaned || (s in w.cleanups && w.cleanups[s].stage == CountingStopped))
    && w.cleanupStarts[s] == (if s in w.cleanups || s in w.cleaned then 1 else 0)
  }

  predicate CounterInv(w: World) {
    && w.launchedTotal == |w.counted|
    && w.active == |w.activated| - |w.decremented|
    && w.stoppedTotal == |w.cleaned|
  }

  ghost predicate AccountInv(w: World) {
    (forall s :: Accounted(w, s)) && CounterInv(w)
  }

  lemma RemoveAccounts(w: World, sid: Sid, s: Sid)
    requires Accounted(w, s)
    ensures Accounted(Remove(w, sid), s) && Accounted(RemoveAll(w), s)
  {
  }

  lemma CleanAccounts(w: World, sid: Sid, s: Sid)
    requires Accounted(w, s)
    ensures Accounted(CleanStep(w, sid), s)
  {
  }

  lemma MoveAccounts(w: World, sid: Sid, h: Handler, s: Sid)
    requires Accounted(w, s) && !Registered(h.stage)
    requires sid in w.launches ==> !Registered(w.launches[sid].stage)
    ensures Accounted(Move(w, sid, h), s)
  {
  }

  lemma AdmissionAccounts(cfg: Config, w: World, sid: Sid, victim: Sid, s: Sid)
    requires Accounted(w, s) && sid in w.launches && TouchesMap(w.launches[sid].stage)
    ensures Accounted(AdmissionStep(cfg, w, sid, w.launches[sid], victim), s)
  {
    var h := w.launches[sid];
    match h.stage
    case StoppingConflicts(rest) =>
      if rest != {} && victim in rest && victim in w.sessions {
        RemoveAccounts(w, victim, s);
        MoveAccounts(Remove(w, victim), sid, h.(stage := AwaitingCleanup(victim, rest - {victim})), s);
      }
    case _ =>
  }

  lemma RegisterAccounts(w: World, sid: Sid, s: Sid)
    requires Accounted(w, s) && sid in w.launches
    ensures Accounted(RegisterStep(w, sid, w.launches[sid]), s)
  {
  }

  lemma AccountStepAt(cfg: Config, w: World, e: Event, s: Sid)
    requires Accounted(w, s)
    ensures Accounted(Step(cfg, w, e), s)
  {
    match e
    case Begin(sid, launch) =>
      if sid !in w.launches {
        MoveAccounts(w, sid, Handler(launch, Scanning, NOTHING), s);
      }
    case Advance(sid, ok, victim) =>
      if sid in w.launches {
        var h := w.launches[sid];
        if TouchesMap(h.stage) {
          AdmissionAccounts(cfg, w, sid, victim, s);
        } else if Acquiring(h.stage) {
          MoveAccounts(w.(resources := AcquireEffect(cfg, w.resources, sid, h, ok)), sid, AcquireStep(cfg, h, ok), s);
        } else {
          RegisterAccounts(w, sid, s);
        }
      }
    case Stop(sid) => RemoveAccounts(w, sid, s);
    case StopAll => RemoveAccounts(w, s, s);
    case Clean(sid) => CleanAccounts(w, sid, s);
  }

  lemma RegisterCounters(w: World, sid: Sid)
    requires CounterInv(w) && sid in w.launches && Accounted(w, sid)
    ensures CounterInv(RegisterStep(w, sid, w.launches[sid]))
  {
    assert w.launches[sid].stage == CountingLaunched ==> sid !in w.counted;
    assert w.launches[sid].stage == CountingActive ==> sid !in w.activated;
  }

  lemma CleanCounters(w: World, sid: Sid)
    requires CounterInv(w) && Accounted(w, sid)
    ensures CounterInv(CleanStep(w, sid))
  {
    if sid in w.cleanups {
      assert w.cleanups[sid].stage == DecrementingActive ==> sid !in w.decremented;
      assert w.cleanups[sid].stage == CountingStopped ==> sid !in w.cleaned;
    }
  }

  /** Two worlds with the same totals and the same history of them. */
  predicate SameCounters(a: World, b: World) {
    && a.launchedTotal == b.launchedTotal && a.counted == b.counted
    && a.active == b.active && a.activated == b.activated && a.decremented == b.decremented
    && a.stoppedTotal == b.stoppedTotal && a.cleaned == b.cleaned
  }

  lemma AdmissionCounters(cfg: Config, w: World, sid: Sid, h: Handler, victim: Sid)
    ensures SameCounters(AdmissionStep(cfg, w, sid, h, victim), w)
  {
    match h.stage
    case StoppingConflicts(rest) =>
    case AwaitingCleanup(awaited, rest) =>
    case _ =>
  }

  lemma AdvanceCounters(cfg: Config, w: World, sid: Sid, ok: bool, victim: Sid)
    requires CounterInv(w) && sid in w.launches && Accounted(w, sid)
    ensures CounterInv(AdvanceHandler(cfg, w, sid, ok, victim))
  {
    var stage := w.launches[sid].stage;
    if TouchesMap(stage) {
      AdmissionCounters(cfg, w, sid, w.launches[sid], victim);
    } else if !Acquiring(stage) {
      RegisterCounters(w, sid);
    }
  }

  /** Each total moves with the history of the one session whose step it is. */
  lemma CounterStep(cfg: Config, w: World, e: Event)
    requires CounterInv(w) && (e.Advance? || e.Clean? ==> Accounted(w, e.sid))
    ensures CounterInv(Step(cfg, w, e))
  {
    match e
    case Advance(sid, ok, victim) =>
      if sid in w.launches {
        AdvanceCounters(cfg, w, sid, ok, victim);
      }
    case Clean(sid) => CleanCounters(w, sid);
    case _ =>
  }

  lemma AccountStep(cfg: Config, w: World, e: Event)
    requires AccountInv(w)
    ensures AccountInv(Step(cfg, w, e))
  {
    forall s ensures Accounted(Step(cfg, w, e), s) {
      AccountStepAt(cfg, w, e, s);
    }
    CounterStep(cfg, w, e);
  }

  lemma StartIsAccounted()
    ensures AccountInv(START)
  {
  }

  lemma {:induction false} AccountRun(cfg: Config, w: World, es: seq<Event>)
    requires AccountInv(w)
    ensures AccountInv(Exec(cfg, w, es))
    decreases |es|
  {
    if es == [] {
    } else {
      AccountStep(cfg, w, es[0]);
      AccountRun(cfg, Step(cfg, w, es[0]), es[1..]);
    }
  }

  /**
   * However many stoppers race: no session is cleaned up twice, one in the map not at all, and
   * a registered one that has left the map exactly once.
   */
  lemma CleanedUpExactlyOnce(cfg: Config, es: seq<Event>, s: Sid)
    ensures var w := Exec(cfg, START, es);
            && w.cleanupStarts[s] <= 1
            && (s in w.sessions ==> s in w.registered && w.cleanupStarts[s] == 0)
            && (s in w.registered && s !in w.sessions ==> w.cleanupStarts[s] == 1)
            && (Quiescent(w) && s in w.registered ==> (s in w.cleaned <==> s !in w.sessions))
  {
    AccountRun(cfg, START, es);
    assert Accounted(Exec(cfg, START, es), s);
  }

  lemma SizeOfDifference<T>(a: set<T>, b: set<T>)
    requires b <= a
    ensures |a - b| == |a| - |b|
  {
    assert a == b + (a - b);
  }

  /** The history sets nest. */
  lemma HistoryNests(w: World)
    requires AccountInv(w)
    ensures w.sessions.Keys <= w.registered && w.activated <= w.counted <= w.registered
    ensures w.cleaned <= w.decremented <= w.registered - w.sessions.Keys
  {
    forall s ensures
        && (s in w.sessions.Keys ==> s in w.registered)
        && (s in w.activated ==> s in w.counted) && (s in w.counted ==> s in w.registered)
        && (s in w.cleaned ==> s in w.decremented)
        && (s in w.decremented ==> s in w.registered && s !in w.sessions.Keys) {
      assert Accounted(w, s);
    }
  }

  /**
   * At every step the gauge is the size of the map, corrected by the sessions that have left
   * the map but not yet been subtracted and those inserted but not yet added.
   */
  lemma ActiveGaugeInFlight(cfg: Config, es: seq<Event>)
    ensures var w := Exec(cfg, START, es);
            w.active == |w.sessions| + |w.registered - w.sessions.Keys - w.decremented| - |w.registered - w.activated|
  {
    AccountRun(cfg, START, es);
    var w := Exec(cfg, START, es);
    HistoryNests(w);
    SizeOfDifference(w.registered, w.sessions.Keys);
    SizeOfDifference(w.registered - w.sessions.Keys, w.decremented);
    SizeOfDifference(w.registered, w.activated);
  }

  /** With nothing in flight the gauge, the totals and the map agree. */
  lemma GaugesAgreeAtQuiescence(cfg: Config, es: seq<Event>)
    requires Quiescent(Exec(cfg, START, es))
    ensures var w := Exec(cfg, START, es);
            w.active == w.launchedTotal - w.stoppedTotal == |w.sessions|
  {
    AccountRun(cfg, START, es);
    var w := Exec(cfg, START, es);
    HistoryNests(w);
    forall s ensures s in w.registered ==> s in w.activated && (s in w.cleaned || s in w.sessions) {
      assert Accounted(w, s);
    }
    SizeOfDifference(w.registered, w.sessions.Keys);
    assert w.cleaned == w.registered - w.sessions.Keys;
    assert w.decremented == w.cleaned && w.counted == w.registered && w.activated == w.registered;
  }

  // ----- resources ------------------------------------------------------------

  /** What is left to release at each stage of a cleanup. */
  function Remaining(c: Cleanup): Held {
    match c.stage
    case StoppingStream => c.session.held
    case StoppingContainer => c.session.held.(compositor := false)
    case UnloadingSink => Held(false, c.session.held.sink, false)
    case _ => NOTHING
  }

  /** Who answers for the resources of a session id, and for which. */
  function Owed(w: World, s: Sid): Held {
    if s in w.sessions then w.sessions[s].held
    else if s in w.cleanups then Remaining(w.cleanups[s])
    else if s in w.launches && s !in w.registered then w.launches[s].held
    else NOTHING
  }

  predicate Answered(w: World, s: Sid) {
    && HeldOf(w.resources, s) == Owed(w, s)
    && (s in w.launches ==> HoldsAtMost(w.launches[s]))
  }

  ghost predicate ResourceInv(w: World) {
    forall s :: Answered(w, s)
  }

  /** How much a launch can hold at each of its stages. */
  predicate HoldsAtMost(h: Handler) {
    match h.stage
    case StartingContainer => !h.held.container
    case CreatingSink => !h.held.sink && !h.held.container
    case AbortingStream => !h.held.container
    case AbortingSink => !h.held.compositor && !h.held.container
    case Inserting => true
    case CountingLaunched => true
    case CountingActive => true
    case Returned(ok) => ok || h.held == NOTHING
    case _ => h.held == NOTHING
  }

  lemma CleanAnswers(w: World, sid: Sid, s: Sid)
    requires Accounted(w, s) && Answered(w, s)
    ensures Answered(CleanStep(w, sid), s)
  {
    if s == sid && sid in w.cleanups {
      assert HeldOf(w.resources, s) == Remaining(w.cleanups[sid]);
    }
  }

  lemma RemoveAnswers(w: World, sid: Sid, s: Sid)
    requires Accounted(w, s) && Answered(w, s)
    ensures Answered(Remove(w, sid), s) && Answered(RemoveAll(w), s)
  {
  }

  lemma MoveAnswers(w: World, sid: Sid, h: Handler, s: Sid)
    requires Accounted(w, s) && Answered(w, s)
    requires sid in w.launches ==> h.held == w.launches[sid].held
    requires sid !in w.launches ==> h.held == NOTHING
    requires HoldsAtMost(h)
    ensures Answered(Move(w, sid, h), s)
  {
  }

  lemma AcquireAnswers(cfg: Config, w: World, sid: Sid, ok: bool, s: Sid)
    requires Accounted(w, s) && Answered(w, s)
    requires sid in w.launches && Acquiring(w.launches[sid].stage)
    ensures var h := w.launches[sid];
            Answered(
              Move(w.(resources := AcquireEffect(cfg, w.resources, sid, h, ok)), sid, AcquireStep(cfg, h, ok)), s)
  {
    if s == sid {
      assert HeldOf(w.resources, s) == w.launches[sid].held;
    }
  }

  lemma RegisterAnswers(w: World, sid: Sid, s: Sid)
    requires Accounted(w, s) && Answered(w, s) && sid in w.launches
    requires !Acquiring(w.launches[sid].stage) && !TouchesMap(w.launches[sid].stage)
    ensures Answered(RegisterStep(w, sid, w.launches[sid]), s)
  {
  }

  lemma AdmissionAnswers(cfg: Config, w: World, sid: Sid, victim: Sid, s: Sid)
    requires Accounted(w, s) && Answered(w, s) && sid in w.launches && Answered(w, sid)
    requires TouchesMap(w.launches[sid].stage)
    ensures Answered(AdmissionStep(cfg, w, sid, w.launches[sid], victim), s)
  {
    var h := w.launches[sid];
    match h.stage
    case StoppingConflicts(rest) =>
      if rest != {} && victim in rest && victim in w.sessions {
        RemoveAccounts(w, victim, s);
        RemoveAnswers(w, victim, s);
        MoveAnswers(Remove(w, victim), sid, h.(stage := AwaitingCleanup(victim, rest - {victim})), s);
      }
    case _ =>
  }

  lemma AnswerStepAt(cfg: Config, w: World, e: Event, s: Sid)
    requires Accounted(w, s) && ResourceInv(w)
    ensures Answered(Step(cfg, w, e), s)
  {
    assert Answered(w, s);
    match e
    case Begin(sid, launch) =>
      if sid !in w.launches {
        MoveAnswers(w, sid, Handler(launch, Scanning, NOTHING), s);
      }
    case Advance(sid, ok, victim) =>
      if sid in w.launches {
        assert Answered(w, sid);
        if TouchesMap(w.launches[sid].stage) {
          AdmissionAnswers(cfg, w, sid, victim, s);
        } else if Acquiring(w.launches[sid].stage) {
          AcquireAnswers(cfg, w, sid, ok, s);
        } else {
          RegisterAnswers(w, sid, s);
        }
      }
    case Stop(sid) => RemoveAnswers(w, sid, s);
    case StopAll => RemoveAnswers(w, s, s);
    case Clean(sid) => CleanAnswers(w, sid, s);
  }

  lemma {:induction false} ResourceRun(cfg: Config, w: World, es: seq<Event>)
    requires AccountInv(w) && ResourceInv(w)
    ensures ResourceInv(Exec(cfg, w, es))
    decreases |es|
  {
    if es == [] {
    } else {
      forall s ensures Answered(Step(cfg, w, es[0]), s) {
        assert Accounted(w, s);
        AnswerStepAt(cfg, w, es[0], s);
      }
      AccountStep(cfg, w, es[0]);
      ResourceRun(cfg, Step(cfg, w, es[0]), es[1..]);
    }
  }

  /**
   * Conservation, across every exit of a launch and every stop: a session in the map always
   * has exactly what it owns, and with nothing in flight nothing else exists.
   */
  lemma ResourcesAreConserved(cfg: Config, es: seq<Event>, s: Sid)
    ensures var w := Exec(cfg, START, es);
            && (s in w.sessions ==> HeldOf(w.resources, s) == w.sessions[s].held)
            && (Quiescent(w) && s !in w.sessions ==> HeldOf(w.resources, s) == NOTHING)
  {
    AccountRun(cfg, START, es);
    ResourceRun(cfg, START, es);
    var w := Exec(cfg, START, es);
    assert Accounted(w, s) && Answered(w, s);
  }

  lemma NothingAfterTheContainer(cfg: Config, w: World, e: Event, s: Sid)
    requires Accounted(w, s) && Answered(w, s) && Container(s) in w.resources
    requires Accounted(Step(cfg, w, e), s) && Answered(Step(cfg, w, e), s)
    ensures Sink(s) in Step(cfg, w, e).resources ==> Sink(s) in w.resources
    ensures Compositor(s) in Step(cfg, w, e).resources ==> Compositor(s) in w.resources
    ensures Container(s) in Step(cfg, w, e).resources && Sink(s) in w.resources ==> Sink(s) in Step(cfg, w, e).resources
  {
    assert HeldOf(w.resources, s).container;
  }

  /**
   * What a container is given is there before it and, the sink, until after it: over every run,
   * from the start of a container on nothing more is acquired for its session, and the session's
   * sink is not unloaded while the container is up.
   */
  lemma SinkOutlivesContainer(cfg: Config, es: seq<Event>, e: Event, s: Sid)
    requires Container(s) in Exec(cfg, START, es).resources
    ensures var w, w' := Exec(cfg, START, es), Step(cfg, Exec(cfg, START, es), e);
            && (Sink(s) in w'.resources ==> Sink(s) in w.resources)
            && (Compositor(s) in w'.resources ==> Compositor(s) in w.resources)
            && (Container(s) in w'.resources && Sink(s) in w.resources ==> Sink(s) in w'.resources)
  {
    var w := Exec(cfg, START, es);
    AccountRun(cfg, START, es);
    ResourceRun(cfg, START, es);
    AccountStep(cfg, w, e);
    assert Accounted(w, s) && Answered(w, s);
    AnswerStepAt(cfg, w, e, s);
    NothingAfterTheContainer(cfg, w, e, s);
  }

  // ----- a launch alone -----------------------------------------------------------

  /** The foreign calls of one launch in a row, with what each of them answers. */
  function AcquireAll(cfg: Config, sid: Sid, h: Handler, rs: set<Resource>, oks: seq<bool>): (Handler, set<Resource>)
    decreases |oks|
  {
    if oks == [] then (h, rs)
    else AcquireAll(cfg, sid, AcquireStep(cfg, h, oks[0]), AcquireEffect(cfg, rs, sid, h, oks[0]), oks[1..])
  }

  lemma EffectTracksHeld(cfg: Config, base: set<Resource>, sid: Sid, h: Handler, ok: bool)
    requires HeldOf(base, sid) == NOTHING && HoldsAtMost(h)
    ensures AcquireEffect(cfg, base + ResourcesOf(sid, h.held), sid, h, ok)
         == base + ResourcesOf(sid, AcquireStep(cfg, h, ok).held)
    ensures HoldsAtMost(AcquireStep(cfg, h, ok))
  {
  }

  /** Whatever the foreign calls answer, what exists beyond the rest is what the launch holds. */
  lemma {:induction false} AcquisitionTracksHeld(cfg: Config, base: set<Resource>, sid: Sid, h: Handler, oks: seq<bool>)
    requires HeldOf(base, sid) == NOTHING && HoldsAtMost(h)
    ensures var r := AcquireAll(cfg, sid, h, base + ResourcesOf(sid, h.held), oks);
            HoldsAtMost(r.0) && r.1 == base + ResourcesOf(sid, r.0.held)
    decreases |oks|
  {
    if oks != [] {
      EffectTracksHeld(cfg, base, sid, h, oks[0]);
      AcquisitionTracksHeld(cfg, base, sid, AcquireStep(cfg, h, oks[0]), oks[1..]);
    }
  }

  function Answers(fate: Fate): seq<bool> {
    [fate.stream, fate.compositor, fate.sink, fate.container, true, true]
  }

  function StepAll(cfg: Config, h: Handler, oks: seq<bool>): Handler
    decreases |oks|
  {
    if oks == [] then h else StepAll(cfg, AcquireStep(cfg, h, oks[0]), oks[1..])
  }

  lemma {:induction false} StagesIgnoreResources(cfg: Config, sid: Sid, h: Handler, rs: set<Resource>, oks: seq<bool>)
    ensures AcquireAll(cfg, sid, h, rs, oks).0 == StepAll(cfg, h, oks)
    decreases |oks|
  {
    if oks != [] {
      StagesIgnoreResources(cfg, sid, AcquireStep(cfg, h, oks[0]), AcquireEffect(cfg, rs, sid, h, oks[0]), oks[1..]);
    }
  }

  lemma StepOne(cfg: Config, h: Handler, a: bool, rest: seq<bool>)
    ensures StepAll(cfg, h, [a] + rest) == StepAll(cfg, AcquireStep(cfg, h, a), rest)
  {
    assert ([a] + rest)[1..] == rest;
  }

  lemma StepThree(cfg: Config, h: Handler, a: bool, b: bool, c: bool, rest: seq<bool>)
    ensures StepAll(cfg, h, [a, b, c] + rest)
         == StepAll(cfg, AcquireStep(cfg, AcquireStep(cfg, AcquireStep(cfg, h, a), b), c), rest)
  {
    assert [a, b, c] + rest == [a] + ([b] + ([c] + rest));
    StepOne(cfg, h, a, [b] + ([c] + rest));
    StepOne(cfg, AcquireStep(cfg, h, a), b, [c] + rest);
    StepOne(cfg, AcquireStep(cfg, AcquireStep(cfg, h, a), b), c, rest);
  }

  /** Where a launch nobody disturbs is after its first three calls. */
  function BeforeContainer(launch: Launch, fate: Fate): Handler {
    if !fate.stream || (launch.startCompositor && !fate.compositor) then Handler(launch, Returned(false), NOTHING)
    else Handler(launch, StartingContainer, Held(launch.startCompositor, launch.startAudio && fate.sink, false))
  }

  lemma FirstThreeCalls(cfg: Config, launch: Launch, fate: Fate)
    ensures var h1 := AcquireStep(cfg, Handler(launch, CreatingStream, NOTHING), fate.stream);
            AcquireStep(cfg, AcquireStep(cfg, h1, fate.compositor), fate.sink) == BeforeContainer(launch, fate)
  {
  }

  lemma LastThreeCalls(cfg: Config, launch: Launch, fate: Fate)
    ensures var h4 := AcquireStep(cfg, BeforeContainer(launch, fate), fate.container);
            AcquireStep(cfg, AcquireStep(cfg, h4, true), true) == AfterCalls(cfg, launch, fate)
  {
  }

  function AfterCalls(cfg: Config, launch: Launch, fate: Fate): Handler {
    match Acquired(cfg, launch, fate)
    case Some(held) => Handler(launch, Inserting, held)
    case None => Handler(launch, Returned(false), NOTHING)
  }

  lemma StagesAlone(cfg: Config, launch: Launch, fate: Fate)
    ensures StepAll(cfg, Handler(launch, CreatingStream, NOTHING), Answers(fate)) == AfterCalls(cfg, launch, fate)
  {
    assert Answers(fate) == [fate.stream, fate.compositor, fate.sink] + ([fate.container, true, true] + []);
    StepThree(cfg, Handler(launch, CreatingStream, NOTHING), fate.stream, fate.compositor, fate.sink,
              [fate.container, true, true] + []);
    FirstThreeCalls(cfg, launch, fate);
    StepThree(cfg, BeforeContainer(launch, fate), fate.container, true, true, []);
    LastThreeCalls(cfg, launch, fate);
  }

  /**
   * A launch nobody disturbs acquires exactly what `AppState.AcquireResources` does, and when it
   * gives up it has given everything back.
   */
  lemma AcquisitionAloneMatches(cfg: Config, sid: Sid, launch: Launch, rs: set<Resource>, fate: Fate)
    requires HeldOf(rs, sid) == NOTHING
    ensures AcquireAll(cfg, sid, Handler(launch, CreatingStream, NOTHING), rs, Answers(fate))
         == match Acquired(cfg, launch, fate)
            case Some(held) => (Handler(launch, Inserting, held), rs + ResourcesOf(sid, held))
            case None => (Handler(launch, Returned(false), NOTHING), rs)
  {
    assert rs + ResourcesOf(sid, NOTHING) == rs;
    StagesIgnoreResources(cfg, sid, Handler(launch, CreatingStream, NOTHING), rs, Answers(fate));
    StagesAlone(cfg, launch, fate);
    AcquisitionTracksHeld(cfg, rs, sid, Handler(launch, CreatingStream, NOTHING), Answers(fate));
  }

  // ----- concurrency limits -----------------------------------------------------

  /** Between passing the cap check and inserting. */
  predicate PastCaps(stage: Stage) {
    stage.CreatingStream? || stage.StartingCompositor? || stage.CreatingSink? || stage.StartingContainer?
    || stage.Inserting?
  }

  predicate Reserves(h: Handler, scope: Option<string>) {
    PastCaps(h.stage) && InScope(h.launch.owner, scope)
  }

  function Reserved(w: World, scope: Option<string>): set<Sid> {
    set s | s in w.launches && Reserves(w.launches[s], scope)
  }

  /** Sessions plus the launches that may still become sessions. */
  function Occupancy(w: World, scope: Option<string>): nat {
    |Scoped(w.sessions, scope)| + |Reserved(w, scope)|
  }

  /** At every point of the run at most k launches of the scope are past the cap check. */
  predicate AtMostInFlight(cfg: Config, w: World, es: seq<Event>, scope: Option<string>, k: nat)
    decreases |es|
  {
    && |Reserved(w, scope)| <= k
    && (es != [] ==> AtMostInFlight(cfg, Step(cfg, w, es[0]), es[1..], scope, k))
  }

  predicate Bounded(cfg: Config, w: World, scope: Option<string>, k: nat) {
    Occupancy(w, scope) <= Cap(cfg, scope) - 1 + k
  }

  lemma ReservedMove(w: World, sid: Sid, h: Handler, scope: Option<string>)
    ensures Reserved(Move(w, sid, h), scope)
         == if Reserves(h, scope) then Reserved(w, scope) + {sid} else Reserved(w, scope) - {sid}
  {
  }

  lemma RemoveCountsLess(w: World, sid: Sid, scope: Option<string>)
    ensures |Scoped(Remove(w, sid).sessions, scope)| <= |Scoped(w.sessions, scope)|
    ensures |Scoped(RemoveAll(w).sessions, scope)| == 0
    ensures Reserved(Remove(w, sid), scope) == Reserved(w, scope) == Reserved(RemoveAll(w), scope)
  {
    FewerSessionsCountLess(Remove(w, sid).sessions, w.sessions, scope);
  }

  lemma MoveOccupancy(w: World, sid: Sid, h: Handler, scope: Option<string>)
    requires sid in w.launches && !PastCaps(w.launches[sid].stage) && !PastCaps(h.stage)
    ensures Occupancy(Move(w, sid, h), scope) == Occupancy(w, scope)
  {
    ReservedMove(w, sid, h, scope);
    assert sid !in Reserved(w, scope);
  }

  lemma CheckOccupancy(cfg: Config, w: World, sid: Sid, scope: Option<string>)
    requires Cap(cfg, scope) > 0 && sid in w.launches && w.launches[sid].stage == CheckingCaps
    ensures var w' := AdmissionStep(cfg, w, sid, w.launches[sid], "");
            Occupancy(w', scope) == Occupancy(w, scope) || Bounded(cfg, w', scope, |Reserved(w', scope)|)
  {
    var h := w.launches[sid];
    var h' := AdmissionStep(cfg, w, sid, h, "").launches[sid];
    ReservedMove(w, sid, h', scope);
    assert sid !in Reserved(w, scope);
    if Reserves(h', scope) {
      assert RoomFor(cfg, w.sessions, None) && RoomFor(cfg, w.sessions, Some(h.launch.owner));
      assert RoomFor(cfg, w.sessions, scope);
    }
  }

  lemma AdmissionOccupancy(cfg: Config, w: World, sid: Sid, victim: Sid, scope: Option<string>)
    requires Cap(cfg, scope) > 0 && sid in w.launches && TouchesMap(w.launches[sid].stage)
    ensures var w' := AdmissionStep(cfg, w, sid, w.launches[sid], victim);
            Occupancy(w', scope) <= Occupancy(w, scope) || Bounded(cfg, w', scope, |Reserved(w', scope)|)
  {
    var h := w.launches[sid];
    if h.stage == CheckingCaps {
      CheckOccupancy(cfg, w, sid, scope);
    } else {
      var w' := AdmissionStep(cfg, w, sid, h, victim);
      if w' != w {
        var h' := w'.launches[sid];
        RemoveCountsLess(w, victim, scope);
        MoveOccupancy(w, sid, h', scope);
        MoveOccupancy(Remove(w, victim), sid, h', scope);
      }
    }
  }

  lemma AcquireOccupancy(cfg: Config, w: World, sid: Sid, ok: bool, scope: Option<string>)
    requires sid in w.launches && Acquiring(w.launches[sid].stage)
    ensures Occupancy(Move(w, sid, AcquireStep(cfg, w.launches[sid], ok)), scope) <= Occupancy(w, scope)
  {
    ReservedMove(w, sid, AcquireStep(cfg, w.launches[sid], ok), scope);
    if Reserves(w.launches[sid], scope) {
      assert sid in Reserved(w, scope);
    }
  }

  lemma RegisterOccupancy(w: World, sid: Sid, scope: Option<string>)
    requires sid in w.launches && Accounted(w, sid)
    requires !TouchesMap(w.launches[sid].stage) && !Acquiring(w.launches[sid].stage)
    ensures Occupancy(RegisterStep(w, sid, w.launches[sid]), scope) == Occupancy(w, scope)
  {
    var h := w.launches[sid];
    var w' := RegisterStep(w, sid, h);
    ReservedMove(w, sid, w'.launches[sid], scope);
    assert Reserved(w', scope) == Reserved(Move(w, sid, w'.launches[sid]), scope);
    assert Reserves(h, scope) <==> sid in Reserved(w, scope);
    if h.stage == Inserting {
      assert sid !in w.sessions;
      InsertCountsOne(w.sessions, sid, NewSession(h.launch, h.held), scope);
    }
  }

  lemma AdvanceOccupancy(cfg: Config, w: World, sid: Sid, ok: bool, victim: Sid, scope: Option<string>)
    requires Cap(cfg, scope) > 0 && sid in w.launches && Accounted(w, sid)
    ensures var w' := AdvanceHandler(cfg, w, sid, ok, victim);
            Occupancy(w', scope) <= Occupancy(w, scope) || Bounded(cfg, w', scope, |Reserved(w', scope)|)
  {
    var h := w.launches[sid];
    if TouchesMap(h.stage) {
      AdmissionOccupancy(cfg, w, sid, victim, scope);
    } else if Acquiring(h.stage) {
      AcquireOccupancy(cfg, w, sid, ok, scope);
      var w' := AdvanceHandler(cfg, w, sid, ok, victim);
      assert Reserved(w', scope) == Reserved(Move(w, sid, AcquireStep(cfg, h, ok)), scope);
    } else {
      RegisterOccupancy(w, sid, scope);
    }
  }

  lemma OccupancyStep(cfg: Config, w: World, e: Event, scope: Option<string>)
    requires AccountInv(w) && Cap(cfg, scope) > 0
    ensures var w' := Step(cfg, w, e);
            Occupancy(w', scope) <= Occupancy(w, scope) || Bounded(cfg, w', scope, |Reserved(w', scope)|)
  {
    match e
    case Begin(sid, launch) =>
      ReservedMove(w, sid, Handler(launch, Scanning, NOTHING), scope);
    case Advance(sid, ok, victim) =>
      if sid in w.launches {
        assert Accounted(w, sid);
        AdvanceOccupancy(cfg, w, sid, ok, victim, scope);
      }
    case Stop(sid) => RemoveCountsLess(w, sid, scope);
    case StopAll => RemoveCountsLess(w, "", scope);
    case Clean(sid) =>
      assert Reserved(CleanStep(w, sid), scope) == Reserved(w, scope);
  }

  lemma {:induction false} OccupancyRun(cfg: Config, w: World, es: seq<Event>, scope: Option<string>, k: nat)
    requires AccountInv(w) && Cap(cfg, scope) > 0 && Bounded(cfg, w, scope, k)
    requires AtMostInFlight(cfg, w, es, scope, k)
    ensures Bounded(cfg, Exec(cfg, w, es), scope, k)
    decreases |es|
  {
    if es == [] {
    } else {
      AccountStep(cfg, w, es[0]);
      OccupancyStep(cfg, w, es[0], scope);
      OccupancyRun(cfg, Step(cfg, w, es[0]), es[1..], scope, k);
    }
  }

  /**
   * The overshoot is bounded in every interleaving: where at most k launches of a scope (the
   * server, or one user) are ever at the same time between the cap check and the insert,
   * sessions plus in-flight launches never exceed the cap by more than k - 1. With launches
   * that do not overlap (k = 1) the cap is exact.
   */
  lemma CapOvershootIsBounded(cfg: Config, es: seq<Event>, scope: Option<string>, k: nat)
    requires Cap(cfg, scope) > 0 && AtMostInFlight(cfg, START, es, scope, k)
    ensures var w := Exec(cfg, START, es);
            |Scoped(w.sessions, scope)| + |Reserved(w, scope)| <= Cap(cfg, scope) + k - 1
  {
    StartIsAccounted();
    assert Scoped(START.sessions, scope) == {} && Reserved(START, scope) == {};
    OccupancyRun(cfg, START, es, scope, k);
  }

  // ----- one session per app ------------------------------------------------------

  /** Past the conflict scan and not yet in the map, on the way to inserting. */
  predicate Committed(stage: Stage) {
    stage.StoppingConflicts? || stage.AwaitingCleanup? || stage.CheckingCaps? || PastCaps(stage)
  }

  predicate SameAppLaunch(a: Launch, b: Launch) {
    SameApp(NewSession(a, NOTHING), NewSession(b, NOTHING))
  }

  /** No two launches for the same app are both between their conflict scan and their insert. */
  ghost predicate NoOverlap(w: World) {
    forall s, t :: s in w.launches && t in w.launches && s != t
      && Committed(w.launches[s].stage) && Committed(w.launches[t].stage)
      ==> !SameAppLaunch(w.launches[s].launch, w.launches[t].launch)
  }

  ghost predicate NeverOverlaps(cfg: Config, w: World, es: seq<Event>)
    decreases |es|
  {
    NoOverlap(w) && (es != [] ==> NeverOverlaps(cfg, Step(cfg, w, es[0]), es[1..]))
  }

  /** Conflicting sessions a launch may still find in the map. */
  function StillToStop(stage: Stage): set<Sid> {
    match stage
    case StoppingConflicts(rest) => rest
    case AwaitingCleanup(_, rest) => rest
    case _ => {}
  }

  predicate Cleared(w: World, s: Sid) {
    s in w.launches && Committed(w.launches[s].stage) ==>
      Conflicts(w.sessions, w.launches[s].launch) <= StillToStop(w.launches[s].stage)
  }

  ghost predicate UniqueInv(w: World) {
    UniqueApps(w.sessions) && forall s :: Cleared(w, s)
  }

  lemma ConflictIsSameApp(launch: Launch, s: Session)
    ensures ConflictsWith(launch, s) <==> SameApp(NewSession(launch, NOTHING), s)
  {
  }

  lemma AdmissionClears(cfg: Config, w: World, sid: Sid, victim: Sid, s: Sid)
    requires sid in w.launches && TouchesMap(w.launches[sid].stage) && Cleared(w, s)
    ensures Cleared(AdmissionStep(cfg, w, sid, w.launches[sid], victim), s)
  {
    if s in w.launches {
      var launch := w.launches[s].launch;
      assert Conflicts(Remove(w, victim).sessions, launch) <= Conflicts(w.sessions, launch) - {victim};
    }
  }

  /** An insert while another launch for the same app is past its scan, and will not stop what it finds. */
  ghost predicate Collides(w: World, e: Event) {
    && e.Advance? && e.sid in w.launches && w.launches[e.sid].stage == Inserting
    && exists s :: CollidesWith(w, e.sid, s)
  }

  predicate CollidesWith(w: World, sid: Sid, s: Sid)
    requires sid in w.launches
  {
    && s in w.launches && s != sid && Committed(w.launches[s].stage)
    && SameAppLaunch(w.launches[s].launch, w.launches[sid].launch) && sid !in StillToStop(w.launches[s].stage)
  }

  lemma InsertConflicts(w: World, sid: Sid, s: Sid)
    requires sid in w.launches && w.launches[sid].stage == Inserting && s in w.launches
    ensures var launch := w.launches[s].launch;
            Conflicts(RegisterStep(w, sid, w.launches[sid]).sessions, launch)
            == Conflicts(w.sessions, launch) - {sid}
               + if SameAppLaunch(launch, w.launches[sid].launch) then {sid} else {}
  {
    ConflictIsSameApp(w.launches[s].launch, NewSession(w.launches[sid].launch, w.launches[sid].held));
  }

  lemma InsertClears(w: World, sid: Sid, s: Sid)
    requires Cleared(w, s) && sid in w.launches && w.launches[sid].stage == Inserting
    ensures Cleared(RegisterStep(w, sid, w.launches[sid]), s) <==> !CollidesWith(w, sid, s)
  {
    if s in w.launches && s != sid && Committed(w.launches[s].stage) {
      InsertConflicts(w, sid, s);
    }
  }

  lemma AdvanceClears(cfg: Config, w: World, sid: Sid, ok: bool, victim: Sid, s: Sid)
    requires sid in w.launches && Cleared(w, s)
    ensures Cleared(AdvanceHandler(cfg, w, sid, ok, victim), s)
       <==> !(w.launches[sid].stage == Inserting && CollidesWith(w, sid, s))
  {
    var h := w.launches[sid];
    if TouchesMap(h.stage) {
      AdmissionClears(cfg, w, sid, victim, s);
    } else if h.stage == Inserting {
      InsertClears(w, sid, s);
    }
  }

  lemma AdvanceStaysUnique(cfg: Config, w: World, sid: Sid, ok: bool, victim: Sid)
    requires UniqueApps(w.sessions) && sid in w.launches && Cleared(w, sid)
    ensures UniqueApps(AdvanceHandler(cfg, w, sid, ok, victim).sessions)
  {
    var h := w.launches[sid];
    if h.stage == Inserting {
      InsertKeepsUnique(w.sessions, sid, h.launch, h.held);
    }
  }

  /** The exact condition for a step to keep every launch's claim on its app intact. */
  lemma UniqueKeptIff(cfg: Config, w: World, e: Event)
    requires UniqueInv(w)
    ensures UniqueInv(Step(cfg, w, e)) <==> !Collides(w, e)
  {
    var w' := Step(cfg, w, e);
    if e.Advance? && e.sid in w.launches {
      assert Cleared(w, e.sid);
      AdvanceStaysUnique(cfg, w, e.sid, e.ok, e.victim);
      forall s ensures Cleared(w', s) <==> !(w.launches[e.sid].stage == Inserting && CollidesWith(w, e.sid, s)) {
        assert Cleared(w, s);
        AdvanceClears(cfg, w, e.sid, e.ok, e.victim, s);
      }
    } else {
      forall s ensures Cleared(w', s) {
        assert Cleared(w, s);
      }
    }
  }

  ghost predicate UniqueThroughout(cfg: Config, w: World, es: seq<Event>)
    decreases |es|
  {
    UniqueInv(w) && (es != [] ==> UniqueThroughout(cfg, Step(cfg, w, es[0]), es[1..]))
  }

  ghost predicate NothingCollides(cfg: Config, w: World, es: seq<Event>)
    decreases |es|
  {
    es != [] ==> !Collides(w, es[0]) && NothingCollides(cfg, Step(cfg, w, es[0]), es[1..])
  }

  lemma {:induction false} UniqueThroughoutIff(cfg: Config, w: World, es: seq<Event>)
    requires UniqueInv(w)
    ensures UniqueThroughout(cfg, w, es) <==> NothingCollides(cfg, w, es)
    ensures NothingCollides(cfg, w, es) ==> UniqueApps(Exec(cfg, w, es).sessions)
    decreases |es|
  {
    if es == [] {
    } else {
      UniqueKeptIff(cfg, w, es[0]);
      if UniqueInv(Step(cfg, w, es[0])) {
        UniqueThroughoutIff(cfg, Step(cfg, w, es[0]), es[1..]);
      }
    }
  }

  /** Launches for one app that never overlap never collide. */
  lemma {:induction false} NoOverlapNoCollision(cfg: Config, w: World, es: seq<Event>)
    requires NeverOverlaps(cfg, w, es)
    ensures NothingCollides(cfg, w, es)
    decreases |es|
  {
    if es != [] {
      NoOverlapNoCollision(cfg, Step(cfg, w, es[0]), es[1..]);
    }
  }

  /**
   * There is at most one session per (owner, app_id), or per (owner, title) without an app_id,
   * in every run in which no launch inserts while another one for the same app is between its
   * conflict scan and its insert, whatever else interleaves: launches of other apps, stops,
   * reaps, container deaths and shutdown. Exactly then every launch finds, when it inserts,
   * what its scan promised. Launches for one app that do not overlap are such a run.
   */
  lemma OneSessionPerApp(cfg: Config, es: seq<Event>)
    ensures UniqueThroughout(cfg, START, es) <==> NothingCollides(cfg, START, es)
    ensures NothingCollides(cfg, START, es) ==> UniqueApps(Exec(cfg, START, es).sessions)
    ensures NeverOverlaps(cfg, START, es) ==> NothingCollides(cfg, START, es)
  {
    UniqueThroughoutIff(cfg, START, es);
    if NeverOverlaps(cfg, START, es) {
      NoOverlapNoCollision(cfg, START, es);
    }
  }

  // ----- who may take a session out of the map ----------------------------------------

  /** Whatever a launch still has to stop was inserted before its scan, and conflicts with it. */
  predicate MayStop(w: World, l: Sid, v: Sid) {
    l in w.launches && v in StillToStop(w.launches[l].stage) ==>
      v in w.registered && (v in w.sessions ==> ConflictsWith(w.launches[l].launch, w.sessions[v]))
  }

  lemma StoppingKeepsMayStop(w: World, sid: Sid, l: Sid, v: Sid)
    requires MayStop(w, l, v)
    ensures MayStop(Remove(w, sid), l, v) && MayStop(RemoveAll(w), l, v) && MayStop(CleanStep(w, sid), l, v)
  {
  }

  lemma ScanMayStop(w: World, l: Sid, v: Sid)
    requires Accounted(w, v) && l in w.launches && w.launches[l].stage == Scanning
    ensures var h := w.launches[l];
            MayStop(Move(w, l, h.(stage := StoppingConflicts(Conflicts(w.sessions, h.launch)))), l, v)
  {
  }

  lemma AdmissionKeepsMayStop(cfg: Config, w: World, sid: Sid, victim: Sid, l: Sid, v: Sid)
    requires MayStop(w, l, v) && Accounted(w, v) && sid in w.launches && TouchesMap(w.launches[sid].stage)
    ensures MayStop(AdmissionStep(cfg, w, sid, w.launches[sid], victim), l, v)
  {
    var h := w.launches[sid];
    if h.stage == Scanning {
      if sid == l {
        ScanMayStop(w, l, v);
      }
    } else if h.stage.StoppingConflicts? && victim in w.sessions {
      StoppingKeepsMayStop(w, victim, l, v);
    }
  }

  lemma RegisterKeepsMayStop(w: World, sid: Sid, l: Sid, v: Sid)
    requires MayStop(w, l, v) && Accounted(w, sid) && sid in w.launches
    ensures MayStop(RegisterStep(w, sid, w.launches[sid]), l, v)
  {
  }

  lemma AcquireKeepsMayStop(cfg: Config, w: World, sid: Sid, ok: bool, l: Sid, v: Sid)
    requires MayStop(w, l, v) && sid in w.launches && Acquiring(w.launches[sid].stage)
    ensures var h := w.launches[sid];
            var next := w.(resources := AcquireEffect(cfg, w.resources, sid, h, ok));
            MayStop(Move(next, sid, AcquireStep(cfg, h, ok)), l, v)
  {
  }

  lemma StepKeepsMayStop(cfg: Config, w: World, e: Event, l: Sid, v: Sid)
    requires AccountInv(w) && MayStop(w, l, v)
    ensures MayStop(Step(cfg, w, e), l, v)
  {
    assert Accounted(w, v);
    match e
    case Advance(sid, ok, victim) =>
      assert Accounted(w, sid);
      if sid in w.launches {
        if TouchesMap(w.launches[sid].stage) {
          AdmissionKeepsMayStop(cfg, w, sid, victim, l, v);
        } else if Acquiring(w.launches[sid].stage) {
          AcquireKeepsMayStop(cfg, w, sid, ok, l, v);
        } else {
          RegisterKeepsMayStop(w, sid, l, v);
        }
      }
    case Begin(sid, launch) =>
    case Stop(sid) => StoppingKeepsMayStop(w, sid, l, v);
    case StopAll => StoppingKeepsMayStop(w, l, l, v);
    case Clean(sid) => StoppingKeepsMayStop(w, sid, l, v);
  }

  lemma {:induction false} MayStopRun(cfg: Config, w: World, es: seq<Event>)
    requires AccountInv(w) && forall l, v :: MayStop(w, l, v)
    ensures forall l, v :: MayStop(Exec(cfg, w, es), l, v)
    decreases |es|
  {
    if es != [] {
      forall l, v ensures MayStop(Step(cfg, w, es[0]), l, v) {
        StepKeepsMayStop(cfg, w, es[0], l, v);
      }
      AccountStep(cfg, w, es[0]);
      MayStopRun(cfg, Step(cfg, w, es[0]), es[1..]);
    }
  }

  /** A session of the same user, for the same app_id, or without one and with the same title if the launch has none. */
  predicate SameUsersApp(launch: Launch, s: Session) {
    && launch.owner == s.owner
    && (launch.appId.Some? ==> s.appId == launch.appId)
    && (launch.appId.None? ==> s.appId.None? && s.title == launch.title)
  }

  /** Launch l is about to stop session s. */
  predicate StopsNext(w: World, l: Sid, s: Sid) {
    l in w.launches && w.launches[l].stage.StoppingConflicts? && s in w.launches[l].stage.rest
  }

  /**
   * Over every run, a session leaves the map exactly by a stop of its own, by shutdown, or by a
   * launch that had found it; and a launch only ever takes out sessions of its own user and app.
   */
  lemma SessionsLeaveOnlyByRight(cfg: Config, es: seq<Event>, e: Event, s: Sid)
    requires s in Exec(cfg, START, es).sessions
    ensures var w := Exec(cfg, START, es);
            && (s !in Step(cfg, w, e).sessions <==>
                  e == Stop(s) || e.StopAll? || (e.Advance? && e.victim == s && StopsNext(w, e.sid, s)))
            && (e.Advance? && StopsNext(w, e.sid, s) ==> SameUsersApp(w.launches[e.sid].launch, w.sessions[s]))
  {
    StartIsAccounted();
    MayStopRun(cfg, START, es);
    var w := Exec(cfg, START, es);
    if e.Advance? {
      assert MayStop(w, e.sid, s);
    }
  }

  /** A launch waits for the cleanup of what it stopped: it goes on only when that session is cleaned up. */
  predicate Waits(w: World, l: Sid) {
    l in w.launches && w.launches[l].stage.AwaitingCleanup? ==>
      var v := w.launches[l].stage.victim; v in w.registered && v !in w.sessions
  }

  lemma StepKeepsWaits(cfg: Config, w: World, e: Event, l: Sid)
    requires Waits(w, l) && (e.Advance? ==> Accounted(w, e.sid))
    requires l in w.launches && w.launches[l].stage.AwaitingCleanup? ==> Accounted(w, w.launches[l].stage.victim)
    requires e.Advance? ==> Accounted(w, e.victim)
    ensures Waits(Step(cfg, w, e), l)
  {
    if e.Advance? && e.sid in w.launches {
      WaitsAdvance(cfg, w, e.sid, e.ok, e.victim, l);
    }
  }

  lemma WaitsAdvance(cfg: Config, w: World, sid: Sid, ok: bool, victim: Sid, l: Sid)
    requires Waits(w, l) && Accounted(w, sid) && Accounted(w, victim) && sid in w.launches
    requires l in w.launches && w.launches[l].stage.AwaitingCleanup? ==> Accounted(w, w.launches[l].stage.victim)
    ensures Waits(AdvanceHandler(cfg, w, sid, ok, victim), l)
  {
    var stage := w.launches[sid].stage;
    if TouchesMap(stage) {
    } else if Acquiring(stage) {
    } else {
    }
  }

  lemma {:induction false} WaitsRun(cfg: Config, w: World, es: seq<Event>, l: Sid)
    requires AccountInv(w) && Waits(w, l)
    ensures Waits(Exec(cfg, w, es), l)
    decreases |es|
  {
    if es != [] {
      assert es[0].Advance? ==> Accounted(w, es[0].sid) && Accounted(w, es[0].victim);
      StepKeepsWaits(cfg, w, es[0], l);
      AccountStep(cfg, w, es[0]);
      WaitsRun(cfg, Step(cfg, w, es[0]), es[1..], l);
    }
  }

  /** Over every run: a launch gets past a session it has stopped exactly when that is cleaned up. */
  lemma LaunchesWaitForCleanup(cfg: Config, es: seq<Event>, l: Sid, ok: bool, victim: Sid)
    requires l in Exec(cfg, START, es).launches && Exec(cfg, START, es).launches[l].stage.AwaitingCleanup?
    ensures var w := Exec(cfg, START, es);
            var next := Step(cfg, w, Advance(l, ok, victim));
            next.launches[l].stage.StoppingConflicts? == (w.launches[l].stage.victim in w.cleaned)
  {
    StartIsAccounted();
    AccountRun(cfg, START, es);
    WaitsRun(cfg, START, es, l);
    var w := Exec(cfg, START, es);
    assert Accounted(w, w.launches[l].stage.victim);
  }

  // ----- a launch run to its insert ---------------------------------------------------

  /** Steps a launch past its conflicts still has to its insert. */
  function Rank(stage: Stage): nat {
    match stage
    case AwaitingCleanup(_, _) => 8
    case StoppingConflicts(_) => 7
    case CheckingCaps => 6
    case CreatingStream => 5
    case StartingCompositor => 4
    case CreatingSink => 3
    case StartingContainer => 2
    case Inserting => 1
    case _ => 0
  }

  function Advances(sid: Sid, n: nat): seq<Event> {
    if n == 0 then [] else [Advance(sid, true, "")] + Advances(sid, n - 1)
  }

  lemma {:induction false} ExecAppend(cfg: Config, w: World, a: seq<Event>, b: seq<Event>)
    ensures Exec(cfg, w, a + b) == Exec(cfg, Exec(cfg, w, a), b)
    decreases |a|
  {
    if a == [] {
      assert a + b == b;
    } else {
      assert (a + b)[1..] == a[1..] + b;
      ExecAppend(cfg, Step(cfg, w, a[0]), a[1..], b);
    }
  }

  /** Only launch `sid` and, if it has inserted, its own session differ. */
  predicate OnlyLaunch(w: World, w': World, sid: Sid) {
    && w'.cleanups == w.cleanups && sid in w.launches && sid in w'.launches
    && w'.launches == w.launches[sid := w'.launches[sid]] && w'.launches[sid].launch == w.launches[sid].launch
  }

  predicate Inserted(w: World, w': World, sid: Sid) {
    && OnlyLaunch(w, w', sid) && sid in w'.sessions
    && w'.sessions == w.sessions[sid := NewSession(w.launches[sid].launch, w'.sessions[sid].held)]
    && w'.launches[sid].stage == CountingLaunched
  }

  /** Nothing more can keep the launch from its insert, if the foreign calls succeed. */
  predicate Unhindered(cfg: Config, w: World, sid: Sid) {
    && sid in w.launches && Committed(w.launches[sid].stage) && StillToStop(w.launches[sid].stage) == {}
    && (w.launches[sid].stage.AwaitingCleanup? ==> w.launches[sid].stage.victim !in w.cleanups)
    && (w.launches[sid].launch.wantsContainer ==> cfg.hasRuntime)
    && (PastCaps(w.launches[sid].stage) || CapsAllow(cfg, w.sessions, w.launches[sid].launch.owner))
  }

  lemma OneAdvance(cfg: Config, w: World, sid: Sid)
    requires Unhindered(cfg, w, sid)
    ensures var w' := Step(cfg, w, Advance(sid, true, ""));
            && OnlyLaunch(w, w', sid)
            && if Rank(w.launches[sid].stage) == 1 then Inserted(w, w', sid)
               else w'.sessions == w.sessions && Unhindered(cfg, w', sid)
                    && Rank(w'.launches[sid].stage) == Rank(w.launches[sid].stage) - 1
  {
  }

  lemma {:induction false} Completes(cfg: Config, w: World, sid: Sid)
    requires Unhindered(cfg, w, sid)
    ensures Inserted(w, Exec(cfg, w, Advances(sid, Rank(w.launches[sid].stage))), sid)
    decreases Rank(w.launches[sid].stage)
  {
    OneAdvance(cfg, w, sid);
    var n := Rank(w.launches[sid].stage);
    var w' := Step(cfg, w, Advance(sid, true, ""));
    assert Advances(sid, n)[0] == Advance(sid, true, "") && Advances(sid, n)[1..] == Advances(sid, n - 1);
    if n > 1 {
      Completes(cfg, w', sid);
    }
  }

  function Cleans(v: Sid, n: nat): seq<Event> {
    if n == 0 then [] else [Clean(v)] + Cleans(v, n - 1)
  }

  function CleansLeft(w: World, v: Sid): nat {
    if v !in w.cleanups then 0 else
      match w.cleanups[v].stage
      case StoppingStream => 5 case StoppingContainer => 4 case UnloadingSink => 3
      case DecrementingActive => 2 case CountingStopped => 1
  }

  lemma {:induction false} CleansFinish(cfg: Config, w: World, v: Sid, n: nat)
    requires CleansLeft(w, v) <= n
    ensures var w' := Exec(cfg, w, Cleans(v, n));
            v !in w'.cleanups && w'.sessions == w.sessions && w'.launches == w.launches
    decreases n
  {
    if n > 0 {
      var w1 := CleanStep(w, v);
      assert Cleans(v, n)[1..] == Cleans(v, n - 1);
      assert CleansLeft(w1, v) <= n - 1 && w1.sessions == w.sessions && w1.launches == w.launches;
      CleansFinish(cfg, w1, v, n - 1);
    }
  }

  /** The rest of a launch that is past its conflicts: a cleanup it waits for, then its own steps. */
  function Rest(stage: Stage, sid: Sid): seq<Event> {
    (if stage.AwaitingCleanup? then Cleans(stage.victim, 5) else []) + Advances(sid, Rank(stage))
  }

  /** Past the scan, with nothing left to stop. */
  predicate PastConflicts(cfg: Config, w: World, sid: Sid) {
    && sid in w.launches && sid !in w.sessions
    && Committed(w.launches[sid].stage) && StillToStop(w.launches[sid].stage) == {}
    && (w.launches[sid].launch.wantsContainer ==> cfg.hasRuntime)
  }

  lemma RestInserts(cfg: Config, w: World, sid: Sid)
    requires PastConflicts(cfg, w, sid) && CapsAllow(cfg, w.sessions, w.launches[sid].launch.owner)
    ensures var w' := Exec(cfg, w, Rest(w.launches[sid].stage, sid));
            && sid in w'.sessions
            && w'.sessions == w.sessions[sid := NewSession(w.launches[sid].launch, w'.sessions[sid].held)]
            && sid in w'.launches && w'.launches == w.launches[sid := w'.launches[sid]]
  {
    var stage := w.launches[sid].stage;
    var first := if stage.AwaitingCleanup? then Cleans(stage.victim, 5) else [];
    ExecAppend(cfg, w, first, Advances(sid, Rank(stage)));
    if stage.AwaitingCleanup? {
      CleansFinish(cfg, w, stage.victim, 5);
    }
    Completes(cfg, Exec(cfg, w, first), sid);
  }

  /** The caps have room for n more sessions of an owner. */
  predicate RoomForMore(cfg: Config, sessions: map<Sid, Session>, owner: string, n: nat) {
    forall scope :: scope in {None, Some(owner)} ==>
      Cap(cfg, scope) == 0 || |Scoped(sessions, scope)| + n <= Cap(cfg, scope)
  }

  lemma RoomIsUsed(cfg: Config, sessions: map<Sid, Session>, sid: Sid, s: Session, n: nat)
    requires sid !in sessions && n > 0 && RoomForMore(cfg, sessions, s.owner, n)
    ensures CapsAllow(cfg, sessions, s.owner) && RoomForMore(cfg, sessions[sid := s], s.owner, n - 1)
  {
    forall scope: Option<string> | scope in {None, Some(s.owner)}
      ensures |Scoped(sessions[sid := s], scope)| <= |Scoped(sessions, scope)| + 1
    {
      InsertCountsOne(sessions, sid, s, scope);
    }
    assert Option<string>.None in {None, Some(s.owner)} && Some(s.owner) in {None, Some(s.owner)};
  }

  /**
   * Two launches for one app that are both past their conflicts, with room for both: run to their
   * inserts, one after the other, they leave two sessions for the app.
   */
  lemma OverlappingLaunchesDuplicate(cfg: Config, w: World, s: Sid, t: Sid)
    requires s != t && PastConflicts(cfg, w, s) && PastConflicts(cfg, w, t)
    requires SameAppLaunch(w.launches[s].launch, w.launches[t].launch)
    requires RoomForMore(cfg, w.sessions, w.launches[s].launch.owner, 2)
    ensures var w2 := Exec(cfg, w, Rest(w.launches[s].stage, s) + Rest(w.launches[t].stage, t));
            s in w2.sessions && t in w2.sessions && !UniqueApps(w2.sessions)
  {
    ExecAppend(cfg, w, Rest(w.launches[s].stage, s), Rest(w.launches[t].stage, t));
    RoomIsUsed(cfg, w.sessions, s, NewSession(w.launches[s].launch, NOTHING), 2);
    RestInserts(cfg, w, s);
    var w1 := Exec(cfg, w, Rest(w.launches[s].stage, s));
    RoomIsUsed(cfg, w.sessions, s, w1.sessions[s], 2);
    RoomIsUsed(cfg, w1.sessions, t, NewSession(w.launches[t].launch, NOTHING), 1);
    RestInserts(cfg, w1, t);
    var w2 := Exec(cfg, w1, Rest(w.launches[t].stage, t));
    assert SameApp(w2.sessions[s], w2.sessions[t]);
  }

  /** Two launches begin and scan, one after the other. */
  function BothScan(s: Sid, a: Launch, t: Sid, b: Launch): seq<Event> {
    [Begin(s, a), Begin(t, b), Advance(s, true, ""), Advance(t, true, "")]
  }

  lemma BothScanAtStart(cfg: Config, s: Sid, a: Launch, t: Sid, b: Launch)
    requires s != t
    ensures var w := Exec(cfg, START, BothScan(s, a, t, b));
            && w.sessions == map[] && w.cleanups == map[]
            && w.launches == map[s := Handler(a, StoppingConflicts({}), NOTHING),
                                 t := Handler(b, StoppingConflicts({}), NOTHING)]
  {
    var w1 := Step(cfg, START, Begin(s, a));
    var w2 := Step(cfg, w1, Begin(t, b));
    var w3 := Step(cfg, w2, Advance(s, true, ""));
    assert Conflicts(map[], a) == {} && Conflicts(map[], b) == {};
    var w4 := Step(cfg, w3, Advance(t, true, ""));
    var es := BothScan(s, a, t, b);
    assert es[1..] == [Begin(t, b), Advance(s, true, ""), Advance(t, true, "")];
    assert es[1..][1..] == [Advance(s, true, ""), Advance(t, true, "")];
    assert es[1..][1..][1..] == [Advance(t, true, "")] && es[1..][1..][1..][1..] == [];
    assert Exec(cfg, START, es) == Exec(cfg, w1, es[1..]) == Exec(cfg, w2, es[1..][1..])
        == Exec(cfg, w3, es[1..][1..][1..]) == Exec(cfg, w4, []);
  }

  /** So on an idle server with room for two, two overlapping launches of one app end as two sessions. */
  lemma DuplicatesFromStart(cfg: Config, s: Sid, a: Launch, t: Sid, b: Launch)
    requires s != t && SameAppLaunch(a, b) && RoomForMore(cfg, map[], a.owner, 2)
    requires a.wantsContainer || b.wantsContainer ==> cfg.hasRuntime
    ensures var stage := StoppingConflicts({});
            !UniqueApps(Exec(cfg, START, BothScan(s, a, t, b) + (Rest(stage, s) + Rest(stage, t))).sessions)
  {
    var stage := StoppingConflicts({});
    BothScanAtStart(cfg, s, a, t, b);
    ExecAppend(cfg, START, BothScan(s, a, t, b), Rest(stage, s) + Rest(stage, t));
    OverlappingLaunchesDuplicate(cfg, Exec(cfg, START, BothScan(s, a, t, b)), s, t);
  }

  // ----- the bound on concurrency is reached ---------------------------------------------

  /** Every launch at its cap check, in the scope, with room for one more. */
  predicate AboutToPass(cfg: Config, w: World, s: Sid, scope: Option<string>) {
    && s in w.launches && w.launches[s].stage == CheckingCaps && InScope(w.launches[s].launch.owner, scope)
    && CapsAllow(cfg, w.sessions, w.launches[s].launch.owner)
  }

  function CheckAll(sids: seq<Sid>): seq<Event> {
    if sids == [] then [] else [Advance(sids[0], true, "")] + CheckAll(sids[1..])
  }

  predicate Distinct(sids: seq<Sid>) { forall i, j :: 0 <= i < j < |sids| ==> sids[i] != sids[j] }

  /**
   * Any number of launches that are about to check while there is room for one all get through,
   * because nothing they do is visible to the others' checks.
   */
  lemma {:induction false} EveryCheckerGetsThrough(cfg: Config, w: World, sids: seq<Sid>, scope: Option<string>)
    requires Distinct(sids) && forall i :: 0 <= i < |sids| ==> AboutToPass(cfg, w, sids[i], scope)
    ensures var w' := Exec(cfg, w, CheckAll(sids));
            && w'.sessions == w.sessions && w'.launches.Keys == w.launches.Keys
            && |Reserved(w', scope)| == |Reserved(w, scope)| + |sids|
            && forall s :: s in w.launches ==>
                 w'.launches[s] == if s in sids then w.launches[s].(stage := CreatingStream) else w.launches[s]
    decreases |sids|
  {
    if sids == [] {
    } else {
      var sid := sids[0];
      var w1 := Step(cfg, w, Advance(sid, true, ""));
      assert w1 == Move(w, sid, w.launches[sid].(stage := CreatingStream));
      ReservedMove(w, sid, w1.launches[sid], scope);
      assert CheckAll(sids)[1..] == CheckAll(sids[1..]);
      EveryCheckerGetsThrough(cfg, w1, sids[1..], scope);
    }
  }

  /** A launch of its own app, the session id being the title, with nothing to acquire. */
  function Plain(owner: string, sid: Sid): Launch { Launch(owner, sid, None, false, false, false) }

  /** Its way up to the cap check, and all the way to the insert. */
  function Arrive(owner: string, sid: Sid): seq<Event> { [Begin(sid, Plain(owner, sid))] + Advances(sid, 2) }

  function Solo(owner: string, sid: Sid): seq<Event> { Arrive(owner, sid) + Advances(sid, 6) }

  function SoloAll(owner: string, sids: seq<Sid>): seq<Event> {
    if sids == [] then [] else Solo(owner, sids[0]) + SoloAll(owner, sids[1..])
  }

  function ArriveAll(owner: string, sids: seq<Sid>): seq<Event> {
    if sids == [] then [] else Arrive(owner, sids[0]) + ArriveAll(owner, sids[1..])
  }

  function InsertAll(sids: seq<Sid>): seq<Event> {
    if sids == [] then [] else Advances(sids[0], 5) + InsertAll(sids[1..])
  }

  /** Only plain sessions of one owner, each under its own title. */
  predicate PlainSessions(sessions: map<Sid, Session>, owner: string) {
    forall s :: s in sessions ==> sessions[s] == NewSession(Plain(owner, s), sessions[s].held)
  }

  lemma NobodyConflicts(sessions: map<Sid, Session>, owner: string, sid: Sid)
    requires PlainSessions(sessions, owner) && sid !in sessions
    ensures Conflicts(sessions, Plain(owner, sid)) == {}
  {
  }

  lemma Arrives(cfg: Config, w: World, owner: string, sid: Sid)
    requires sid !in w.launches && sid !in w.sessions && PlainSessions(w.sessions, owner)
    ensures Exec(cfg, w, Arrive(owner, sid)) == Move(w, sid, Handler(Plain(owner, sid), CheckingCaps, NOTHING))
  {
    var h := Handler(Plain(owner, sid), Scanning, NOTHING);
    NobodyConflicts(w.sessions, owner, sid);
    var w1 := Step(cfg, w, Begin(sid, Plain(owner, sid)));
    assert w1 == Move(w, sid, h);
    var w2 := Step(cfg, w1, Advance(sid, true, ""));
    assert w2 == Move(w, sid, h.(stage := StoppingConflicts({})));
    var w3 := Step(cfg, w2, Advance(sid, true, ""));
    assert w3 == Move(w, sid, h.(stage := CheckingCaps));
    assert Advances(sid, 1) == [Advance(sid, true, "")] + Advances(sid, 0);
    assert Advances(sid, 2) == [Advance(sid, true, ""), Advance(sid, true, "")];
    var es := Arrive(owner, sid);
    assert es[1..] == Advances(sid, 2) && es[1..][1..] == [Advance(sid, true, "")] && es[1..][1..][1..] == [];
    assert Exec(cfg, w, es) == Exec(cfg, w1, es[1..]) == Exec(cfg, w2, es[1..][1..]) == Exec(cfg, w3, []);
  }

  lemma {:induction false} AllArrive(cfg: Config, w: World, owner: string, sids: seq<Sid>)
    requires Distinct(sids) && PlainSessions(w.sessions, owner)
    requires forall i :: 0 <= i < |sids| ==> sids[i] !in w.launches && sids[i] !in w.sessions
    ensures var w' := Exec(cfg, w, ArriveAll(owner, sids));
            && w'.sessions == w.sessions && w'.cleanups == w.cleanups
            && (forall s :: s in w'.launches <==> s in w.launches || s in sids)
            && (forall s :: s in w.launches ==> w'.launches[s] == w.launches[s])
            && (forall s :: s in sids ==> w'.launches[s] == Handler(Plain(owner, s), CheckingCaps, NOTHING))
    decreases |sids|
  {
    if sids != [] {
      Arrives(cfg, w, owner, sids[0]);
      ExecAppend(cfg, w, Arrive(owner, sids[0]), ArriveAll(owner, sids[1..]));
      AllArrive(cfg, Exec(cfg, w, Arrive(owner, sids[0])), owner, sids[1..]);
    }
  }

  /** Sessions of one owner, fewer than every cap that is set: there is room. */
  lemma FewLeaveRoom(cfg: Config, sessions: map<Sid, Session>, owner: string, n: nat)
    requires |sessions| < n && (cfg.maxGlobal == 0 || n <= cfg.maxGlobal) && (cfg.maxUser == 0 || n <= cfg.maxUser)
    ensures CapsAllow(cfg, sessions, owner)
  {
    SubsetSize(Scoped(sessions, None), sessions.Keys);
    SubsetSize(Scoped(sessions, Some(owner)), sessions.Keys);
  }

  /** Every launch so far has inserted, and the given ones still have room below every cap. */
  predicate Filling(cfg: Config, w: World, owner: string, sids: seq<Sid>, n: nat) {
    && Distinct(sids) && PlainSessions(w.sessions, owner) && |w.sessions| + |sids| < n
    && (cfg.maxGlobal == 0 || n <= cfg.maxGlobal) && (cfg.maxUser == 0 || n <= cfg.maxUser)
    && w.launches.Keys == w.sessions.Keys && (forall i :: 0 <= i < |sids| ==> sids[i] !in w.launches)
    && AllPast(w)
  }

  lemma OneGoesSolo(cfg: Config, w: World, owner: string, sids: seq<Sid>, n: nat)
    requires Filling(cfg, w, owner, sids, n) && sids != []
    ensures var w' := Exec(cfg, w, Solo(owner, sids[0]));
            Filling(cfg, w', owner, sids[1..], n) && w'.sessions.Keys == w.sessions.Keys + {sids[0]}
            && |w'.sessions| == |w.sessions| + 1
  {
    FewLeaveRoom(cfg, w.sessions, owner, n);
    SoloInserts(cfg, w, owner, sids[0]);
    StillFilling(cfg, w, Exec(cfg, w, Solo(owner, sids[0])), owner, sids, n);
  }

  lemma OneMoreKey<V>(m: map<Sid, V>, k: Sid, v: V)
    requires k !in m
    ensures m[k := v].Keys == m.Keys + {k} && |m[k := v]| == |m| + 1
  {
  }

  lemma StillFilling(cfg: Config, w: World, w': World, owner: string, sids: seq<Sid>, n: nat)
    requires Filling(cfg, w, owner, sids, n) && sids != []
    requires sids[0] in w'.sessions && sids[0] in w'.launches && w'.launches[sids[0]].stage == CountingLaunched
    requires w'.sessions == w.sessions[sids[0] := NewSession(Plain(owner, sids[0]), w'.sessions[sids[0]].held)]
    requires w'.launches == w.launches[sids[0] := w'.launches[sids[0]]]
    ensures Filling(cfg, w', owner, sids[1..], n) && w'.sessions.Keys == w.sessions.Keys + {sids[0]}
    ensures |w'.sessions| == |w.sessions| + 1
  {
    OneMoreKey(w.sessions, sids[0], w'.sessions[sids[0]]);
    OneMoreKey(w.launches, sids[0], w'.launches[sids[0]]);
    assert Pending(w') <= Pending(w);
  }

  function Ids(sids: seq<Sid>): set<Sid> { set s | s in sids }

  lemma SoloFirst(cfg: Config, w: World, owner: string, sids: seq<Sid>)
    requires sids != []
    ensures Exec(cfg, w, SoloAll(owner, sids))
         == Exec(cfg, Exec(cfg, w, Solo(owner, sids[0])), SoloAll(owner, sids[1..]))
  {
    ExecAppend(cfg, w, Solo(owner, sids[0]), SoloAll(owner, sids[1..]));
  }

  lemma IdsFirst(sids: seq<Sid>)
    requires sids != []
    ensures Ids(sids) == {sids[0]} + Ids(sids[1..])
  {
    forall s | s in sids ensures s == sids[0] || s in sids[1..] {
      var i :| 0 <= i < |sids| && sids[i] == s;
      assert i > 0 ==> sids[1..][i - 1] == s;
    }
  }

  predicate Filled(before: set<Sid>, after: set<Sid>, sids: seq<Sid>) {
    after == before + Ids(sids) && |after| == |before| + |sids|
  }

  lemma FilledOneMore(before: set<Sid>, between: set<Sid>, after: set<Sid>, sids: seq<Sid>)
    requires sids != [] && between == before + {sids[0]} && |between| == |before| + 1
    requires Filled(between, after, sids[1..])
    ensures Filled(before, after, sids)
  {
    IdsFirst(sids);
  }

  lemma {:induction false} AllGoSolo(cfg: Config, w: World, owner: string, sids: seq<Sid>, n: nat)
    requires Filling(cfg, w, owner, sids, n)
    ensures var w' := Exec(cfg, w, SoloAll(owner, sids));
            Filling(cfg, w', owner, [], n) && Filled(w.sessions.Keys, w'.sessions.Keys, sids)
    decreases |sids|
  {
    if sids == [] {
      assert Ids(sids) == {};
    } else {
      OneGoesSolo(cfg, w, owner, sids, n);
      var w1 := Exec(cfg, w, Solo(owner, sids[0]));
      AllGoSolo(cfg, w1, owner, sids[1..], n);
      SoloFirst(cfg, w, owner, sids);
      FilledOneMore(w.sessions.Keys, w1.sessions.Keys, Exec(cfg, w1, SoloAll(owner, sids[1..])).sessions.Keys, sids);
    }
  }

  lemma SoloInserts(cfg: Config, w: World, owner: string, sid: Sid)
    requires sid !in w.launches && sid !in w.sessions && PlainSessions(w.sessions, owner)
    requires CapsAllow(cfg, w.sessions, owner)
    ensures var w' := Exec(cfg, w, Solo(owner, sid));
            && sid in w'.sessions && sid in w'.launches && w'.launches[sid].stage == CountingLaunched
            && w'.sessions == w.sessions[sid := NewSession(Plain(owner, sid), w'.sessions[sid].held)]
            && w'.launches == w.launches[sid := w'.launches[sid]]
  {
    Arrives(cfg, w, owner, sid);
    ExecAppend(cfg, w, Arrive(owner, sid), Advances(sid, 6));
    Completes(cfg, Exec(cfg, w, Arrive(owner, sid)), sid);
  }

  /** Every launch has inserted or given up. */
  predicate AllPast(w: World) { Pending(w) == {} }

  /** The launches that have not inserted nor given up. */
  function Pending(w: World): set<Sid> {
    set s | s in w.launches && !Registered(w.launches[s].stage) && !w.launches[s].stage.Returned?
  }

  predicate ReadyToInsert(w: World, owner: string, sids: seq<Sid>) {
    Distinct(sids)
    && forall i :: 0 <= i < |sids| ==>
         sids[i] !in w.sessions && sids[i] in w.launches
         && w.launches[sids[i]] == Handler(Plain(owner, sids[i]), CreatingStream, NOTHING)
  }

  predicate OwnedBy(sessions: map<Sid, Session>, owner: string) {
    forall s :: s in sessions ==> sessions[s].owner == owner
  }

  lemma OneInserts(cfg: Config, w: World, owner: string, sids: seq<Sid>)
    requires ReadyToInsert(w, owner, sids) && sids != [] && OwnedBy(w.sessions, owner)
    ensures var w' := Exec(cfg, w, Advances(sids[0], 5));
            ReadyToInsert(w', owner, sids[1..]) && OwnedBy(w'.sessions, owner) && |w'.sessions| == |w.sessions| + 1
  {
    Completes(cfg, w, sids[0]);
    assert Rank(w.launches[sids[0]].stage) == 5;
    OnTop(w, Exec(cfg, w, Advances(sids[0], 5)), owner, sids);
  }

  lemma OnTop(w: World, w': World, owner: string, sids: seq<Sid>)
    requires ReadyToInsert(w, owner, sids) && sids != [] && OwnedBy(w.sessions, owner)
    requires Inserted(w, w', sids[0])
    ensures ReadyToInsert(w', owner, sids[1..]) && OwnedBy(w'.sessions, owner) && |w'.sessions| == |w.sessions| + 1
  {
    OneMoreKey(w.sessions, sids[0], w'.sessions[sids[0]]);
    StillReady(w, w', owner, sids);
  }

  lemma StillReady(w: World, w': World, owner: string, sids: seq<Sid>)
    requires ReadyToInsert(w, owner, sids) && sids != []
    requires w'.sessions.Keys == w.sessions.Keys + {sids[0]}
    requires sids[0] in w'.launches && w'.launches == w.launches[sids[0] := w'.launches[sids[0]]]
    ensures ReadyToInsert(w', owner, sids[1..])
  {
  }

  lemma {:induction false} AllInsert(cfg: Config, w: World, owner: string, sids: seq<Sid>)
    requires ReadyToInsert(w, owner, sids) && OwnedBy(w.sessions, owner)
    ensures var w' := Exec(cfg, w, InsertAll(sids));
            |w'.sessions| == |w.sessions| + |sids| && OwnedBy(w'.sessions, owner)
    decreases |sids|
  {
    if sids != [] {
      OneInserts(cfg, w, owner, sids);
      ExecAppend(cfg, w, Advances(sids[0], 5), InsertAll(sids[1..]));
      AllInsert(cfg, Exec(cfg, w, Advances(sids[0], 5)), owner, sids[1..]);
    }
  }

  // How many launches are in flight along such a run.

  function Begins(es: seq<Event>): nat {
    if es == [] then 0 else (if es[0].Begin? then 1 else 0) + Begins(es[1..])
  }

  lemma {:induction false} BeginsAppend(a: seq<Event>, b: seq<Event>)
    ensures Begins(a + b) == Begins(a) + Begins(b)
    decreases |a|
  {
    if a == [] {
      assert a + b == b;
    } else {
      assert (a + b)[1..] == a[1..] + b;
      BeginsAppend(a[1..], b);
    }
  }

  lemma {:induction false} AdvancesBeginNothing(sid: Sid, n: nat)
    ensures Begins(Advances(sid, n)) == 0
    decreases n
  {
    if n > 0 {
      assert Advances(sid, n)[1..] == Advances(sid, n - 1);
      AdvancesBeginNothing(sid, n - 1);
    }
  }

  lemma {:induction false} InFlightAppend(cfg: Config, w: World, a: seq<Event>, b: seq<Event>,
                                          scope: Option<string>, k: nat)
    requires AtMostInFlight(cfg, w, a, scope, k) && AtMostInFlight(cfg, Exec(cfg, w, a), b, scope, k)
    ensures AtMostInFlight(cfg, w, a + b, scope, k)
    decreases |a|
  {
    if a == [] {
      assert a + b == b;
    } else {
      assert (a + b)[1..] == a[1..] + b;
      InFlightAppend(cfg, Step(cfg, w, a[0]), a[1..], b, scope, k);
    }
  }

  lemma AcquiringStaysBefore(cfg: Config, h: Handler, ok: bool)
    requires Acquiring(h.stage)
    ensures !Registered(h.stage) && !h.stage.Returned?
  {
  }

  /** A step begins no launch but by Begin, and never takes one back. */
  lemma PendingShrinks(cfg: Config, w: World, e: Event)
    ensures Pending(Step(cfg, w, e)) <= Pending(w) + if e.Begin? then {e.sid} else {}
  {
    forall s | s in Pending(Step(cfg, w, e)) ensures s in Pending(w) || (e.Begin? && s == e.sid) {
      if !(e.Begin? && s == e.sid) {
        PendingShrinksAt(cfg, w, e, s);
      }
    }
  }

  lemma PendingShrinksAt(cfg: Config, w: World, e: Event, s: Sid)
    requires s in Pending(Step(cfg, w, e)) && !(e.Begin? && s == e.sid)
    ensures s in Pending(w)
  {
    if e.Advance? && e.sid in w.launches && Acquiring(w.launches[e.sid].stage) {
      AcquiringStaysBefore(cfg, w.launches[e.sid], e.ok);
    }
  }

  lemma {:induction false} BeginsBoundInFlight(cfg: Config, w: World, es: seq<Event>, scope: Option<string>, k: nat)
    requires |Pending(w)| + Begins(es) <= k
    ensures AtMostInFlight(cfg, w, es, scope, k)
    decreases |es|
  {
    SubsetSize(Reserved(w, scope), Pending(w));
    if es != [] {
      PendingShrinks(cfg, w, es[0]);
      SubsetSize(Pending(Step(cfg, w, es[0])), Pending(w) + if es[0].Begin? then {es[0].sid} else {});
      BeginsBoundInFlight(cfg, Step(cfg, w, es[0]), es[1..], scope, k);
    }
  }

  lemma {:induction false} SoloInFlight(cfg: Config, w: World, owner: string, sids: seq<Sid>, n: nat,
                                        scope: Option<string>, k: nat)
    requires k > 0 && Filling(cfg, w, owner, sids, n)
    ensures AtMostInFlight(cfg, w, SoloAll(owner, sids), scope, k)
    decreases |sids|
  {
    if sids == [] {
      BeginsBoundInFlight(cfg, w, [], scope, k);
    } else {
      SoloBeginsOne(owner, sids[0]);
      BeginsBoundInFlight(cfg, w, Solo(owner, sids[0]), scope, k);
      OneGoesSolo(cfg, w, owner, sids, n);
      SoloInFlight(cfg, Exec(cfg, w, Solo(owner, sids[0])), owner, sids[1..], n, scope, k);
      InFlightAppend(cfg, w, Solo(owner, sids[0]), SoloAll(owner, sids[1..]), scope, k);
    }
  }

  lemma SoloBeginsOne(owner: string, sid: Sid)
    ensures Begins(Solo(owner, sid)) == 1 == Begins(Arrive(owner, sid))
  {
    BeginsAppend([Begin(sid, Plain(owner, sid))], Advances(sid, 2));
    assert [Begin(sid, Plain(owner, sid))][1..] == [];
    BeginsAppend(Arrive(owner, sid), Advances(sid, 6));
    AdvancesBeginNothing(sid, 2);
    AdvancesBeginNothing(sid, 6);
  }

  lemma {:induction false} CrowdBegins(owner: string, sids: seq<Sid>)
    ensures Begins(ArriveAll(owner, sids)) == |sids| && Begins(CheckAll(sids)) == 0 == Begins(InsertAll(sids))
    decreases |sids|
  {
    if sids != [] {
      CrowdBegins(owner, sids[1..]);
      SoloBeginsOne(owner, sids[0]);
      BeginsAppend(Arrive(owner, sids[0]), ArriveAll(owner, sids[1..]));
      assert CheckAll(sids)[1..] == CheckAll(sids[1..]);
      AdvancesBeginNothing(sids[0], 5);
      BeginsAppend(Advances(sids[0], 5), InsertAll(sids[1..]));
    }
  }

  /** All of them arrive, then all check, then all insert. */
  function Crowd(owner: string, sids: seq<Sid>): seq<Event> {
    ArriveAll(owner, sids) + CheckAll(sids) + InsertAll(sids)
  }

  lemma CrowdInserts(cfg: Config, w: World, owner: string, sids: seq<Sid>)
    requires Distinct(sids) && PlainSessions(w.sessions, owner) && CapsAllow(cfg, w.sessions, owner)
    requires forall i :: 0 <= i < |sids| ==> sids[i] !in w.launches && sids[i] !in w.sessions
    ensures var w' := Exec(cfg, w, Crowd(owner, sids));
            && |w'.sessions| == |w.sessions| + |sids|
            && OwnedBy(w'.sessions, owner)
  {
    ExecAppend(cfg, w, ArriveAll(owner, sids) + CheckAll(sids), InsertAll(sids));
    ExecAppend(cfg, w, ArriveAll(owner, sids), CheckAll(sids));
    AllArrive(cfg, w, owner, sids);
    var w1 := Exec(cfg, w, ArriveAll(owner, sids));
    forall i | 0 <= i < |sids| ensures AboutToPass(cfg, w1, sids[i], None) {
      assert sids[i] in sids;
    }
    EveryCheckerGetsThrough(cfg, w1, sids, None);
    AllInsert(cfg, Exec(cfg, w1, CheckAll(sids)), owner, sids);
  }

  /**
   * The overshoot is as large as the bound allows, from an idle server, for any cap and any k:
   * fill up to one below the cap, then let k launches through the check before the first of them
   * inserts. At most k are ever in flight, and k - 1 sessions too many are in the map.
   */
  lemma BoundIsReached(cfg: Config, owner: string, early: seq<Sid>, late: seq<Sid>, scope: Option<string>)
    requires Distinct(early + late) && late != [] && InScope(owner, scope)
    requires Cap(cfg, scope) == |early| + 1
    requires (cfg.maxGlobal == 0 || |early| + 1 <= cfg.maxGlobal) && (cfg.maxUser == 0 || |early| + 1 <= cfg.maxUser)
    ensures var es := SoloAll(owner, early) + Crowd(owner, late);
            && AtMostInFlight(cfg, START, es, scope, |late|)
            && |Scoped(Exec(cfg, START, es).sessions, scope)| == Cap(cfg, scope) + |late| - 1
  {
    DistinctParts(early, late);
    EarlyFill(cfg, owner, early, scope, |late|);
    var w := Exec(cfg, START, SoloAll(owner, early));
    LateOvershoot(cfg, w, owner, late, scope);
    InFlightAppend(cfg, START, SoloAll(owner, early), Crowd(owner, late), scope, |late|);
    ExecAppend(cfg, START, SoloAll(owner, early), Crowd(owner, late));
  }

  lemma DistinctParts(early: seq<Sid>, late: seq<Sid>)
    requires Distinct(early + late)
    ensures Distinct(early) && Distinct(late) && forall i :: 0 <= i < |late| ==> late[i] !in Ids(early)
  {
    assert forall i :: 0 <= i < |early| ==> (early + late)[i] == early[i];
    assert forall i :: 0 <= i < |late| ==> (early + late)[|early| + i] == late[i];
  }

  lemma EarlyFill(cfg: Config, owner: string, early: seq<Sid>, scope: Option<string>, k: nat)
    requires Distinct(early) && k > 0
    requires (cfg.maxGlobal == 0 || |early| + 1 <= cfg.maxGlobal) && (cfg.maxUser == 0 || |early| + 1 <= cfg.maxUser)
    ensures AtMostInFlight(cfg, START, SoloAll(owner, early), scope, k)
    ensures var w := Exec(cfg, START, SoloAll(owner, early));
            && PlainSessions(w.sessions, owner) && CapsAllow(cfg, w.sessions, owner) && AllPast(w)
            && w.sessions.Keys == w.launches.Keys == Ids(early) && |w.sessions| == |early|
  {
    assert Pending(START) == {};
    AllGoSolo(cfg, START, owner, early, |early| + 1);
    SoloInFlight(cfg, START, owner, early, |early| + 1, scope, k);
    FewLeaveRoom(cfg, Exec(cfg, START, SoloAll(owner, early)).sessions, owner, |early| + 1);
  }

  lemma LateOvershoot(cfg: Config, w: World, owner: string, late: seq<Sid>, scope: Option<string>)
    requires Distinct(late) && InScope(owner, scope)
    requires PlainSessions(w.sessions, owner) && CapsAllow(cfg, w.sessions, owner) && AllPast(w)
    requires forall i :: 0 <= i < |late| ==> late[i] !in w.launches.Keys && late[i] !in w.sessions.Keys
    ensures AtMostInFlight(cfg, w, Crowd(owner, late), scope, |late|)
    ensures |Scoped(Exec(cfg, w, Crowd(owner, late)).sessions, scope)| == |w.sessions| + |late|
  {
    CrowdInFlight(cfg, w, owner, late, scope);
    CrowdInserts(cfg, w, owner, late);
    AllInScope(Exec(cfg, w, Crowd(owner, late)).sessions, owner, scope);
  }

  lemma AllInScope(sessions: map<Sid, Session>, owner: string, scope: Option<string>)
    requires InScope(owner, scope) && OwnedBy(sessions, owner)
    ensures |Scoped(sessions, scope)| == |sessions|
  {
    assert Scoped(sessions, scope) == sessions.Keys;
  }

  lemma CrowdInFlight(cfg: Config, w: World, owner: string, sids: seq<Sid>, scope: Option<string>)
    requires AllPast(w)
    ensures AtMostInFlight(cfg, w, Crowd(owner, sids), scope, |sids|)
  {
    CrowdBegins(owner, sids);
    BeginsAppend(ArriveAll(owner, sids) + CheckAll(sids), InsertAll(sids));
    BeginsAppend(ArriveAll(owner, sids), CheckAll(sids));
    BeginsBoundInFlight(cfg, w, Crowd(owner, sids), scope, |sids|);
  }
}
