/**
 * WebSocket handlers, reconnect-grace timers and the `connected` flag they share.
 *
 * A session may see any number of overlapping handlers; each walks through the sections of
 * handle_websocket, and one that ends without a pipeline error leaves a grace timer behind
 * (identified here by the handler that spawned it). Sessions appear when a launch inserts
 * them and may be removed at any time by any other stopper.
 *
 * Time is discrete. It passes only by `Tick`, which cannot run past the deadline of a
 * sleeping timer nor while a task is in the middle of a short section: sections take no
 * time, timers are punctual.
 */
module ReconnectGrace {
  type Sid = string
  type Hid = nat

  datatype HandlerPc =
    | LookingUp
    | CheckingStream
    | MarkingFirst
    | SettingConnected
    | StartingWebrtc
    | Refetching
    | Looping
    | TearingDown(pipelineError: bool)
    | ClearingConnected(pipelineError: bool)
    | Deciding(pipelineError: bool)
    | StoppingSession
    | Closed

  datatype TimerPc = Sleeping(deadline: nat) | Fetching | ReadingConnected | Expiring | Over

  datatype Handler = Handler(sid: Sid, pc: HandlerPc)
  /** `spawned` is history: when its handler left the timer behind. */
  datatype Timer = Timer(sid: Sid, spawned: nat, pc: TimerPc)

  datatype World = World(
    now: nat,
    sessions: set<Sid>,
    everInserted: set<Sid>,
    streaming: set<Sid>,
    hadFirst: set<Sid>,
    connected: set<Sid>,
    handlers: map<Hid, Handler>,
    timers: map<Hid, Timer>,
    since: map<Sid, nat>        // history: when the flag last became, or was first found, false
  )

  const START := World(0, {}, {}, {}, {}, {}, map[], map[], map[])

  datatype Event =
    | Insert(sid: Sid)
    | Remove(sid: Sid)
    | Open(hid: Hid, sid: Sid)
    | Handle(hid: Hid, ok: bool)   // the handler's next section; ok decides what foreign code decides
    | Fire(hid: Hid)               // the timer's next section
    | Restream(sid: Sid, up: bool) // a resize takes the pipeline down, or brings it back
    | Tick(delta: nat)

  // ----- steps ------------------------------------------------------------

  function At(w: World, h: Hid, pc: HandlerPc): World
    requires h in w.handlers
  {
    w.(handlers := w.handlers[h := w.handlers[h].(pc := pc)])
  }

  function HandleStep(grace: nat, w: World, h: Hid, ok: bool): World
    requires h in w.handlers
  {
    var s := w.handlers[h].sid;
    match w.handlers[h].pc
    case LookingUp => At(w, h, if s in w.sessions then CheckingStream else Closed)
    case CheckingStream => At(w, h, if s in w.streaming then Closed else MarkingFirst)
    case MarkingFirst =>
      At(w.(hadFirst := w.hadFirst + {s}, since := if s in w.hadFirst then w.since else w.since[s := w.now]),
         h, SettingConnected)
    case SettingConnected => At(w.(connected := w.connected + {s}), h, StartingWebrtc)
    case StartingWebrtc =>
      if ok && s !in w.streaming then At(w.(streaming := w.streaming + {s}), h, Refetching)
      else At(w, h, StoppingSession)
    case Refetching => At(w, h, if s in w.sessions then Looping else Closed)
    case Looping => At(w, h, TearingDown(!ok))
    case TearingDown(error) => At(w.(streaming := w.streaming - {s}), h, ClearingConnected(error))
    case ClearingConnected(error) =>
      At(w.(connected := w.connected - {s}, since := if s in w.connected then w.since[s := w.now] else w.since),
         h, Deciding(error))
    case Deciding(error) =>
      if grace == 0 || error then At(w, h, StoppingSession)
      else At(w.(timers := w.timers[h := Timer(s, w.now, Sleeping(w.now + grace))]), h, Closed)
    case StoppingSession => At(w.(sessions := w.sessions - {s}), h, Closed)
    case Closed => w
  }

  function Wake(w: World, h: Hid, pc: TimerPc): World
    requires h in w.timers
  {
    w.(timers := w.timers[h := w.timers[h].(pc := pc)])
  }

  function FireStep(w: World, h: Hid): World
    requires h in w.timers
  {
    var s := w.timers[h].sid;
    match w.timers[h].pc
    case Sleeping(deadline) => if w.now < deadline then w else Wake(w, h, Fetching)
    case Fetching => Wake(w, h, if s in w.sessions then ReadingConnected else Over)
    case ReadingConnected => Wake(w, h, if s in w.connected then Over else Expiring)
    case Expiring => Wake(w.(sessions := w.sessions - {s}), h, Over)
    case Over => w
  }

  predicate HandlerBusy(pc: HandlerPc) { pc.SettingConnected? || pc.Deciding? || pc.StoppingSession? }

  predicate TimerBusy(pc: TimerPc) { pc.Fetching? || pc.ReadingConnected? || pc.Expiring? }

  predicate MayTick(w: World, delta: nat) {
    && (forall h :: h in w.handlers ==> !HandlerBusy(w.handlers[h].pc))
    && (forall h :: h in w.timers ==> !TimerBusy(w.timers[h].pc))
    && (forall h :: h in w.timers && w.timers[h].pc.Sleeping? ==> w.now + delta <= w.timers[h].pc.deadline)
  }

  function Step(grace: nat, w: World, e: Event): World {
    match e
    case Insert(sid) =>
      if sid in w.everInserted then w
      else w.(sessions := w.sessions + {sid}, everInserted := w.everInserted + {sid})
    case Remove(sid) => w.(sessions := w.sessions - {sid})
    case Open(hid, sid) =>
      if hid in w.handlers || hid in w.timers then w
      else w.(handlers := w.handlers[hid := Handler(sid, LookingUp)])
    case Handle(hid, ok) => if hid in w.handlers then HandleStep(grace, w, hid, ok) else w
    case Fire(hid) => if hid in w.timers then FireStep(w, hid) else w
    case Restream(sid, up) =>
      w.(streaming := if up then w.streaming + {sid} else w.streaming - {sid})
    case Tick(delta) => if MayTick(w, delta) then w.(now := w.now + delta) else w
  }

  function Exec(grace: nat, w: World, es: seq<Event>): World
    decreases |es|
  {
    if es == [] then w else Exec(grace, Step(grace, w, es[0]), es[1..])
  }

  // ----- who answers for a session --------------------------------------------

  predicate MidTransition(w: World, h: Hid, s: Sid) {
    h in w.handlers && w.handlers[h].sid == s && HandlerBusy(w.handlers[h].pc)
  }

  predicate TimerPending(w: World, h: Hid, s: Sid) {
    h in w.timers && w.timers[h].sid == s && w.timers[h].pc != Over
  }

  ghost predicate Watched(w: World, s: Sid) {
    exists h :: MidTransition(w, h, s) || TimerPending(w, h, s)
  }

  /** A handler between marking and connecting, or between disconnecting and handing over. */
  predicate HandlerGuards(w: World, h: Hid, s: Sid) {
    && MidTransition(w, h, s)
    && (w.handlers[h].pc.Deciding? ==> s in w.since && w.since[s] == w.now)
  }

  /** A grace timer that is due in time, or already at work. */
  predicate TimerGuards(grace: nat, w: World, h: Hid, s: Sid) {
    && h in w.timers && w.timers[h].sid == s && s in w.since
    && match w.timers[h].pc
       case Sleeping(deadline) => deadline <= w.since[s] + grace
       case Over => false
       case _ => true
  }

  ghost predicate Guarded(grace: nat, w: World, s: Sid) {
    exists h :: HandlerGuards(w, h, s) || TimerGuards(grace, w, h, s)
  }

  /** In the map, connected at least once, and now without a connection. */
  predicate Disconnected(w: World, s: Sid) {
    s in w.sessions && s in w.hadFirst && s !in w.connected
  }

  /** A handler that has connected and will disconnect, or stop the session. */
  predicate Serves(w: World, h: Hid, s: Sid) {
    && h in w.handlers && w.handlers[h].sid == s
    && match w.handlers[h].pc
       case StartingWebrtc => true
       case Refetching => true
       case Looping => true
       case TearingDown(_) => true
       case ClearingConnected(_) => true
       case StoppingSession => true
       case _ => false
  }

  ghost predicate Served(w: World, s: Sid) { exists h :: Serves(w, h, s) }

  predicate SinceInv(w: World, s: Sid) {
    && (s in w.hadFirst <==> s in w.since)
    && (s in w.connected ==> s in w.hadFirst)
    && (s in w.since ==> w.since[s] <= w.now)
  }

  /** A handler past the mark has a marked session; its timer is spawned as it closes. */
  predicate HandlerInv(w: World, h: Hid) {
    h in w.handlers ==>
      && (w.handlers[h].pc.SettingConnected? ==> w.handlers[h].sid in w.hadFirst)
      && (h in w.timers ==> w.handlers[h].pc.Closed?)
  }

  ghost predicate SessionInv(grace: nat, w: World, s: Sid) {
    && SinceInv(w, s)
    && (Disconnected(w, s) ==> Guarded(grace, w, s) && w.now <= w.since[s] + grace)
    && (s in w.sessions && s in w.connected ==> Served(w, s))
  }

  ghost predicate Inv(grace: nat, w: World) {
    (forall s :: SessionInv(grace, w, s)) && (forall h :: HandlerInv(w, h))
  }

  // ----- steps keep the guard ---------------------------------------------------

  lemma HandleKeepsSince(grace: nat, w: World, h: Hid, ok: bool, s: Sid)
    requires h in w.handlers && HandlerInv(w, h) && SinceInv(w, s)
    ensures SinceInv(HandleStep(grace, w, h, ok), s)
  {
  }

  /** A handler's section keeps every guard but its own, and its own unless it is not needed. */
  lemma HandleKeepsGuard(grace: nat, w: World, h: Hid, ok: bool, s: Sid, g: Hid)
    requires h in w.handlers && HandlerInv(w, h) && SinceInv(w, s) && Disconnected(w, s)
    requires HandlerGuards(w, g, s) || TimerGuards(grace, w, g, s)
    ensures var w' := HandleStep(grace, w, h, ok);
            Disconnected(w', s) ==> HandlerGuards(w', g, s) || TimerGuards(grace, w', g, s)
  {
  }

  /** A session that becomes disconnected by a handler's section is guarded by that handler. */
  lemma HandleRaisesGuard(grace: nat, w: World, h: Hid, ok: bool, s: Sid)
    requires h in w.handlers && SinceInv(w, s) && !Disconnected(w, s)
    ensures var w' := HandleStep(grace, w, h, ok);
            Disconnected(w', s) ==> HandlerGuards(w', h, s) && w'.since[s] == w'.now
  {
  }

  lemma HandleKeepsServer(grace: nat, w: World, h: Hid, ok: bool, s: Sid, g: Hid)
    requires h in w.handlers && Serves(w, g, s)
    ensures var w' := HandleStep(grace, w, h, ok);
            s in w'.sessions && s in w'.connected ==> Serves(w', g, s)
  {
    if g != h {
      assert HandleStep(grace, w, h, ok).handlers[g] == w.handlers[g];
    }
  }

  lemma HandleKeepsServed(grace: nat, w: World, h: Hid, ok: bool, s: Sid)
    requires h in w.handlers && (s in w.sessions && s in w.connected ==> Served(w, s))
    ensures var w' := HandleStep(grace, w, h, ok);
            s in w'.sessions && s in w'.connected ==> Served(w', s)
  {
    if s in w.sessions && s in w.connected {
      var g :| Serves(w, g, s);
      HandleKeepsServer(grace, w, h, ok, s, g);
    } else {
      var w' := HandleStep(grace, w, h, ok);
      assert s in w'.sessions && s in w'.connected ==> Serves(w', h, s);
    }
  }

  lemma HandleKeepsSession(grace: nat, w: World, h: Hid, ok: bool, s: Sid)
    requires h in w.handlers && HandlerInv(w, h) && SessionInv(grace, w, s)
    ensures SessionInv(grace, HandleStep(grace, w, h, ok), s)
  {
    HandleKeepsSince(grace, w, h, ok, s);
    HandleKeepsServed(grace, w, h, ok, s);
    if Disconnected(w, s) {
      var g :| HandlerGuards(w, g, s) || TimerGuards(grace, w, g, s);
      HandleKeepsGuard(grace, w, h, ok, s, g);
    } else {
      HandleRaisesGuard(grace, w, h, ok, s);
    }
  }

  lemma FireKeepsGuard(grace: nat, w: World, h: Hid, s: Sid, g: Hid)
    requires h in w.timers && Disconnected(w, s)
    requires HandlerGuards(w, g, s) || TimerGuards(grace, w, g, s)
    ensures var w' := FireStep(w, h);
            Disconnected(w', s) ==> HandlerGuards(w', g, s) || TimerGuards(grace, w', g, s)
  {
  }

  lemma FireKeepsSession(grace: nat, w: World, h: Hid, s: Sid)
    requires h in w.timers && SessionInv(grace, w, s)
    ensures SessionInv(grace, FireStep(w, h), s)
  {
    var w' := FireStep(w, h);
    if Disconnected(w', s) {
      var g :| HandlerGuards(w, g, s) || TimerGuards(grace, w, g, s);
      FireKeepsGuard(grace, w, h, s, g);
    }
    if s in w'.sessions && s in w'.connected {
      var g :| Serves(w, g, s);
      assert Serves(w', g, s);
    }
  }

  /** Time only passes while every guard is a sleeping timer, and then no further than its deadline. */
  lemma TickKeepsSession(grace: nat, w: World, delta: nat, s: Sid)
    requires SessionInv(grace, w, s) && MayTick(w, delta)
    ensures SessionInv(grace, w.(now := w.now + delta), s)
  {
    var w' := w.(now := w.now + delta);
    if Disconnected(w', s) {
      var g :| HandlerGuards(w, g, s) || TimerGuards(grace, w, g, s);
      assert !HandlerGuards(w, g, s);
      assert w.timers[g].pc.Sleeping?;
      assert TimerGuards(grace, w', g, s);
    }
    if s in w'.sessions && s in w'.connected {
      var g :| Serves(w, g, s);
      assert Serves(w', g, s);
    }
  }

  /** Launches, other stoppers, new handlers and resizes. */
  lemma OutsideKeepsSession(grace: nat, w: World, e: Event, s: Sid)
    requires SessionInv(grace, w, s) && (e.Insert? || e.Remove? || e.Open? || e.Restream?)
    requires e.Insert? && e.sid == s && s !in w.everInserted ==> s !in w.hadFirst
    ensures SessionInv(grace, Step(grace, w, e), s)
  {
    var w' := Step(grace, w, e);
    if Disconnected(w', s) {
      var g :| HandlerGuards(w, g, s) || TimerGuards(grace, w, g, s);
      assert HandlerGuards(w', g, s) || TimerGuards(grace, w', g, s);
    }
    if s in w'.sessions && s in w'.connected {
      var g :| Serves(w, g, s);
      assert Serves(w', g, s);
    }
  }

  // ----- runs -------------------------------------------------------------

  /** Only sessions that were inserted are ever looked up, marked or connected. */
  predicate InsertedInv(w: World, h: Hid, s: Sid) {
    && w.sessions <= w.everInserted
    && (s in w.hadFirst ==> s in w.everInserted)
    && (h in w.handlers && !w.handlers[h].pc.LookingUp? && !w.handlers[h].pc.Closed? ==>
          w.handlers[h].sid in w.everInserted)
  }

  lemma InsertedStep(grace: nat, w: World, e: Event, h: Hid, s: Sid)
    requires InsertedInv(w, h, s) && (e.Handle? ==> InsertedInv(w, e.hid, s))
    ensures InsertedInv(Step(grace, w, e), h, s)
  {
  }

  lemma HandleKeepsHandler(grace: nat, w: World, g: Hid, ok: bool, h: Hid)
    requires g in w.handlers && HandlerInv(w, h)
    ensures HandlerInv(HandleStep(grace, w, g, ok), h)
  {
    if g != h {
      assert h in w.handlers ==> HandleStep(grace, w, g, ok).handlers[h] == w.handlers[h];
    }
  }

  lemma HandlerStep(grace: nat, w: World, e: Event, h: Hid)
    requires HandlerInv(w, h)
    ensures HandlerInv(Step(grace, w, e), h)
  {
    if e.Handle? && e.hid in w.handlers {
      HandleKeepsHandler(grace, w, e.hid, e.ok, h);
    }
  }

  /** A timer sleeps for the grace period from when it was left behind, and is at work at that very time. */
  predicate TimerInv(grace: nat, w: World, h: Hid) {
    h in w.timers ==>
      match w.timers[h].pc
      case Sleeping(deadline) => deadline == w.timers[h].spawned + grace && w.now <= deadline
      case Over => true
      case _ => w.now == w.timers[h].spawned + grace
  }

  lemma HandleKeepsTimer(grace: nat, w: World, g: Hid, ok: bool, h: Hid)
    requires g in w.handlers && TimerInv(grace, w, h)
    ensures TimerInv(grace, HandleStep(grace, w, g, ok), h)
  {
  }

  lemma TimerStep(grace: nat, w: World, e: Event, h: Hid)
    requires TimerInv(grace, w, h)
    ensures TimerInv(grace, Step(grace, w, e), h)
  {
    if e.Handle? && e.hid in w.handlers {
      HandleKeepsTimer(grace, w, e.hid, e.ok, h);
    }
  }

  ghost predicate FullInv(grace: nat, w: World) {
    Inv(grace, w) && (forall h, s :: InsertedInv(w, h, s)) && forall h :: TimerInv(grace, w, h)
  }

  lemma StepKeepsInv(grace: nat, w: World, e: Event)
    requires FullInv(grace, w)
    ensures FullInv(grace, Step(grace, w, e))
  {
    var w' := Step(grace, w, e);
    forall h, s ensures InsertedInv(w', h, s) {
      assert InsertedInv(w, h, s);
      if e.Handle? {
        assert InsertedInv(w, e.hid, s);
      }
      InsertedStep(grace, w, e, h, s);
    }
    forall h ensures HandlerInv(w', h) && TimerInv(grace, w', h) {
      HandlerStep(grace, w, e, h);
      TimerStep(grace, w, e, h);
    }
    forall s ensures SessionInv(grace, w', s) {
      assert SessionInv(grace, w, s);
      match e
      case Handle(hid, ok) =>
        if hid in w.handlers {
          HandleKeepsSession(grace, w, hid, ok, s);
        }
      case Fire(hid) =>
        if hid in w.timers {
          FireKeepsSession(grace, w, hid, s);
        }
      case Tick(delta) =>
        if MayTick(w, delta) {
          TickKeepsSession(grace, w, delta, s);
        }
      case _ =>
        assert InsertedInv(w, 0, s);
        OutsideKeepsSession(grace, w, e, s);
    }
  }

  lemma {:induction false} RunKeepsInv(grace: nat, w: World, es: seq<Event>)
    requires FullInv(grace, w)
    ensures FullInv(grace, Exec(grace, w, es))
    decreases |es|
  {
    if es == [] {
    } else {
      StepKeepsInv(grace, w, es[0]);
      RunKeepsInv(grace, Step(grace, w, es[0]), es[1..]);
    }
  }

  lemma Reached(grace: nat, es: seq<Event>)
    ensures FullInv(grace, Exec(grace, START, es))
  {
    RunKeepsInv(grace, START, es);
  }

  /**
   * In every reachable state a session that is in the map, has been connected and now is not,
   * has a grace timer pending (or at work) or a handler in mid-transition, however many
   * handlers overlap and however many stale timers there are.
   */
  lemma DisconnectedSessionIsWatched(grace: nat, es: seq<Event>, s: Sid)
    requires Disconnected(Exec(grace, START, es), s)
    ensures Watched(Exec(grace, START, es), s)
  {
    Reached(grace, es);
    var w := Exec(grace, START, es);
    assert SessionInv(grace, w, s);
    var h :| HandlerGuards(w, h, s) || TimerGuards(grace, w, h, s);
    assert MidTransition(w, h, s) || TimerPending(w, h, s);
  }

  /** No session outlives its grace period without a connection. */
  lemma GraceIsABound(grace: nat, es: seq<Event>, s: Sid)
    requires Disconnected(Exec(grace, START, es), s)
    ensures var w := Exec(grace, START, es);
            s in w.since && w.now <= w.since[s] + grace
  {
    Reached(grace, es);
    assert SessionInv(grace, Exec(grace, START, es), s);
  }

  /** A timer comes into being exactly when its handler leaves without an error and there is a grace period. */
  lemma TimersAreLeftBehind(grace: nat, w: World, e: Event, h: Hid)
    requires h !in w.timers
    ensures h in Step(grace, w, e).timers
       <==> e.Handle? && e.hid == h && h in w.handlers && w.handlers[h].pc == Deciding(false) && grace > 0
    ensures h in Step(grace, w, e).timers ==>
              Step(grace, w, e).timers[h] == Timer(w.handlers[h].sid, w.now, Sleeping(w.now + grace))
  {
  }

  /**
   * The grace period is exact for each timer: over every run, one that is about to take its session
   * out of the map does so when the whole period has passed since its handler left, no sooner and
   * no later. So the session has had all of it since it was last disconnected exactly if that
   * handler was then the last to leave.
   */
  lemma TimersWaitTheWholeGrace(grace: nat, es: seq<Event>, h: Hid, s: Sid)
    requires s in Exec(grace, START, es).sessions
    requires s !in Step(grace, Exec(grace, START, es), Fire(h)).sessions
    ensures var w := Exec(grace, START, es);
            && h in w.timers && w.timers[h].sid == s && w.now == w.timers[h].spawned + grace
            && (Disconnected(w, s) ==>
                  s in w.since && (w.now == w.since[s] + grace <==> w.since[s] == w.timers[h].spawned))
  {
    Reached(grace, es);
    var w := Exec(grace, START, es);
    assert TimerInv(grace, w, h) && SessionInv(grace, w, s);
  }

  /**
   * The other direction of the flag: while it is up on a session in the map, some handler is
   * between connecting and disconnecting, so skipping connected sessions strands none.
   */
  lemma ConnectedSessionHasAHandler(grace: nat, es: seq<Event>, s: Sid)
    requires s in Exec(grace, START, es).sessions && s in Exec(grace, START, es).connected
    ensures Served(Exec(grace, START, es), s)
  {
    Reached(grace, es);
    assert SessionInv(grace, Exec(grace, START, es), s);
  }

  // ----- sessions that are being used ---------------------------------------------

  /** Handler h is between setting the flag of session s and clearing it. */
  predicate Live(w: World, h: Hid, s: Sid) {
    && h in w.handlers && w.handlers[h].sid == s
    && match w.handlers[h].pc
       case StartingWebrtc => true
       case Refetching => true
       case Looping => true
       case TearingDown(_) => true
       case ClearingConnected(_) => true
       case _ => false
  }

  ghost predicate LiveBesides(w: World, h: Hid, s: Sid) { exists g :: g != h && Live(w, g, s) }

  predicate HandlerStops(w: World, d: Hid, s: Sid) {
    d in w.handlers && w.handlers[d] == Handler(s, StoppingSession)
  }

  predicate TimerStops(w: World, d: Hid, s: Sid) { d in w.timers && w.timers[d].sid == s && w.timers[d].pc == Expiring }

  /** Somebody has decided to stop session s: its next section does. */
  predicate Stops(w: World, d: Hid, s: Sid) { HandlerStops(w, d, s) || TimerStops(w, d, s) }

  predicate FlagUp(w: World, g: Hid, s: Sid) { Live(w, g, s) ==> s in w.connected }

  predicate Spared(w: World, d: Hid, g: Hid, s: Sid) { Live(w, g, s) ==> !Stops(w, d, s) }

  /** While a handler is live its flag is up, and nobody has decided to stop its session. */
  ghost predicate Safe(w: World, s: Sid) {
    (forall g :: FlagUp(w, g, s)) && (forall d, g :: Spared(w, d, g, s))
  }

  // The four sections that put a live session at risk, each where the source tests a condition.

  /** A handler that is leaving clears the flag while another one is live. */
  ghost predicate ClearsUnderAnother(w: World, h: Hid, s: Sid) {
    h in w.handlers && w.handlers[h].sid == s && w.handlers[h].pc.ClearingConnected? && LiveBesides(w, h, s)
  }

  /** A handler sets the flag after somebody has decided to stop: a timer looked before, or a handler failed. */
  ghost predicate ConnectsTooLate(w: World, h: Hid, s: Sid) {
    h in w.handlers && w.handlers[h] == Handler(s, SettingConnected) && exists d :: Stops(w, d, s)
  }

  /** A handler that cannot start its pipeline, another one being live, goes on to stop the session. */
  ghost predicate LosesTheRace(w: World, h: Hid, s: Sid, ok: bool) {
    h in w.handlers && w.handlers[h] == Handler(s, StartingWebrtc) && !(ok && s !in w.streaming) && LiveBesides(w, h, s)
  }

  /** A handler that leaves without grace goes on to stop the session another one is live on. */
  ghost predicate LeavesTooLate(grace: nat, w: World, h: Hid, s: Sid) {
    && h in w.handlers && w.handlers[h].sid == s && w.handlers[h].pc.Deciding?
    && (grace == 0 || w.handlers[h].pc.pipelineError) && LiveBesides(w, h, s)
  }

  ghost predicate Harms(grace: nat, w: World, e: Event, s: Sid) {
    e.Handle?
    && (|| ClearsUnderAnother(w, e.hid, s) || ConnectsTooLate(w, e.hid, s)
        || LosesTheRace(w, e.hid, s, e.ok) || LeavesTooLate(grace, w, e.hid, s))
  }

  lemma OtherHandlersStay(grace: nat, w: World, h: Hid, ok: bool, g: Hid)
    requires h in w.handlers && g != h
    ensures var w' := HandleStep(grace, w, h, ok);
            && (g in w'.handlers <==> g in w.handlers) && (g in w.handlers ==> w'.handlers[g] == w.handlers[g])
            && (g in w'.timers <==> g in w.timers) && (g in w.timers ==> w'.timers[g] == w.timers[g])
  {
  }

  lemma HarmIsHarm(grace: nat, w: World, h: Hid, ok: bool, s: Sid)
    requires h in w.handlers && Safe(w, s) && Harms(grace, w, Handle(h, ok), s)
    ensures !Safe(HandleStep(grace, w, h, ok), s)
  {
    var w' := HandleStep(grace, w, h, ok);
    if ConnectsTooLate(w, h, s) {
      var d :| Stops(w, d, s);
      if d != h {
        OtherHandlersStay(grace, w, h, ok, d);
      }
      assert Stops(w', d, s) && Live(w', h, s);
      assert !Spared(w', d, h, s);
    } else {
      var g :| g != h && Live(w, g, s);
      OtherHandlersStay(grace, w, h, ok, g);
      assert Live(w', g, s);
      if ClearsUnderAnother(w, h, s) {
        assert !FlagUp(w', g, s);
      } else {
        assert Stops(w', h, s);
        assert !Spared(w', h, g, s);
      }
    }
  }

  lemma HandleKeepsFlagUp(grace: nat, w: World, h: Hid, ok: bool, s: Sid, g: Hid)
    requires h in w.handlers && FlagUp(w, g, s) && !ClearsUnderAnother(w, h, s)
    ensures FlagUp(HandleStep(grace, w, h, ok), g, s)
  {
    if g != h {
      OtherHandlersStay(grace, w, h, ok, g);
      assert w.handlers[h].pc.ClearingConnected? && w.handlers[h].sid == s ==> !Live(w, g, s);
    }
  }

  lemma HandleKeepsSpared(grace: nat, w: World, h: Hid, ok: bool, s: Sid, d: Hid, g: Hid)
    requires h in w.handlers && Safe(w, s) && !Harms(grace, w, Handle(h, ok), s)
    ensures Spared(HandleStep(grace, w, h, ok), d, g, s)
  {
    assert Spared(w, d, g, s);
    if g != h {
      OtherHandlersStay(grace, w, h, ok, g);
    }
    if d != h {
      OtherHandlersStay(grace, w, h, ok, d);
      assert Stops(HandleStep(grace, w, h, ok), d, s) <==> Stops(w, d, s);
    }
    assert Live(w, g, s) && g != h ==> LiveBesides(w, h, s);
    if g == h && Live(HandleStep(grace, w, h, ok), g, s) && !Live(w, g, s) {
      assert w.handlers[h] == Handler(s, SettingConnected);
      assert !Stops(w, d, s);
    }
  }

  lemma FireKeepsSafe(grace: nat, w: World, h: Hid, s: Sid)
    requires h in w.timers && Safe(w, s)
    ensures Safe(FireStep(w, h), s)
  {
    var w' := FireStep(w, h);
    forall g ensures FlagUp(w', g, s) {
      assert FlagUp(w, g, s);
    }
    forall d, g ensures Spared(w', d, g, s) {
      assert FlagUp(w, g, s) && Spared(w, d, g, s);
    }
  }

  lemma OutsideKeepsSafe(grace: nat, w: World, e: Event, s: Sid)
    requires Safe(w, s) && !e.Handle? && !e.Fire?
    ensures Safe(Step(grace, w, e), s)
  {
    var w' := Step(grace, w, e);
    forall g ensures FlagUp(w', g, s) {
      assert FlagUp(w, g, s);
    }
    forall d, g ensures Spared(w', d, g, s) {
      assert Spared(w, d, g, s);
    }
  }

  ghost predicate FlagsUp(w: World, s: Sid) { forall g :: FlagUp(w, g, s) }

  /** The flag alone: it stays up under every live handler exactly if no other one clears it. */
  lemma FlagsStayUpIff(grace: nat, w: World, e: Event, s: Sid)
    requires FlagsUp(w, s)
    ensures FlagsUp(Step(grace, w, e), s) <==> !(e.Handle? && ClearsUnderAnother(w, e.hid, s))
  {
    var w' := Step(grace, w, e);
    if e.Handle? && ClearsUnderAnother(w, e.hid, s) {
      var g :| g != e.hid && Live(w, g, s);
      OtherHandlersStay(grace, w, e.hid, e.ok, g);
      assert !FlagUp(w', g, s);
    } else {
      forall g ensures FlagUp(w', g, s) {
        assert FlagUp(w, g, s);
        if e.Handle? && e.hid in w.handlers {
          HandleKeepsFlagUp(grace, w, e.hid, e.ok, s, g);
        }
      }
    }
  }

  /** The exact condition for a section, of whatever task, to keep a session's live handlers safe. */
  lemma SafeKeptIff(grace: nat, w: World, e: Event, s: Sid)
    requires Safe(w, s)
    ensures Safe(Step(grace, w, e), s) <==> !Harms(grace, w, e, s)
  {
    if Harms(grace, w, e, s) {
      HarmIsHarm(grace, w, e.hid, e.ok, s);
    } else if e.Handle? && e.hid in w.handlers {
      forall g ensures FlagUp(Step(grace, w, e), g, s) {
        assert FlagUp(w, g, s);
        HandleKeepsFlagUp(grace, w, e.hid, e.ok, s, g);
      }
      forall d, g ensures Spared(Step(grace, w, e), d, g, s) {
        HandleKeepsSpared(grace, w, e.hid, e.ok, s, d, g);
      }
    } else if e.Fire? && e.hid in w.timers {
      FireKeepsSafe(grace, w, e.hid, s);
    } else if !e.Handle? && !e.Fire? {
      OutsideKeepsSafe(grace, w, e, s);
    }
  }

  ghost predicate SafeThroughout(grace: nat, w: World, es: seq<Event>, s: Sid)
    decreases |es|
  {
    Safe(w, s) && (es != [] ==> SafeThroughout(grace, Step(grace, w, es[0]), es[1..], s))
  }

  ghost predicate NothingHarms(grace: nat, w: World, es: seq<Event>, s: Sid)
    decreases |es|
  {
    es != [] ==> !Harms(grace, w, es[0], s) && NothingHarms(grace, Step(grace, w, es[0]), es[1..], s)
  }

  lemma {:induction false} SafeThroughoutIff(grace: nat, w: World, es: seq<Event>, s: Sid)
    requires Safe(w, s)
    ensures SafeThroughout(grace, w, es, s) <==> NothingHarms(grace, w, es, s)
    ensures NothingHarms(grace, w, es, s) ==> Safe(Exec(grace, w, es), s)
    decreases |es|
  {
    if es == [] {
    } else {
      SafeKeptIff(grace, w, es[0], s);
      if Safe(Step(grace, w, es[0]), s) {
        SafeThroughoutIff(grace, Step(grace, w, es[0]), es[1..], s);
      }
    }
  }

  /** An event by which a timer or a handler takes session s out of the map. */
  predicate Takes(w: World, e: Event, s: Sid) {
    (e.Handle? && HandlerStops(w, e.hid, s)) || (e.Fire? && TimerStops(w, e.hid, s))
  }

  lemma LeavesTheMapIff(grace: nat, w: World, e: Event, s: Sid)
    requires s in w.sessions
    ensures s !in Step(grace, w, e).sessions <==> e == Remove(s) || Takes(w, e, s)
  {
  }

  /**
   * Over every run: the live handlers of a session stay safe all along exactly if none of the
   * four sections occurs. So a session with a live handler leaves the map by a timer or by
   * another handler only in a run in which one of the four has occurred before.
   */
  lemma LiveSessionsAreSafeIff(grace: nat, es: seq<Event>, s: Sid)
    ensures SafeThroughout(grace, START, es, s) <==> NothingHarms(grace, START, es, s)
    ensures var w := Exec(grace, START, es);
            forall e, g :: Live(w, g, s) && s in w.sessions && e != Remove(s) ==>
              && (s !in Step(grace, w, e).sessions <==> Takes(w, e, s))
              && (Takes(w, e, s) ==> !NothingHarms(grace, START, es, s))
  {
    SafeThroughoutIff(grace, START, es, s);
    var w := Exec(grace, START, es);
    forall e, g | Live(w, g, s) && s in w.sessions && e != Remove(s)
      ensures s !in Step(grace, w, e).sessions <==> Takes(w, e, s)
      ensures Takes(w, e, s) ==> !NothingHarms(grace, START, es, s)
    {
      LeavesTheMapIff(grace, w, e, s);
      assert Takes(w, e, s) ==> !Spared(w, e.hid, g, s);
    }
  }

  /** A session somebody has decided to stop is taken by that task's next section, live handlers or not. */
  lemma DecidedStopsHappen(grace: nat, w: World, d: Hid, g: Hid, s: Sid)
    requires Stops(w, d, s) && Live(w, g, s)
    ensures var w' := Step(grace, w, if HandlerStops(w, d, s) then Handle(d, true) else Fire(d));
            s !in w'.sessions && Live(w', g, s)
  {
    if HandlerStops(w, d, s) {
      OtherHandlersStay(grace, w, d, true, g);
    }
  }

  // ----- the pipeline under a live handler --------------------------------------------

  /** Handler g has started a pipeline and not yet taken it down. */
  predicate Streams(w: World, g: Hid, s: Sid) {
    && g in w.handlers && w.handlers[g].sid == s
    && (w.handlers[g].pc.Refetching? || w.handlers[g].pc.Looping? || w.handlers[g].pc.TearingDown?)
  }

  predicate PipelineUp(w: World, g: Hid, s: Sid) { Streams(w, g, s) ==> s in w.streaming }

  ghost predicate PipelinesUp(w: World, s: Sid) { forall g :: PipelineUp(w, g, s) }

  /** A handler takes the pipeline down that another one streams on, or a resize does for as long as it rebuilds. */
  ghost predicate TakesPipeline(w: World, e: Event, s: Sid) {
    || (e.Handle? && e.hid in w.handlers && w.handlers[e.hid].sid == s && w.handlers[e.hid].pc.TearingDown?
        && exists g :: g != e.hid && Streams(w, g, s))
    || (e == Restream(s, false) && exists g :: Streams(w, g, s))
  }

  lemma HandleKeepsPipelineUp(grace: nat, w: World, h: Hid, ok: bool, s: Sid, g: Hid)
    requires h in w.handlers && PipelineUp(w, g, s) && !TakesPipeline(w, Handle(h, ok), s)
    ensures PipelineUp(HandleStep(grace, w, h, ok), g, s)
  {
    if g != h {
      OtherHandlersStay(grace, w, h, ok, g);
      assert !(w.handlers[h].sid == s && w.handlers[h].pc.TearingDown? && Streams(w, g, s));
    }
  }

  lemma OutsideKeepsPipelineUp(grace: nat, w: World, e: Event, s: Sid, g: Hid)
    requires !e.Handle? && PipelineUp(w, g, s) && !TakesPipeline(w, e, s)
    ensures PipelineUp(Step(grace, w, e), g, s)
  {
    var w' := Step(grace, w, e);
    assert Streams(w', g, s) ==> Streams(w, g, s);
    if e == Restream(s, false) {
      assert !Streams(w, g, s);
    }
  }

  /** The exact condition for a section to leave the pipeline up under every handler that streams on it. */
  lemma PipelineStaysUpIff(grace: nat, w: World, e: Event, s: Sid)
    requires PipelinesUp(w, s)
    ensures PipelinesUp(Step(grace, w, e), s) <==> !TakesPipeline(w, e, s)
  {
    var w' := Step(grace, w, e);
    if TakesPipeline(w, e, s) {
      if e.Handle? {
        var g :| g != e.hid && Streams(w, g, s);
        OtherHandlersStay(grace, w, e.hid, e.ok, g);
        assert !PipelineUp(w', g, s);
      } else {
        var g :| Streams(w, g, s);
        assert !PipelineUp(w', g, s);
      }
    } else {
      forall g ensures PipelineUp(w', g, s) {
        assert PipelineUp(w, g, s);
        if !e.Handle? {
          OutsideKeepsPipelineUp(grace, w, e, s, g);
        } else if e.hid in w.handlers {
          HandleKeepsPipelineUp(grace, w, e.hid, e.ok, s, g);
        }
      }
    }
  }

  ghost predicate PipelinesUpThroughout(grace: nat, w: World, es: seq<Event>, s: Sid)
    decreases |es|
  {
    PipelinesUp(w, s) && (es != [] ==> PipelinesUpThroughout(grace, Step(grace, w, es[0]), es[1..], s))
  }

  ghost predicate NothingTakesPipeline(grace: nat, w: World, es: seq<Event>, s: Sid)
    decreases |es|
  {
    es != [] ==> !TakesPipeline(w, es[0], s) && NothingTakesPipeline(grace, Step(grace, w, es[0]), es[1..], s)
  }

  lemma {:induction false} PipelinesUpThroughoutIff(grace: nat, w: World, es: seq<Event>, s: Sid)
    requires PipelinesUp(w, s)
    ensures PipelinesUpThroughout(grace, w, es, s) <==> NothingTakesPipeline(grace, w, es, s)
    decreases |es|
  {
    if es != [] {
      PipelineStaysUpIff(grace, w, es[0], s);
      if PipelinesUp(Step(grace, w, es[0]), s) {
        PipelinesUpThroughoutIff(grace, Step(grace, w, es[0]), es[1..], s);
      }
    }
  }

  /** Over every run: each handler that streams keeps its pipeline all along exactly if nothing takes it. */
  lemma PipelinesStayUpIff(grace: nat, es: seq<Event>, s: Sid)
    ensures PipelinesUpThroughout(grace, START, es, s) <==> NothingTakesPipeline(grace, START, es, s)
  {
    PipelinesUpThroughoutIff(grace, START, es, s);
  }

  // ----- a run for each of the four --------------------------------------------------

  function Hand(grace: nat, w: World, h: Hid): World { Step(grace, w, Handle(h, true)) }

  /** The next n sections of a handler. */
  function Hands(grace: nat, w: World, h: Hid, n: nat): World
    decreases n, w
  {
    if n == 0 then w else Hands(grace, Hand(grace, w, h), h, n - 1)
  }

  lemma TwoHands(grace: nat, w: World, h: Hid)
    ensures Hands(grace, w, h, 2) == Hand(grace, Hand(grace, w, h), h)
  {
    var w1 := Hand(grace, w, h);
    assert Hands(grace, w1, h, 1) == Hands(grace, Hand(grace, w1, h), h, 0);
  }

  lemma ThreeHands(grace: nat, w: World, h: Hid)
    ensures Hands(grace, w, h, 3) == Hand(grace, Hand(grace, Hand(grace, w, h), h), h)
  {
    TwoHands(grace, Hand(grace, w, h), h);
  }

  function Up(grace: nat, w: World, h: Hid): World { Hands(grace, w, h, 3) }

  /** A new handler, run up to its message loop. */
  function Connected(grace: nat, w: World, h: Hid, s: Sid): World {
    Up(grace, Up(grace, Step(grace, w, Open(h, s)), h), h)
  }

  /** What a handler's steps leave alone. */
  predicate OnlyHandler(w: World, w': World, h: Hid, handler: Handler) {
    && w'.sessions == w.sessions && w'.now == w.now && w'.timers == w.timers
    && w'.handlers == w.handlers[h := handler]
  }

  lemma FirstThree(grace: nat, w: World, h: Hid, s: Sid)
    requires h in w.handlers && w.handlers[h] == Handler(s, LookingUp) && s in w.sessions && s !in w.streaming
    ensures OnlyHandler(w, Up(grace, w, h), h, Handler(s, SettingConnected))
    ensures Up(grace, w, h).streaming == w.streaming && Up(grace, w, h).connected == w.connected
  {
    ThreeHands(grace, w, h);
    var w1 := Hand(grace, w, h);
    assert w1 == At(w, h, CheckingStream);
    assert Hand(grace, w1, h) == At(w1, h, MarkingFirst);
  }

  lemma LastThree(grace: nat, w: World, h: Hid, s: Sid)
    requires h in w.handlers && w.handlers[h] == Handler(s, SettingConnected) && s in w.sessions && s !in w.streaming
    ensures OnlyHandler(w, Up(grace, w, h), h, Handler(s, Looping))
    ensures Up(grace, w, h).streaming == w.streaming + {s} && Up(grace, w, h).connected == w.connected + {s}
  {
    ThreeHands(grace, w, h);
    var w1 := Hand(grace, w, h);
    assert w1 == At(w.(connected := w.connected + {s}), h, StartingWebrtc);
    var w2 := Hand(grace, w1, h);
    assert w2 == At(w1.(streaming := w1.streaming + {s}), h, Refetching);
  }

  lemma Connects(grace: nat, w: World, h: Hid, s: Sid)
    requires h !in w.handlers && h !in w.timers && s in w.sessions && s !in w.streaming
    ensures OnlyHandler(w, Connected(grace, w, h, s), h, Handler(s, Looping))
    ensures Connected(grace, w, h, s).streaming == w.streaming + {s}
    ensures Connected(grace, w, h, s).connected == w.connected + {s}
  {
    var w0 := Step(grace, w, Open(h, s));
    FirstThree(grace, w0, h, s);
    LastThree(grace, Up(grace, w0, h), h, s);
  }

  /** A looping handler runs down to the section that clears the flag; `ok` says it saw no pipeline error. */
  function Down(grace: nat, w: World, h: Hid, ok: bool): World { Hands(grace, Step(grace, w, Handle(h, ok)), h, 1) }

  lemma GoesDown(grace: nat, w: World, h: Hid, s: Sid, ok: bool)
    requires h in w.handlers && w.handlers[h] == Handler(s, Looping)
    ensures OnlyHandler(w, Down(grace, w, h, ok), h, Handler(s, ClearingConnected(!ok)))
    ensures Down(grace, w, h, ok).streaming == w.streaming - {s} && Down(grace, w, h, ok).connected == w.connected
  {
    var w1 := Step(grace, w, Handle(h, ok));
    assert Hands(grace, w1, h, 1) == Hands(grace, Hand(grace, w1, h), h, 0);
    assert Step(grace, w, Handle(h, ok)) == At(w, h, TearingDown(!ok));
  }

  /** It clears the flag and leaves a timer. */
  function LeaveTimer(grace: nat, w: World, h: Hid): World { Hands(grace, w, h, 2) }

  lemma LeavesTimer(grace: nat, w: World, h: Hid, s: Sid)
    requires grace > 0 && h in w.handlers && w.handlers[h] == Handler(s, ClearingConnected(false))
    ensures var w' := LeaveTimer(grace, w, h);
            && w'.handlers == w.handlers[h := Handler(s, Closed)]
            && w'.timers == w.timers[h := Timer(s, w.now, Sleeping(w.now + grace))]
            && w'.sessions == w.sessions && w'.streaming == w.streaming && w'.now == w.now
            && w'.connected == w.connected - {s}
            && w'.since == (if s in w.connected then w.since[s := w.now] else w.since)
  {
    TwoHands(grace, w, h);
  }

  /** Time passes until a timer is due, and it wakes and finds the flag down. */
  function LookWhenDue(grace: nat, w: World, h: Hid, delta: nat): World {
    Fires(grace, Step(grace, w, Tick(delta)), h, 3)
  }

  /** The next n sections of a timer. */
  function Fires(grace: nat, w: World, h: Hid, n: nat): World
    decreases n, w
  {
    if n == 0 then w else Fires(grace, Step(grace, w, Fire(h)), h, n - 1)
  }

  lemma ThreeFires(grace: nat, w: World, h: Hid)
    ensures Fires(grace, w, h, 3) == Step(grace, Step(grace, Step(grace, w, Fire(h)), Fire(h)), Fire(h))
  {
    var w1 := Step(grace, w, Fire(h));
    var w2 := Step(grace, w1, Fire(h));
    assert Fires(grace, w1, h, 2) == Fires(grace, w2, h, 1);
    assert Fires(grace, w2, h, 1) == Fires(grace, Step(grace, w2, Fire(h)), h, 0);
  }

  lemma LooksWhenDue(grace: nat, w: World, h: Hid, s: Sid, delta: nat)
    requires h in w.timers && w.timers[h].sid == s && w.timers[h].pc == Sleeping(w.now + delta)
    requires s in w.sessions && s !in w.connected && MayTick(w, delta)
    ensures var w' := LookWhenDue(grace, w, h, delta);
            && w'.timers == w.timers[h := w.timers[h].(pc := Expiring)] && w'.now == w.now + delta
            && w'.sessions == w.sessions && w'.streaming == w.streaming && w'.handlers == w.handlers
            && w'.since == w.since
  {
    var w1 := Step(grace, w, Tick(delta));
    ThreeFires(grace, w1, h);
    assert w1 == w.(now := w.now + delta);
    var w2 := Step(grace, w1, Fire(h));
    assert w2 == Wake(w1, h, Fetching);
    assert Step(grace, w2, Fire(h)) == Wake(w2, h, ReadingConnected);
  }

  function Opened(grace: nat, s: Sid): World { Step(grace, START, Insert(s)) }

  /** Handler `live` is in its message loop and its session is gone. */
  predicate TakenUnder(w: World, live: Hid, s: Sid) {
    s !in w.sessions && live in w.handlers && w.handlers[live] == Handler(s, Looping)
  }

  /** A first handler, run up to the section that clears the flag. */
  function Leaving(grace: nat, s: Sid, first: Hid, ok: bool): World {
    Down(grace, Connected(grace, Opened(grace, s), first, s), first, ok)
  }

  lemma LeavingState(grace: nat, s: Sid, first: Hid, ok: bool)
    ensures var w := Leaving(grace, s, first, ok);
            && w.now == 0 && w.sessions == {s} && w.streaming == {} && w.timers == map[]
            && w.handlers == map[first := Handler(s, ClearingConnected(!ok))]
  {
    Connects(grace, Opened(grace, s), first, s);
    GoesDown(grace, Connected(grace, Opened(grace, s), first, s), first, s, ok);
  }

  /** Run 1: a handler that is slow to leave clears the flag under its successor, and its timer finds it down. */
  lemma StaleHandlerDisarmsLiveSession(grace: nat, s: Sid, slow: Hid, live: Hid)
    requires grace > 0 && slow != live
    ensures var w2 := Connected(grace, Leaving(grace, s, slow, true), live, s);
            var w3 := LookWhenDue(grace, LeaveTimer(grace, w2, slow), slow, grace);
            ClearsUnderAnother(w2, slow, s) && TakenUnder(Step(grace, w3, Fire(slow)), live, s)
  {
    LeavingState(grace, s, slow, true);
    Connects(grace, Leaving(grace, s, slow, true), live, s);
    ClearedUnderIsTaken(grace, Connected(grace, Leaving(grace, s, slow, true), live, s), s, slow, live);
  }

  /** From any state like that of run 1, once it is the only timer. */
  lemma ClearedUnderIsTaken(grace: nat, w: World, s: Sid, slow: Hid, live: Hid)
    requires grace > 0 && slow != live && s in w.sessions && w.timers == map[]
    requires w.handlers == map[slow := Handler(s, ClearingConnected(false)), live := Handler(s, Looping)]
    ensures var w3 := LookWhenDue(grace, LeaveTimer(grace, w, slow), slow, grace);
            ClearsUnderAnother(w, slow, s) && TakenUnder(Step(grace, w3, Fire(slow)), live, s)
  {
    assert Live(w, live, s);
    LeavesTimer(grace, w, slow, s);
    LooksWhenDue(grace, LeaveTimer(grace, w, slow), slow, s, grace);
  }

  /** Run 2: a timer has looked and is about to stop the session when a handler connects. */
  lemma TimerLooksTooEarly(grace: nat, s: Sid, gone: Hid, live: Hid)
    requires grace > 0 && gone != live
    ensures var w2 := LookWhenDue(grace, LeaveTimer(grace, Leaving(grace, s, gone, true), gone), gone, grace);
            var w3 := Up(grace, Step(grace, w2, Open(live, s)), live);
            && ConnectsTooLate(w3, live, s)
            && TakenUnder(Step(grace, Connected(grace, w2, live, s), Fire(gone)), live, s)
  {
    LeavingState(grace, s, gone, true);
    LeavesTimer(grace, Leaving(grace, s, gone, true), gone, s);
    LooksWhenDue(grace, LeaveTimer(grace, Leaving(grace, s, gone, true), gone), gone, s, grace);
    var w := LookWhenDue(grace, LeaveTimer(grace, Leaving(grace, s, gone, true), gone), gone, grace);
    TooEarlyIsTaken(grace, w, s, gone, live);
  }

  lemma TooEarlyIsTaken(grace: nat, w: World, s: Sid, gone: Hid, live: Hid)
    requires gone != live && s in w.sessions && s !in w.streaming
    requires TimerStops(w, gone, s) && w.timers.Keys == {gone} && live !in w.handlers
    ensures ConnectsTooLate(Up(grace, Step(grace, w, Open(live, s)), live), live, s)
    ensures TakenUnder(Step(grace, Connected(grace, w, live, s), Fire(gone)), live, s)
  {
    FirstThree(grace, Step(grace, w, Open(live, s)), live, s);
    assert Stops(Up(grace, Step(grace, w, Open(live, s)), live), gone, s);
    Connects(grace, w, live, s);
  }

  /** Run 3: two handlers pass the check for a stream; the one that comes second stops the session. */
  lemma RaceLoserStopsWinner(grace: nat, s: Sid, loser: Hid, live: Hid)
    requires loser != live
    ensures var w0 := Step(grace, Step(grace, Opened(grace, s), Open(loser, s)), Open(live, s));
            var w1 := Up(grace, Up(grace, w0, loser), live);
            var w2 := Hand(grace, Up(grace, w1, live), loser);
            && LosesTheRace(w2, loser, s, true)
            && TakenUnder(Hand(grace, Hand(grace, w2, loser), loser), live, s)
  {
    var w0 := Step(grace, Step(grace, Opened(grace, s), Open(loser, s)), Open(live, s));
    FirstThree(grace, w0, loser, s);
    FirstThree(grace, Up(grace, w0, loser), live, s);
    var w1 := Up(grace, Up(grace, w0, loser), live);
    LastThree(grace, w1, live, s);
    var w2 := Hand(grace, Up(grace, w1, live), loser);
    assert w2 == At(Up(grace, w1, live), loser, StartingWebrtc);
    assert Live(w2, live, s);
    var w3 := Hand(grace, w2, loser);
    assert w3 == At(w2, loser, StoppingSession);
  }

  /** Run 4: a handler that saw a pipeline error has cleared the flag, and stops the session of its successor. */
  lemma FailedHandlerStopsSuccessor(grace: nat, s: Sid, failed: Hid, live: Hid)
    requires failed != live
    ensures var w2 := Connected(grace, Hand(grace, Leaving(grace, s, failed, false), failed), live, s);
            && LeavesTooLate(grace, w2, failed, s)
            && TakenUnder(Hand(grace, Hand(grace, w2, failed), failed), live, s)
  {
    LeavingState(grace, s, failed, false);
    var w1 := Hand(grace, Leaving(grace, s, failed, false), failed);
    assert w1.handlers == map[failed := Handler(s, Deciding(true))] && w1.sessions == {s} && w1.streaming == {};
    Connects(grace, w1, live, s);
    FailedIsTaken(grace, Connected(grace, w1, live, s), s, failed, live);
  }

  lemma FailedIsTaken(grace: nat, w: World, s: Sid, failed: Hid, live: Hid)
    requires failed != live
    requires w.handlers == map[failed := Handler(s, Deciding(true)), live := Handler(s, Looping)]
    ensures LeavesTooLate(grace, w, failed, s)
    ensures TakenUnder(Hand(grace, Hand(grace, w, failed), failed), live, s)
  {
    assert Live(w, live, s);
    assert Hand(grace, w, failed) == At(w, failed, StoppingSession);
  }

  /** A stream check that finds a stream turns the handler away, and changes nothing else. */
  lemma SecondHandlerIsTurnedAway(grace: nat, w: World, h: Hid, s: Sid, ok: bool)
    requires h in w.handlers && w.handlers[h] == Handler(s, CheckingStream)
    ensures Step(grace, w, Handle(h, ok))
         == w.(handlers := w.handlers[h := Handler(s, if s in w.streaming then Closed else MarkingFirst)])
  {
  }

  /** A handler asks the map twice, first of all and once its stream runs, and closes if the session is gone. */
  lemma HandlersAskTheMap(grace: nat, w: World, h: Hid, s: Sid, ok: bool)
    requires h in w.handlers && (w.handlers[h] == Handler(s, LookingUp) || w.handlers[h] == Handler(s, Refetching))
    ensures Step(grace, w, Handle(h, ok))
         == w.(handlers := w.handlers[h :=
                 Handler(s, if s !in w.sessions then Closed
                            else if w.handlers[h].pc == LookingUp then CheckingStream else Looping)])
  {
  }

  /** A timer asks the map before it looks at the flag, and is done if the session is gone. */
  lemma TimersAskTheMap(grace: nat, w: World, h: Hid, s: Sid, spawned: nat)
    requires h in w.timers && w.timers[h] == Timer(s, spawned, Fetching)
    ensures Step(grace, w, Fire(h))
         == w.(timers := w.timers[h := Timer(s, spawned, if s in w.sessions then ReadingConnected else Over)])
  {
  }

  /** The first handler leaves and a second one connects. */
  function Relieved(grace: nat, s: Sid, first: Hid, second: Hid): World {
    Connected(grace, LeaveTimer(grace, Leaving(grace, s, first, true), first), second, s)
  }

  lemma RelievedState(grace: nat, s: Sid, first: Hid, second: Hid)
    requires first != second && grace > 0
    ensures var w := Relieved(grace, s, first, second);
            && w.now == 0 && s in w.sessions && s in w.connected
            && w.handlers == map[first := Handler(s, Closed), second := Handler(s, Looping)]
            && w.timers == map[first := Timer(s, 0, Sleeping(grace))]
  {
    LeavingState(grace, s, first, true);
    LeavesTimer(grace, Leaving(grace, s, first, true), first, s);
    Connects(grace, LeaveTimer(grace, Leaving(grace, s, first, true), first), second, s);
  }

  /** The second one stays for a while and leaves as well. */
  function LeaveAfter(grace: nat, w: World, h: Hid, stay: nat): World {
    LeaveTimer(grace, Down(grace, Step(grace, w, Tick(stay)), h, true), h)
  }

  /** Session s is about to be taken by timer h, less than the grace period after it was disconnected. */
  predicate AboutToBeCutShort(grace: nat, w: World, h: Hid, s: Sid) {
    TimerStops(w, h, s) && s in w.sessions && s in w.since && w.now < w.since[s] + grace
  }

  /**
   * A run in which a session does not get all of its grace: the timer of a handler that left
   * earlier finds the flag down again, after a second handler has left.
   */
  lemma EarlierTimerCutsGraceShort(grace: nat, s: Sid, first: Hid, second: Hid, stay: nat)
    requires first != second && 0 < stay <= grace
    ensures var w := LeaveAfter(grace, Relieved(grace, s, first, second), second, stay);
            AboutToBeCutShort(grace, LookWhenDue(grace, w, first, grace - stay), first, s)
  {
    RelievedState(grace, s, first, second);
    SecondLeaves(grace, Relieved(grace, s, first, second), s, first, second, stay);
    var w := LeaveAfter(grace, Relieved(grace, s, first, second), second, stay);
    DueTooEarly(grace, w, s, first, second, stay);
  }

  lemma DueTooEarly(grace: nat, w: World, s: Sid, first: Hid, second: Hid, stay: nat)
    requires first != second && 0 < stay <= grace && w.now == stay && s in w.sessions && s !in w.connected
    requires w.handlers == map[first := Handler(s, Closed), second := Handler(s, Closed)]
    requires w.timers == map[first := Timer(s, 0, Sleeping(grace)),
                             second := Timer(s, stay, Sleeping(stay + grace))]
    requires s in w.since && w.since[s] == stay
    ensures AboutToBeCutShort(grace, LookWhenDue(grace, w, first, grace - stay), first, s)
  {
    LooksWhenDue(grace, w, first, s, grace - stay);
  }

  lemma SecondLeaves(grace: nat, w: World, s: Sid, first: Hid, second: Hid, stay: nat)
    requires first != second && 0 < stay <= grace && w.now == 0 && s in w.sessions && s in w.connected
    requires w.handlers == map[first := Handler(s, Closed), second := Handler(s, Looping)]
    requires w.timers == map[first := Timer(s, 0, Sleeping(grace))]
    ensures var w1 := LeaveAfter(grace, w, second, stay);
            && w1.now == stay && w1.sessions == w.sessions && s !in w1.connected
            && w1.handlers == map[first := Handler(s, Closed), second := Handler(s, Closed)]
            && w1.timers == map[first := Timer(s, 0, Sleeping(grace)),
                               second := Timer(s, stay, Sleeping(stay + grace))]
            && s in w1.since && w1.since[s] == stay
  {
    var w0 := Step(grace, w, Tick(stay));
    assert w0 == w.(now := stay);
    GoesDown(grace, w0, second, s, true);
    LeavesTimer(grace, Down(grace, w0, second, true), second, s);
  }

  /**
   * A run in which a handler loses its pipeline: it is let in while a resize has the pipeline of an
   * older one down, starts its own, and the older one takes that down as it leaves.
   */
  lemma OlderHandlerTakesPipeline(grace: nat, s: Sid, older: Hid, live: Hid)
    requires older != live
    ensures var w1 := Step(grace, Connected(grace, Opened(grace, s), older, s), Restream(s, false));
            var w2 := Hand(grace, Connected(grace, w1, live, s), older);
            var w3 := Hand(grace, w2, older);
            && TakesPipeline(w2, Handle(older, true), s)
            && Streams(w3, live, s) && s !in w3.streaming && s in w3.sessions
  {
    Connects(grace, Opened(grace, s), older, s);
    var w1 := Step(grace, Connected(grace, Opened(grace, s), older, s), Restream(s, false));
    Connects(grace, w1, live, s);
    OlderTakes(grace, Connected(grace, w1, live, s), s, older, live);
  }

  lemma OlderTakes(grace: nat, w: World, s: Sid, older: Hid, live: Hid)
    requires older != live && s in w.sessions
    requires w.handlers == map[older := Handler(s, Looping), live := Handler(s, Looping)]
    ensures var w2 := Hand(grace, w, older);
            var w3 := Hand(grace, w2, older);
            && TakesPipeline(w2, Handle(older, true), s)
            && Streams(w3, live, s) && s !in w3.streaming && s in w3.sessions
  {
    var w2 := Hand(grace, w, older);
    assert w2 == At(w, older, TearingDown(false));
    assert Streams(w2, live, s);
  }
}
