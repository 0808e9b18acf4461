/**
 * Any number of threads call the operations of one `StreamSession` at the same time.
 *
 * A step is one lock-held section of one thread; between two sections of a thread any
 * other thread may take steps. A thread that is between sections is described by its
 * program counter. `Step` is total: an event that the thread's program counter does not
 * allow changes nothing, so the theorems range over every schedule.
 *
 * Besides the locked state, a `World` carries history: what was requested, which request
 * each rebuild answered, how each owner left, how often an owner moved. No branch reads the
 * history.
 */
module StreamProtocol {
  import opened Wrappers
  import opened StreamSession

  type Tid = nat

  /** Who runs `stop_webrtc`: it is shared by three operations. */
  datatype Purpose = ForReconnect | ForShutdown | ForResize(target: Size)

  datatype Pc =
    | Idle
    | BuildingCompositor            // between the two sections of start_compositor
    | Torn(purpose: Purpose)        // between the two sections of stop_webrtc
    | FinishingStop                 // between stop_webrtc and the last section of stop
    | Picking                       // owner, about to read the pending target
    | Taking(target: Size)          // owner, about to take the WebRTC resources
    | Resizing(target: Size)        // owner, about to store the new size
    | Rebuilding(target: Size)      // owner, about to start the new pipeline
    | Checking(target: Size)        // owner, closing check
    | Signalling                    // owner, about to report a failed rebuild
    | Dropping(exit: Exit, seen: nat) // owner, decided with `seen` requests recorded

  /** How an owner leaves its loop; only the first two return Ok. */
  datatype Exit = ExitSettled | ExitRebuilt | ExitNoChannel | ExitFailed

  datatype Departure = Departure(exit: Exit, seen: nat)

  /** The live pipeline: the size it was built at, and how many rebuilds had stored theirs by then. */
  datatype Pipeline = Pipeline(size: Size, rebuilds: nat)

  datatype Action =
    | CallStartCompositor
    | CallStartWebrtc(outcome: StartOutcome)
    | CallStopWebrtc
    | CallStop
    | CallChangeResolution(width: u32, height: u32)
    | CallSetErrorSender
    | Continue                           // the thread's next section
    | ContinueWith(outcome: StartOutcome) // the same, where a foreign call decides

  datatype Event = Event(tid: Tid, action: Action)

  datatype World = World(
    inner: Inner,
    pcs: map<Tid, Pc>,
    // history
    initial: Size,
    owner: Option<Tid>,
    requests: seq<Size>,
    picks: seq<nat>,       // for each rebuild, the index of the request it answers
    rebuilt: seq<Size>,    // the sizes stored by rebuilds, in order
    pipeline: Option<Pipeline>,
    departed: Option<Departure>,  // how the last owner that dropped its guard had decided
    elections: nat,
    ownerSteps: nat
  )

  function Init(size: Size): World {
    World(NewInner(size), map[], size, None, [], [], [], None, None, 0, 0)
  }

  function At(w: World, t: Tid): Pc {
    if t in w.pcs then w.pcs[t] else Idle
  }

  predicate IsOwner(pc: Pc) {
    match pc
    case Torn(ForResize(_)) => true
    case Picking => true
    case Taking(_) => true
    case Resizing(_) => true
    case Rebuilding(_) => true
    case Checking(_) => true
    case Signalling => true
    case Dropping(_, _) => true
    case _ => false
  }

  /** WebRTC resources are gone but the teardown has not finished its phase change. */
  predicate InTeardown(pc: Pc) { pc.Torn? || pc.FinishingStop? }

  ghost predicate SomeTeardownExcept(w: World, t: Tid) {
    exists u :: u != t && InTeardown(At(w, u))
  }

  // ----- steps ------------------------------------------------------------

  /** The write, if any, that a lock-held section makes to the shared state. */
  datatype Section =
    | NoWrite
    | Commit
    | Start(outcome: StartOutcome)
    | Take
    | Leave
    | Finish
    | InstallSender
    | Request(target: Size)
    | Store(target: Size)
    | Close(target: Size)
    | Signal
    | Drop

  function Apply(i: Inner, s: Section): Inner {
    match s
    case NoWrite => i
    case Commit => CommitCompositor(i)
    case Start(outcome) => StartWebrtcStep(i, outcome)
    case Take => TakeWebrtc(i)
    case Leave => LeaveStreaming(i)
    case Finish => FinishStop(i)
    case InstallSender => InstallErrorSender(i)
    case Request(target) => RecordRequestStep(i, target)
    case Store(target) => Resize(i, target)
    case Close(target) => CloseIteration(i, target)
    case Signal => SignalFailure(i)
    case Drop => DropGuard(i)
  }

  predicate Enabled(pc: Pc, action: Action) {
    match pc
    case Idle => !action.Continue? && !action.ContinueWith?
    case BuildingCompositor => action.ContinueWith?
    case Rebuilding(_) => action.ContinueWith?
    case _ => action.Continue?
  }

  /** What a thread at `pc` writes when it runs its next section. */
  function SectionOf(pc: Pc, action: Action): Section {
    if !Enabled(pc, action) then NoWrite else
      match pc
      case Idle =>
        (match action
         case CallStartWebrtc(outcome) => Start(outcome)
         case CallStopWebrtc => Take
         case CallStop => Take
         case CallSetErrorSender => InstallSender
         case CallChangeResolution(width, height) =>
           (match RequestedSize(width, height)
            case None => NoWrite
            case Some(target) => Request(target))
         case _ => NoWrite)
      case BuildingCompositor => if action.outcome.Started? then Commit else NoWrite
      case Torn(_) => Leave
      case FinishingStop => Finish
      case Picking => NoWrite
      case Taking(_) => Take
      case Resizing(target) => Store(target)
      case Rebuilding(_) => Start(action.outcome)
      case Checking(target) => Close(target)
      case Signalling => Signal
      case Dropping(_, _) => Drop
  }

  /** Where the thread is afterwards; `i` is the state it found, `n` the requests recorded so far. */
  function NextPc(pc: Pc, action: Action, i: Inner, n: nat): Pc {
    if !Enabled(pc, action) then pc else
      match pc
      case Idle =>
        (match action
         case CallStartCompositor => if i.phase == Created then BuildingCompositor else Idle
         case CallStopWebrtc => Torn(ForReconnect)
         case CallStop => Torn(ForShutdown)
         case CallChangeResolution(width, height) =>
           if RequestedSize(width, height).Some? && !i.resizeInProgress then Picking else Idle
         case _ => Idle)
      case BuildingCompositor => Idle
      case Torn(ForReconnect) => Idle
      case Torn(ForShutdown) => FinishingStop
      case Torn(ForResize(target)) => Resizing(target)
      case FinishingStop => Idle
      case Picking =>
        (match Decide(i)
         case SizeSettled => Dropping(ExitSettled, n)
         case NoChannel => Dropping(ExitNoChannel, n)
         case MustRebuild(target) => Taking(target))
      case Taking(target) => Torn(ForResize(target))
      case Resizing(target) => Rebuilding(target)
      case Rebuilding(target) =>
        if StartWebrtcSucceeds(i, action.outcome) then Checking(target) else Signalling
      case Checking(target) => if LoopEnds(i, target) then Dropping(ExitRebuilt, n) else Picking
      case Signalling => Dropping(ExitFailed, n)
      case Dropping(_, _) => Idle
  }

  function OwnerAfter(owner: Option<Tid>, t: Tid, pc: Pc, next: Pc): Option<Tid> {
    if !IsOwner(pc) && IsOwner(next) then Some(t)
    else if IsOwner(pc) && !IsOwner(next) then None
    else owner
  }

  /** A successful start builds at the size it finds; a teardown takes the pipeline away. */
  function PipelineAfter(w: World, s: Section): Option<Pipeline> {
    match s
    case Start(outcome) =>
      if StartWebrtcSucceeds(w.inner, outcome) then Some(Pipeline(w.inner.size, |w.rebuilt|)) else w.pipeline
    case Take => None
    case _ => w.pipeline
  }

  function Step(w: World, e: Event): World {
    var pc := At(w, e.tid);
    var s := SectionOf(pc, e.action);
    var next := NextPc(pc, e.action, w.inner, |w.requests|);
    World(
      Apply(w.inner, s),
      w.pcs[e.tid := next],
      w.initial,
      OwnerAfter(w.owner, e.tid, pc, next),
      if s.Request? then w.requests + [s.target] else w.requests,
      if next.Taking? && pc.Picking? && w.requests != [] then w.picks + [|w.requests| - 1] else w.picks,
      if s.Store? then w.rebuilt + [s.target] else w.rebuilt,
      PipelineAfter(w, s),
      if s.Drop? && pc.Dropping? then Some(Departure(pc.exit, pc.seen)) else w.departed,
      if pc.Idle? && next.Picking? then w.elections + 1 else w.elections,
      if IsOwner(pc) && Enabled(pc, e.action) then w.ownerSteps + 1 else w.ownerSteps
    )
  }

  function Exec(w: World, es: seq<Event>): World
    decreases |es|
  {
    if es == [] then w else Exec(Step(w, es[0]), es[1..])
  }

  // ----- the compositor -----------------------------------------------------

  ghost predicate LifecycleInv(w: World) {
    && CompositorAgrees(w.inner)
    && (w.inner.webrtc ==> !w.inner.bridgeStop)
  }

  lemma SectionsKeepLifecycle(i: Inner, s: Section)
    requires CompositorAgrees(i) && (i.webrtc ==> !i.bridgeStop)
    ensures CompositorAgrees(Apply(i, s)) && (Apply(i, s).webrtc ==> !Apply(i, s).bridgeStop)
  {
  }

  lemma LifecycleStep(w: World, e: Event)
    requires LifecycleInv(w)
    ensures LifecycleInv(Step(w, e))
  {
    SectionsKeepLifecycle(w.inner, SectionOf(At(w, e.tid), e.action));
  }

  lemma {:induction false} LifecycleRun(w: World, es: seq<Event>)
    requires LifecycleInv(w)
    ensures LifecycleInv(Exec(w, es))
    decreases |es|
  {
    if es == [] {
    } else {
      LifecycleStep(w, es[0]);
      LifecycleRun(Step(w, es[0]), es[1..]);
    }
  }

  /**
   * In every interleaving the compositor exists exactly in the phases CompositorRunning and
   * Streaming, so a start that passes its phase guard always has a compositor to bridge, and
   * a live WebRTC pipeline never runs with its stop flag raised.
   */
  lemma CompositorMatchesPhase(size: Size, es: seq<Event>)
    ensures var i := Exec(Init(size), es).inner;
            && (i.compositor <==> i.phase == CompositorRunning || i.phase == Streaming)
            && (StartWebrtcAllowed(i) ==> i.compositor)
            && (i.webrtc ==> !i.bridgeStop)
  {
    LifecycleRun(Init(size), es);
  }

  // ----- phase and WebRTC resources -----------------------------------------

  /**
   * Resources imply Streaming, Streaming without resources only occurs inside a teardown, and
   * no resources exist while a teardown is under way.
   */
  ghost predicate Agreement(w: World) {
    && (w.inner.webrtc ==> w.inner.phase == Streaming)
    && (w.inner.phase == Streaming && !w.inner.webrtc ==> exists t :: At(w, t).Torn?)
    && (forall t :: InTeardown(At(w, t)) ==> !w.inner.webrtc)
  }

  /** The guard of `start_webrtc` lets a start through while another thread tears down. */
  ghost predicate StartsInsideTeardown(w: World, e: Event) {
    var s := SectionOf(At(w, e.tid), e.action);
    s.Start? && StartWebrtcSucceeds(w.inner, s.outcome) && SomeTeardownExcept(w, e.tid)
  }

  /** A compositor is installed, and the phase set back, under a live pipeline. */
  predicate CommitsUnderStream(w: World, e: Event) {
    SectionOf(At(w, e.tid), e.action).Commit? && w.inner.webrtc
  }

  ghost predicate Breaks(w: World, e: Event) { StartsInsideTeardown(w, e) || CommitsUnderStream(w, e) }

  lemma OthersKeepPc(w: World, e: Event)
    ensures forall u :: u != e.tid ==> At(Step(w, e), u) == At(w, u)
  {
  }

  /** How a section moves a thread in and out of a teardown, seen by the phase and the resources alone. */
  lemma TeardownMoves(pc: Pc, action: Action, i: Inner, n: nat)
    ensures var next := NextPc(pc, action, i, n); var s := SectionOf(pc, action);
            && (InTeardown(next) && !InTeardown(pc) ==> s.Take?)
            && (s.Take? ==> next.Torn?)
            && (InTeardown(pc) && !pc.FinishingStop? && !next.Torn? ==> s.Leave?)
            && (s.Leave? || s.Finish? ==> InTeardown(pc))
            && (s.Finish? ==> pc.FinishingStop?)
            && (s.Start? ==> !InTeardown(pc) && !InTeardown(next))
  {
  }

  lemma StartAgrees(w: World, e: Event)
    requires Agreement(w) && SectionOf(At(w, e.tid), e.action).Start?
    ensures Agreement(Step(w, e)) <==> !StartsInsideTeardown(w, e)
  {
    var w' := Step(w, e);
    var s := SectionOf(At(w, e.tid), e.action);
    OthersKeepPc(w, e);
    TeardownMoves(At(w, e.tid), e.action, w.inner, |w.requests|);
    if StartWebrtcSucceeds(w.inner, s.outcome) {
      if StartsInsideTeardown(w, e) {
        var u :| u != e.tid && InTeardown(At(w, u));
        assert InTeardown(At(w', u)) && w'.inner.webrtc;
      } else {
        forall t ensures !InTeardown(At(w', t)) {
          assert t != e.tid ==> !InTeardown(At(w, t));
        }
      }
    } else if w'.inner.phase == Streaming && !w'.inner.webrtc {
      var t :| At(w, t).Torn?;
      assert At(w', t).Torn?;
    }
  }

  lemma TakeAgrees(w: World, e: Event)
    requires Agreement(w) && SectionOf(At(w, e.tid), e.action).Take?
    ensures Agreement(Step(w, e))
  {
    TeardownMoves(At(w, e.tid), e.action, w.inner, |w.requests|);
    assert At(Step(w, e), e.tid).Torn?;
  }

  lemma OtherAgrees(w: World, e: Event)
    requires Agreement(w)
    requires var s := SectionOf(At(w, e.tid), e.action); !s.Start? && !s.Take?
    ensures Agreement(Step(w, e)) <==> !CommitsUnderStream(w, e)
  {
    var w' := Step(w, e);
    OthersKeepPc(w, e);
    TeardownMoves(At(w, e.tid), e.action, w.inner, |w.requests|);
    if !CommitsUnderStream(w, e) && w'.inner.phase == Streaming && !w'.inner.webrtc {
      var t :| At(w, t).Torn?;
      assert At(w', t).Torn?;
    }
  }

  /** The exact condition for one section, of whatever thread, to keep phase and resources in agreement. */
  lemma AgreementKeptIff(w: World, e: Event)
    requires Agreement(w)
    ensures Agreement(Step(w, e)) <==> !Breaks(w, e)
  {
    var s := SectionOf(At(w, e.tid), e.action);
    if s.Start? {
      StartAgrees(w, e);
    } else if s.Take? {
      TakeAgrees(w, e);
    } else {
      OtherAgrees(w, e);
    }
  }

  ghost predicate AgreesThroughout(w: World, es: seq<Event>)
    decreases |es|
  {
    Agreement(w) && (es != [] ==> AgreesThroughout(Step(w, es[0]), es[1..]))
  }

  ghost predicate NothingBreaks(w: World, es: seq<Event>)
    decreases |es|
  {
    es != [] ==> !Breaks(w, es[0]) && NothingBreaks(Step(w, es[0]), es[1..])
  }

  lemma {:induction false} AgreesThroughoutIff(w: World, es: seq<Event>)
    requires Agreement(w)
    ensures AgreesThroughout(w, es) <==> NothingBreaks(w, es)
    decreases |es|
  {
    if es == [] {
    } else {
      AgreementKeptIff(w, es[0]);
      if Agreement(Step(w, es[0])) {
        AgreesThroughoutIff(Step(w, es[0]), es[1..]);
      }
    }
  }

  lemma {:induction false} AgreesAtTheEnd(w: World, es: seq<Event>)
    requires AgreesThroughout(w, es)
    ensures Agreement(Exec(w, es))
    decreases |es|
  {
    if es == [] {
    } else {
      AgreesAtTheEnd(Step(w, es[0]), es[1..]);
    }
  }

  /**
   * At lock granularity: a run keeps phase and resources in agreement all along if and only if
   * no start is let through inside another thread's teardown and no compositor is installed
   * under a live pipeline. Then WebRTC resources exist exactly while the phase is Streaming, at
   * every point outside the window between the two sections of `stop_webrtc`; inside that
   * window they never exist.
   */
  lemma WebrtcMatchesPhase(size: Size, es: seq<Event>)
    ensures AgreesThroughout(Init(size), es) <==> NothingBreaks(Init(size), es)
    ensures NothingBreaks(Init(size), es) ==>
              var w := Exec(Init(size), es);
              && ((forall t :: !At(w, t).Torn?) ==> WebrtcAgrees(w.inner))
              && ((exists t :: At(w, t).Torn?) ==> !w.inner.webrtc)
  {
    AgreesThroughoutIff(Init(size), es);
    if NothingBreaks(Init(size), es) {
      AgreesAtTheEnd(Init(size), es);
    }
  }

  /** A session whose compositor thread t has built and installed, nothing else having happened yet. */
  function Launched(size: Size, t: Tid): World {
    Step(Step(Init(size), Event(t, CallStartCompositor)), Event(t, ContinueWith(Started)))
  }

  lemma LaunchedState(size: Size, t: Tid)
    ensures Launched(size, t).inner == CommitCompositor(NewInner(size))
    ensures forall u :: At(Launched(size, t), u) == Idle
    ensures Launched(size, t).owner == None && Launched(size, t).requests == [] && Launched(size, t).picks == []
    ensures Launched(size, t).initial == size && Launched(size, t).rebuilt == [] && Launched(size, t).pipeline == None
  {
    var w1 := Step(Init(size), Event(t, CallStartCompositor));
    assert At(w1, t) == BuildingCompositor && w1.inner == NewInner(size);
  }

  /**
   * Each of the two causes leads to a stream running outside Streaming. A stop and a new viewer
   * that race: the start is let through before the last section of `stop`, which then leaves a
   * stopped session with a pipeline.
   */
  lemma StartInsideStopLeaksPipeline(size: Size, t: Tid, u: Tid)
    requires t != u
    ensures var w1 := Step(Step(Launched(size, t), Event(t, CallStop)), Event(t, Continue));
            var e := Event(u, CallStartWebrtc(Started));
            var w3 := Step(Step(w1, e), Event(t, Continue));
            && StartsInsideTeardown(w1, e)
            && w3.inner.webrtc && w3.inner.phase == Stopped && At(w3, t) == At(w3, u) == Idle
  {
    LaunchedState(size, t);
    var w0 := Step(Launched(size, t), Event(t, CallStop));
    assert At(w0, t) == Torn(ForShutdown) && At(w0, u) == Idle;
    var w1 := Step(w0, Event(t, Continue));
    assert At(w1, t) == FinishingStop && At(w1, u) == Idle && InTeardown(At(w1, t));
    var w2 := Step(w1, Event(u, CallStartWebrtc(Started)));
    assert At(w2, t) == FinishingStop && w2.inner.webrtc;
  }

  /** In any state: the teardown that was entered does end with resources outside Streaming. */
  lemma StartInsideTeardownBreaksAgreement(w: World, t: Tid, u: Tid)
    requires InTeardown(At(w, t)) && u != t && At(w, u) == Idle
    requires StartWebrtcAllowed(w.inner)
    ensures var w1 := Step(w, Event(u, CallStartWebrtc(Started)));
            && StartsInsideTeardown(w, Event(u, CallStartWebrtc(Started)))
            && Step(w1, Event(t, Continue)).inner.webrtc
            && Step(w1, Event(t, Continue)).inner.phase != Streaming
  {
    assert SomeTeardownExcept(w, u);
  }

  /**
   * Two threads that build the compositor at the same time both install theirs, and if a stream
   * was started in between, the second install takes the phase away from under it.
   */
  lemma ConcurrentCompositorBuildsBreakAgreement(size: Size, t: Tid, u: Tid)
    requires t != u
    ensures var w1 := Step(Init(size), Event(t, CallStartCompositor));
            var w2 := Step(w1, Event(u, CallStartCompositor));
            var w3 := Step(w2, Event(t, ContinueWith(Started)));
            var w4 := Step(w3, Event(t, CallStartWebrtc(Started)));
            var w5 := Step(w4, Event(u, ContinueWith(Started)));
            && CommitsUnderStream(w4, Event(u, ContinueWith(Started)))
            && w5.inner.webrtc && w5.inner.phase == CompositorRunning
            && At(w5, t) == At(w5, u) == Idle
  {
    var w1 := Step(Init(size), Event(t, CallStartCompositor));
    assert At(w1, t) == BuildingCompositor && At(w1, u) == Idle && w1.inner == NewInner(size);
    var w2 := Step(w1, Event(u, CallStartCompositor));
    assert At(w2, t) == At(w2, u) == BuildingCompositor && w2.inner == NewInner(size);
    var w3 := Step(w2, Event(t, ContinueWith(Started)));
    assert At(w3, t) == Idle && At(w3, u) == BuildingCompositor && w3.inner.phase == CompositorRunning;
    var w4 := Step(w3, Event(t, CallStartWebrtc(Started)));
    assert At(w4, t) == Idle && At(w4, u) == BuildingCompositor && w4.inner.webrtc;
  }

  // ----- the phase Stopped ----------------------------------------------------

  /** Exactly one kind of section leaves the phase Stopped: a compositor begun earlier. */
  lemma StoppedIsLeftOnlyByLateCompositor(w: World, e: Event)
    requires w.inner.phase == Stopped
    ensures Step(w, e).inner.phase != Stopped
            <==> At(w, e.tid) == BuildingCompositor && e.action == ContinueWith(Started)
  {
    OnlyCommitLeavesStopped(w.inner, SectionOf(At(w, e.tid), e.action));
    CommitsComeFromBuilders(At(w, e.tid), e.action);
  }

  lemma OnlyCommitLeavesStopped(i: Inner, s: Section)
    requires i.phase == Stopped
    ensures Apply(i, s).phase != Stopped <==> s.Commit?
  {
  }

  lemma CommitsComeFromBuilders(pc: Pc, action: Action)
    ensures SectionOf(pc, action).Commit? <==> pc == BuildingCompositor && action == ContinueWith(Started)
  {
  }

  ghost predicate NobodyBuilds(w: World) { forall t :: At(w, t) != BuildingCompositor }

  lemma NoNewBuilder(pc: Pc, action: Action, i: Inner, n: nat)
    requires i.phase != Created
    ensures NextPc(pc, action, i, n) == BuildingCompositor ==> pc == BuildingCompositor
  {
  }

  lemma NoSectionLeadsBack(i: Inner, s: Section)
    requires i.phase != Created
    ensures Apply(i, s).phase != Created
  {
  }

  /** Once the phase has left Created, nobody begins to build a compositor, and nothing leads back. */
  lemma BuildersOnlyFinish(w: World, e: Event)
    requires w.inner.phase != Created
    ensures Step(w, e).inner.phase != Created
    ensures forall t :: At(Step(w, e), t) == BuildingCompositor ==> At(w, t) == BuildingCompositor
  {
    OthersKeepPc(w, e);
    NoNewBuilder(At(w, e.tid), e.action, w.inner, |w.requests|);
    NoSectionLeadsBack(w.inner, SectionOf(At(w, e.tid), e.action));
  }

  lemma {:induction false} NobodyEverBuilds(w: World, es: seq<Event>)
    requires w.inner.phase != Created && NobodyBuilds(w)
    ensures Exec(w, es).inner.phase != Created && NobodyBuilds(Exec(w, es))
    decreases |es|
  {
    if es == [] {
    } else {
      BuildersOnlyFinish(w, es[0]);
      NobodyEverBuilds(Step(w, es[0]), es[1..]);
    }
  }

  lemma {:induction false} StoppedStays(w: World, es: seq<Event>)
    requires w.inner.phase == Stopped && NobodyBuilds(w)
    ensures Exec(w, es).inner.phase == Stopped
    decreases |es|
  {
    if es == [] {
    } else {
      StoppedIsLeftOnlyByLateCompositor(w, es[0]);
      BuildersOnlyFinish(w, es[0]);
      StoppedStays(Step(w, es[0]), es[1..]);
    }
  }

  /** A stop is final, whatever follows, if and only if no thread is still building the compositor. */
  lemma StoppedIsFinalIffNobodyBuilds(w: World)
    requires w.inner.phase == Stopped
    ensures (forall es :: Exec(w, es).inner.phase == Stopped) <==> NobodyBuilds(w)
  {
    if NobodyBuilds(w) {
      forall es ensures Exec(w, es).inner.phase == Stopped {
        StoppedStays(w, es);
      }
    } else {
      var t :| At(w, t) == BuildingCompositor;
      var e := Event(t, ContinueWith(Started));
      StoppedIsLeftOnlyByLateCompositor(w, e);
      assert Exec(w, [e]) == Exec(Step(w, e), []);
      assert Exec(w, [e]).inner.phase != Stopped;
    }
  }

  /** A run in which it is not: a stop while thread t still builds is undone as soon as t commits. */
  lemma StopDuringCompositorBuildIsUndone(size: Size, t: Tid, u: Tid)
    requires t != u
    ensures var w0 := Step(Init(size), Event(t, CallStartCompositor));
            var w1 := Step(Step(w0, Event(u, CallStop)), Event(u, Continue));
            var w2 := Step(w1, Event(u, Continue));
            var w3 := Step(w2, Event(t, ContinueWith(Started)));
            && w2.inner.phase == Stopped && At(w2, u) == Idle
            && w3.inner.phase == CompositorRunning && w3.inner.compositor
  {
    var w0 := Step(Init(size), Event(t, CallStartCompositor));
    assert At(w0, t) == BuildingCompositor && At(w0, u) == Idle;
    var w1 := Step(w0, Event(u, CallStop));
    assert At(w1, u) == Torn(ForShutdown) && At(w1, t) == BuildingCompositor;
    var w1' := Step(w1, Event(u, Continue));
    assert At(w1', u) == FinishingStop && At(w1', t) == BuildingCompositor;
    var w2 := Step(w1', Event(u, Continue));
    assert At(w2, u) == Idle && At(w2, t) == BuildingCompositor;
  }

  /**
   * As the server uses a session, the thread that builds the compositor has finished before any
   * other gets hold of the session. From there on, over every run: a stop is final, and only a
   * start inside a teardown can break the agreement of phase and resources.
   */
  lemma OnceLaunchedStopsAreFinal(size: Size, t: Tid, es: seq<Event>, more: seq<Event>, e: Event)
    ensures var w := Exec(Launched(size, t), es);
            && (w.inner.phase == Stopped ==> Exec(w, more).inner.phase == Stopped)
            && (Breaks(w, e) <==> StartsInsideTeardown(w, e))
  {
    LaunchedState(size, t);
    NobodyEverBuilds(Launched(size, t), es);
    var w := Exec(Launched(size, t), es);
    if w.inner.phase == Stopped {
      StoppedStays(w, more);
    }
    CommitsComeFromBuilders(At(w, e.tid), e.action);
  }

  // ----- resize coalescing --------------------------------------------------

  ghost predicate OwnerInv(w: World) {
    && (forall t: Tid :: IsOwner(At(w, t)) <==> w.owner == Some(t))
    && (w.inner.resizeInProgress <==> w.owner.Some?)
  }

  predicate PicksIncrease(rs: seq<Size>, picks: seq<nat>) {
    && (forall k :: 0 <= k < |picks| ==> picks[k] < |rs|)
    && (forall j, k :: 0 <= j < k < |picks| ==> picks[j] < picks[k])
  }

  function Last<T>(s: seq<T>): T
    requires s != []
  {
    s[|s| - 1]
  }

  /** A request has come in since the last rebuild began. */
  predicate FreshRequest(rs: seq<Size>, picks: seq<nat>) {
    rs != [] && (picks != [] ==> Last(picks) < |rs| - 1)
  }

  /** The latest rebuild is the answer to a request for `target`. */
  predicate Answering(rs: seq<Size>, picks: seq<nat>, target: Size) {
    picks != [] && Last(picks) < |rs| && rs[Last(picks)] == target
  }

  predicate PendingIsLatest(i: Inner, rs: seq<Size>) {
    rs != [] && i.pendingTarget == Some(Last(rs))
  }

  /** What holds of an owner at each of its sections. */
  predicate OwnerAt(i: Inner, rs: seq<Size>, picks: seq<nat>, pc: Pc) {
    match pc
    case Picking => PendingIsLatest(i, rs) && FreshRequest(rs, picks)
    case Taking(target) => PendingIsLatest(i, rs) && Answering(rs, picks, target)
    case Torn(ForResize(target)) => PendingIsLatest(i, rs) && Answering(rs, picks, target)
    case Resizing(target) => PendingIsLatest(i, rs) && Answering(rs, picks, target)
    case Rebuilding(target) => PendingIsLatest(i, rs) && Answering(rs, picks, target) && i.size == target
    case Checking(target) => PendingIsLatest(i, rs) && Answering(rs, picks, target) && i.size == target
    case Signalling => PendingIsLatest(i, rs)
    case Dropping(exit, seen) => LeftWith(i, rs, Departure(exit, seen))
    case _ => true
  }

  /** What an owner's decision says about the latest request it saw, as long as the size stands. */
  predicate LeftWith(i: Inner, rs: seq<Size>, d: Departure) {
    && 0 < d.seen <= |rs|
    && (d.exit == ExitSettled ==> Near(rs[d.seen - 1], i.size))
    && (d.exit == ExitRebuilt ==> rs[d.seen - 1] == i.size)
    && (d.exit == ExitNoChannel ==> !Near(rs[d.seen - 1], i.size))
  }

  /** With nobody at work, the last owner's decision still stands. */
  predicate RestInv(w: World) {
    w.owner == None && w.requests != [] ==> w.departed.Some? && LeftWith(w.inner, w.requests, w.departed.value)
  }

  /** An owner has picked a request and not yet stored its size. */
  predicate AboutToStore(pc: Pc) {
    match pc
    case Taking(_) => true
    case Torn(ForResize(_)) => true
    case Resizing(_) => true
    case _ => false
  }

  /** The size in force when no rebuild is between its pick and its store. */
  function InForce(initial: Size, rebuilt: seq<Size>): Size {
    if rebuilt == [] then initial else Last(rebuilt)
  }

  /** Rebuild k stores the size of the request it picked. */
  predicate RebuiltFrom(rs: seq<Size>, picks: seq<nat>, rebuilt: seq<Size>) {
    |rebuilt| <= |picks|
    && forall k :: 0 <= k < |rebuilt| ==> picks[k] < |rs| && rebuilt[k] == rs[picks[k]]
  }

  /** The lag between picks and stored sizes is that of the owner between its pick and its store. */
  predicate LagInv(w: World) {
    |w.picks| == |w.rebuilt| + if w.owner.Some? && AboutToStore(At(w, w.owner.value)) then 1 else 0
  }

  predicate RebuiltInv(w: World) {
    && RebuiltFrom(w.requests, w.picks, w.rebuilt)
    && LagInv(w)
    && w.inner.size == InForce(w.initial, w.rebuilt)
  }

  /** Sections an owner may still run without a new pick, an upper bound. */
  function Slack(pc: Pc): nat {
    match pc
    case Picking => 2
    case Taking(_) => 7
    case Torn(_) => 6
    case Resizing(_) => 5
    case Rebuilding(_) => 4
    case Checking(_) => 3
    case Signalling => 2
    case Dropping(_, _) => 1
    case _ => 0
  }

  function OwnerSlack(w: World): nat {
    if w.owner.Some? then Slack(At(w, w.owner.value)) else 0
  }

  predicate BudgetInv(w: World) {
    && w.ownerSteps + OwnerSlack(w) <= 6 * |w.picks| + 2 * w.elections
    && w.elections <= |w.requests|
  }

  ghost predicate TargetInv(w: World) {
    && (forall k :: 0 <= k < |w.requests| ==> InRange(w.requests[k]))
    && PicksIncrease(w.requests, w.picks)
    && (w.owner.Some? ==> OwnerAt(w.inner, w.requests, w.picks, At(w, w.owner.value)))
    && (w.inner.size == w.initial || InRange(w.inner.size))
  }

  ghost predicate ResizeInv(w: World) {
    OwnerInv(w) && TargetInv(w) && BudgetInv(w) && RestInv(w) && RebuiltInv(w)
  }

  /** How a section moves a thread in and out of ownership, and the flag with it. */
  lemma OwnershipMoves(pc: Pc, action: Action, i: Inner, n: nat)
    ensures var next := NextPc(pc, action, i, n); var s := SectionOf(pc, action);
            && (IsOwner(next) && !IsOwner(pc) <==> s.Request? && !i.resizeInProgress)
            && (IsOwner(next) && !IsOwner(pc) ==> pc.Idle? && next.Picking?)
            && (IsOwner(pc) && !IsOwner(next) <==> s.Drop?)
            && (Apply(i, s).resizeInProgress <==> !s.Drop? && (s.Request? || i.resizeInProgress))
            && (s.Request? ==> pc.Idle?)
            && (next.Picking? && pc.Idle? ==> s.Request?)
  {
  }

  lemma OwnerInvStep(w: World, e: Event)
    requires OwnerInv(w)
    ensures OwnerInv(Step(w, e))
  {
    OthersKeepPc(w, e);
    OwnershipMoves(At(w, e.tid), e.action, w.inner, |w.requests|);
  }

  /** The owner's own sections. */
  lemma OwnerAtNext(i: Inner, rs: seq<Size>, picks: seq<nat>, pc: Pc, action: Action)
    requires IsOwner(pc) && OwnerAt(i, rs, picks, pc)
    ensures var next := NextPc(pc, action, i, |rs|);
            var picks' := if next.Taking? && pc.Picking? && rs != [] then picks + [|rs| - 1] else picks;
            IsOwner(next) ==> OwnerAt(Apply(i, SectionOf(pc, action)), rs, picks', next)
  {
    if Enabled(pc, action) {
      match pc
      case Picking =>
      case Checking(target) =>
        assert LoopEnds(i, target) <==> Last(rs) == target;
      case _ =>
    }
  }

  /** Sections of threads that do not own the rebuild leave what the owner relies on in place. */
  lemma OthersKeepOwnerAt(i: Inner, rs: seq<Size>, picks: seq<nat>, pc: Pc, s: Section)
    requires OwnerAt(i, rs, picks, pc)
    requires !s.Store? && !s.Close? && !s.Drop? && !s.Request?
    ensures OwnerAt(Apply(i, s), rs, picks, pc)
  {
  }

  lemma RequestKeepsOwnerAt(i: Inner, rs: seq<Size>, picks: seq<nat>, pc: Pc, target: Size)
    requires OwnerAt(i, rs, picks, pc)
    ensures OwnerAt(Apply(i, Request(target)), rs + [target], picks, pc)
  {
  }

  /** Only the owner stores a size, clears the target or drops the guard. */
  lemma WritesOfOthers(pc: Pc, action: Action)
    requires !IsOwner(pc)
    ensures var s := SectionOf(pc, action);
            && !s.Store? && !s.Close? && !s.Drop?
            && (s.Request? ==> InRange(s.target))
  {
  }

  lemma OnlyStoreResizes(i: Inner, s: Section)
    ensures Apply(i, s).size == if s.Store? then s.target else i.size
  {
  }

  lemma StoresComeFromOwner(pc: Pc, action: Action)
    ensures SectionOf(pc, action).Store? ==> pc == Resizing(SectionOf(pc, action).target)
  {
  }

  /** A stored size is one that was requested. */
  lemma SizesStored(i: Inner, rs: seq<Size>, picks: seq<nat>, pc: Pc, action: Action)
    requires IsOwner(pc) ==> OwnerAt(i, rs, picks, pc)
    requires forall k :: 0 <= k < |rs| ==> InRange(rs[k])
    ensures var j := Apply(i, SectionOf(pc, action)); j.size == i.size || InRange(j.size)
  {
    var s := SectionOf(pc, action);
    OnlyStoreResizes(i, s);
    StoresComeFromOwner(pc, action);
    if s.Store? {
      assert Answering(rs, picks, s.target);
    }
  }

  lemma PicksStep(w: World, e: Event)
    requires OwnerInv(w) && TargetInv(w)
    ensures PicksIncrease(Step(w, e).requests, Step(w, e).picks)
  {
    var pc := At(w, e.tid);
    assert IsOwner(pc) ==> w.owner == Some(e.tid);
    assert pc.Picking? ==> FreshRequest(w.requests, w.picks);
  }

  lemma TargetInvStep(w: World, e: Event)
    requires OwnerInv(w) && TargetInv(w)
    ensures TargetInv(Step(w, e))
  {
    var t, pc := e.tid, At(w, e.tid);
    var s := SectionOf(pc, e.action);
    var w' := Step(w, e);
    OwnerInvStep(w, e);
    PicksStep(w, e);
    OwnershipMoves(pc, e.action, w.inner, |w.requests|);
    SizesStored(w.inner, w.requests, w.picks, pc, e.action);
    if IsOwner(pc) {
      OwnerAtNext(w.inner, w.requests, w.picks, pc, e.action);
    } else {
      WritesOfOthers(pc, e.action);
      if w.owner.Some? {
        OthersKeepPc(w, e);
        if s.Request? {
          RequestKeepsOwnerAt(w.inner, w.requests, w.picks, At(w, w.owner.value), s.target);
        } else {
          OthersKeepOwnerAt(w.inner, w.requests, w.picks, At(w, w.owner.value), s);
        }
      }
    }
  }

  /** Every section of an owner is paid for by the slack, a new pick or an election. */
  lemma SlackPays(pc: Pc, action: Action, i: Inner, n: nat)
    requires Enabled(pc, action) && IsOwner(pc)
    requires pc.Picking? ==> n > 0
    ensures var next := NextPc(pc, action, i, n);
            1 + (if IsOwner(next) then Slack(next) else 0)
              <= Slack(pc) + (if next.Taking? && pc.Picking? then 6 else 0)
  {
  }

  lemma BudgetStep(w: World, e: Event)
    requires OwnerInv(w) && TargetInv(w) && BudgetInv(w)
    ensures BudgetInv(Step(w, e))
  {
    var pc := At(w, e.tid);
    OthersKeepPc(w, e);
    OwnerInvStep(w, e);
    OwnershipMoves(pc, e.action, w.inner, |w.requests|);
    if IsOwner(pc) {
      if Enabled(pc, e.action) {
        SlackPays(pc, e.action, w.inner, |w.requests|);
      }
    }
  }

  /** A decision stands until the next owner is elected: the drop itself changes no size. */
  lemma RestStep(w: World, e: Event)
    requires OwnerInv(w) && TargetInv(w) && RestInv(w)
    ensures RestInv(Step(w, e))
  {
    var pc := At(w, e.tid);
    OwnerInvStep(w, e);
    OwnershipMoves(pc, e.action, w.inner, |w.requests|);
    OnlyStoreResizes(w.inner, SectionOf(pc, e.action));
    if !IsOwner(pc) {
      WritesOfOthers(pc, e.action);
    }
  }

  /** How a section moves a thread between its pick and its store. */
  lemma StoreMoves(pc: Pc, action: Action, i: Inner, n: nat)
    ensures var next := NextPc(pc, action, i, n); var s := SectionOf(pc, action);
            && (AboutToStore(next) && !AboutToStore(pc) <==> pc.Picking? && next.Taking?)
            && (AboutToStore(pc) && !AboutToStore(next) <==> s.Store?)
            && (AboutToStore(pc) ==> IsOwner(pc)) && (AboutToStore(next) ==> IsOwner(next))
  {
  }

  /** Storing the size that was picked. */
  lemma StoreRebuilds(rs: seq<Size>, picks: seq<nat>, rebuilt: seq<Size>, target: Size)
    requires RebuiltFrom(rs, picks, rebuilt) && |picks| == |rebuilt| + 1 && Answering(rs, picks, target)
    ensures RebuiltFrom(rs, picks, rebuilt + [target])
  {
  }

  lemma HistoryGrows(w: World, e: Event)
    ensures w.requests <= Step(w, e).requests && w.picks <= Step(w, e).picks
    ensures Step(w, e).initial == w.initial
  {
  }

  lemma LongerHistoryRebuilds(rs: seq<Size>, picks: seq<nat>, rs': seq<Size>, picks': seq<nat>, rebuilt: seq<Size>)
    requires RebuiltFrom(rs, picks, rebuilt) && rs <= rs' && picks <= picks'
    ensures RebuiltFrom(rs', picks', rebuilt)
  {
    assert forall k :: 0 <= k < |rebuilt| ==> picks'[k] == picks[k] && rs'[picks[k]] == rs[picks[k]];
  }

  lemma StoreStep(w: World, e: Event)
    requires OwnerInv(w) && TargetInv(w) && RebuiltInv(w)
    requires SectionOf(At(w, e.tid), e.action).Store?
    ensures RebuiltInv(Step(w, e))
  {
    var target := SectionOf(At(w, e.tid), e.action).target;
    StoresComeFromOwner(At(w, e.tid), e.action);
    assert w.owner == Some(e.tid);
    StoreRebuilds(w.requests, w.picks, w.rebuilt, target);
    assert At(Step(w, e), e.tid) == Rebuilding(target);
  }

  lemma LagStep(w: World, e: Event)
    requires OwnerInv(w) && TargetInv(w) && LagInv(w)
    requires !SectionOf(At(w, e.tid), e.action).Store?
    ensures LagInv(Step(w, e))
  {
    var pc := At(w, e.tid);
    OthersKeepPc(w, e);
    OwnershipMoves(pc, e.action, w.inner, |w.requests|);
    StoreMoves(pc, e.action, w.inner, |w.requests|);
    assert IsOwner(pc) <==> w.owner == Some(e.tid);
  }

  lemma RebuiltStep(w: World, e: Event)
    requires OwnerInv(w) && TargetInv(w) && RebuiltInv(w)
    ensures RebuiltInv(Step(w, e))
  {
    if SectionOf(At(w, e.tid), e.action).Store? {
      StoreStep(w, e);
    } else {
      LagStep(w, e);
      HistoryGrows(w, e);
      LongerHistoryRebuilds(w.requests, w.picks, Step(w, e).requests, Step(w, e).picks, w.rebuilt);
      OnlyStoreResizes(w.inner, SectionOf(At(w, e.tid), e.action));
    }
  }

  lemma ResizeStep(w: World, e: Event)
    requires ResizeInv(w)
    ensures ResizeInv(Step(w, e))
  {
    RestStep(w, e);
    RebuiltStep(w, e);
    OwnerInvStep(w, e);
    TargetInvStep(w, e);
    BudgetStep(w, e);
  }

  lemma {:induction false} ResizeRun(w: World, es: seq<Event>)
    requires ResizeInv(w)
    ensures ResizeInv(Exec(w, es))
    decreases |es|
  {
    if es == [] {
    } else {
      ResizeStep(w, es[0]);
      ResizeRun(Step(w, es[0]), es[1..]);
    }
  }

  /**
   * Leader election. In every interleaving of any number of calls: at most one thread owns
   * the rebuild, the flag is up exactly while one does, and until the owner has decided to
   * leave, the pending target is there and is the latest request.
   */
  lemma AtMostOneOwner(size: Size, es: seq<Event>)
    ensures var w := Exec(Init(size), es);
            && (forall t, u :: IsOwner(At(w, t)) && IsOwner(At(w, u)) ==> t == u)
            && (w.inner.resizeInProgress <==> exists t :: IsOwner(At(w, t)))
            && (forall t :: IsOwner(At(w, t)) && !At(w, t).Dropping? ==> PendingIsLatest(w.inner, w.requests))
  {
    ResizeRun(Init(size), es);
    var w := Exec(Init(size), es);
    if w.owner.Some? {
      assert IsOwner(At(w, w.owner.value));
    }
  }

  /** Both places where the owner finds no pending target and returns are unreachable. */
  lemma PendingTargetIsNeverMissing(size: Size, es: seq<Event>, t: Tid)
    requires At(Exec(Init(size), es), t).Picking? || At(Exec(Init(size), es), t).Checking?
    ensures Exec(Init(size), es).inner.pendingTarget.Some?
  {
    AtMostOneOwner(size, es);
    assert IsOwner(At(Exec(Init(size), es), t));
  }

  /**
   * Each rebuild stores the size of a request of its own, newer than that of the one before:
   * rebuilds never outnumber requests, over any run, and the size in force is that of the last.
   */
  lemma RebuildsAreChargedToNewRequests(size: Size, es: seq<Event>)
    ensures var w := Exec(Init(size), es);
            && |w.rebuilt| <= |w.picks|
            && (forall k :: 0 <= k < |w.rebuilt| ==>
                  w.picks[k] < |w.requests| && w.rebuilt[k] == w.requests[w.picks[k]])
            && w.inner.size == InForce(size, w.rebuilt)
            && (forall j, k :: 0 <= j < k < |w.picks| ==> w.picks[j] < w.picks[k])
            && (forall k :: 0 <= k < |w.picks| ==> w.picks[k] < |w.requests|)
            && |w.picks| <= |w.requests|
  {
    ResizeRun(Init(size), es);
    var w := Exec(Init(size), es);
    IncreasingIsShort(w.picks, |w.requests|);
    InitialSizeIsKept(Init(size), es);
  }

  lemma {:induction false} IncreasingIsShort(s: seq<nat>, bound: nat)
    requires forall j, k :: 0 <= j < k < |s| ==> s[j] < s[k]
    requires forall k :: 0 <= k < |s| ==> s[k] < bound
    ensures |s| <= bound
    decreases |s|
  {
    if s == [] {
    } else {
      var last := s[|s| - 1];
      IncreasingIsShort(s[..|s| - 1], last);
    }
  }

  /**
   * Termination: the sections all owners together run, over any run, number at most eight
   * per request, so with finitely many requests every owner's loop comes to its end.
   */
  lemma OwnersTerminate(size: Size, es: seq<Event>)
    ensures Exec(Init(size), es).ownerSteps <= 8 * |Exec(Init(size), es).requests|
  {
    ResizeRun(Init(size), es);
    RebuildsAreChargedToNewRequests(size, es);
  }

  /** An owner never gets stuck: its next section is always enabled and always counted. */
  lemma OwnerMoves(w: World, t: Tid, outcome: StartOutcome)
    requires IsOwner(At(w, t))
    ensures var action := if At(w, t).Rebuilding? then ContinueWith(outcome) else Continue;
            Step(w, Event(t, action)).ownerSteps == w.ownerSteps + 1
  {
  }

  /**
   * The installed listener hears of an error exactly from the section that follows a start the
   * owner did not get, and a sender that is installed anew has heard nothing.
   */
  lemma FailuresAreReportedExactly(w: World, e: Event)
    ensures var pc, w' := At(w, e.tid), Step(w, e);
            && w'.inner.errorSent == (if pc == Signalling && e.action == Continue && w.inner.errorSent.Some?
                                      then Some(true)
                                      else if pc == Idle && e.action == CallSetErrorSender then Some(false)
                                      else w.inner.errorSent)
            && (At(w', e.tid) == Signalling && pc != Signalling)
               == (pc.Rebuilding? && e.action.ContinueWith? && !StartWebrtcSucceeds(w.inner, e.action.outcome))
            && (At(w', e.tid).Dropping? && At(w', e.tid).exit == ExitFailed && !pc.Dropping? ==> pc == Signalling)
  {
  }

  /**
   * An owner that is about to return Ok leaves a stream size within 8 px per axis of the
   * latest of the `seen` requests recorded when it took that decision; and every size ever
   * in force is the initial one or an even size in range.
   */
  lemma OwnerServesLatestRequest(size: Size, es: seq<Event>, t: Tid)
    ensures var w := Exec(Init(size), es);
            && (w.inner.size == size || InRange(w.inner.size))
            && (ReturnsOk(At(w, t)) ==> SizeServes(w, At(w, t).seen))
  {
    ResizeRun(Init(size), es);
    InitialSizeIsKept(Init(size), es);
    if ReturnsOk(At(Exec(Init(size), es), t)) {
      DecisionServes(Exec(Init(size), es), t);
    }
  }

  predicate ReturnsOk(pc: Pc) { pc.Dropping? && (pc.exit == ExitSettled || pc.exit == ExitRebuilt) }

  /** The size in force is within 8 px of the latest of the first `seen` requests. */
  predicate SizeServes(w: World, seen: nat) {
    0 < seen <= |w.requests| && Near(w.requests[seen - 1], w.inner.size)
  }

  lemma DecisionServes(w: World, t: Tid)
    requires OwnerInv(w) && TargetInv(w) && ReturnsOk(At(w, t))
    ensures SizeServes(w, At(w, t).seen)
  {
    assert IsOwner(At(w, t)) && w.owner == Some(t);
  }

  lemma {:induction false} InitialSizeIsKept(w: World, es: seq<Event>)
    ensures Exec(w, es).initial == w.initial
    decreases |es|
  {
    if es == [] {
    } else {
      InitialSizeIsKept(Step(w, es[0]), es[1..]);
    }
  }

  /**
   * `seen` is taken at the owner's decision: the deciding section records every request so far.
   * An owner satisfied with its rebuild has consumed the pending target.
   */
  lemma DecisionSeesEveryRequest(w: World, e: Event)
    requires At(Step(w, e), e.tid).Dropping? && !At(w, e.tid).Dropping?
    ensures At(Step(w, e), e.tid).seen == |Step(w, e).requests| == |w.requests|
    ensures At(Step(w, e), e.tid).exit == ExitRebuilt ==> Step(w, e).inner.pendingTarget == None
  {
  }

  // ----- the pipeline that runs ------------------------------------------------

  /** Whatever pipeline is live was built at the size in force. */
  predicate Fits(w: World) { w.pipeline.Some? ==> w.pipeline.value.size == w.inner.size }

  /** A rebuild stores its size while a pipeline built at another one is live. */
  predicate Misfits(w: World, e: Event) {
    var s := SectionOf(At(w, e.tid), e.action);
    s.Store? && w.pipeline.Some? && s.target != w.pipeline.value.size
  }

  /** The exact condition for a section to keep size and pipeline together. */
  lemma FitKeptIff(w: World, e: Event)
    requires Fits(w)
    ensures Fits(Step(w, e)) <==> !Misfits(w, e)
  {
    OnlyStoreResizes(w.inner, SectionOf(At(w, e.tid), e.action));
  }

  predicate FitsThroughout(w: World, es: seq<Event>)
    decreases |es|
  {
    Fits(w) && (es != [] ==> FitsThroughout(Step(w, es[0]), es[1..]))
  }

  predicate NothingMisfits(w: World, es: seq<Event>)
    decreases |es|
  {
    es != [] ==> !Misfits(w, es[0]) && NothingMisfits(Step(w, es[0]), es[1..])
  }

  lemma {:induction false} FitsThroughoutIff(w: World, es: seq<Event>)
    requires Fits(w)
    ensures FitsThroughout(w, es) <==> NothingMisfits(w, es)
    ensures NothingMisfits(w, es) ==> Fits(Exec(w, es))
    decreases |es|
  {
    if es != [] {
      FitKeptIff(w, es[0]);
      if Fits(Step(w, es[0])) {
        FitsThroughoutIff(Step(w, es[0]), es[1..]);
      }
    }
  }

  /**
   * Over every run: the live pipeline is one that was built at the size in force, all along,
   * exactly if no rebuild ever stores its size under a pipeline another thread has started after
   * the rebuild's own teardown.
   */
  lemma PipelineFitsIff(size: Size, es: seq<Event>)
    ensures FitsThroughout(Init(size), es) <==> NothingMisfits(Init(size), es)
    ensures NothingMisfits(Init(size), es) ==> Fits(Exec(Init(size), es))
  {
    FitsThroughoutIff(Init(size), es);
  }

  /** The request the pipeline was built for, or the initial size if no rebuild had stored one yet. */
  predicate BuiltInv(w: World) {
    && (w.pipeline.Some? <==> w.inner.webrtc)
    && (w.pipeline.Some? ==>
          w.pipeline.value.rebuilds <= |w.rebuilt|
          && w.pipeline.value.size == InForce(w.initial, w.rebuilt[..w.pipeline.value.rebuilds]))
  }

  /** An owner whose own rebuild has come up, and a session such an owner has left, run what they store. */
  predicate OwnFits(w: World) {
    && (w.owner.Some? ==> OwnFitsAt(w, At(w, w.owner.value)))
    && (w.owner == None && w.departed.Some? && w.departed.value.exit == ExitRebuilt ==> Fits(w))
  }

  predicate OwnFitsAt(w: World, pc: Pc) {
    pc.Checking? || (pc.Dropping? && pc.exit == ExitRebuilt) ==> Fits(w)
  }

  lemma PipelineAgrees(w: World, s: Section)
    requires w.pipeline.Some? <==> w.inner.webrtc
    ensures PipelineAfter(w, s).Some? <==> Apply(w.inner, s).webrtc
  {
  }

  lemma PrefixStays(initial: Size, rebuilt: seq<Size>, more: seq<Size>, k: nat)
    requires k <= |rebuilt| && rebuilt <= more
    ensures k <= |more| && more[..k] == rebuilt[..k]
  {
  }

  lemma RebuiltGrows(w: World, e: Event)
    ensures w.rebuilt <= Step(w, e).rebuilt && Step(w, e).initial == w.initial
  {
  }

  lemma BuiltStep(w: World, e: Event)
    requires BuiltInv(w) && w.inner.size == InForce(w.initial, w.rebuilt)
    ensures BuiltInv(Step(w, e))
  {
    var s := SectionOf(At(w, e.tid), e.action);
    PipelineAgrees(w, s);
    RebuiltGrows(w, e);
    assert w.rebuilt[..|w.rebuilt|] == w.rebuilt;
    if w.pipeline.Some? {
      PrefixStays(w.initial, w.rebuilt, Step(w, e).rebuilt, w.pipeline.value.rebuilds);
    }
    PrefixStays(w.initial, w.rebuilt, Step(w, e).rebuilt, |w.rebuilt|);
  }

  /** How an owner comes to check, and to leave after its own rebuild. */
  lemma RebuiltMoves(pc: Pc, action: Action, i: Inner, n: nat)
    ensures var next := NextPc(pc, action, i, n); var s := SectionOf(pc, action);
            && (next.Checking? && !pc.Checking? ==> s.Start? && StartWebrtcSucceeds(i, s.outcome))
            && (next.Dropping? && next.exit == ExitRebuilt && !pc.Dropping? ==> pc.Checking?)
            && (s.Store? ==> pc.Resizing? && next.Rebuilding?)
            && (pc.Dropping? && next.Dropping? ==> next == pc)
            && (s.Drop? ==> pc.Dropping?)
  {
  }

  lemma FitStays(w: World, e: Event)
    requires Fits(w) && !SectionOf(At(w, e.tid), e.action).Store?
    ensures Fits(Step(w, e))
  {
    FitKeptIff(w, e);
  }

  lemma StartFits(w: World, e: Event)
    requires var s := SectionOf(At(w, e.tid), e.action); s.Start? && StartWebrtcSucceeds(w.inner, s.outcome)
    ensures Fits(Step(w, e))
  {
    OnlyStoreResizes(w.inner, SectionOf(At(w, e.tid), e.action));
  }

  /** The owner's own sections. */
  lemma OwnFitsMove(w: World, e: Event)
    requires OwnFitsAt(w, At(w, e.tid))
    ensures OwnFitsAt(Step(w, e), At(Step(w, e), e.tid))
  {
    var pc := At(w, e.tid);
    RebuiltMoves(pc, e.action, w.inner, |w.requests|);
    if SectionOf(pc, e.action).Start? && StartWebrtcSucceeds(w.inner, SectionOf(pc, e.action).outcome) {
      StartFits(w, e);
    } else if !SectionOf(pc, e.action).Store? && Fits(w) {
      FitStays(w, e);
    }
  }

  lemma OthersNeverStore(w: World, e: Event)
    requires OwnerInv(w) && !IsOwner(At(w, e.tid))
    ensures !SectionOf(At(w, e.tid), e.action).Store?
  {
    WritesOfOthers(At(w, e.tid), e.action);
  }

  lemma OwnFitsStep(w: World, e: Event)
    requires OwnerInv(w) && OwnFits(w)
    ensures OwnFits(Step(w, e))
  {
    var pc := At(w, e.tid);
    OwnershipMoves(pc, e.action, w.inner, |w.requests|);
    OthersKeepPc(w, e);
    if IsOwner(pc) {
      assert w.owner == Some(e.tid);
      OwnFitsMove(w, e);
      if SectionOf(pc, e.action).Drop? && Fits(w) {
        FitStays(w, e);
      }
    } else {
      OthersNeverStore(w, e);
      if Fits(w) {
        FitStays(w, e);
      }
    }
  }

  ghost predicate PipelineInv(w: World) { ResizeInv(w) && BuiltInv(w) && OwnFits(w) }

  lemma {:induction false} PipelineRun(w: World, es: seq<Event>)
    requires PipelineInv(w)
    ensures PipelineInv(Exec(w, es))
    decreases |es|
  {
    if es != [] {
      ResizeStep(w, es[0]);
      BuiltStep(w, es[0]);
      OwnFitsStep(w, es[0]);
      PipelineRun(Step(w, es[0]), es[1..]);
    }
  }

  /** A pipeline is live that was built within 8 px per axis of the latest request. */
  predicate Served(w: World) {
    w.requests != [] && w.pipeline.Some? && Near(Last(w.requests), w.pipeline.value.size)
  }

  /** The last owner saw the latest request. */
  predicate SawAll(w: World) { w.departed.Some? && w.departed.value.seen == |w.requests| }

  /** See `LatestRequestServedIff`. */
  predicate ServedAsDecided(w: World) {
    && w.departed.Some? && 0 < w.departed.value.seen <= |w.requests|
    && (w.pipeline.Some? <==> w.inner.webrtc)
    && (w.pipeline == None ==> !Served(w))
    && (w.pipeline.Some? ==>
          var d, k := w.departed.value, w.pipeline.value.rebuilds;
          && k <= |w.rebuilt|
          && (d.exit == ExitRebuilt ==> Fits(w))
          && Served(w) == (if SawAll(w) && d.exit == ExitRebuilt then true
                           else if SawAll(w) && Fits(w) && d.exit != ExitFailed then d.exit == ExitSettled
                           else Near(Last(w.requests), InForce(w.initial, w.rebuilt[..k]))))
  }

  lemma RestServes(w: World)
    requires RestInv(w) && BuiltInv(w) && OwnFits(w) && w.owner == None && w.requests != []
    ensures ServedAsDecided(w)
  {
  }

  /**
   * Where nobody owns the rebuild, the latest request is served exactly as follows. Without a
   * live pipeline it is not. With one: if the last owner saw the request and left after its own
   * rebuild, it is; if it saw it and the pipeline fits, exactly if it left with Ok and not for
   * want of a signaling channel; and otherwise, when the request was late, the rebuild failed or
   * the pipeline is one that does not fit, exactly if the request the pipeline was built for
   * (`requests[picks[k - 1]]` for a pipeline started after k rebuilds) happens to be near.
   */
  lemma LatestRequestServedIff(size: Size, es: seq<Event>)
    requires Exec(Init(size), es).owner == None && Exec(Init(size), es).requests != []
    ensures ServedAsDecided(Exec(Init(size), es)) && Exec(Init(size), es).initial == size
  {
    PipelineRun(Init(size), es);
    InitialSizeIsKept(Init(size), es);
    RestServes(Exec(Init(size), es));
  }

  /**
   * So with nobody at work a request is unserved in five ways and no other; the last cannot
   * occur in a run in which nothing misfits.
   */
  lemma ARequestIsUnservedInFiveWays(size: Size, es: seq<Event>)
    requires Exec(Init(size), es).owner == None && Exec(Init(size), es).requests != []
    requires !Served(Exec(Init(size), es))
    ensures var w := Exec(Init(size), es);
            && w.departed.Some?
            && (|| w.pipeline == None                                       // nothing is running
                || w.departed.value.seen < |w.requests|                     // it landed in the drop window
                || w.departed.value.exit == ExitNoChannel                   // there was nobody to signal to
                || w.departed.value.exit == ExitFailed                      // the rebuild did not come up
                || (w.departed.value.exit == ExitSettled && !Fits(w)))      // settled on a size that does not run
            && (NothingMisfits(Init(size), es) ==> Fits(w))
  {
    LatestRequestServedIff(size, es);
    PipelineFitsIff(size, es);
  }

  lemma DropFrees(w: World, t: Tid)
    requires OwnerInv(w) && At(w, t).Dropping?
    ensures var w1 := Step(w, Event(t, Continue));
            && w1.owner == None && At(w1, t) == Idle && OwnerInv(w1)
            && w1.inner == DropGuard(w.inner) && w1.requests == w.requests && w1.pipeline == w.pipeline
            && w1.departed == Some(Departure(At(w, t).exit, At(w, t).seen))
  {
    OwnerInvStep(w, Event(t, Continue));
  }

  lemma RequestElects(w: World, u: Tid, width: u32, height: u32)
    requires OwnerInv(w) && w.owner == None && At(w, u) == Idle && RequestedSize(width, height).Some?
    ensures var w1 := Step(w, Event(u, CallChangeResolution(width, height)));
            && w1.owner == Some(u) && At(w1, u) == Picking
            && w1.inner.pendingTarget == RequestedSize(width, height)
  {
  }

  /** Dropping the guard hands ownership back: the next accepted request elects its caller, with a clean slate. */
  lemma GuardHandsOwnershipBack(size: Size, es: seq<Event>, t: Tid, u: Tid, width: u32, height: u32)
    requires At(Exec(Init(size), es), t).Dropping?
    requires u == t || At(Exec(Init(size), es), u) == Idle
    requires RequestedSize(width, height).Some?
    ensures var w1 := Step(Exec(Init(size), es), Event(t, Continue));
            var w2 := Step(w1, Event(u, CallChangeResolution(width, height)));
            && (forall v :: !IsOwner(At(w1, v)))
            && !w1.inner.resizeInProgress && w1.inner.pendingTarget == None
            && w2.owner == Some(u) && At(w2, u) == Picking
            && w2.inner.pendingTarget == RequestedSize(width, height)
  {
    ResizeRun(Init(size), es);
    var w := Exec(Init(size), es);
    DropFrees(w, t);
    OthersKeepPc(w, Event(t, Continue));
    RequestElects(Step(w, Event(t, Continue)), u, width, height);
  }

  lemma RequestIsHandedOver(w: World, t: Tid, u: Tid, width: u32, height: u32)
    requires OwnerInv(w) && At(w, t).Dropping? && At(w, u) == Idle && RequestedSize(width, height).Some?
    ensures var w1 := Step(w, Event(u, CallChangeResolution(width, height)));
            && OwnerInv(w1) && At(w1, t) == At(w, t) && w1.inner.size == w.inner.size && w1.pipeline == w.pipeline
            && w1.requests == w.requests + [RequestedSize(width, height).value]
  {
    OwnerInvStep(w, Event(u, CallChangeResolution(width, height)));
  }

  /** A pipeline runs that is not near the latest request, and nobody is left to do anything about it. */
  predicate Lost(w: World) {
    w.owner == None && w.inner.pendingTarget == None && w.requests != [] && w.pipeline.Some? && !Served(w)
  }

  /**
   * A request that lands after the decision and before the guard drops is dropped, from any such
   * state: the size stays as it is, and so does the pipeline.
   */
  lemma RequestInDropWindowIsLost(w: World, t: Tid, u: Tid, width: u32, height: u32)
    requires OwnerInv(w) && At(w, t).Dropping? && At(w, u) == Idle && RequestedSize(width, height).Some?
    ensures var target := RequestedSize(width, height).value;
            var w2 := Step(Step(w, Event(u, CallChangeResolution(width, height))), Event(t, Continue));
            && w2.owner == None && (forall v :: !IsOwner(At(w2, v))) && w2.inner.pendingTarget == None
            && Last(w2.requests) == target && w2.inner.size == w.inner.size && w2.pipeline == w.pipeline
            && (w.pipeline.Some? && !Near(target, w.pipeline.value.size) ==> Lost(w2))
  {
    RequestIsHandedOver(w, t, u, width, height);
    DropFrees(Step(w, Event(u, CallChangeResolution(width, height))), t);
  }

  // ----- a run for each way -----------------------------------------------------

  lemma InRangeIsAccepted(s: Size)
    requires InRange(s)
    ensures RequestedSize(s.width, s.height) == Some(s)
  {
  }

  lemma ExecOne(w: World, a: Event)
    ensures Exec(w, [a]) == Step(w, a)
  {
    assert Exec(w, [a]) == Exec(Step(w, a), []);
  }

  lemma ExecTwo(w: World, a: Event, b: Event)
    ensures Exec(w, [a, b]) == Step(Step(w, a), b)
  {
    assert [a, b][1..] == [b];
    ExecOne(Step(w, a), b);
  }

  lemma ExecThree(w: World, a: Event, b: Event, c: Event)
    ensures Exec(w, [a, b, c]) == Step(Step(Step(w, a), b), c)
  {
    assert [a, b, c][1..] == [b, c];
    ExecTwo(Step(w, a), b, c);
  }

  predicate LatestIs(w: World, target: Size) { w.requests != [] && Last(w.requests) == target }

  /** The last owner saw every request and left with Ok, without a rebuild. */
  predicate LeftSettled(w: World) { w.departed == Some(Departure(ExitSettled, |w.requests|)) }

  /** Nobody is at work on the resize, and thread t is free. */
  ghost predicate AtRest(w: World, t: Tid) {
    OwnerInv(w) && w.owner == None && At(w, t) == Idle
  }

  /** Thread t asks for a size and decides. */
  function Asked(w: World, t: Tid, target: Size): World {
    Exec(w, [Event(t, CallChangeResolution(target.width, target.height)), Event(t, Continue)])
  }

  /** A request that need not or cannot be answered by a rebuild. */
  lemma AskedInVain(w: World, t: Tid, u: Tid, target: Size)
    requires AtRest(w, t) && InRange(target) && (Near(target, w.inner.size) || !w.inner.signaling)
    requires u != t && At(w, u) == Idle
    ensures var w2 := Asked(w, t, target);
            && OwnerInv(w2) && w2.owner == Some(t) && At(w2, u) == Idle
            && At(w2, t)
               == Dropping(if Near(target, w.inner.size) then ExitSettled else ExitNoChannel, |w.requests| + 1)
            && w2.inner == RecordRequestStep(w.inner, target)
            && w2.requests == w.requests + [target] && w2.pipeline == w.pipeline
  {
    InRangeIsAccepted(target);
    var e := Event(t, CallChangeResolution(target.width, target.height));
    ExecTwo(w, e, Event(t, Continue));
    var w1 := Step(w, e);
    OwnerInvStep(w, e);
    assert At(w1, t) == Picking && At(w1, u) == Idle && w1.inner == RecordRequestStep(w.inner, target);
    assert w1.pipeline == w.pipeline && w1.requests == w.requests + [target];
    OwnerInvStep(w1, Event(t, Continue));
  }

  function Connected(size: Size, t: Tid): World { Step(Launched(size, t), Event(t, CallStartWebrtc(Started))) }

  lemma ConnectedState(size: Size, t: Tid)
    ensures var w := Connected(size, t);
            && OwnerInv(w) && w.owner == None && (forall u :: At(w, u) == Idle) && w.inner.signaling
            && w.inner.phase == Streaming && w.inner.size == size && w.requests == [] && w.rebuilt == []
            && w.pipeline == Some(Pipeline(size, 0))
  {
    LaunchedState(size, t);
  }

  /** Way 1: a request near the size is settled at once, another lands before the drop. */
  lemma LostInDropWindow(size: Size, t: Tid, u: Tid, near: Size, far: Size)
    requires t != u && InRange(near) && InRange(far) && Near(near, size) && !Near(far, size)
    ensures var w := Step(Asked(Connected(size, t), t, near), Event(u, CallChangeResolution(far.width, far.height)));
            Lost(Step(w, Event(t, Continue))) && LatestIs(w, far)
  {
    ConnectedState(size, t);
    AskedInVain(Connected(size, t), t, u, near);
    InRangeIsAccepted(far);
    RequestInDropWindowIsLost(Asked(Connected(size, t), t, near), t, u, far.width, far.height);
    RequestIsHandedOver(Asked(Connected(size, t), t, near), t, u, far.width, far.height);
  }

  /** A viewer comes once everything is at rest: it is served at the size in force. */
  lemma NewViewerBuilds(w: World, u: Tid)
    requires AtRest(w, u) && w.inner.phase == CompositorRunning
    ensures var w1 := Step(w, Event(u, CallStartWebrtc(Started)));
            && w1.pipeline == Some(Pipeline(w.inner.size, |w.rebuilt|)) && w1.requests == w.requests
            && w1.owner == None && w1.inner.pendingTarget == w.inner.pendingTarget
  {
  }

  /** Way 2: nobody has connected yet, so there is no signaling channel; the viewer that comes gets the old size. */
  lemma LostWithoutChannel(size: Size, t: Tid, u: Tid, far: Size)
    requires t != u && InRange(far) && !Near(far, size)
    ensures var w := Step(Asked(Launched(size, t), t, far), Event(t, Continue));
            var w1 := Step(w, Event(u, CallStartWebrtc(Started)));
            Lost(w1) && LatestIs(w1, far) && w1.departed == Some(Departure(ExitNoChannel, 1))
  {
    LaunchedState(size, t);
    AskedInVain(Launched(size, t), t, u, far);
    var w0 := Asked(Launched(size, t), t, far);
    DropFrees(w0, t);
    OthersKeepPc(w0, Event(t, Continue));
    NewViewerBuilds(Step(w0, Event(t, Continue)), u);
  }

  /** An owner between its pick and its store, its pipeline down. */
  function TornDown(w: World, t: Tid, target: Size): World {
    Exec(Asked(w, t, target), [Event(t, Continue), Event(t, Continue)])
  }

  lemma TargetIsPicked(w: World, t: Tid, u: Tid, target: Size)
    requires AtRest(w, t) && t != u && At(w, u) == Idle && w.inner.signaling && w.requests == []
    requires InRange(target) && !Near(target, w.inner.size)
    ensures var w2 := Asked(w, t, target);
            && At(w2, t) == Taking(target) && At(w2, u) == Idle && OwnerInv(w2) && w2.owner == Some(t)
            && w2.requests == [target] && w2.rebuilt == w.rebuilt
            && w2.inner == RecordRequestStep(w.inner, target)
  {
    InRangeIsAccepted(target);
    var e := Event(t, CallChangeResolution(target.width, target.height));
    ExecTwo(w, e, Event(t, Continue));
    var w1 := Step(w, e);
    OwnerInvStep(w, e);
    assert At(w1, t) == Picking && At(w1, u) == Idle && w1.inner == RecordRequestStep(w.inner, target);
    OwnerInvStep(w1, Event(t, Continue));
  }

  lemma TeardownIsDone(w: World, t: Tid, u: Tid, target: Size)
    requires OwnerInv(w) && t != u && At(w, t) == Taking(target) && At(w, u) == Idle
    ensures var w2 := Exec(w, [Event(t, Continue), Event(t, Continue)]);
            && At(w2, t) == Resizing(target) && At(w2, u) == Idle && OwnerInv(w2) && w2.owner == Some(t)
            && w2.inner == StopWebrtcWhole(w.inner) && w2.requests == w.requests && w2.rebuilt == w.rebuilt
            && w2.pipeline == None
  {
    var w1 := Step(w, Event(t, Continue));
    ExecTwo(w, Event(t, Continue), Event(t, Continue));
    OwnerInvStep(w, Event(t, Continue));
    assert At(w1, t) == Torn(ForResize(target)) && At(w1, u) == Idle && w1.inner == TakeWebrtc(w.inner);
    OwnerInvStep(w1, Event(t, Continue));
  }

  lemma TornDownState(size: Size, t: Tid, u: Tid, target: Size)
    requires t != u && InRange(target) && !Near(target, size)
    ensures var w := TornDown(Connected(size, t), t, target);
            && At(w, t) == Resizing(target) && At(w, u) == Idle && OwnerInv(w) && w.owner == Some(t)
            && w.requests == [target] && w.rebuilt == [] && w.pipeline == None
            && w.inner.phase == CompositorRunning && w.inner.size == size && w.inner.resizeInProgress
            && !w.inner.webrtc && w.inner.signaling
  {
    ConnectedState(size, t);
    TargetIsPicked(Connected(size, t), t, u, target);
    TeardownIsDone(Asked(Connected(size, t), t, target), t, u, target);
  }

  lemma SizeIsStored(w: World, t: Tid, u: Tid, target: Size)
    requires OwnerInv(w) && t != u && At(w, t) == Resizing(target) && At(w, u) == Idle
    ensures var w1 := Step(w, Event(t, Continue));
            && At(w1, t) == Rebuilding(target) && At(w1, u) == Idle && OwnerInv(w1) && w1.owner == Some(t)
            && w1.inner == Resize(w.inner, target) && w1.requests == w.requests && w1.pipeline == w.pipeline
            && w1.rebuilt == w.rebuilt + [target]
  {
    OwnerInvStep(w, Event(t, Continue));
  }

  /** An owner whose start fails, or is refused, reports it and leaves. */
  function GiveUp(w: World, t: Tid, outcome: StartOutcome): World {
    Exec(w, [Event(t, ContinueWith(outcome)), Event(t, Continue), Event(t, Continue)])
  }

  lemma StartIsRefused(w: World, t: Tid, u: Tid, outcome: StartOutcome)
    requires OwnerInv(w) && u != t && At(w, t).Rebuilding? && At(w, u) == Idle && !StartWebrtcSucceeds(w.inner, outcome)
    ensures var w1 := Step(w, Event(t, ContinueWith(outcome)));
            && At(w1, t) == Signalling && At(w1, u) == Idle && OwnerInv(w1)
            && w1.requests == w.requests && w1.pipeline == w.pipeline && w1.rebuilt == w.rebuilt
            && w1.inner.size == w.inner.size && w1.inner.phase == w.inner.phase
            && w1.inner.resizeInProgress == w.inner.resizeInProgress
  {
    OwnerInvStep(w, Event(t, ContinueWith(outcome)));
  }

  lemma FailureIsReported(w: World, t: Tid, u: Tid)
    requires OwnerInv(w) && u != t && At(w, t) == Signalling && At(w, u) == Idle
    ensures var w1 := Step(w, Event(t, Continue));
            && At(w1, t) == Dropping(ExitFailed, |w.requests|) && At(w1, u) == Idle && OwnerInv(w1)
            && w1.requests == w.requests && w1.pipeline == w.pipeline && w1.rebuilt == w.rebuilt
            && w1.inner == SignalFailure(w.inner)
  {
    OwnerInvStep(w, Event(t, Continue));
  }

  lemma OwnerGivesUp(w: World, t: Tid, u: Tid, outcome: StartOutcome)
    requires OwnerInv(w) && u != t && At(w, t).Rebuilding? && At(w, u) == Idle && !StartWebrtcSucceeds(w.inner, outcome)
    ensures var w3 := GiveUp(w, t, outcome);
            && AtRest(w3, t) && AtRest(w3, u) && w3.requests == w.requests && w3.pipeline == w.pipeline
            && w3.inner.size == w.inner.size && w3.inner.phase == w.inner.phase && w3.inner.pendingTarget == None
            && w3.departed == Some(Departure(ExitFailed, |w.requests|))
  {
    ExecThree(w, Event(t, ContinueWith(outcome)), Event(t, Continue), Event(t, Continue));
    StartIsRefused(w, t, u, outcome);
    var w1 := Step(w, Event(t, ContinueWith(outcome)));
    FailureIsReported(w1, t, u);
    var w2 := Step(w1, Event(t, Continue));
    DropFrees(w2, t);
    OthersKeepPc(w2, Event(t, Continue));
  }

  /** Way 3: a request lands while the rebuild for another one fails; the next viewer gets that one. */
  lemma LostInFailedRebuild(size: Size, t: Tid, u: Tid, first: Size, far: Size)
    requires t != u && InRange(first) && InRange(far) && !Near(first, size) && !Near(far, first)
    ensures var w := Step(TornDown(Connected(size, t), t, first), Event(t, Continue));
            var w1 := Step(w, Event(u, CallChangeResolution(far.width, far.height)));
            var w2 := Step(GiveUp(w1, t, FailedBeforeBridge), Event(u, CallStartWebrtc(Started)));
            Lost(w2) && LatestIs(w2, far)
  {
    TornDownState(size, t, u, first);
    SizeIsStored(TornDown(Connected(size, t), t, first), t, u, first);
    FailedUnderIsLost(Step(TornDown(Connected(size, t), t, first), Event(t, Continue)), t, u, far);
  }

  lemma HandedOver(w: World, t: Tid, u: Tid, far: Size)
    requires OwnerInv(w) && t != u && At(w, t).Rebuilding? && At(w, u) == Idle && InRange(far)
    ensures var w1 := Step(w, Event(u, CallChangeResolution(far.width, far.height)));
            && OwnerInv(w1) && At(w1, t) == At(w, t) && At(w1, u) == Idle && w1.pipeline == w.pipeline
            && w1.inner == RecordRequestStep(w.inner, far) && w1.requests == w.requests + [far]
  {
    InRangeIsAccepted(far);
    OwnerInvStep(w, Event(u, CallChangeResolution(far.width, far.height)));
  }

  lemma FailedUnderIsLost(w: World, t: Tid, u: Tid, far: Size)
    requires OwnerInv(w) && t != u && At(w, t).Rebuilding? && At(w, u) == Idle && InRange(far)
    requires w.inner.phase == CompositorRunning && !Near(far, w.inner.size)
    ensures var w1 := Step(w, Event(u, CallChangeResolution(far.width, far.height)));
            var w2 := Step(GiveUp(w1, t, FailedBeforeBridge), Event(u, CallStartWebrtc(Started)));
            Lost(w2) && LatestIs(w2, far)
  {
    HandedOver(w, t, u, far);
    var w1 := Step(w, Event(u, CallChangeResolution(far.width, far.height)));
    OwnerGivesUp(w1, t, u, FailedBeforeBridge);
    NewViewerBuilds(GiveUp(w1, t, FailedBeforeBridge), u);
  }

  /** A second request for the size a failed rebuild has stored: it is answered Ok at once. */
  function AskedAgain(w: World, t: Tid, target: Size): World { Exec(Asked(w, t, target), [Event(t, Continue)]) }

  lemma AnsweredAtOnce(w: World, t: Tid, u: Tid, target: Size)
    requires AtRest(w, t) && u != t && At(w, u) == Idle && InRange(target) && w.inner.size == target
    ensures var w1 := AskedAgain(w, t, target);
            && AtRest(w1, t) && w1.pipeline == w.pipeline && w1.inner.size == target
            && w1.requests == w.requests + [target] && w1.inner.pendingTarget == None
            && LeftSettled(w1)
  {
    AskedInVain(w, t, u, target);
    ExecOne(Asked(w, t, target), Event(t, Continue));
    DropFrees(Asked(w, t, target), t);
  }

  /**
   * Way 4: a viewer starts the stream between the owner's teardown and its store. The pipeline is
   * built at the old size, the owner stores the new one and is refused its own start; from then on
   * a request for the new size is answered Ok, by an owner that has seen every request.
   */
  lemma LostToAnotherStart(size: Size, t: Tid, u: Tid, target: Size)
    requires t != u && InRange(target) && !Near(target, size)
    ensures var w := Exec(TornDown(Connected(size, t), t, target), [Event(u, CallStartWebrtc(Started))]);
            var w1 := GiveUp(Exec(w, [Event(t, Continue)]), t, Started);
            && Misfits(w, Event(t, Continue)) && Lost(w1) && LostAsSettled(AskedAgain(w1, t, target), target)
  {
    TornDownState(size, t, u, target);
    ViewerInBetween(TornDown(Connected(size, t), t, target), t, u, target);
    var w := Exec(TornDown(Connected(size, t), t, target), [Event(u, CallStartWebrtc(Started))]);
    StoredUnderViewer(w, t, u, size, target);
    RefusedThenSettled(GiveUp(Exec(w, [Event(t, Continue)]), t, Started), t, u, size, target);
  }

  /** The latest request was answered Ok, its size is in force, and something else runs. */
  predicate LostAsSettled(w: World, target: Size) {
    Lost(w) && LatestIs(w, target) && w.inner.size == target && LeftSettled(w)
  }

  lemma ViewerInBetween(w: World, t: Tid, u: Tid, target: Size)
    requires OwnerInv(w) && t != u && At(w, t) == Resizing(target) && At(w, u) == Idle
    requires w.inner.phase == CompositorRunning
    ensures var w1 := Exec(w, [Event(u, CallStartWebrtc(Started))]);
            && OwnerInv(w1) && At(w1, t) == Resizing(target) && At(w1, u) == Idle && w1.inner.phase == Streaming
            && w1.pipeline == Some(Pipeline(w.inner.size, |w.rebuilt|)) && w1.requests == w.requests
  {
    ExecOne(w, Event(u, CallStartWebrtc(Started)));
    OwnerInvStep(w, Event(u, CallStartWebrtc(Started)));
  }

  lemma StoredUnderViewer(w: World, t: Tid, u: Tid, size: Size, target: Size)
    requires OwnerInv(w) && t != u && At(w, t) == Resizing(target) && At(w, u) == Idle && w.inner.phase == Streaming
    requires w.pipeline.Some? && w.pipeline.value.size == size && LatestIs(w, target) && !Near(target, size)
    ensures var w1 := GiveUp(Exec(w, [Event(t, Continue)]), t, Started);
            && Misfits(w, Event(t, Continue)) && Lost(w1) && AtRest(w1, t) && At(w1, u) == Idle
            && w1.inner.size == target && w1.pipeline == w.pipeline
  {
    ExecOne(w, Event(t, Continue));
    SizeIsStored(w, t, u, target);
    OwnerGivesUp(Step(w, Event(t, Continue)), t, u, Started);
  }

  lemma RefusedThenSettled(w: World, t: Tid, u: Tid, size: Size, target: Size)
    requires AtRest(w, t) && u != t && At(w, u) == Idle && InRange(target) && w.inner.size == target
    requires w.pipeline.Some? && w.pipeline.value.size == size && !Near(target, size)
    ensures LostAsSettled(AskedAgain(w, t, target), target)
  {
    AnsweredAtOnce(w, t, u, target);
  }

  /** Way 5: a rebuild fails, and the same request, made again, is answered Ok with nothing running. */
  lemma AnsweredWithNothingRunning(size: Size, t: Tid, u: Tid, target: Size)
    requires t != u && InRange(target) && !Near(target, size)
    ensures var w := Exec(TornDown(Connected(size, t), t, target), [Event(t, Continue)]);
            NothingRuns(AskedAgain(GiveUp(w, t, FailedBeforeBridge), t, target), target)
  {
    TornDownState(size, t, u, target);
    ExecOne(TornDown(Connected(size, t), t, target), Event(t, Continue));
    SizeIsStored(TornDown(Connected(size, t), t, target), t, u, target);
    FailedThenSettled(Exec(TornDown(Connected(size, t), t, target), [Event(t, Continue)]), t, u, target);
  }

  predicate NothingRuns(w: World, target: Size) {
    w.owner == None && w.pipeline == None && !Served(w) && LatestIs(w, target) && LeftSettled(w)
  }

  lemma FailedThenSettled(w: World, t: Tid, u: Tid, target: Size)
    requires OwnerInv(w) && u != t && At(w, t) == Rebuilding(target) && At(w, u) == Idle && InRange(target)
    requires w.pipeline == None && w.inner.size == target
    ensures NothingRuns(AskedAgain(GiveUp(w, t, FailedBeforeBridge), t, target), target)
  {
    OwnerGivesUp(w, t, u, FailedBeforeBridge);
    AnsweredAtOnce(GiveUp(w, t, FailedBeforeBridge), t, u, target);
  }
}
