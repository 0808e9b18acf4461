/**
 * The state that `StreamSession` keeps behind its one mutex, and the critical
 * sections of its public operations.
 *
 * Every lock-held section is a function on the locked state (`Inner`). The class
 * `SessionInner` carries the same fields and changes them in place; each of its
 * methods is proved to have exactly the effect of the corresponding function, so
 * the interleaving theorems of module StreamProtocol, which speak about the
 * functions, speak about the class.
 *
 * GStreamer pipelines are reduced to their presence: what a foreign call decides
 * (a pipeline reaches PLAYING or not) is a parameter.
 */
module StreamSession {
  import opened Wrappers

  type u32 = x: int | 0 <= x < 0x1_0000_0000

  datatype Phase = Created | CompositorRunning | Streaming | Stopped

  datatype Size = Size(width: u32, height: u32)

  /** A snapshot of the fields guarded by the session lock. */
  datatype Inner = Inner(
    phase: Phase,
    size: Size,                  // stream resolution, not the compositor's
    compositor: bool,            // Option<Compositor> is Some
    webrtc: bool,                // Option<Webrtc> is Some
    bridgeStop: bool,
    signaling: bool,             // signaling_tx is Some
    errorSent: Option<bool>,     // pipeline_error_tx: installed, and fired
    resizeInProgress: bool,
    pendingTarget: Option<Size>
  )

  /** How far the foreign part of `start_webrtc` got, once past the phase guard. */
  datatype StartOutcome = Started | FailedBeforeBridge | FailedAfterBridge

  /** What the owner of a resize decides when it reads the pending target. */
  datatype Decision = SizeSettled | NoChannel | MustRebuild(target: Size)

  function NewInner(size: Size): Inner {
    Inner(Created, size, false, false, false, false, None, false, None)
  }

  // ----- critical sections ------------------------------------------------

  /** Second section of `start_compositor`: it installs its result unconditionally. */
  function CommitCompositor(i: Inner): Inner {
    i.(compositor := true, phase := CompositorRunning)
  }

  predicate StartWebrtcAllowed(i: Inner) { i.phase == CompositorRunning }

  /** `start_webrtc` holds the lock from its phase guard to its commit. */
  function StartWebrtcStep(i: Inner, outcome: StartOutcome): Inner {
    if !StartWebrtcAllowed(i) then
      i
    else
      match outcome
      case FailedBeforeBridge => i.(signaling := true)
      case FailedAfterBridge => i.(signaling := true, bridgeStop := !i.compositor && i.bridgeStop)
      case Started => i.(signaling := true, bridgeStop := !i.compositor && i.bridgeStop,
                         webrtc := true, phase := Streaming)
  }

  predicate StartWebrtcSucceeds(i: Inner, outcome: StartOutcome) {
    StartWebrtcAllowed(i) && outcome == Started
  }

  /** First section of `stop_webrtc`. */
  function TakeWebrtc(i: Inner): Inner {
    i.(bridgeStop := true, webrtc := false)
  }

  /** Second section of `stop_webrtc`, after the pipeline is down. */
  function LeaveStreaming(i: Inner): Inner {
    if i.phase == Streaming then i.(phase := CompositorRunning) else i
  }

  /** Last section of `stop`. */
  function FinishStop(i: Inner): Inner {
    i.(compositor := false, signaling := false, phase := Stopped)
  }

  function InstallErrorSender(i: Inner): Inner {
    i.(errorSent := Some(false))
  }

  function SignalFailure(i: Inner): Inner {
    if i.errorSent.Some? then i.(errorSent := Some(true)) else i
  }

  // ----- resize -----------------------------------------------------------

  /** `(x + 1) & !1` on a 32-bit unsigned integer. */
  function RoundEven(x: u32): (r: u32)
    ensures r % 2 == 0
    ensures x < 0xFFFF_FFFF ==> x <= r <= x + 1
    ensures x == 0xFFFF_FFFF ==> r == 0
  {
    var up := (x + 1) % 0x1_0000_0000;
    up - up % 2
  }

  predicate InRange(s: Size) {
    && s.width % 2 == 0 && s.height % 2 == 0
    && 64 <= s.width <= 7680 && 64 <= s.height <= 4320
  }

  /** The size a request asks for once rounded, or None where the call is refused. */
  function RequestedSize(width: u32, height: u32): (r: Option<Size>)
    ensures r.Some? ==> InRange(r.value)
    ensures r.Some? ==> 0 <= r.value.width - width <= 1 && 0 <= r.value.height - height <= 1
    ensures r.Some? <==> 63 <= width <= 7680 && 63 <= height <= 4320
  {
    var s := Size(RoundEven(width), RoundEven(height));
    if s.width < 64 || s.height < 64 || s.width > 7680 || s.height > 4320 then None else Some(s)
  }

  /** The section that elects the rebuild owner: the flag as found says who owns. */
  function RecordRequestStep(i: Inner, target: Size): Inner {
    i.(pendingTarget := Some(target), resizeInProgress := true)
  }

  /** Within the 8 px dead zone on both axes. */
  predicate Near(a: Size, b: Size) {
    -8 <= a.width - b.width <= 8 && -8 <= a.height - b.height <= 8
  }

  function Decide(i: Inner): Decision {
    match i.pendingTarget
    case None => SizeSettled
    case Some(t) =>
      if t == i.size then SizeSettled
      else if Near(t, i.size) then SizeSettled
      else if !i.signaling then NoChannel
      else MustRebuild(t)
  }

  /** At most this many pixels of difference, on the axis. */
  predicate Within(a: int, b: int, pixels: nat) { a - b <= pixels && b - a <= pixels }

  /**
   * The decision in numbers: a pending size is settled if both axes differ by at most 8 pixels,
   * and is rebuilt for, exactly as asked, if one differs by more and there is a signaling channel.
   * With nothing pending there is nothing to do.
   */
  lemma DecidesByEightPixels(i: Inner, t: Size)
    ensures i.pendingTarget == None ==> Decide(i) == SizeSettled
    ensures i.pendingTarget == Some(t) ==>
              Decide(i) == (if Within(t.width, i.size.width, 8) && Within(t.height, i.size.height, 8) then SizeSettled
                            else if i.signaling then MustRebuild(t) else NoChannel)
  {
  }

  function Resize(i: Inner, target: Size): Inner { i.(size := target) }

  /** Whether the owner's closing check ends its loop. */
  predicate LoopEnds(i: Inner, target: Size) {
    i.pendingTarget.None? || i.pendingTarget.value == target
  }

  function CloseIteration(i: Inner, target: Size): Inner {
    if LoopEnds(i, target) then i.(pendingTarget := None) else i
  }

  /** What dropping the in-progress guard does, on every way out. */
  function DropGuard(i: Inner): Inner {
    i.(resizeInProgress := false, pendingTarget := None)
  }

  // ----- public operations run without interference -------------------------

  function StopWebrtcWhole(i: Inner): Inner { LeaveStreaming(TakeWebrtc(i)) }

  function StopWhole(i: Inner): Inner { FinishStop(StopWebrtcWhole(i)) }

  function AfterRebuild(i: Inner, target: Size, outcome: StartOutcome): Inner {
    var torn := Resize(StopWebrtcWhole(i), target);
    var j := StartWebrtcStep(torn, outcome);
    if StartWebrtcSucceeds(torn, outcome) then j else SignalFailure(j)
  }

  predicate RebuildSucceeds(i: Inner, outcome: StartOutcome) {
    StartWebrtcSucceeds(StopWebrtcWhole(i), outcome)
  }

  predicate AllInRange(arrivals: seq<seq<Size>>) {
    forall k, j :: 0 <= k < |arrivals| && 0 <= j < |arrivals[k]| ==> InRange(arrivals[k][j])
  }

  /** The compositor exists exactly in the two middle phases. */
  predicate CompositorAgrees(i: Inner) {
    i.compositor <==> i.phase == CompositorRunning || i.phase == Streaming
  }

  /** WebRTC resources exist exactly while streaming. */
  predicate WebrtcAgrees(i: Inner) {
    i.webrtc <==> i.phase == Streaming
  }

  predicate Coherent(i: Inner) { CompositorAgrees(i) && WebrtcAgrees(i) }

  /** What holds whenever the owner of a resize reads the pending target. */
  predicate OwnerAtWork(i: Inner, before: Inner, landed: seq<Size>) {
    && Coherent(i) && i.resizeInProgress
    && |landed| > 0 && InRange(landed[|landed| - 1])
    && i.pendingTarget == Some(landed[|landed| - 1])
    && (i.size == before.size || InRange(i.size))
    && (before.phase == Stopped ==> i.phase == Stopped)
    && i.errorSent == before.errorSent
  }

  function AfterRequests(i: Inner, batch: seq<Size>): Inner {
    if batch == [] then i else RecordRequestStep(i, batch[|batch| - 1])
  }

  datatype Outcome = Outcome(inner: Inner, ok: bool, rebuilds: nat, landed: seq<Size>)

  datatype TurnResult = Finished(result: Outcome) | Again(inner: Inner, landed: seq<Size>)

  /** Turn k of the owner's loop; `batch` is recorded by other callers before its closing check. */
  function Turn(i: Inner, landed: seq<Size>, outcome: StartOutcome, batch: seq<Size>, k: nat): (r: TurnResult)
    ensures r.Again? ==> batch != []
  {
    var decision := Decide(i);
    if !decision.MustRebuild? then
      Finished(Outcome(DropGuard(i), decision.SizeSettled?, k, landed))
    else
      var j := AfterRebuild(i, decision.target, outcome);
      if !RebuildSucceeds(i, outcome) then
        Finished(Outcome(DropGuard(j), false, k + 1, landed))
      else
        CloseTurn(AfterRequests(j, batch), decision.target, landed + batch, k)
  }

  /** The owner's closing check, with whatever has landed by then. */
  function CloseTurn(i: Inner, target: Size, landed: seq<Size>, k: nat): TurnResult {
    if LoopEnds(i, target) then
      Finished(Outcome(DropGuard(CloseIteration(i, target)), true, k + 1, landed))
    else
      Again(i, landed)
  }

  /**
   * The owner's loop from its turn k on, the guard's drop included. `arrivals[k]` are the
   * targets other callers record while rebuild k is under way and `outcomes[k]` is the fate
   * of that rebuild; short lists are padded with no arrivals and with rebuilds that start.
   */
  function OwnerRun(i: Inner, landed: seq<Size>, arrivals: seq<seq<Size>>, outcomes: seq<StartOutcome>, k: nat): Outcome
    decreases |arrivals| - k
  {
    match Turn(i, landed, OutcomeAt(outcomes, k), BatchAt(arrivals, k), k)
    case Finished(result) => result
    case Again(j, more) => OwnerRun(j, more, arrivals, outcomes, k + 1)
  }

  function OutcomeAt(outcomes: seq<StartOutcome>, k: nat): StartOutcome {
    if k < |outcomes| then outcomes[k] else Started
  }

  function BatchAt(arrivals: seq<seq<Size>>, k: nat): seq<Size> {
    if k < |arrivals| then arrivals[k] else []
  }

  /** The listener for pipeline errors, if there is one, is told exactly of a failure; nothing else touches it. */
  predicate ReportedIff(before: Option<bool>, after: Option<bool>, failed: bool) {
    after == if failed && before.Some? then Some(true) else before
  }

  /** What a caller may rely on once the owner is done. */
  predicate ServesLatest(before: Inner, r: Outcome) {
    && Coherent(r.inner) && !r.inner.resizeInProgress && r.inner.pendingTarget == None
    && (before.phase == Stopped ==> r.inner.phase == Stopped)
    && r.rebuilds <= |r.landed| && |r.landed| > 0
    && (r.ok ==> Near(r.landed[|r.landed| - 1], r.inner.size))
    && (r.inner.size == before.size || InRange(r.inner.size))
    && ReportedIff(before.errorSent, r.inner.errorSent, !r.ok && r.rebuilds > 0)
  }

  lemma RebuildKeepsOwner(i: Inner, before: Inner, landed: seq<Size>, outcome: StartOutcome)
    requires OwnerAtWork(i, before, landed) && Decide(i).MustRebuild?
    ensures var j := AfterRebuild(i, Decide(i).target, outcome);
            && j.size == Decide(i).target == landed[|landed| - 1]
            && ReportedIff(before.errorSent, j.errorSent, !RebuildSucceeds(i, outcome))
            && OwnerAtWork(j.(errorSent := before.errorSent), before, landed)
            && (RebuildSucceeds(i, outcome) ==> j.signaling && j.errorSent == before.errorSent)
  {
  }

  lemma RequestsKeepOwner(i: Inner, before: Inner, landed: seq<Size>, batch: seq<Size>)
    requires OwnerAtWork(i, before, landed)
    requires forall j :: 0 <= j < |batch| ==> InRange(batch[j])
    ensures OwnerAtWork(AfterRequests(i, batch), before, landed + batch)
    ensures AfterRequests(i, batch).size == i.size && AfterRequests(i, batch).signaling == i.signaling
    ensures batch == [] ==> AfterRequests(i, batch) == i
  {
    if batch != [] {
      assert (landed + batch)[|landed + batch| - 1] == batch[|batch| - 1];
    } else {
      assert landed + batch == landed;
    }
  }

  lemma CloseTurnServes(i: Inner, before: Inner, landed: seq<Size>, k: nat)
    requires OwnerAtWork(i, before, landed) && i.signaling && k < |landed|
    ensures var r := CloseTurn(i, i.size, landed, k);
            match r
            case Finished(result) => ServesLatest(before, result) && result.landed == landed
            case Again(j, more) => j == i && more == landed
  {
  }

  /** One turn either ends with the latest target in force or leaves the owner at work. */
  lemma OneTurn(i: Inner, before: Inner, landed: seq<Size>, outcome: StartOutcome, batch: seq<Size>, k: nat)
    requires OwnerAtWork(i, before, landed) && k < |landed| && (k > 0 ==> i.signaling)
    requires forall j :: 0 <= j < |batch| ==> InRange(batch[j])
    ensures match Turn(i, landed, outcome, batch, k)
            case Finished(r) => ServesLatest(before, r) && landed <= r.landed
            case Again(j, more) => OwnerAtWork(j, before, more) && j.signaling && k + 1 < |more| && landed <= more
  {
    if Decide(i).MustRebuild? {
      RebuildKeepsOwner(i, before, landed, outcome);
      var j := AfterRebuild(i, Decide(i).target, outcome);
      if RebuildSucceeds(i, outcome) {
        RequestsKeepOwner(j, before, landed, batch);
        CloseTurnServes(AfterRequests(j, batch), before, landed + batch, k);
      }
    }
  }

  /**
   * Whatever arrives and whatever fails: the owner hands the flag back, keeps the session
   * coherent, never rebuilds more often than it was asked to, and if it reports success the
   * latest target recorded before its last look is in force up to the dead zone.
   */
  lemma {:induction false} OwnerRunServesLatest(
    i: Inner, before: Inner, landed: seq<Size>, arrivals: seq<seq<Size>>, outcomes: seq<StartOutcome>, k: nat)
    requires OwnerAtWork(i, before, landed) && AllInRange(arrivals)
    requires k < |landed| && (k > 0 ==> i.signaling)
    ensures ServesLatest(before, OwnerRun(i, landed, arrivals, outcomes, k))
    ensures landed <= OwnerRun(i, landed, arrivals, outcomes, k).landed
    decreases |arrivals| - k
  {
    OneTurn(i, before, landed, OutcomeAt(outcomes, k), BatchAt(arrivals, k), k);
    match Turn(i, landed, OutcomeAt(outcomes, k), BatchAt(arrivals, k), k)
    case Finished(_) =>
    case Again(j, more) => OwnerRunServesLatest(j, before, more, arrivals, outcomes, k + 1);
  }

  /** The session state, updated in place as the source does. */
  class SessionInner {
    var phase: Phase
    var width: u32
    var height: u32
    var compositor: bool
    var webrtc: bool
    var bridgeStop: bool
    var signaling: bool
    var errorSent: Option<bool>
    var resizeInProgress: bool
    var pendingTarget: Option<Size>

    function View(): Inner
      reads this
    {
      Inner(phase, Size(width, height), compositor, webrtc, bridgeStop, signaling, errorSent,
            resizeInProgress, pendingTarget)
    }

    constructor (width: u32, height: u32)
      ensures View() == NewInner(Size(width, height)) && Coherent(View())
      ensures phase == Created && this.width == width && this.height == height
      ensures !compositor && !webrtc && !bridgeStop && !signaling && errorSent == None
      ensures !resizeInProgress && pendingTarget == None
    {
      phase := Created;
      this.width, this.height := width, height;
      compositor, webrtc, bridgeStop, signaling := false, false, false, false;
      errorSent := None;
      resizeInProgress, pendingTarget := false, None;
    }

    /** `built` says whether the compositor pipeline came up between the two sections. */
    method StartCompositor(built: bool) returns (ok: bool)
      requires Coherent(View())
      modifies this
      ensures ok <==> old(phase) == Created && built
      ensures View() == if ok then CommitCompositor(old(View())) else old(View())
      ensures View() == Perform(old(View()), OpStartCompositor(built))
      ensures Coherent(View())
    {
      if phase != Created {
        return false;
      }
      if !built {
        return false;
      }
      compositor := true;
      phase := CompositorRunning;
      return true;
    }

    method StartWebrtc(outcome: StartOutcome) returns (ok: bool)
      modifies this
      ensures ok <==> StartWebrtcSucceeds(old(View()), outcome)
      // Past the guard the channel is stored whatever happens, and a bridge that was begun has its stop
      // flag lowered; a failed start leaves nothing else behind.
      ensures signaling == (old(signaling) || old(phase) == CompositorRunning)
      ensures bridgeStop == (old(bridgeStop) && (old(phase) == CompositorRunning ==>
                                                   !compositor || outcome == FailedBeforeBridge))
      ensures !ok ==> webrtc == old(webrtc) && phase == old(phase) && compositor == old(compositor)
      ensures width == old(width) && height == old(height)
      ensures View() == StartWebrtcStep(old(View()), outcome) == Perform(old(View()), OpStartWebrtc(outcome))
      ensures old(CompositorAgrees(View())) ==> CompositorAgrees(View()) && (ok ==> compositor && !bridgeStop)
      ensures old(Coherent(View())) ==> Coherent(View())
    {
      if phase != CompositorRunning {
        return false;
      }
      signaling := true;
      if outcome == FailedBeforeBridge {
        return false;
      }
      if compositor {
        bridgeStop := false;
      }
      if outcome == FailedAfterBridge {
        return false;
      }
      webrtc := true;
      phase := Streaming;
      return true;
    }

    method StopWebrtc()
      modifies this
      ensures View() == StopWebrtcWhole(old(View())) == Perform(old(View()), OpStopWebrtc)
      ensures !webrtc && phase != Streaming && bridgeStop
      ensures old(phase) != Streaming ==> phase == old(phase)
      ensures old(Coherent(View())) ==> Coherent(View())
    {
      bridgeStop := true;
      webrtc := false;
      if phase == Streaming {
        phase := CompositorRunning;
      }
    }

    method Stop()
      modifies this
      ensures View() == StopWhole(old(View())) == Perform(old(View()), OpStop)
      ensures phase == Stopped && Coherent(View()) && !compositor && !webrtc && !signaling && bridgeStop
    {
      StopWebrtc();
      compositor := false;
      signaling := false;
      phase := Stopped;
    }

    /** A request that finds an owner at work: it only overwrites the pending target. */
    method RecordRequest(target: Size) returns (elected: bool)
      modifies this
      ensures View() == RecordRequestStep(old(View()), target)
      ensures elected <==> !old(resizeInProgress)
    {
      pendingTarget := Some(target);
      if resizeInProgress {
        return false;
      }
      resizeInProgress := true;
      return true;
    }

    /** Dropping the in-progress guard: nobody owns the rebuild, nothing is pending, and that is all. */
    method DropInProgressGuard()
      modifies this`resizeInProgress, this`pendingTarget
      ensures !resizeInProgress && pendingTarget == None
    {
      resizeInProgress := false;
      pendingTarget := None;
    }

    /** Requests of other callers while an owner is at work: each overwrites the target. */
    method RecordRequests(batch: seq<Size>)
      requires resizeInProgress
      modifies this
      ensures View() == AfterRequests(old(View()), batch)
    {
      for j := 0 to |batch|
        invariant View() == AfterRequests(old(View()), batch[..j])
      {
        var elected := RecordRequest(batch[j]);
      }
    }

    /** One turn of the owner's loop body: tear down, resize, rebuild, signal a failure. */
    method RebuildAt(target: Size, outcome: StartOutcome) returns (ok: bool)
      modifies this
      ensures View() == AfterRebuild(old(View()), target, outcome) == Perform(old(View()), OpRebuild(target, outcome))
      ensures ok <==> RebuildSucceeds(old(View()), outcome)
      ensures ReportedIff(old(errorSent), errorSent, !ok)
      ensures old(Coherent(View())) ==> Coherent(View())
    {
      StopWebrtc();
      width, height := target.width, target.height;
      ok := StartWebrtc(outcome);
      if !ok && errorSent.Some? {
        errorSent := Some(true);
      }
    }

    /** The owner's loop, and the guard that closes it on every way out. */
    method OwnRebuilds(first: Size, arrivals: seq<seq<Size>>, outcomes: seq<StartOutcome>)
      returns (ok: bool, rebuilds: nat, landed: seq<Size>)
      requires resizeInProgress
      modifies this
      ensures Outcome(View(), ok, rebuilds, landed) == OwnerRun(old(View()), [first], arrivals, outcomes, 0)
    {
      rebuilds, landed := 0, [first];
      ghost var result := OwnerRun(View(), landed, arrivals, outcomes, 0);
      while true
        invariant resizeInProgress
        invariant result == OwnerRun(View(), landed, arrivals, outcomes, rebuilds)
        decreases |arrivals| - rebuilds
      {
        var decision := Decide(View());
        if !decision.MustRebuild? {
          DropInProgressGuard();
          return decision.SizeSettled?, rebuilds, landed;
        }
        var rebuilt := RebuildAt(decision.target, OutcomeAt(outcomes, rebuilds));
        var batch := BatchAt(arrivals, rebuilds);
        rebuilds := rebuilds + 1;
        if !rebuilt {
          DropInProgressGuard();
          return false, rebuilds, landed;
        }
        RecordRequests(batch);
        landed := landed + batch;
        if LoopEnds(View(), decision.target) {
          pendingTarget := None;
          DropInProgressGuard();
          return true, rebuilds, landed;
        }
      }
    }

    /** `change_resolution` as its caller runs it; see `OwnerRun` for the schedule. */
    method ChangeResolution(width: u32, height: u32, arrivals: seq<seq<Size>>, outcomes: seq<StartOutcome>)
      returns (ok: bool, rebuilds: nat, landed: seq<Size>)
      requires Coherent(View()) && AllInRange(arrivals)
      modifies this
      ensures Coherent(View())
      ensures old(phase) == Stopped ==> phase == Stopped
      ensures rebuilds <= |landed|
      // A refused size changes nothing.
      ensures RequestedSize(width, height).None? ==> !ok && landed == [] && View() == old(View())
      // A call that finds an owner at work hands its target over and returns.
      ensures RequestedSize(width, height).Some? && old(resizeInProgress) ==>
                ok && rebuilds == 0 && View() == RecordRequestStep(old(View()), RequestedSize(width, height).value)
      // An owner that succeeds leaves the latest target in force, on every schedule of arrivals.
      ensures RequestedSize(width, height).Some? && !old(resizeInProgress) ==>
                && !resizeInProgress && pendingTarget == None
                && |landed| >= 1 && landed[0] == RequestedSize(width, height).value
                && (ok ==> Within(landed[|landed| - 1].width, this.width, 8))
                && (ok ==> Within(landed[|landed| - 1].height, this.height, 8))
                && (View().size == old(View().size) || InRange(View().size))
      // A handler that listens is told of a failed rebuild, and of nothing else.
      ensures ReportedIff(old(errorSent), errorSent, !ok && rebuilds > 0)
    {
      var requested := RequestedSize(width, height);
      if requested.None? {
        return false, 0, [];
      }
      var elected := RecordRequest(requested.value);
      if !elected {
        return true, 0, [requested.value];
      }
      OwnerRunServesLatest(View(), old(View()), [requested.value], arrivals, outcomes, 0);
      ok, rebuilds, landed := OwnRebuilds(requested.value, arrivals, outcomes);
    }
  }

  // ----- runs of atomic public operations ------------------------------------

  datatype Operation =
    | OpStartCompositor(built: bool)
    | OpStartWebrtc(outcome: StartOutcome)
    | OpStopWebrtc
    | OpStop
    | OpRebuild(target: Size, outcome: StartOutcome)   // the teardown and rebuild inside a resize

  function Perform(i: Inner, op: Operation): Inner {
    match op
    case OpStartCompositor(built) => if i.phase == Created && built then CommitCompositor(i) else i
    case OpStartWebrtc(outcome) => StartWebrtcStep(i, outcome)
    case OpStopWebrtc => StopWebrtcWhole(i)
    case OpStop => StopWhole(i)
    case OpRebuild(target, outcome) => AfterRebuild(i, target, outcome)
  }

  function PerformAll(i: Inner, ops: seq<Operation>): Inner
    decreases |ops|
  {
    if ops == [] then i else PerformAll(Perform(i, ops[0]), ops[1..])
  }

  /** Over every run of atomic operations, failed rebuilds included, phase and resources agree. */
  lemma {:induction false} AtomicRunsStayCoherent(i: Inner, ops: seq<Operation>)
    requires Coherent(i)
    ensures Coherent(PerformAll(i, ops))
    decreases |ops|
  {
    if ops == [] {
    } else {
      AtomicRunsStayCoherent(Perform(i, ops[0]), ops[1..]);
    }
  }

  /** A stopped session never runs anything again. */
  lemma {:induction false} StoppedIsAbsorbing(i: Inner, ops: seq<Operation>)
    requires Coherent(i) && i.phase == Stopped
    ensures PerformAll(i, ops).phase == Stopped
    ensures !PerformAll(i, ops).webrtc && !PerformAll(i, ops).compositor
    decreases |ops|
  {
    if ops == [] {
    } else {
      StoppedIsAbsorbing(Perform(i, ops[0]), ops[1..]);
    }
  }
}
