/**
 * The input rate budget of a session, and the one entry point both transports share.
 *
 * Time and tokens are real numbers; a clock reading before the last one counts as no time,
 * as subtracting instants does in the source.
 */
module InputBudget {
  import opened Wrappers
  import opened Gamepad

  datatype Bucket = Bucket(tokens: real, rate: real, last: real)

  predicate Sound(b: Bucket) { b.rate > 0.0 && 0.0 <= b.tokens <= b.rate }

  function Fresh(rate: real, now: real): Bucket { Bucket(rate, rate, now) }

  function Elapsed(b: Bucket, now: real): (e: real)
    ensures e >= 0.0
  {
    if now > b.last then now - b.last else 0.0
  }

  /** The tokens there are at `now`, before anything is spent. */
  function Refilled(b: Bucket, now: real): (t: real)
    ensures t <= b.rate
  {
    var t := b.tokens + Elapsed(b, now) * b.rate;
    if t < b.rate then t else b.rate
  }

  predicate Allows(b: Bucket, now: real) { Refilled(b, now) >= 1.0 }

  function Spend(b: Bucket, now: real): Bucket {
    Bucket(if Allows(b, now) then Refilled(b, now) - 1.0 else Refilled(b, now), b.rate, now)
  }

  /** How many events at the given times get through. */
  function Allowed(b: Bucket, times: seq<real>): nat
    decreases |times|
  {
    if times == [] then 0
    else (if Allows(b, times[0]) then 1 else 0) + Allowed(Spend(b, times[0]), times[1..])
  }

  function After(b: Bucket, times: seq<real>): Bucket
    decreases |times|
  {
    if times == [] then b else After(Spend(b, times[0]), times[1..])
  }

  predicate Ordered(times: seq<real>) {
    forall i, j :: 0 <= i < j < |times| ==> times[i] <= times[j]
  }

  lemma ElapsedEarns(b: Bucket, now: real)
    requires Sound(b)
    ensures Elapsed(b, now) * b.rate >= 0.0
  {
  }

  lemma SpendStaysSound(b: Bucket, now: real)
    requires Sound(b)
    ensures Sound(Spend(b, now))
  {
    ElapsedEarns(b, now);
  }

  /** Tokens stay between zero and the rate over any run, whatever the clock does. */
  lemma {:induction false} TokensStayInRange(b: Bucket, times: seq<real>)
    requires Sound(b)
    ensures 0.0 <= After(b, times).tokens <= After(b, times).rate == b.rate
    decreases |times|
  {
    if times != [] {
      SpendStaysSound(b, times[0]);
      TokensStayInRange(Spend(b, times[0]), times[1..]);
    }
  }

  /** What the bucket earns over a run, not counting what overflows. */
  function Earned(b: Bucket, times: seq<real>): real
    decreases |times|
  {
    if times == [] then 0.0 else Elapsed(b, times[0]) * b.rate + Earned(Spend(b, times[0]), times[1..])
  }

  lemma SpendConserves(b: Bucket, now: real)
    requires Sound(b)
    ensures Spend(b, now).tokens + (if Allows(b, now) then 1.0 else 0.0) <= b.tokens + Elapsed(b, now) * b.rate
  {
  }

  /** What gets through, plus what is left, never exceeds what there was plus what was earned. */
  lemma {:induction false} Conservation(b: Bucket, times: seq<real>)
    requires Sound(b)
    ensures Allowed(b, times) as real + After(b, times).tokens <= b.tokens + Earned(b, times)
    decreases |times|
  {
    if times != [] {
      SpendStaysSound(b, times[0]);
      SpendConserves(b, times[0]);
      Conservation(Spend(b, times[0]), times[1..]);
    }
  }

  function EarnedIn(span: real, rate: real): real { span * rate }

  /** Along a clock that never goes back, the earnings are those of the time that passed. */
  lemma {:induction false} EarnedOverTime(b: Bucket, times: seq<real>, end: real)
    requires Ordered(times)
    requires if times == [] then end == b.last else b.last <= times[0] && end == times[|times| - 1]
    ensures Earned(b, times) == EarnedIn(end - b.last, b.rate)
    decreases |times|
  {
    if times != [] {
      EarnedOverTime(Spend(b, times[0]), times[1..], end);
      Distribute(end - times[0], times[0] - b.last, b.rate);
    }
  }

  lemma Distribute(x: real, y: real, r: real)
    ensures (x + y) * r == x * r + y * r
  {
  }

  /** Reading the clock first and spending at the same instant afterwards is the same. */
  lemma RefillFirst(b: Bucket, times: seq<real>) returns (full: Bucket)
    requires Sound(b) && times != []
    ensures full == Bucket(Refilled(b, times[0]), b.rate, times[0]) && Sound(full)
    ensures Allowed(full, times) == Allowed(b, times)
  {
    ElapsedEarns(b, times[0]);
    full := Bucket(Refilled(b, times[0]), b.rate, times[0]);
    assert Elapsed(full, times[0]) == 0.0;
    assert Refilled(full, times[0]) == Refilled(b, times[0]);
    assert Spend(full, times[0]) == Spend(b, times[0]);
  }

  /**
   * The budget: in any window of a run, at most rate * (1 + length of the window) events get
   * through, in whatever state the window finds the bucket.
   */
  lemma WindowBound(b: Bucket, times: seq<real>, length: real)
    requires Sound(b) && Ordered(times) && length >= 0.0
    requires times != [] ==> times[|times| - 1] - times[0] <= length
    ensures WithinBudget(Allowed(b, times), b.rate, length)
  {
    if times == [] {
      LongerWindow(b.rate, 0.0, length, 0.0, 0);
    } else {
      var full := RefillFirst(b, times);
      WindowFromFull(full, times, length);
    }
  }

  predicate WithinBudget(events: int, rate: real, length: real) {
    events as real <= rate * (1.0 + length)
  }

  lemma WindowFromFull(b: Bucket, times: seq<real>, length: real)
    requires Sound(b) && Ordered(times) && times != [] && b.last == times[0]
    requires times[|times| - 1] - times[0] <= length
    ensures WithinBudget(Allowed(b, times), b.rate, length)
  {
    var span := times[|times| - 1] - b.last;
    EarnedOverTime(b, times, times[|times| - 1]);
    SpentAtMost(b, times);
    LongerWindow(b.rate, span, length, Earned(b, times), Allowed(b, times));
  }

  lemma SpentAtMost(b: Bucket, times: seq<real>)
    requires Sound(b)
    ensures Allowed(b, times) as real <= b.rate + Earned(b, times)
  {
    Conservation(b, times);
    TokensStayInRange(b, times);
  }

  lemma LongerWindow(rate: real, span: real, length: real, earned: real, events: int)
    requires rate > 0.0 && 0.0 <= span <= length && earned == EarnedIn(span, rate)
    requires events as real <= rate + earned
    ensures WithinBudget(events, rate, length)
  {
    Distribute(span, length - span, rate);
    assert (length - span) * rate >= 0.0;
  }

  lemma FewerFit(a: int, b: int, rate: real, length: real)
    requires a <= b && WithinBudget(b, rate, length)
    ensures WithinBudget(a, rate, length)
  {
  }

  /** n events at the same instant. */
  function Repeated(now: real, n: nat): (times: seq<real>)
    ensures |times| == n && forall i :: 0 <= i < n ==> times[i] == now
  {
    seq(n, i => now)
  }

  function Min(a: int, b: int): int { if a < b then a else b }

  lemma {:induction false} BurstFromTokens(b: Bucket, n: nat)
    requires Sound(b)
    ensures Allowed(b, Repeated(b.last, n)) == Min(n, b.tokens.Floor)
    decreases n
  {
    if n > 0 {
      var times := Repeated(b.last, n);
      assert times[1..] == Repeated(b.last, n - 1);
      assert Elapsed(b, b.last) == 0.0 && Refilled(b, b.last) == b.tokens;
      SpendStaysSound(b, b.last);
      BurstFromTokens(Spend(b, b.last), n - 1);
    }
  }

  /** The tokens there are at `now`: what was left and what was earned since, up to the rate. */
  function TokensAt(b: Bucket, now: real): real {
    var tokens := b.tokens + EarnedIn(now - b.last, b.rate);
    if tokens < b.rate then tokens else b.rate
  }

  lemma RefilledIsTokensAt(b: Bucket, now: real)
    requires b.last <= now
    ensures Refilled(b, now) == TokensAt(b, now)
  {
    if now == b.last {
      assert EarnedIn(now - b.last, b.rate) == 0.0;
    }
  }

  lemma NoTimeEarnsNothing(b: Bucket, now: real)
    requires Sound(b) && now <= b.last
    ensures Refilled(b, now) == b.tokens
  {
    assert Elapsed(b, now) == 0.0;
  }

  lemma BurstOf(b: Bucket, now: real, n: nat)
    requires Sound(b)
    ensures Allowed(b, Repeated(now, n)) == Min(n, Refilled(b, now).Floor)
  {
    ElapsedEarns(b, now);
    if n > 0 {
      var full := RefillFirst(b, Repeated(now, n));
      BurstFromTokens(full, n);
    }
  }

  /**
   * Exactly how much of a burst gets through: as many events as there are whole tokens. A clock
   * that has gone back earns nothing.
   */
  lemma BurstLetsThrough(b: Bucket, now: real, n: nat)
    requires Sound(b)
    ensures b.last <= now ==> Allowed(b, Repeated(now, n)) == Min(n, TokensAt(b, now).Floor)
    ensures now <= b.last ==> Allowed(b, Repeated(now, n)) == Min(n, b.tokens.Floor)
  {
    BurstOf(b, now, n);
    if b.last <= now {
      RefilledIsTokensAt(b, now);
    }
    if now <= b.last {
      NoTimeEarnsNothing(b, now);
    }
  }

  lemma AQuietSecondEarnsTheRate(span: real, rate: real)
    requires span >= 1.0 && rate > 0.0
    ensures EarnedIn(span, rate) >= rate
  {
    Distribute(span - 1.0, 1.0, rate);
    assert (span - 1.0) * rate >= 0.0;
  }

  /** After a quiet second, and at the start of a session, a burst gets the whole rate through, and no more. */
  lemma BurstAfterQuiet(b: Bucket, now: real, n: nat, rate: real)
    requires Sound(b) && b.last + 1.0 <= now && rate > 0.0
    ensures Allowed(b, Repeated(now, n)) == Min(n, b.rate.Floor)
    ensures Allowed(Fresh(rate, now), Repeated(now, n)) == Min(n, rate.Floor)
  {
    BurstLetsThrough(b, now, n);
    AQuietSecondEarnsTheRate(now - b.last, b.rate);
    BurstFromTokens(Fresh(rate, now), n);
  }

  // ----- what a denied event costs --------------------------------------------------

  /** The events that get through, of those at the given times. */
  function Passed(b: Bucket, times: seq<real>): seq<real>
    decreases |times|
  {
    if times == [] then []
    else (if Allows(b, times[0]) then [times[0]] else []) + Passed(Spend(b, times[0]), times[1..])
  }

  lemma {:induction false} PassedAreEvents(b: Bucket, times: seq<real>, i: nat)
    requires i < |Passed(b, times)|
    ensures Passed(b, times)[i] in times
    decreases |times|
  {
    var rest := Passed(Spend(b, times[0]), times[1..]);
    var first := if Allows(b, times[0]) then 1 else 0;
    if i >= first {
      assert Passed(b, times)[i] == rest[i - first];
      PassedAreEvents(Spend(b, times[0]), times[1..], i - first);
    }
  }

  /** A bucket that denied an event is later as full as if it had not been asked. */
  lemma DenialIsForgotten(b: Bucket, denied: real, now: real)
    requires Sound(b) && b.last <= denied <= now && !Allows(b, denied)
    ensures Spend(Spend(b, denied), now) == Spend(b, now)
    ensures Allows(Spend(b, denied), now) <==> Allows(b, now)
  {
    var c := Spend(b, denied);
    RefilledIsTokensAt(b, denied);
    RefilledIsTokensAt(b, now);
    RefilledIsTokensAt(c, now);
    Distribute(denied - b.last, now - denied, b.rate);
    NeverLessLater(now - denied, b.rate);
  }

  lemma NeverLessLater(span: real, rate: real)
    requires span >= 0.0 && rate > 0.0
    ensures EarnedIn(span, rate) >= 0.0
  {
  }

  /**
   * Over every run whose clock does not go back, denied events cost nothing: the events that get
   * through are those that would have if no other had ever arrived, and then all of them do.
   */
  lemma {:induction false} DeniedEventsCostNothing(b: Bucket, times: seq<real>)
    requires Sound(b) && Ordered(times) && (times != [] ==> b.last <= times[0])
    ensures Allowed(b, Passed(b, times)) == |Passed(b, times)| == Allowed(b, times)
    decreases |times|
  {
    if times != [] {
      var c := Spend(b, times[0]);
      var rest := Passed(c, times[1..]);
      SpendStaysSound(b, times[0]);
      DeniedEventsCostNothing(c, times[1..]);
      if Allows(b, times[0]) {
        assert ([times[0]] + rest)[1..] == rest;
      } else {
        assert [] + rest == rest;
        if rest != [] {
          PassedAreEvents(c, times[1..], 0);
          DenialIsForgotten(b, times[0], rest[0]);
        }
      }
    }
  }

  predicate GapEarnsOne(times: seq<real>, i: nat, rate: real)
    requires i + 1 < |times|
  {
    times[i] < times[i + 1] && (times[i + 1] - times[i]) * rate >= 1.0
  }

  /** Consecutive events at least 1 / rate apart. */
  predicate Spaced(times: seq<real>, rate: real) {
    forall i: nat :: i + 1 < |times| ==> GapEarnsOne(times, i, rate)
  }

  lemma SpacedTail(times: seq<real>, rate: real)
    requires Spaced(times, rate) && times != []
    ensures Spaced(times[1..], rate)
  {
    forall i: nat | i + 1 < |times[1..]| ensures GapEarnsOne(times[1..], i, rate) {
      assert GapEarnsOne(times, i + 1, rate);
    }
  }

  lemma NextIsAllowed(b: Bucket, now: real)
    requires Sound(b) && b.rate >= 1.0 && b.last < now && (now - b.last) * b.rate >= 1.0
    ensures Allows(b, now)
  {
  }

  lemma {:induction false} SpacedEventsPass(b: Bucket, times: seq<real>)
    requires Sound(b) && b.rate >= 1.0 && Spaced(times, b.rate)
    requires times != [] ==> Allows(b, times[0])
    ensures Allowed(b, times) == |times|
    decreases |times|
  {
    if times != [] {
      var c := Spend(b, times[0]);
      SpendStaysSound(b, times[0]);
      SpacedTail(times, b.rate);
      if |times| > 1 {
        assert GapEarnsOne(times, 0, b.rate);
        NextIsAllowed(c, times[1]);
      }
      SpacedEventsPass(c, times[1..]);
    }
  }

  lemma {:induction false} SlowBucketNeverAllows(b: Bucket, times: seq<real>)
    requires Sound(b) && b.rate < 1.0
    ensures Allowed(b, times) == 0
    decreases |times|
  {
    if times != [] {
      SpendStaysSound(b, times[0]);
      SlowBucketNeverAllows(Spend(b, times[0]), times[1..]);
    }
  }

  /**
   * A session's events, kept 1 / rate apart, are all let through exactly when the rate is at
   * least one; below one the session accepts no input at all.
   */
  lemma SpacedEventsPassIffRateAtLeastOne(rate: real, start: real, times: seq<real>)
    requires rate > 0.0 && times != [] && Spaced(times, rate)
    ensures Allowed(Fresh(rate, start), times) == |times| <==> rate >= 1.0
    ensures rate < 1.0 ==> Allowed(Fresh(rate, start), times) == 0
  {
    var b := Fresh(rate, start);
    ElapsedEarns(b, times[0]);
    if rate >= 1.0 {
      SpacedEventsPass(b, times);
    } else {
      SlowBucketNeverAllows(b, times);
    }
  }

  // ----- one entry point for both transports -------------------------------------

  predicate IsGamepadMessage(data: Json) {
    data.kind == Some("gamepadbutton") || data.kind == Some("gamepadaxis")
  }

  /** The part of the session state that input touches. */
  class SessionInput {
    var inputTokens: real
    var inputRate: real
    var inputLastRefill: real
    var inputActivity: real
    const gamepad: RemoteGamepad?
    const gamepadDeadzone: real
    var compositor: bool
    var upstream: seq<Json>      // key and mouse events handed to the compositor element

    constructor (rate: real, now: real, gamepad: RemoteGamepad?, deadzone: real)
      requires rate > 0.0
      ensures View() == Fresh(rate, now) && Sound(View())
      ensures this.gamepad == gamepad && upstream == [] && !compositor
    {
      inputTokens, inputRate, inputLastRefill, inputActivity := rate, rate, now, now;
      this.gamepad, gamepadDeadzone := gamepad, deadzone;
      compositor, upstream := false, [];
    }

    function View(): Bucket
      reads this
    {
      Bucket(inputTokens, inputRate, inputLastRefill)
    }

    /** Records the event and says whether it is within the budget. */
    method NoteAndAllowInput(now: real) returns (allowed: bool)
      requires Sound(View())
      modifies this`inputTokens, this`inputLastRefill, this`inputActivity
      ensures View() == Spend(old(View()), now) && Sound(View())
      ensures allowed <==> Allows(old(View()), now)
      ensures inputActivity == now
    {
      SpendStaysSound(View(), now);
      inputActivity := now;
      var elapsed := if now > inputLastRefill then now - inputLastRefill else 0.0;
      inputLastRefill := now;
      var tokens := inputTokens + elapsed * inputRate;
      inputTokens := if tokens < inputRate then tokens else inputRate;
      if inputTokens >= 1.0 {
        inputTokens := inputTokens - 1.0;
        return true;
      }
      return false;
    }

    /**
     * Routes one message. Over budget it is dropped without any effect but the note; a gamepad
     * message reaches the pad, if there is one and it parses; anything else goes upstream.
     */
    method HandleInputMessage(now: real, data: Json)
      requires Sound(View()) && (gamepad != null ==> gamepad.Agrees())
      modifies this, gamepad, if gamepad == null then {} else {gamepad.axes}
      ensures View() == Spend(old(View()), now) && Sound(View())
      ensures inputActivity == now && compositor == old(compositor)
      ensures gamepad != null ==> gamepad.Agrees()
      ensures var allowed := old(Allows(View(), now));
              && (upstream == old(upstream) + if allowed && compositor && data.kind != Some("gamepadbutton")
                                                && data.kind != Some("gamepadaxis") then [data] else [])
              && (gamepad != null ==>
                    var event := ParseGamepadEvent(data, gamepadDeadzone);
                    if allowed && event.Some?
                    then gamepad.State() == Play(old(gamepad.State()), event.value)
                         && |gamepad.sent| <= |old(gamepad.sent)| + 1
                    else gamepad.State() == old(gamepad.State()) && gamepad.sent == old(gamepad.sent))
    {
      var allowed := NoteAndAllowInput(now);
      if !allowed {
        return;
      }
      if IsGamepadMessage(data) {
        var event := ParseGamepadEvent(data, gamepadDeadzone);
        if event.Some? && gamepad != null {
          gamepad.Apply(event.value);
        }
        return;
      }
      if compositor {
        upstream := upstream + [data];
      }
    }

    /** Packets sent to the pad, if there is one, and events handed to the compositor. */
    ghost function Output(): nat
      reads this, gamepad
    {
      |upstream| + if gamepad == null then 0 else |gamepad.sent|
    }

    /** One message of a burst: at most one packet or upstream event, and only within the budget. */
    method HandleAndCount(now: real, data: Json)
      requires Sound(View()) && (gamepad != null ==> gamepad.Agrees())
      modifies this, gamepad, if gamepad == null then {} else {gamepad.axes}
      ensures View() == Spend(old(View()), now) && Sound(View()) && (gamepad != null ==> gamepad.Agrees())
      ensures Output() - old(Output()) <= if old(Allows(View(), now)) then 1 else 0
    {
      HandleInputMessage(now, data);
    }

    /**
     * A burst of messages, from either transport, with or without a pad: the pad and the
     * compositor together get no more than the budget of the burst's window allows.
     */
    method HandleInputMessages(times: seq<real>, messages: seq<Json>, length: real)
      requires Sound(View()) && (gamepad != null ==> gamepad.Agrees())
      requires |times| == |messages| && Ordered(times) && length >= 0.0
      requires times != [] ==> times[|times| - 1] - times[0] <= length
      modifies this, gamepad, if gamepad == null then {} else {gamepad.axes}
      ensures (gamepad != null ==> gamepad.Agrees()) && Sound(View()) && inputRate == old(inputRate)
      ensures WithinBudget(Output() - old(Output()), inputRate, length)
    {
      ghost var bucket, before := View(), Output();
      for k := 0 to |times|
        invariant Sound(View()) && (gamepad != null ==> gamepad.Agrees()) && inputRate == bucket.rate
        invariant Output() - before + Allowed(View(), times[k..]) <= Allowed(bucket, times)
      {
        AllowedFrom(View(), times, k);
        HandleAndCount(times[k], messages[k]);
      }
      WindowBound(bucket, times, length);
      FewerFit(Output() - before, Allowed(bucket, times), inputRate, length);
    }
  }

  lemma AllowedFrom(b: Bucket, times: seq<real>, k: nat)
    requires k < |times|
    ensures Allowed(b, times[k..])
         == (if Allows(b, times[k]) then 1 else 0) + Allowed(Spend(b, times[k]), times[k + 1..])
  {
    assert times[k..][1..] == times[k + 1..];
  }
}
