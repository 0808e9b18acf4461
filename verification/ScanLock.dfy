/**
 * The Redis lock around a library scan, with any number of tasks.
 *
 * A task is identified by the token it generates, tokens never repeating. Time is in
 * milliseconds. A key whose expiry has come counts as absent; a scan may take as long as it
 * likes, and a task that dies simply takes no further step.
 */
module ScanLock {
  type Library = string
  type Token = string

  const LOCK_TTL: nat := 3600 * 1000

  datatype Key = Key(value: Token, expires: nat)
  datatype Store = Store(keys: map<Library, Key>, now: nat)

  datatype Pc = Requested | Scanning(started: nat) | Releasing(started: nat) | AlreadyRunning | Done
  datatype Task = Task(library: Library, pc: Pc)

  datatype World = World(store: Store, tasks: map<Token, Task>)

  const START := World(Store(map[], 0), map[])

  datatype Event =
    | Begin(token: Token, library: Library)
    | Acquire(token: Token)
    | Finish(token: Token)
    | Release(token: Token)
    | Tick(delta: nat)

  // ----- Redis ------------------------------------------------------------------

  predicate Live(s: Store, library: Library) { library in s.keys && s.now < s.keys[library].expires }

  /** SET key value NX EX. */
  function SetNx(s: Store, library: Library, token: Token): Store {
    if Live(s, library) then s else s.(keys := s.keys[library := Key(token, s.now + LOCK_TTL)])
  }

  /** Deletes the key if it still holds the token. */
  function CompareDelete(s: Store, library: Library, token: Token): Store {
    if Live(s, library) && s.keys[library].value == token then s.(keys := s.keys - {library}) else s
  }

  // ----- steps ------------------------------------------------------------------

  function At(w: World, t: Token, store: Store, pc: Pc): World
    requires t in w.tasks
  {
    World(store, w.tasks[t := w.tasks[t].(pc := pc)])
  }

  function Step(w: World, e: Event): World {
    match e
    case Begin(t, library) => if t in w.tasks then w else w.(tasks := w.tasks[t := Task(library, Requested)])
    case Acquire(t) =>
      if t !in w.tasks || !w.tasks[t].pc.Requested? then w
      else if Live(w.store, w.tasks[t].library) then At(w, t, w.store, AlreadyRunning)
      else At(w, t, SetNx(w.store, w.tasks[t].library, t), Scanning(w.store.now))
    case Finish(t) =>
      if t !in w.tasks || !w.tasks[t].pc.Scanning? then w
      else At(w, t, w.store, Releasing(w.tasks[t].pc.started))
    case Release(t) =>
      if t !in w.tasks || !w.tasks[t].pc.Releasing? then w
      else At(w, t, CompareDelete(w.store, w.tasks[t].library, t), Done)
    case Tick(d) => w.(store := w.store.(now := w.store.now + d))
  }

  function Exec(w: World, es: seq<Event>): World
    decreases |es|
  {
    if es == [] then w else Exec(Step(w, es[0]), es[1..])
  }

  // ----- the invariant ------------------------------------------------------------

  predicate Holding(w: World, t: Token) {
    t in w.tasks && (w.tasks[t].pc.Scanning? || w.tasks[t].pc.Releasing?)
  }

  /** The task has the lock and its time is not up. */
  predicate Fresh(w: World, t: Token) { Holding(w, t) && w.store.now < w.tasks[t].pc.started + 3_600_000 }

  predicate StartedInThePast(w: World, t: Token) { Holding(w, t) ==> w.tasks[t].pc.started <= w.store.now }

  predicate FreshHoldsKey(w: World, t: Token) {
    Fresh(w, t) ==>
      w.tasks[t].library in w.store.keys
      && w.store.keys[w.tasks[t].library] == Key(t, w.tasks[t].pc.started + LOCK_TTL)
  }

  predicate LiveKeyIsHeld(w: World, library: Library) {
    Live(w.store, library) ==>
      var t := w.store.keys[library].value;
      Fresh(w, t) && w.tasks[t].library == library
  }

  predicate Apart(w: World, t: Token, u: Token) {
    t != u && Holding(w, t) && Holding(w, u) && w.tasks[t].library == w.tasks[u].library ==>
      w.tasks[t].pc.started + 3_600_000 <= w.tasks[u].pc.started
      || w.tasks[u].pc.started + 3_600_000 <= w.tasks[t].pc.started
  }

  ghost predicate Inv(w: World) {
    && (forall t :: StartedInThePast(w, t))
    && (forall t :: FreshHoldsKey(w, t))
    && (forall library :: LiveKeyIsHeld(w, library))
    && (forall t, u :: Apart(w, t, u))
  }

  lemma StepKeepsFreshHoldsKey(w: World, e: Event, t: Token)
    requires Inv(w)
    ensures StartedInThePast(Step(w, e), t) && FreshHoldsKey(Step(w, e), t)
  {
    assert StartedInThePast(w, t) && FreshHoldsKey(w, t);
  }

  lemma StepKeepsLiveKeyIsHeld(w: World, e: Event, library: Library)
    requires Inv(w)
    ensures LiveKeyIsHeld(Step(w, e), library)
  {
    assert LiveKeyIsHeld(w, library);
    if library in w.store.keys {
      assert FreshHoldsKey(w, w.store.keys[library].value);
    }
  }

  lemma StepKeepsApart(w: World, e: Event, t: Token, u: Token)
    requires Inv(w)
    ensures Apart(Step(w, e), t, u)
  {
    assert Apart(w, t, u);
    assert FreshHoldsKey(w, t) && FreshHoldsKey(w, u);
  }

  lemma StepKeepsInv(w: World, e: Event)
    requires Inv(w)
    ensures Inv(Step(w, e))
  {
    forall t ensures StartedInThePast(Step(w, e), t) && FreshHoldsKey(Step(w, e), t) {
      StepKeepsFreshHoldsKey(w, e, t);
    }
    forall library ensures LiveKeyIsHeld(Step(w, e), library) {
      StepKeepsLiveKeyIsHeld(w, e, library);
    }
    forall t, u ensures Apart(Step(w, e), t, u) {
      StepKeepsApart(w, e, t, u);
    }
  }

  lemma {:induction false} ExecKeepsInv(w: World, es: seq<Event>)
    requires Inv(w)
    ensures Inv(Exec(w, es))
    decreases |es|
  {
    if es != [] {
      StepKeepsInv(w, es[0]);
      ExecKeepsInv(Step(w, es[0]), es[1..]);
    }
  }

  // ----- over every run -------------------------------------------------------------

  /** On every schedule, two tasks that have the lock of one library got it an hour or more apart. */
  lemma StartsAreAnHourApart(es: seq<Event>, t: Token, u: Token)
    ensures Apart(Exec(START, es), t, u)
  {
    ExecKeepsInv(START, es);
  }

  /**
   * Two scans of one library that are both within their hour are the same scan, however tasks,
   * retries and time are interleaved, and whatever has become of any other holder.
   */
  lemma ScansWithinTheHourNeverOverlap(es: seq<Event>, t: Token, u: Token)
    requires Fresh(Exec(START, es), t) && Fresh(Exec(START, es), u)
    requires Exec(START, es).tasks[t].library == Exec(START, es).tasks[u].library
    ensures t == u
  {
    ExecKeepsInv(START, es);
    assert FreshHoldsKey(Exec(START, es), t) && FreshHoldsKey(Exec(START, es), u);
  }

  /** The lock is taken exactly while some holder's hour is not up, and names that holder. */
  lemma LockedIffSomeHolderIsFresh(es: seq<Event>, library: Library)
    ensures var w := Exec(START, es);
            Live(w.store, library) <==> exists t :: Fresh(w, t) && w.tasks[t].library == library
  {
    ExecKeepsInv(START, es);
    var w := Exec(START, es);
    assert LiveKeyIsHeld(w, library);
    if t :| Fresh(w, t) && w.tasks[t].library == library {
      assert FreshHoldsKey(w, t);
    }
  }

  /**
   * A waiting task gets the lock if and only if no holder of that library is fresh: so a lock is
   * never stuck for more than an hour, and a scan that overruns the hour can be joined by another.
   */
  lemma AcquiresIffNoFreshHolder(es: seq<Event>, t: Token)
    requires t in Exec(START, es).tasks && Exec(START, es).tasks[t].pc.Requested?
    ensures var w := Exec(START, es);
            Step(w, Acquire(t)).tasks[t].pc
              == (if exists u :: Fresh(w, u) && w.tasks[u].library == w.tasks[t].library then AlreadyRunning
                  else Scanning(w.store.now))
  {
    LockedIffSomeHolderIsFresh(es, Exec(START, es).tasks[t].library);
  }

  /** Releasing never takes another holder's lock away, even after an overrun. */
  lemma ReleaseSparesOtherHolders(es: seq<Event>, t: Token, u: Token)
    requires t != u && Fresh(Exec(START, es), u)
    ensures var w := Exec(START, es);
            var after := Step(w, Release(t));
            && Fresh(after, u) && Live(after.store, w.tasks[u].library)
            && after.store.keys[w.tasks[u].library] == w.store.keys[w.tasks[u].library]
            && after.store.keys[w.tasks[u].library].value == u
  {
    ExecKeepsInv(START, es);
    assert FreshHoldsKey(Exec(START, es), u);
  }

  /** Releasing frees the lock at once when the holder is still within its hour. */
  lemma ReleaseFreesOwnLock(es: seq<Event>, t: Token)
    requires Fresh(Exec(START, es), t) && Exec(START, es).tasks[t].pc.Releasing?
    ensures !Live(Step(Exec(START, es), Release(t)).store, Exec(START, es).tasks[t].library)
  {
    ExecKeepsInv(START, es);
    assert FreshHoldsKey(Exec(START, es), t);
  }

  function Overrun(t: Token, u: Token, library: Library): seq<Event> {
    [Begin(t, library), Acquire(t), Tick(LOCK_TTL), Begin(u, library), Acquire(u)]
  }

  /** The hour is what mutual exclusion rests on: a scan that overruns it does get company. */
  lemma AnOverrunAdmitsASecondScan(t: Token, u: Token, library: Library)
    requires t != u
    ensures var w := Exec(START, Overrun(t, u, library));
            w.tasks.Keys == {t, u} && w.tasks[t].pc.Scanning? && w.tasks[u].pc.Scanning?
            && w.tasks[t].library == w.tasks[u].library
  {
    var es := Overrun(t, u, library);
    var w1 := Step(START, es[0]);
    var w2 := Step(w1, es[1]);
    var w3 := Step(w2, es[2]);
    var w4 := Step(w3, es[3]);
    var w5 := Step(w4, es[4]);
    assert es[1..][0] == es[1] && es[1..][1..] == es[2..];
    assert es[2..][0] == es[2] && es[2..][1..] == es[3..];
    assert es[3..][0] == es[3] && es[3..][1..] == es[4..];
    assert es[4..][0] == es[4] && es[4..][1..] == [];
    assert Exec(START, es) == Exec(w1, es[1..]) == Exec(w2, es[2..])
        == Exec(w3, es[3..]) == Exec(w4, es[4..]) == Exec(w5, []);
    assert w5.tasks[t].pc == Scanning(0) && w5.tasks[u].pc == Scanning(LOCK_TTL);
  }

  // ----- the task ---------------------------------------------------------------------

  datatype LibraryState = Missing | Disabled | Enabled
  datatype Status = RunningElsewhere | Skipped | Completed

  /** No event of the schedule is a step of task `t`. */
  predicate Others(es: seq<Event>, t: Token) {
    forall i :: 0 <= i < |es| ==> es[i].Tick? || es[i].token != t
  }

  /** Redis and the tasks that use it. */
  class Cluster {
    var world: World

    constructor ()
      ensures world == START
    {
      world := START;
    }

    method SetNxEx(library: Library, token: Token) returns (acquired: bool)
      modifies this
      ensures acquired == !Live(old(world.store), library)
      ensures world == old(world).(store := SetNx(old(world.store), library, token))
    {
      var s := world.store;
      acquired := !(library in s.keys && s.now < s.keys[library].expires);
      if acquired {
        world := world.(store := s.(keys := s.keys[library := Key(token, s.now + LOCK_TTL)]));
      }
    }

    method EvalCompareDelete(library: Library, token: Token) returns (deleted: bool)
      modifies this
      ensures deleted == (Live(old(world.store), library) && old(world.store.keys[library].value) == token)
      ensures world == old(world).(store := CompareDelete(old(world.store), library, token))
    {
      var s := world.store;
      deleted := library in s.keys && s.now < s.keys[library].expires && s.keys[library].value == token;
      if deleted {
        world := world.(store := s.(keys := s.keys - {library}));
      }
    }

    method Meanwhile(others: seq<Event>)
      modifies this
      ensures world == Exec(old(world), others)
    {
      var i := 0;
      while i < |others|
        invariant 0 <= i <= |others|
        invariant Exec(world, others[i..]) == Exec(old(world), others)
      {
        assert others[i..][1..] == others[i + 1..];
        world := Step(world, others[i]);
        i := i + 1;
      }
    }

    /**
     * One task from start to end, whatever others do during its scan: it is the run of its own
     * steps around theirs, and nothing of it is left in the store afterwards.
     */
    method ScanChangedLibrary(library: Library, token: Token, state: LibraryState, others: seq<Event>)
      returns (status: Status)
      requires Inv(world) && token !in world.tasks && Others(others, token)
      modifies this
      ensures status == if Live(old(world.store), library) then RunningElsewhere
                        else if state == Enabled then Completed else Skipped
      ensures status == RunningElsewhere ==> world == Exec(old(world), [Begin(token, library), Acquire(token)])
      ensures status != RunningElsewhere ==>
                world == Exec(Exec(Exec(old(world), [Begin(token, library), Acquire(token)]), others),
                              [Finish(token), Release(token)])
      ensures Inv(world)
      ensures Live(world.store, library) ==> world.store.keys[library].value != token
    {
      ghost var start := world;
      world := Step(world, Begin(token, library));
      StepKeepsInv(start, Begin(token, library));
      ghost var begun := world;
      var acquired := SetNxEx(library, token);
      TwoSteps(start, Begin(token, library), Acquire(token));
      StepKeepsInv(begun, Acquire(token));
      if !acquired {
        world := At(world, token, world.store, AlreadyRunning);
        assert LiveKeyIsHeld(world, library);
        return RunningElsewhere;
      }
      world := At(world, token, world.store, Scanning(world.store.now));
      ghost var acquiredAt := world;
      Meanwhile(others);
      ExecKeepsInv(acquiredAt, others);
      OthersLeaveTheTask(acquiredAt, others, token);
      status := if state == Enabled then Completed else Skipped;
      ghost var scanned := world;
      world := At(world, token, world.store, Releasing(world.tasks[token].pc.started));
      StepKeepsInv(scanned, Finish(token));
      ghost var finished := world;
      var deleted := EvalCompareDelete(library, token);
      world := At(world, token, world.store, Done);
      TwoSteps(scanned, Finish(token), Release(token));
      StepKeepsInv(finished, Release(token));
      assert LiveKeyIsHeld(world, library);
    }
  }

  lemma TwoSteps(w: World, a: Event, b: Event)
    ensures Exec(w, [a, b]) == Step(Step(w, a), b)
  {
    assert [a, b][1..] == [b] && [b][1..] == [];
    assert Exec(w, [a, b]) == Exec(Step(w, a), [b]) == Exec(Step(Step(w, a), b), []);
  }

  lemma {:induction false} OthersLeaveTheTask(w: World, es: seq<Event>, t: Token)
    requires t in w.tasks && Others(es, t)
    ensures t in Exec(w, es).tasks && Exec(w, es).tasks[t] == w.tasks[t]
    decreases |es|
  {
    if es != [] {
      OthersLeaveTheTask(Step(w, es[0]), es[1..], t);
    }
  }
}
