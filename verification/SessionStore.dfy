/**
 * The session map, what a session owns, and the launch, stop and shutdown paths as each
 * runs when nothing else interferes. Module LaunchProtocol lets them interleave.
 *
 * Foreign subsystems are reduced to the set of resources that exist: a running compositor,
 * a loaded PulseAudio module, a container. Stopping and unloading succeed.
 */
module SessionStore {
  import opened Wrappers

  type Sid = string

  datatype Resource = Compositor(sid: Sid) | Sink(sid: Sid) | Container(sid: Sid)

  /** What one launch has acquired so far, or a session owns. */
  datatype Held = Held(compositor: bool, sink: bool, container: bool)

  const NOTHING := Held(false, false, false)

  datatype Launch = Launch(
    owner: string,
    title: string,
    appId: Option<string>,
    startCompositor: bool,
    startAudio: bool,
    wantsContainer: bool
  )

  datatype Session = Session(owner: string, title: string, appId: Option<string>, held: Held)

  /** A limit of zero means no limit. */
  datatype Config = Config(maxGlobal: nat, maxUser: nat, hasRuntime: bool)

  /** Which of the foreign calls of a launch succeed. */
  datatype Fate = Fate(stream: bool, compositor: bool, sink: bool, container: bool)

  function HeldOf(rs: set<Resource>, s: Sid): Held {
    Held(Compositor(s) in rs, Sink(s) in rs, Container(s) in rs)
  }

  function ResourcesOf(s: Sid, h: Held): set<Resource> {
    (if h.compositor then {Compositor(s)} else {})
    + (if h.sink then {Sink(s)} else {})
    + (if h.container then {Container(s)} else {})
  }

  function NewSession(launch: Launch, held: Held): Session {
    Session(launch.owner, launch.title, launch.appId, held)
  }

  // ----- conflicts and caps ---------------------------------------------------

  /** With an app_id the match is on it; without one, on the title among sessions without one. */
  predicate ConflictsWith(launch: Launch, s: Session) {
    match launch.appId
    case Some(_) => s.owner == launch.owner && s.appId == launch.appId
    case None => s.owner == launch.owner && s.title == launch.title && s.appId == None
  }

  function Conflicts(sessions: map<Sid, Session>, launch: Launch): set<Sid> {
    set s | s in sessions && ConflictsWith(launch, sessions[s])
  }

  /** Two sessions stand for the same running app of the same user. */
  predicate SameApp(a: Session, b: Session) {
    a.owner == b.owner && a.appId == b.appId && (a.appId == None ==> a.title == b.title)
  }

  ghost predicate UniqueApps(sessions: map<Sid, Session>) {
    forall s, t :: s in sessions && t in sessions && SameApp(sessions[s], sessions[t]) ==> s == t
  }

  /** A scope is the whole server, or one user. */
  predicate InScope(owner: string, scope: Option<string>) {
    scope.None? || owner == scope.value
  }

  /** The sessions a cap counts. */
  function Scoped(sessions: map<Sid, Session>, scope: Option<string>): set<Sid> {
    set s | s in sessions && InScope(sessions[s].owner, scope)
  }

  function Cap(cfg: Config, scope: Option<string>): nat {
    if scope == None then cfg.maxGlobal else cfg.maxUser
  }

  predicate RoomFor(cfg: Config, sessions: map<Sid, Session>, scope: Option<string>) {
    Cap(cfg, scope) == 0 || |Scoped(sessions, scope)| < Cap(cfg, scope)
  }

  predicate CapsAllow(cfg: Config, sessions: map<Sid, Session>, owner: string) {
    RoomFor(cfg, sessions, None) && RoomFor(cfg, sessions, Some(owner))
  }

  ghost predicate WithinCaps(cfg: Config, sessions: map<Sid, Session>) {
    forall scope: Option<string> :: Cap(cfg, scope) > 0 ==> |Scoped(sessions, scope)| <= Cap(cfg, scope)
  }

  lemma FewerSessionsCountLess(a: map<Sid, Session>, b: map<Sid, Session>, scope: Option<string>)
    requires a.Keys <= b.Keys && forall s :: s in a ==> a[s] == b[s]
    ensures |Scoped(a, scope)| <= |Scoped(b, scope)|
  {
    assert Scoped(a, scope) <= Scoped(b, scope);
    SubsetSize(Scoped(a, scope), Scoped(b, scope));
  }

  lemma {:induction false} SubsetSize<T>(a: set<T>, b: set<T>)
    requires a <= b
    ensures |a| <= |b|
  {
    assert b == a + (b - a);
  }

  lemma ScopedInsert(sessions: map<Sid, Session>, sid: Sid, s: Session, scope: Option<string>)
    requires sid !in sessions
    ensures Scoped(sessions[sid := s], scope)
         == if InScope(s.owner, scope) then Scoped(sessions, scope) + {sid} else Scoped(sessions, scope)
  {
  }

  /** Inserting a session counts one more where it is in scope, and nothing elsewhere. */
  lemma InsertCountsOne(sessions: map<Sid, Session>, sid: Sid, s: Session, scope: Option<string>)
    requires sid !in sessions
    ensures |Scoped(sessions[sid := s], scope)|
         == |Scoped(sessions, scope)| + if InScope(s.owner, scope) then 1 else 0
  {
    ScopedInsert(sessions, sid, s, scope);
  }

  /** What the launch holds when it reaches the map, or None if it gave up on the way. */
  function Acquired(cfg: Config, launch: Launch, fate: Fate): Option<Held> {
    if !fate.stream then None
    else if launch.startCompositor && !fate.compositor then None
    else if launch.wantsContainer && !(cfg.hasRuntime && fate.container) then None
    else Some(Held(launch.startCompositor, launch.startAudio && fate.sink, launch.wantsContainer))
  }

  /** The map once the sessions that conflict with a launch are stopped. */
  function WithoutConflicts(sessions: map<Sid, Session>, launch: Launch): map<Sid, Session> {
    sessions - Conflicts(sessions, launch)
  }

  lemma StopOneMore(sessions: map<Sid, Session>, all: set<Sid>, left: set<Sid>, sid: Sid)
    requires sid in left && left <= all
    ensures (sessions - (all - left)) - {sid} == sessions - (all - (left - {sid}))
  {
  }

  lemma FewerSessionsStayFine(cfg: Config, a: map<Sid, Session>, b: map<Sid, Session>)
    requires a.Keys <= b.Keys && forall s :: s in a ==> a[s] == b[s]
    ensures UniqueApps(b) ==> UniqueApps(a)
    ensures WithinCaps(cfg, b) ==> WithinCaps(cfg, a)
  {
    forall scope: Option<string> ensures |Scoped(a, scope)| <= |Scoped(b, scope)| {
      FewerSessionsCountLess(a, b, scope);
    }
  }

  /** A session inserted where nothing conflicts with its launch is the only one for its app. */
  lemma InsertKeepsUnique(sessions: map<Sid, Session>, sid: Sid, launch: Launch, held: Held)
    requires UniqueApps(sessions) && Conflicts(sessions, launch) == {}
    ensures UniqueApps(sessions[sid := NewSession(launch, held)])
  {
    forall s | s in sessions ensures !SameApp(sessions[s], NewSession(launch, held))
                                  && !SameApp(NewSession(launch, held), sessions[s]) {
      assert s !in Conflicts(sessions, launch);
    }
  }

  lemma InsertKeepsCaps(cfg: Config, sessions: map<Sid, Session>, sid: Sid, s: Session)
    requires WithinCaps(cfg, sessions) && sid !in sessions && CapsAllow(cfg, sessions, s.owner)
    ensures WithinCaps(cfg, sessions[sid := s])
  {
    forall scope: Option<string> | Cap(cfg, scope) > 0
      ensures |Scoped(sessions[sid := s], scope)| <= Cap(cfg, scope)
    {
      InsertCountsOne(sessions, sid, s, scope);
      assert scope == None || scope == Some(s.owner) || scope.value != s.owner;
    }
  }

  /** The check in numbers: a limit that is set leaves room if fewer sessions are counted than it allows. */
  lemma CapsAllowAsConfigured(cfg: Config, sessions: map<Sid, Session>, owner: string)
    ensures var own := set s | s in sessions && sessions[s].owner == owner;
            var room := (cfg.maxGlobal == 0 || |sessions| < cfg.maxGlobal) && (cfg.maxUser == 0 || |own| < cfg.maxUser);
            CapsAllow(cfg, sessions, owner) == room
  {
    assert Scoped(sessions, None) == sessions.Keys;
    assert Scoped(sessions, Some(owner)) == set s | s in sessions && sessions[s].owner == owner;
  }

  /**
   * A launch that comes through has exactly what it asked for, a sink only if it could be loaded;
   * and it fails only for want of something it asked for.
   */
  lemma AcquiredMeans(cfg: Config, launch: Launch, fate: Fate)
    ensures match Acquired(cfg, launch, fate)
            case Some(held) =>
              && held.compositor == launch.startCompositor && held.container == launch.wantsContainer
              && held.sink == (launch.startAudio && fate.sink) && (launch.wantsContainer ==> cfg.hasRuntime)
            case None =>
              || !fate.stream || (launch.startCompositor && !fate.compositor)
              || (launch.wantsContainer && (!cfg.hasRuntime || !fate.container))
  {
  }

  class AppState {
    const cfg: Config
    var sessions: map<Sid, Session>
    var resources: set<Resource>
    var launchedTotal: nat
    var active: int
    var stoppedTotal: nat

    constructor (cfg: Config)
      ensures Valid() && sessions == map[] && this.cfg == cfg
    {
      this.cfg := cfg;
      sessions, resources := map[], {};
      launchedTotal, active, stoppedTotal := 0, 0, 0;
    }

    /** Every resource is owned by a session in the map, and the gauges count the map. */
    ghost predicate Conserved()
      reads this
    {
      && (forall r :: r in resources <==> r.sid in sessions && r in ResourcesOf(r.sid, sessions[r.sid].held))
      && active == launchedTotal - stoppedTotal == |sessions|
    }

    ghost predicate Valid()
      reads this
    {
      Conserved() && UniqueApps(sessions) && WithinCaps(cfg, sessions)
    }

    /** Releases what a session that has already left the map owns. */
    method CleanupSession(sid: Sid, session: Session)
      modifies this`resources, this`active, this`stoppedTotal
      ensures resources == old(resources) - {Compositor(sid)} - ResourcesOf(sid, session.held)
      ensures active == old(active) - 1 && stoppedTotal == old(stoppedTotal) + 1
    {
      resources := resources - {Compositor(sid)};
      if session.held.container {
        resources := resources - {Container(sid)};
      }
      if session.held.sink {
        resources := resources - {Sink(sid)};
      }
      active := active - 1;
      stoppedTotal := stoppedTotal + 1;
    }

    /** Stops one session, or does nothing when it is already gone. */
    method StopSession(sid: Sid)
      requires Conserved()
      modifies this
      ensures Conserved()
      ensures sessions == old(sessions) - {sid}
      ensures sid !in old(sessions) ==> resources == old(resources) && stoppedTotal == old(stoppedTotal)
      ensures launchedTotal == old(launchedTotal)
    {
      if sid in sessions {
        var session := sessions[sid];
        sessions := sessions - {sid};
        CleanupSession(sid, session);
        assert |old(sessions).Keys - {sid}| == |old(sessions)| - 1;
        assert sessions.Keys == old(sessions).Keys - {sid};
      }
    }

    /** Takes the whole map, then cleans up each session it held. */
    method StopAllSessions()
      requires Conserved()
      modifies this
      ensures Conserved() && sessions == map[] && resources == {}
      ensures active == 0 && stoppedTotal == launchedTotal == old(launchedTotal)
    {
      var taken := sessions;
      sessions := map[];
      while taken != map[]
        invariant sessions == map[] && launchedTotal == old(launchedTotal)
        invariant forall r :: r in resources <==> r.sid in taken && r in ResourcesOf(r.sid, taken[r.sid].held)
        invariant active == launchedTotal - stoppedTotal == |taken|
        decreases |taken|
      {
        var sid :| sid in taken;
        CleanupSession(sid, taken[sid]);
        assert |taken.Keys - {sid}| == |taken| - 1;
        assert (taken - {sid}).Keys == taken.Keys - {sid};
        taken := taken - {sid};
      }
    }

    /** Stops every session that conflicts with the launch, in any order. */
    method StopConflicts(launch: Launch)
      requires Conserved()
      modifies this
      ensures Conserved()
      ensures sessions == WithoutConflicts(old(sessions), launch)
      ensures launchedTotal == old(launchedTotal)
    {
      var toStop := Conflicts(sessions, launch);
      ghost var all := toStop;
      while toStop != {}
        invariant Conserved() && launchedTotal == old(launchedTotal)
        invariant toStop <= all
        invariant sessions == old(sessions) - (all - toStop)
        decreases |toStop|
      {
        var sid :| sid in toStop;
        StopOneMore(old(sessions), all, toStop, sid);
        StopSession(sid);
        toStop := toStop - {sid};
      }
      assert all - {} == all;
    }

    /**
     * The acquisition part of a launch: every exit short of the map gives back what it took.
     */
    method AcquireResources(sid: Sid, launch: Launch, fate: Fate) returns (held: Option<Held>)
      requires HeldOf(resources, sid) == NOTHING
      modifies this`resources
      ensures held == Acquired(cfg, launch, fate)
      ensures resources == old(resources) + if held.Some? then ResourcesOf(sid, held.value) else {}
    {
      if !fate.stream {
        return None;
      }
      if launch.startCompositor {
        if !fate.compositor {
          return None;
        }
        resources := resources + {Compositor(sid)};
      }
      var sink := false;
      if launch.startAudio && fate.sink {
        resources := resources + {Sink(sid)};
        sink := true;
      }
      if launch.wantsContainer {
        if !cfg.hasRuntime || !fate.container {
          resources := resources - {Compositor(sid)};
          if sink {
            resources := resources - {Sink(sid)};
          }
          return None;
        }
        resources := resources + {Container(sid)};
      }
      return Some(Held(launch.startCompositor, sink, launch.wantsContainer));
    }

    /** The insert, and the counters after it. */
    method Register(sid: Sid, session: Session)
      requires sid !in sessions && active == launchedTotal - stoppedTotal == |sessions|
      requires forall r :: r in resources <==>
                 || (r.sid in sessions && r in ResourcesOf(r.sid, sessions[r.sid].held))
                 || r in ResourcesOf(sid, session.held)
      modifies this`sessions, this`launchedTotal, this`active
      ensures sessions == old(sessions)[sid := session]
      ensures launchedTotal == old(launchedTotal) + 1
      ensures Conserved()
    {
      assert |sessions[sid := session]| == |sessions| + 1;
      sessions := sessions[sid := session];
      launchedTotal := launchedTotal + 1;
      active := active + 1;
    }

    /**
     * A launch that runs alone: it replaces the conflicting sessions, respects both caps,
     * keeps one session per app, and leaks nothing on any exit.
     */
    method HandleLaunch(sid: Sid, launch: Launch, fate: Fate) returns (ok: bool)
      requires Valid() && sid !in sessions
      modifies this
      ensures Valid()
      ensures var kept := WithoutConflicts(old(sessions), launch);
              && (ok <==> CapsAllow(cfg, kept, launch.owner) && Acquired(cfg, launch, fate).Some?)
              && sessions == if ok then kept[sid := NewSession(launch, Acquired(cfg, launch, fate).value)] else kept
      ensures launchedTotal == old(launchedTotal) + if ok then 1 else 0
    {
      StopConflicts(launch);
      ghost var kept := sessions;
      FewerSessionsStayFine(cfg, kept, old(sessions));
      if !CapsAllow(cfg, sessions, launch.owner) {
        return false;
      }
      var held := AcquireResources(sid, launch, fate);
      if held == None {
        return false;
      }
      InsertKeepsUnique(kept, sid, launch, held.value);
      InsertKeepsCaps(cfg, kept, sid, NewSession(launch, held.value));
      Register(sid, NewSession(launch, held.value));
      return true;
    }
  }
}
