/**
 * The sweep that removes containers no session owns.
 *
 * The container runtime is the list of containers it holds; removing by name removes whatever
 * carries that name. Clock readings are real seconds, which the sweep and the runtime both
 * cut to whole seconds.
 */
module OrphanSweep {
  import opened Wrappers

  const CONTAINER_PREFIX := "lightrays-"
  const SWEEP_MIN_AGE := 120

  const I64_MAX := 0x7FFF_FFFF_FFFF_FFFF
  const I64_MIN := -0x8000_0000_0000_0000

  type i64 = x: int | I64_MIN <= x <= I64_MAX

  datatype Container = Container(names: Option<seq<string>>, created: Option<i64>)

  // ----- names ------------------------------------------------------------------

  function StripSlash(n: string): string {
    if n != "" && n[0] == '/' then n[1..] else n
  }

  predicate Reserved(n: string) { CONTAINER_PREFIX <= n }

  /** The first name in the reserved namespace, once a leading slash is gone. */
  function FirstReserved(names: seq<string>): Option<string>
    decreases |names|
  {
    if names == [] then None
    else if Reserved(StripSlash(names[0])) then Some(StripSlash(names[0]))
    else FirstReserved(names[1..])
  }

  function SweepName(c: Container): Option<string> {
    if c.names.None? then None else FirstReserved(c.names.value)
  }

  predicate Carries(c: Container, name: string) {
    c.names.Some? && exists i :: 0 <= i < |c.names.value| && StripSlash(c.names.value[i]) == name
  }

  lemma {:induction false} FirstReservedIsAName(names: seq<string>)
    ensures FirstReserved(names).Some? <==> exists i :: 0 <= i < |names| && Reserved(StripSlash(names[i]))
    ensures FirstReserved(names).Some? ==>
              Reserved(FirstReserved(names).value)
              && exists i :: 0 <= i < |names| && StripSlash(names[i]) == FirstReserved(names).value
    decreases |names|
  {
    if names != [] && !Reserved(StripSlash(names[0])) {
      FirstReservedIsAName(names[1..]);
      forall i | 0 <= i < |names| && Reserved(StripSlash(names[i]))
        ensures exists j :: 0 <= j < |names[1..]| && Reserved(StripSlash(names[1..][j]))
      {
        assert names[1..][i - 1] == names[i];
      }
    }
  }

  lemma SweepNameIsCarried(c: Container)
    ensures SweepName(c).Some? ==> Carries(c, SweepName(c).value) && Reserved(SweepName(c).value)
    ensures SweepName(c).Some? <==> exists n :: Carries(c, n) && Reserved(n)
  {
    if c.names.Some? {
      FirstReservedIsAName(c.names.value);
      if i :| 0 <= i < |c.names.value| && Reserved(StripSlash(c.names.value[i])) {
        assert Carries(c, StripSlash(c.names.value[i]));
      }
    }
  }

  /** The runtime reports names with a leading slash; with it or without, it is the same name. */
  lemma ReportedNames(c: Container, n: string)
    requires n == "" || n[0] != '/'
    ensures Carries(c, n) <==> c.names.Some? && (n in c.names.value || "/" + n in c.names.value)
  {
    assert StripSlash("/" + n) == n == StripSlash(n);
    if c.names.Some? {
      if i :| 0 <= i < |c.names.value| && StripSlash(c.names.value[i]) == n {
        assert c.names.value[i] == n || c.names.value[i] == "/" + n;
      }
      if "/" + n in c.names.value {
        var i :| 0 <= i < |c.names.value| && c.names.value[i] == "/" + n;
        assert StripSlash(c.names.value[i]) == n;
      }
    }
  }

  /** A container of one session is found under the name the launch gave it. */
  lemma LaunchedContainerIsFound(session: string, created: Option<i64>)
    ensures SweepName(Container(Some(["/lightrays-" + session]), created)) == Some("lightrays-" + session)
    ensures SweepName(Container(Some(["lightrays-" + session]), created)) == Some("lightrays-" + session)
  {
    var n := "lightrays-" + session;
    assert "/lightrays-" + session == "/" + n;
    assert StripSlash("/" + n) == n == StripSlash(n) && Reserved(n);
    assert FirstReserved(["/" + n]) == Some(n);
  }

  /** As the runtime writes it: a name in the reserved namespace. */
  predicate ReportedReserved(reported: string) {
    "lightrays-" <= reported || "/lightrays-" <= reported
  }

  lemma ReservedAsReported(reported: string)
    ensures Reserved(StripSlash(reported)) <==> ReportedReserved(reported)
  {
    if reported != "" && reported[0] == '/' {
      assert reported == "/" + reported[1..];
      assert "/lightrays-" == "/" + "lightrays-";
      assert "lightrays-" <= reported[1..] <==> "/lightrays-" <= reported;
    }
  }

  /** Of several names, the first reserved one is what the sweep goes by. */
  lemma {:induction false} FirstReportedNameDecides(names: seq<string>, k: nat)
    requires k < |names| && ReportedReserved(names[k])
    requires forall i :: 0 <= i < k ==> !ReportedReserved(names[i])
    ensures FirstReserved(names) == Some(if "/" <= names[k] then names[k][1..] else names[k])
    decreases k
  {
    ReservedAsReported(names[0]);
    if k > 0 {
      FirstReportedNameDecides(names[1..], k - 1);
    }
  }

  lemma ReservedCarriedAsReported(c: Container)
    ensures (exists n :: Carries(c, n) && Reserved(n))
       <==> c.names.Some? && exists i :: 0 <= i < |c.names.value| && ReportedReserved(c.names.value[i])
  {
    if n :| Carries(c, n) && Reserved(n) {
      var i :| 0 <= i < |c.names.value| && StripSlash(c.names.value[i]) == n;
      ReservedAsReported(c.names.value[i]);
    }
    if c.names.Some? {
      if i :| 0 <= i < |c.names.value| && ReportedReserved(c.names.value[i]) {
        ReservedAsReported(c.names.value[i]);
        assert Carries(c, StripSlash(c.names.value[i]));
      }
    }
  }

  // ----- age --------------------------------------------------------------------

  function SaturatingSub(a: i64, b: i64): i64 {
    if a - b > I64_MAX then I64_MAX else if a - b < I64_MIN then I64_MIN else a - b
  }

  predicate TooYoung(c: Container, minAge: i64, now: i64) {
    minAge > 0 && c.created.Some? && SaturatingSub(now, c.created.value) < minAge
  }

  predicate Orphan(c: Container, active: set<string>, minAge: i64, now: i64) {
    SweepName(c).Some? && SweepName(c).value !in active && !TooYoung(c, minAge, now)
  }

  /** Saturation never changes which containers are old enough. */
  lemma AgeIsExact(c: Container, minAge: i64, now: i64)
    ensures TooYoung(c, minAge, now) <==> minAge > 0 && c.created.Some? && now < c.created.value + minAge
  {
  }

  // ----- the sweep --------------------------------------------------------------

  predicate CarriesAny(c: Container, names: set<string>) { exists n :: n in names && Carries(c, n) }

  /** What is left of `cs` once everything carrying a doomed name is gone. */
  function Survivors(cs: seq<Container>, doomed: set<string>): seq<Container>
    decreases |cs|
  {
    if cs == [] then []
    else (if CarriesAny(cs[0], doomed) then [] else [cs[0]]) + Survivors(cs[1..], doomed)
  }

  /** The names the sweep stops, of those whose removal the runtime carries out. */
  function Doomed(cs: seq<Container>, active: set<string>, minAge: i64, now: i64, works: set<string>): set<string>
    decreases |cs|
  {
    if cs == [] then {}
    else Doomed(cs[..|cs| - 1], active, minAge, now, works)
         + var c := cs[|cs| - 1];
           if Orphan(c, active, minAge, now) && SweepName(c).value in works then {SweepName(c).value} else {}
  }

  function Orphans(cs: seq<Container>, active: set<string>, minAge: i64, now: i64): nat
    decreases |cs|
  {
    if cs == [] then 0
    else Orphans(cs[..|cs| - 1], active, minAge, now) + if Orphan(cs[|cs| - 1], active, minAge, now) then 1 else 0
  }

  lemma {:induction false} StoppingDoomsOneMore(cs: seq<Container>, doomed: set<string>, name: string)
    ensures Survivors(Survivors(cs, doomed), {name}) == Survivors(cs, doomed + {name})
    decreases |cs|
  {
    if cs != [] {
      StoppingDoomsOneMore(cs[1..], doomed, name);
      var rest := Survivors(cs[1..], doomed);
      assert ([cs[0]] + rest)[1..] == rest && [] + rest == rest;
      assert Survivors(cs, doomed) == if CarriesAny(cs[0], doomed) then rest else [cs[0]] + rest;
      assert CarriesAny(cs[0], doomed + {name}) <==> CarriesAny(cs[0], doomed) || CarriesAny(cs[0], {name}) by {
        if n :| n in doomed && Carries(cs[0], n) {
          assert n in doomed + {name};
        }
        if Carries(cs[0], name) {
          assert name in doomed + {name} && name in {name};
        }
      }
    }
  }

  lemma {:induction false} NothingDoomed(cs: seq<Container>)
    ensures Survivors(cs, {}) == cs
    decreases |cs|
  {
    if cs != [] {
      NothingDoomed(cs[1..]);
    }
  }

  class DockerRunner {
    var containers: seq<Container>

    constructor (cs: seq<Container>)
      ensures containers == cs
    {
      containers := cs;
    }

    /** Stops and removes by name. A runtime that fails to is only logged. */
    method StopContainer(name: string, works: set<string>)
      modifies this
      ensures containers == if name in works then Survivors(old(containers), {name}) else old(containers)
    {
      if name in works {
        var kept: seq<Container> := [];
        for i := 0 to |containers|
          invariant containers == old(containers)
          invariant kept + Survivors(containers[i..], {name}) == Survivors(containers, {name})
        {
          ghost var rest := Survivors(containers[i + 1..], {name});
          assert containers[i..][1..] == containers[i + 1..];
          if !Carries(containers[i], name) {
            kept := kept + [containers[i]];
          } else {
            assert name in {name} && Carries(containers[i..][0], name);
          }
        }
        containers := kept;
      }
    }

    /** `listed` says whether the runtime answered; `now` is the whole-second clock. */
    method SweepOrphanContainers(active: set<string>, minAge: i64, now: i64, listed: bool, works: set<string>)
      returns (removed: nat)
      modifies this
      ensures !listed ==> removed == 0 && containers == old(containers)
      ensures listed ==> removed == Orphans(old(containers), active, minAge, now)
      ensures listed ==> containers == Survivors(old(containers), Doomed(old(containers), active, minAge, now, works))
    {
      if !listed {
        return 0;
      }
      var listing := containers;
      removed := 0;
      NothingDoomed(listing);
      for i := 0 to |listing|
        invariant removed == Orphans(listing[..i], active, minAge, now)
        invariant containers == Survivors(listing, Doomed(listing[..i], active, minAge, now, works))
      {
        var c := listing[i];
        assert listing[..i + 1][..i] == listing[..i];
        ghost var before := Doomed(listing[..i], active, minAge, now, works);
        assert before + {} == before;
        var name := SweepName(c);
        if name.None? || name.value in active {
          continue;
        }
        if minAge > 0 && c.created.Some? {
          var age := SaturatingSub(now, c.created.value);
          if age < minAge {
            continue;
          }
        }
        StoppingDoomsOneMore(listing, before, name.value);
        StopContainer(name.value, works);
        removed := removed + 1;
      }
      assert listing[..|listing|] == listing;
    }
  }

  // ----- safety and completeness --------------------------------------------------

  /** No two containers carry the same name. */
  ghost predicate UniqueNames(cs: seq<Container>) {
    forall i, j, n :: 0 <= i < |cs| && 0 <= j < |cs| && Carries(cs[i], n) && Carries(cs[j], n) ==> i == j
  }

  lemma {:induction false} DoomedAreOrphans(cs: seq<Container>, active: set<string>, minAge: i64, now: i64,
                                           works: set<string>, n: string)
    ensures n in Doomed(cs, active, minAge, now, works)
       <==> n in works && exists i :: 0 <= i < |cs| && Orphan(cs[i], active, minAge, now) && SweepName(cs[i]).value == n
    decreases |cs|
  {
    if cs != [] {
      var front := cs[..|cs| - 1];
      DoomedAreOrphans(front, active, minAge, now, works, n);
      assert forall i :: 0 <= i < |front| ==> front[i] == cs[i];
    }
  }

  lemma {:induction false} SurvivorsCarryNoDoomedName(cs: seq<Container>, doomed: set<string>, c: Container)
    ensures c in Survivors(cs, doomed) <==> c in cs && !CarriesAny(c, doomed)
    decreases |cs|
  {
    if cs != [] {
      SurvivorsCarryNoDoomedName(cs[1..], doomed, c);
      assert c in cs <==> c == cs[0] || c in cs[1..];
    }
  }

  /**
   * Whatever the runtime holds: a container with no name in the reserved namespace is never
   * touched, and where removal works nothing the sweep calls an orphan is left.
   */
  lemma ForeignContainersAreUntouched(cs: seq<Container>, active: set<string>, minAge: i64, now: i64,
                                      works: set<string>, c: Container)
    requires c in cs
    requires forall n :: Carries(c, n) ==> !Reserved(n)
    ensures c in Survivors(cs, Doomed(cs, active, minAge, now, works))
  {
    var doomed := Doomed(cs, active, minAge, now, works);
    SurvivorsCarryNoDoomedName(cs, doomed, c);
    forall n | n in doomed ensures Reserved(n) {
      DoomedAreOrphans(cs, active, minAge, now, works, n);
      var i :| 0 <= i < |cs| && Orphan(cs[i], active, minAge, now) && SweepName(cs[i]).value == n;
      SweepNameIsCarried(cs[i]);
    }
  }

  /**
   * When names are unique, exactly the orphans whose removal works disappear: every reserved
   * container outside the active set that is old enough, or has no known creation time, and
   * nothing else.
   */
  lemma SweepRemovesExactlyTheOrphans(cs: seq<Container>, active: set<string>, minAge: i64, now: i64,
                                      works: set<string>, k: nat)
    requires k < |cs| && UniqueNames(cs)
    ensures cs[k] !in Survivors(cs, Doomed(cs, active, minAge, now, works))
       <==> Orphan(cs[k], active, minAge, now) && SweepName(cs[k]).value in works
  {
    var doomed := Doomed(cs, active, minAge, now, works);
    SurvivorsCarryNoDoomedName(cs, doomed, cs[k]);
    SweepNameIsCarried(cs[k]);
    if Orphan(cs[k], active, minAge, now) {
      DoomedAreOrphans(cs, active, minAge, now, works, SweepName(cs[k]).value);
    }
    if n :| n in doomed && Carries(cs[k], n) {
      DoomedAreOrphans(cs, active, minAge, now, works, n);
      var i :| 0 <= i < |cs| && Orphan(cs[i], active, minAge, now) && SweepName(cs[i]).value == n;
      SweepNameIsCarried(cs[i]);
    }
  }

  lemma {:induction false} SurvivorsOfLast(cs: seq<Container>, c: Container, doomed: set<string>)
    ensures Survivors(cs + [c], doomed) == Survivors(cs, doomed) + if CarriesAny(c, doomed) then [] else [c]
    decreases |cs|
  {
    if cs != [] {
      SurvivorsOfLast(cs[1..], c, doomed);
      assert (cs + [c])[1..] == cs[1..] + [c];
    }
  }

  lemma {:induction false} CountMatches(cs: seq<Container>, doomed: set<string>, active: set<string>,
                                        minAge: i64, now: i64)
    requires forall i :: 0 <= i < |cs| ==> (CarriesAny(cs[i], doomed) <==> Orphan(cs[i], active, minAge, now))
    ensures |Survivors(cs, doomed)| + Orphans(cs, active, minAge, now) == |cs|
    decreases |cs|
  {
    if cs != [] {
      var front := cs[..|cs| - 1];
      assert front + [cs[|cs| - 1]] == cs;
      CountMatches(front, doomed, active, minAge, now);
      SurvivorsOfLast(front, cs[|cs| - 1], doomed);
    }
  }

  /** Where the orphans are among the first n containers. */
  function OrphansAt(cs: seq<Container>, n: nat, active: set<string>, minAge: i64, now: i64): set<int>
    requires n <= |cs|
  {
    set i | 0 <= i < n && Orphan(cs[i], active, minAge, now)
  }

  /** The sweep reports every orphan it has listed, whether or not the runtime manages to remove it. */
  lemma {:induction false} ReportedCountIsOfOrphans(cs: seq<Container>, active: set<string>, minAge: i64, now: i64)
    ensures Orphans(cs, active, minAge, now) == |set i | 0 <= i < |cs| && Orphan(cs[i], active, minAge, now)|
  {
    OrphansUpTo(cs, |cs|, active, minAge, now);
    assert cs[..|cs|] == cs;
    assert OrphansAt(cs, |cs|, active, minAge, now) == set i | 0 <= i < |cs| && Orphan(cs[i], active, minAge, now);
  }

  lemma OneOrphanMore(cs: seq<Container>, n: nat, active: set<string>, minAge: i64, now: i64)
    requires n < |cs|
    ensures Orphans(cs[..n + 1], active, minAge, now)
         == Orphans(cs[..n], active, minAge, now) + if Orphan(cs[n], active, minAge, now) then 1 else 0
  {
    assert cs[..n + 1][..n] == cs[..n];
  }

  lemma {:induction false} OrphansUpTo(cs: seq<Container>, n: nat, active: set<string>, minAge: i64, now: i64)
    requires n <= |cs|
    ensures Orphans(cs[..n], active, minAge, now) == |OrphansAt(cs, n, active, minAge, now)|
  {
    if n > 0 {
      OrphansUpTo(cs, n - 1, active, minAge, now);
      OneOrphanMore(cs, n - 1, active, minAge, now);
      NextOrphanAt(cs, n - 1, active, minAge, now);
    }
  }

  lemma NextOrphanAt(cs: seq<Container>, n: nat, active: set<string>, minAge: i64, now: i64)
    requires n < |cs|
    ensures |OrphansAt(cs, n + 1, active, minAge, now)|
         == |OrphansAt(cs, n, active, minAge, now)| + if Orphan(cs[n], active, minAge, now) then 1 else 0
  {
    var here := if Orphan(cs[n], active, minAge, now) then {n} else {};
    assert OrphansAt(cs, n + 1, active, minAge, now) == OrphansAt(cs, n, active, minAge, now) + here;
  }

  /** The number the sweep reports is the number of containers that went, when removal works. */
  lemma ReportedCountIsWhatWent(cs: seq<Container>, active: set<string>, minAge: i64, now: i64, works: set<string>)
    requires UniqueNames(cs)
    requires forall i :: 0 <= i < |cs| && SweepName(cs[i]).Some? ==> SweepName(cs[i]).value in works
    ensures |Survivors(cs, Doomed(cs, active, minAge, now, works))| + Orphans(cs, active, minAge, now) == |cs|
  {
    var doomed := Doomed(cs, active, minAge, now, works);
    forall i | 0 <= i < |cs| ensures CarriesAny(cs[i], doomed) <==> Orphan(cs[i], active, minAge, now) {
      SweepRemovesExactlyTheOrphans(cs, active, minAge, now, works, i);
      SurvivorsCarryNoDoomedName(cs, doomed, cs[i]);
    }
    CountMatches(cs, doomed, active, minAge, now);
  }

  /** At startup, with no session and no minimum age, every reserved container goes. */
  lemma StartupSweepClearsTheNamespace(cs: seq<Container>, now: i64, works: set<string>, c: Container)
    requires forall i :: 0 <= i < |cs| && SweepName(cs[i]).Some? ==> SweepName(cs[i]).value in works
    ensures c in Survivors(cs, Doomed(cs, {}, 0, now, works))
       <==> c in cs && (c.names.Some? ==> forall i :: 0 <= i < |c.names.value| ==> !ReportedReserved(c.names.value[i]))
  {
    var doomed := Doomed(cs, {}, 0, now, works);
    SurvivorsCarryNoDoomedName(cs, doomed, c);
    SweepNameIsCarried(c);
    ReservedCarriedAsReported(c);
    if c in cs && SweepName(c).Some? {
      DoomedAreOrphans(cs, {}, 0, now, works, SweepName(c).value);
      var i :| 0 <= i < |cs| && cs[i] == c;
      assert Orphan(cs[i], {}, 0, now);
    } else if c in cs {
      ForeignContainersAreUntouched(cs, {}, 0, now, works, c);
    }
  }

  // ----- the margin of the periodic sweep -------------------------------------------

  function WholeSeconds(clock: real): (s: i64)
    requires clock < I64_MAX as real
    ensures clock >= 0.0 ==> s as real <= clock < s as real + 1.0
  {
    if clock < 0.0 then 0 else clock.Floor
  }

  /**
   * A launch created its container at `created` and registers it, within `delay`, only after
   * the sweep took its snapshot of the map; the sweep reads the clock within `gap` of that
   * snapshot, when the container already exists.
   */
  predicate InFlight(delay: real, gap: real, created: real, registered: real, snapshot: real, clock: real) {
    && 0.0 <= created <= registered <= created + delay
    && snapshot < registered
    && snapshot <= clock <= snapshot + gap
    && created <= clock < I64_MAX as real
  }

  predicate Spared(created: real, clock: real)
    requires 0.0 <= created < I64_MAX as real && clock < I64_MAX as real
  {
    WholeSeconds(clock) - WholeSeconds(created) < SWEEP_MIN_AGE
  }

  lemma FloorsDriftUnderOne(a: real, b: real, whole: int)
    requires b - a < whole as real
    ensures b.Floor - a.Floor <= whole
  {
    assert a < a.Floor as real + 1.0;
    assert b.Floor as real <= b;
    assert b.Floor as real < (a.Floor + 1 + whole) as real;
  }

  lemma MarginSpares(delay: real, gap: real, created: real, registered: real, snapshot: real, clock: real)
    requires InFlight(delay, gap, created, registered, snapshot, clock)
    requires delay + gap <= 119.0
    ensures Spared(created, clock)
  {
    FloorsDriftUnderOne(created, clock, 119);
  }

  /**
   * The exact margin: an in-flight launch is always spared if and only if the two delays add up
   * to at most 119 seconds. Between 119 and 120 the two truncations can add the missing second.
   */
  lemma InFlightSparedIffMargin(delay: real, gap: real)
    requires delay >= 0.0 && gap >= 0.0
    ensures delay + gap <= 119.0
       <==> forall created, registered, snapshot, clock ::
              InFlight(delay, gap, created, registered, snapshot, clock) ==> Spared(created, clock)
  {
    if delay + gap <= 119.0 {
      forall created, registered, snapshot, clock | InFlight(delay, gap, created, registered, snapshot, clock)
        ensures Spared(created, clock)
      {
        MarginSpares(delay, gap, created, registered, snapshot, clock);
      }
    } else {
      var between := if delay + gap < 120.0 then delay + gap else 120.0;
      var age := (119.0 + between) / 2.0;
      var clock, created := 120.0, 120.0 - age;
      assert InFlight(delay, gap, created, created + delay, clock - gap, clock);
      assert clock.Floor == 120 && created.Floor == 0;
      assert !Spared(created, clock);
    }
  }

  predicate WholeSecondInFlight(delay: nat, gap: nat, created: nat, registered: nat, snapshot: int, clock: nat) {
    InFlight(delay as real, gap as real, created as real, registered as real, snapshot as real, clock as real)
  }

  /** With times that fall on whole seconds the stated 120 seconds is the exact margin. */
  lemma WholeSecondMargin(delay: nat, gap: nat)
    ensures delay + gap <= SWEEP_MIN_AGE
       <==> forall created: nat, registered: nat, snapshot: int, clock: nat ::
              WholeSecondInFlight(delay, gap, created, registered, snapshot, clock) ==> clock - created < SWEEP_MIN_AGE
  {
    if delay + gap > SWEEP_MIN_AGE {
      var registered: nat, snapshot: int, created: nat, clock: nat := delay, 120 - gap, 0, 120;
      assert WholeSecondInFlight(delay, gap, created, registered, snapshot, clock);
    }
  }

  /** The periodic sweep never removes the container of a session in its snapshot, whatever its age. */
  lemma PeriodicSweepSparesSessions(cs: seq<Container>, active: set<string>, works: set<string>, k: nat, now: i64)
    requires k < |cs| && UniqueNames(cs) && SweepName(cs[k]).Some? && SweepName(cs[k]).value in active
    ensures cs[k] in Survivors(cs, Doomed(cs, active, SWEEP_MIN_AGE, now, works))
  {
    SweepRemovesExactlyTheOrphans(cs, active, SWEEP_MIN_AGE, now, works, k);
  }

  /**
   * Nor, within the margin, that of a launch still to register it, exactly if the runtime reports
   * when the container was created (or its removal does not work).
   */
  lemma PeriodicSweepSparesLaunchesIff(cs: seq<Container>, active: set<string>, works: set<string>, k: nat,
                                       delay: real, gap: real, created: real, registered: real,
                                       snapshot: real, clock: real)
    requires k < |cs| && UniqueNames(cs) && SweepName(cs[k]).Some? && SweepName(cs[k]).value !in active
    requires InFlight(delay, gap, created, registered, snapshot, clock) && delay + gap <= 119.0
    requires cs[k].created.Some? ==> cs[k].created.value == WholeSeconds(created)
    ensures cs[k] in Survivors(cs, Doomed(cs, active, SWEEP_MIN_AGE, WholeSeconds(clock), works))
       <==> cs[k].created.Some? || SweepName(cs[k]).value !in works
  {
    SweepRemovesExactlyTheOrphans(cs, active, SWEEP_MIN_AGE, WholeSeconds(clock), works, k);
    MarginSpares(delay, gap, created, registered, snapshot, clock);
    AgeIsExact(cs[k], SWEEP_MIN_AGE, WholeSeconds(clock));
  }
}
