/**
 * The environment of a session container: an ordered list edited in place, written out as
 * `k=v`, read back into a map and overlaid with session variables.
 *
 * The reference is plain map override. The list refines it exactly when no application key
 * contains an equals sign.
 */
module EnvMerge {
  import opened Wrappers

  type Entry = (string, string)
  type Env = map<string, string>

  // ----- the ordered list -----------------------------------------------------

  function Keys(es: seq<Entry>): seq<string> {
    seq(|es|, i requires 0 <= i < |es| => es[i].0)
  }

  predicate NoDuplicates(es: seq<Entry>) {
    forall i, j :: 0 <= i < j < |es| ==> es[i].0 != es[j].0
  }

  predicate HasKey(es: seq<Entry>, key: string) {
    exists i :: 0 <= i < |es| && es[i].0 == key
  }

  /** The map a list stands for. */
  function ToMap(es: seq<Entry>): Env
    decreases |es|
  {
    if es == [] then map[] else ToMap(es[..|es| - 1])[es[|es| - 1].0 := es[|es| - 1].1]
  }

  lemma {:induction false} ToMapKeys(es: seq<Entry>, key: string)
    ensures key in ToMap(es) <==> HasKey(es, key)
    decreases |es|
  {
    if es != [] {
      var init := es[..|es| - 1];
      ToMapKeys(init, key);
      if HasKey(init, key) {
        var i :| 0 <= i < |init| && init[i].0 == key;
        assert es[i].0 == key;
      }
      if HasKey(es, key) && es[|es| - 1].0 != key {
        var i :| 0 <= i < |es| && es[i].0 == key;
        assert init[i].0 == key;
      }
    }
  }

  /** Without duplicates the order does not matter: the map holds what each entry says. */
  lemma {:induction false} ToMapLookup(es: seq<Entry>, i: nat)
    requires NoDuplicates(es) && i < |es|
    ensures es[i].0 in ToMap(es) && ToMap(es)[es[i].0] == es[i].1
    decreases |es|
  {
    if i < |es| - 1 {
      ToMapLookup(es[..|es| - 1], i);
      assert es[..|es| - 1][i] == es[i];
    }
  }

  /** The entries with another key, in order. */
  function Without(es: seq<Entry>, key: string): seq<Entry>
    decreases |es|
  {
    if es == [] then []
    else Without(es[..|es| - 1], key) + if es[|es| - 1].0 == key then [] else [es[|es| - 1]]
  }

  lemma {:induction false} WithoutMap(es: seq<Entry>, key: string)
    ensures ToMap(Without(es, key)) == ToMap(es) - {key}
    decreases |es|
  {
    if es != [] {
      var n := |es| - 1;
      var rest := Without(es[..n], key);
      WithoutMap(es[..n], key);
      if es[n].0 != key {
        assert (rest + [es[n]])[..|rest|] == rest;
      } else {
        assert rest + [] == rest;
      }
    }
  }

  lemma {:induction false} WithoutNoDuplicates(es: seq<Entry>, key: string)
    requires NoDuplicates(es)
    ensures NoDuplicates(Without(es, key))
    decreases |es|
  {
    if es != [] {
      var n := |es| - 1;
      WithoutNoDuplicates(es[..n], key);
      var rest := Without(es[..n], key);
      forall i | 0 <= i < |rest| ensures rest[i].0 != es[n].0 {
        WithoutMembers(es[..n], key, i);
      }
    }
  }

  lemma {:induction false} WithoutMembers(es: seq<Entry>, key: string, i: nat)
    requires i < |Without(es, key)|
    ensures Without(es, key)[i] in es && Without(es, key)[i].0 != key
    decreases |es|
  {
    var n := |es| - 1;
    if i < |Without(es[..n], key)| {
      WithoutMembers(es[..n], key, i);
    }
  }

  lemma {:induction false} UpdateAt(es: seq<Entry>, i: nat, value: string)
    requires NoDuplicates(es) && i < |es|
    ensures NoDuplicates(es[i := (es[i].0, value)])
    ensures ToMap(es[i := (es[i].0, value)]) == ToMap(es)[es[i].0 := value]
    decreases |es|
  {
    var n := |es| - 1;
    var init, new' := es[..n], es[i := (es[i].0, value)];
    if i < n {
      UpdateAt(init, i, value);
      assert new'[..n] == init[i := (init[i].0, value)];
    } else {
      assert new'[..n] == init;
    }
  }

  lemma AppendNew(es: seq<Entry>, key: string, value: string)
    requires NoDuplicates(es) && !HasKey(es, key)
    ensures NoDuplicates(es + [(key, value)])
    ensures ToMap(es + [(key, value)]) == ToMap(es)[key := value]
  {
    assert (es + [(key, value)])[..|es|] == es;
    forall i | 0 <= i < |es| ensures es[i].0 != key {
    }
  }

  /** The environment list of one launch. */
  class EnvList {
    var entries: seq<Entry>

    constructor ()
      ensures entries == [] && NoDuplicates(entries)
    {
      entries := [];
    }

    /** `env_set`: overwrite in place, or append. */
    method Set(key: string, value: string)
      requires NoDuplicates(entries)
      modifies this
      ensures NoDuplicates(entries)
      ensures ToMap(entries) == ToMap(old(entries))[key := value]
      ensures HasKey(old(entries), key) ==> Keys(entries) == Keys(old(entries))
      ensures !HasKey(old(entries), key) ==> entries == old(entries) + [(key, value)]
    {
      for i := 0 to |entries|
        invariant entries == old(entries)
        invariant forall j :: 0 <= j < i ==> entries[j].0 != key
      {
        if entries[i].0 == key {
          UpdateAt(entries, i, value);
          entries := entries[i := (key, value)];
          return;
        }
      }
      AppendNew(entries, key, value);
      entries := entries + [(key, value)];
    }

    /** `env_remove`: keep the entries with another key, in order. */
    method Remove(key: string)
      requires NoDuplicates(entries)
      modifies this
      ensures NoDuplicates(entries)
      ensures entries == Without(old(entries), key)
      ensures ToMap(entries) == ToMap(old(entries)) - {key}
    {
      WithoutMap(entries, key);
      WithoutNoDuplicates(entries, key);
      var kept: seq<Entry> := [];
      for i := 0 to |entries|
        invariant entries == old(entries)
        invariant kept == Without(entries[..i], key)
      {
        assert entries[..i + 1][..i] == entries[..i];
        if entries[i].0 != key {
          kept := kept + [entries[i]];
        }
      }
      assert entries[..|entries|] == entries;
      entries := kept;
    }
  }

  // ----- the container spec ---------------------------------------------------

  /** The Unicode white space that trimming removes. */
  predicate IsWhitespace(c: char) {
    || '\t' <= c <= '\r' || c == ' ' || c == '\U{0085}' || c == '\U{00A0}' || c == '\U{1680}'
    || '\U{2000}' <= c <= '\U{200A}' || c == '\U{2028}' || c == '\U{2029}' || c == '\U{202F}'
    || c == '\U{205F}' || c == '\U{3000}'
  }

  /** `key.trim().is_empty()`. */
  predicate IsBlank(key: string) {
    forall i :: 0 <= i < |key| ==> IsWhitespace(key[i])
  }

  /** The sanctioned variables: validation and assembly both drop blank keys. */
  function Sanctioned(appEnv: Env): Env {
    map k | k in appEnv && !IsBlank(k) :: appEnv[k]
  }

  function CompositorKey(sway: bool): string { if sway then "RUN_SWAY" else "RUN_GAMESCOPE" }

  function OtherKey(sway: bool): string { CompositorKey(!sway) }

  /** The streaming contract, which overrides the application. */
  function Contract(layout: string, sway: bool): Env {
    map["GOW_REQUIRED_DEVICES" := "/dev/dri/* /dev/nvidia*", "XKB_DEFAULT_LAYOUT" := layout,
        CompositorKey(sway) := "1"]
  }

  /** The reference: application variables, less the other compositor's, overridden by the contract. */
  function SpecEnv(appEnv: Env, layout: string, sway: bool): Env {
    (Sanctioned(appEnv) - {OtherKey(sway)}) + Contract(layout, sway)
  }

  function Line(e: Entry): string { e.0 + "=" + e.1 }

  function Lines(es: seq<Entry>): seq<string> {
    seq(|es|, i requires 0 <= i < |es| => Line(es[i]))
  }

  /** Each key once, and none before a proper prefix of it, as sorting leaves them. */
  predicate InOrder(keys: seq<string>) {
    forall i, j :: 0 <= i < j < |keys| ==> keys[i] != keys[j] && !(keys[j] < keys[i])
  }

  /** The application's entries come first, none before one whose key is a proper prefix. */
  predicate AppFirst(es: seq<Entry>, app: set<string>)
    decreases |es|
  {
    es == [] ||
    var n := |es| - 1;
    AppFirst(es[..n], app)
    && (es[n].0 in app ==> forall i :: 0 <= i < n ==> es[i].0 in app && !(es[n].0 < es[i].0))
  }

  lemma {:induction false} AppFirstAt(es: seq<Entry>, app: set<string>, i: nat, j: nat)
    requires AppFirst(es, app) && i < j < |es| && es[j].0 in app
    ensures es[i].0 in app && !(es[j].0 < es[i].0)
    decreases |es|
  {
    if j < |es| - 1 {
      AppFirstAt(es[..|es| - 1], app, i, j);
    }
  }

  lemma {:induction false} SameKeysSameOrder(es: seq<Entry>, fs: seq<Entry>, app: set<string>)
    requires Keys(es) == Keys(fs)
    ensures AppFirst(es, app) == AppFirst(fs, app)
    decreases |es|
  {
    assert |es| == |Keys(es)| == |fs|;
    if es != [] {
      var n := |es| - 1;
      forall i | 0 <= i <= n ensures es[i].0 == fs[i].0 {
        assert Keys(es)[i] == es[i].0 && Keys(fs)[i] == fs[i].0;
      }
      assert Keys(es[..n]) == Keys(es)[..n] == Keys(fs[..n]);
      SameKeysSameOrder(es[..n], fs[..n], app);
    }
  }

  lemma {:induction false} WithoutKeepsOrder(es: seq<Entry>, key: string, app: set<string>)
    requires AppFirst(es, app)
    ensures AppFirst(Without(es, key), app)
    decreases |es|
  {
    if es != [] {
      var n := |es| - 1;
      var rest := Without(es[..n], key);
      WithoutKeepsOrder(es[..n], key, app);
      if es[n].0 != key {
        assert (rest + [es[n]])[..|rest|] == rest;
        forall i | 0 <= i < |rest| ensures rest[i] in es[..n] {
          WithoutMembers(es[..n], key, i);
        }
      } else {
        assert rest + [] == rest;
      }
    }
  }

  /** What one `Set` does to the order: nothing, or a new entry at the end. */
  lemma SetKeepsOrder(before: seq<Entry>, after: seq<Entry>, key: string, value: string, app: set<string>)
    requires AppFirst(before, app)
    requires HasKey(before, key) ==> Keys(after) == Keys(before)
    requires !HasKey(before, key) ==> after == before + [(key, value)]
    requires !HasKey(before, key) && key in app ==>
               forall i :: 0 <= i < |before| ==> before[i].0 in app && !(key < before[i].0)
    ensures AppFirst(after, app)
  {
    if HasKey(before, key) {
      SameKeysSameOrder(before, after, app);
    } else {
      assert after[..|after| - 1] == before;
    }
  }

  /** Assembles the container environment; `appKeys` lists the application's keys in order. */
  method BuildGowEnv(appEnv: Env, appKeys: seq<string>, layout: string, sway: bool)
    returns (env: EnvList, lines: seq<string>)
    requires forall k :: k in appEnv <==> k in appKeys
    ensures fresh(env) && NoDuplicates(env.entries)
    ensures ToMap(env.entries) == SpecEnv(appEnv, layout, sway)
    ensures lines == Lines(env.entries)
    ensures !HasKey(env.entries, OtherKey(sway))
    ensures InOrder(appKeys) ==> AppFirst(env.entries, Sanctioned(appEnv).Keys)
  {
    env := new EnvList();
    AddAppEnv(env, appEnv, appKeys);
    SetContract(env, appEnv, layout, sway);
    lines := Lines(env.entries);
  }

  /** The sanctioned variables among the given keys. */
  function Among(appEnv: Env, keys: seq<string>): Env {
    map k | k in keys && k in appEnv && !IsBlank(k) :: appEnv[k]
  }

  lemma AmongGrows(appEnv: Env, keys: seq<string>, i: nat)
    requires i < |keys| && keys[i] in appEnv
    ensures Among(appEnv, keys[..i + 1])
         == if IsBlank(keys[i]) then Among(appEnv, keys[..i]) else Among(appEnv, keys[..i])[keys[i] := appEnv[keys[i]]]
  {
    assert keys[..i + 1] == keys[..i] + [keys[i]];
  }

  /** The next variable, unless its key is blank. */
  method AddNext(env: EnvList, appEnv: Env, appKeys: seq<string>, i: nat)
    requires i < |appKeys| && appKeys[i] in appEnv
    requires NoDuplicates(env.entries) && ToMap(env.entries) == Among(appEnv, appKeys[..i])
    modifies env
    ensures NoDuplicates(env.entries) && ToMap(env.entries) == Among(appEnv, appKeys[..i + 1])
    ensures InOrder(appKeys) && AppFirst(old(env.entries), Sanctioned(appEnv).Keys) ==>
              AppFirst(env.entries, Sanctioned(appEnv).Keys)
  {
    var key := appKeys[i];
    AmongGrows(appEnv, appKeys, i);
    if !IsBlank(key) {
      ghost var before := env.entries;
      env.Set(key, appEnv[key]);
      if InOrder(appKeys) && AppFirst(before, Sanctioned(appEnv).Keys) {
        NextAppKey(before, appEnv, appKeys, i);
        SetKeepsOrder(before, env.entries, key, appEnv[key], Sanctioned(appEnv).Keys);
      }
    }
  }

  /** The sanctioned variables go in first, in order. */
  method AddAppEnv(env: EnvList, appEnv: Env, appKeys: seq<string>)
    requires env.entries == [] && forall k :: k in appEnv <==> k in appKeys
    modifies env
    ensures NoDuplicates(env.entries) && ToMap(env.entries) == Sanctioned(appEnv)
    ensures InOrder(appKeys) ==> AppFirst(env.entries, Sanctioned(appEnv).Keys)
  {
    for i := 0 to |appKeys|
      invariant NoDuplicates(env.entries) && ToMap(env.entries) == Among(appEnv, appKeys[..i])
      invariant InOrder(appKeys) ==> AppFirst(env.entries, Sanctioned(appEnv).Keys)
    {
      AddNext(env, appEnv, appKeys, i);
    }
    assert appKeys[..|appKeys|] == appKeys;
    assert Among(appEnv, appKeys) == Sanctioned(appEnv);
  }

  lemma NextAppKey(es: seq<Entry>, appEnv: Env, appKeys: seq<string>, i: nat)
    requires InOrder(appKeys) && i < |appKeys| && ToMap(es) == Among(appEnv, appKeys[..i])
    ensures forall j :: 0 <= j < |es| ==> es[j].0 in Sanctioned(appEnv) && !(appKeys[i] < es[j].0)
  {
    forall j | 0 <= j < |es| ensures es[j].0 in Sanctioned(appEnv) && !(appKeys[i] < es[j].0) {
      ToMapKeys(es, es[j].0);
      assert HasKey(es, es[j].0);
      assert es[j].0 in appKeys[..i];
      var y :| 0 <= y < i && appKeys[y] == es[j].0;
    }
  }

  /** The four edits that override the application. */
  method SetContract(env: EnvList, ghost appEnv: Env, layout: string, sway: bool)
    requires NoDuplicates(env.entries) && ToMap(env.entries) == Sanctioned(appEnv)
    modifies env
    ensures NoDuplicates(env.entries) && ToMap(env.entries) == SpecEnv(appEnv, layout, sway)
    ensures !HasKey(env.entries, OtherKey(sway))
    ensures AppFirst(old(env.entries), Sanctioned(appEnv).Keys) ==> AppFirst(env.entries, Sanctioned(appEnv).Keys)
  {
    ghost var app := Sanctioned(appEnv).Keys;
    ghost var es0 := env.entries;
    env.Set("GOW_REQUIRED_DEVICES", "/dev/dri/* /dev/nvidia*");
    ghost var es1 := env.entries;
    env.Set("XKB_DEFAULT_LAYOUT", layout);
    ghost var es2 := env.entries;
    env.Remove(OtherKey(sway));
    ghost var es3 := env.entries;
    env.Set(CompositorKey(sway), "1");
    ContractWins(Sanctioned(appEnv), layout, sway);
    ToMapKeys(env.entries, OtherKey(sway));
    if AppFirst(es0, app) {
      ToMapKeys(es0, "GOW_REQUIRED_DEVICES");
      SetKeepsOrder(es0, es1, "GOW_REQUIRED_DEVICES", "/dev/dri/* /dev/nvidia*", app);
      ToMapKeys(es1, "XKB_DEFAULT_LAYOUT");
      SetKeepsOrder(es1, es2, "XKB_DEFAULT_LAYOUT", layout, app);
      WithoutKeepsOrder(es2, OtherKey(sway), app);
      ToMapKeys(es3, CompositorKey(sway));
      SetKeepsOrder(es3, env.entries, CompositorKey(sway), "1", app);
    }
  }

  /** The order of the four edits amounts to one override. */
  lemma ContractWins(app: Env, layout: string, sway: bool)
    ensures (app["GOW_REQUIRED_DEVICES" := "/dev/dri/* /dev/nvidia*"]["XKB_DEFAULT_LAYOUT" := layout]
              - {OtherKey(sway)})[CompositorKey(sway) := "1"]
         == (app - {OtherKey(sway)}) + Contract(layout, sway)
    ensures OtherKey(sway) !in (app - {OtherKey(sway)}) + Contract(layout, sway)
  {
    assert OtherKey(sway)[0] == 'R' && CompositorKey(sway)[0] == 'R';
    assert CompositorKey(sway) != OtherKey(sway) by {
      assert |"RUN_SWAY"| == 8 && |"RUN_GAMESCOPE"| == 13;
    }
  }

  // ----- reading it back --------------------------------------------------------

  /** `item.split_once('=')`: at the first equals sign, if there is one. */
  function SplitOnce(item: string): (r: Option<Entry>)
    ensures r.Some? ==> '=' !in r.value.0 && item == Line(r.value)
    ensures r.None? <==> '=' !in item
    decreases |item|
  {
    if item == "" then None
    else if item[0] == '=' then
      assert item == "" + "=" + item[1..];
      Some(("", item[1..]))
    else
      match SplitOnce(item[1..])
      case None => None
      case Some((k, v)) =>
        assert item == [item[0]] + item[1..] == ([item[0]] + k) + "=" + v;
        Some(([item[0]] + k, v))
  }

  /** An entry comes back unchanged exactly when its key has no equals sign. */
  lemma {:induction false} LineRoundTrip(e: Entry)
    ensures SplitOnce(Line(e)) == Some(e) <==> '=' !in e.0
    ensures SplitOnce(Line(e)).Some?
    decreases |e.0|
  {
    assert Line(e)[|e.0|] == '=';
    if '=' !in e.0 {
      if e.0 == "" {
        assert Line(e)[1..] == e.1;
      } else {
        assert Line(e)[1..] == Line((e.0[1..], e.1));
        assert Line(e)[0] == e.0[0];
        LineRoundTrip((e.0[1..], e.1));
        assert [e.0[0]] + e.0[1..] == e.0;
      }
    }
  }

  function Parse(lines: seq<string>): Env
    decreases |lines|
  {
    if lines == [] then map[] else
      var env := Parse(lines[..|lines| - 1]);
      match SplitOnce(lines[|lines| - 1])
      case None => env
      case Some((k, v)) => env[k := v]
  }

  /** The line starts with the key and the line's first equals sign. */
  predicate Sets(line: string, key: string) { '=' !in key && key + "=" <= line }

  lemma FirstEqualsIs(line: string, key: string)
    requires Sets(line, key)
    ensures line[|key|] == '=' && line[..|key|] == key && '=' in line
    ensures forall i :: 0 <= i < |key| ==> line[i] != '='
  {
    assert line[|key|] == '=';
    forall i | 0 <= i < |key| ensures line[i] != '=' {
      assert line[i] == key[i];
    }
  }

  lemma SetsOneKey(line: string, a: string, b: string)
    requires Sets(line, a) && Sets(line, b)
    ensures a == b
  {
    FirstEqualsIs(line, a);
    FirstEqualsIs(line, b);
    assert |a| == |b|;
  }

  lemma SetsAsSplit(line: string, key: string)
    ensures Sets(line, key) <==> SplitOnce(line).Some? && SplitOnce(line).value.0 == key
    ensures Sets(line, key) ==> SplitOnce(line).value.1 == line[|key| + 1..]
  {
    if Sets(line, key) {
      FirstEqualsIs(line, key);
    }
    match SplitOnce(line)
    case None =>
    case Some((k, v)) =>
      assert line == Line((k, v)) && Sets(line, k) && line[|k| + 1..] == v;
      if Sets(line, key) {
        SetsOneKey(line, k, key);
      }
  }

  /** A variable is set exactly if some line sets it; the last one that does decides; other lines are ignored. */
  lemma {:induction false} LastLineDecides(lines: seq<string>, key: string)
    ensures key in Parse(lines) <==> exists i :: 0 <= i < |lines| && Sets(lines[i], key)
    ensures forall i :: 0 <= i < |lines| && Sets(lines[i], key)
                        && (forall j :: i < j < |lines| ==> !Sets(lines[j], key)) ==>
              key in Parse(lines) && Parse(lines)[key] == lines[i][|key| + 1..]
    decreases |lines|
  {
    if lines != [] {
      var n := |lines| - 1;
      LastLineDecides(lines[..n], key);
      SetsAsSplit(lines[n], key);
      assert forall i :: 0 <= i < n ==> lines[..n][i] == lines[i];
    }
  }

  lemma {:induction false} ParsedKeysHaveNoEquals(lines: seq<string>)
    ensures forall k :: k in Parse(lines) ==> '=' !in k
    decreases |lines|
  {
    if lines != [] {
      ParsedKeysHaveNoEquals(lines[..|lines| - 1]);
    }
  }

  lemma {:induction false} ParseOfLines(es: seq<Entry>)
    requires forall i :: 0 <= i < |es| ==> '=' !in es[i].0
    ensures Parse(Lines(es)) == ToMap(es)
    decreases |es|
  {
    if es != [] {
      var n := |es| - 1;
      assert Lines(es)[..n] == Lines(es[..n]);
      ParseOfLines(es[..n]);
      LineRoundTrip(es[n]);
    }
  }

  /**
   * Writing the list out and reading it back preserves its meaning exactly when no key in it
   * contains an equals sign.
   */
  lemma RoundTripIffNoEquals(es: seq<Entry>)
    ensures Parse(Lines(es)) == ToMap(es) <==> forall i :: 0 <= i < |es| ==> '=' !in es[i].0
  {
    if forall i :: 0 <= i < |es| ==> '=' !in es[i].0 {
      ParseOfLines(es);
    } else {
      var i :| 0 <= i < |es| && '=' in es[i].0;
      ToMapKeys(es, es[i].0);
      assert HasKey(es, es[i].0);
      ParsedKeysHaveNoEquals(Lines(es));
    }
  }

  // ----- the session overlay ----------------------------------------------------

  function Digit(d: nat): char
    requires d < 10
  {
    "0123456789"[d]
  }

  /** Decimal digits, as `to_string` prints an unsigned integer. */
  function Decimal(n: nat): string
    decreases n
  {
    if n < 10 then [Digit(n)] else Decimal(n / 10) + [Digit(n % 10)]
  }

  datatype ContainerSession = ContainerSession(
    width: nat, height: nat, fps: nat,
    waylandDisplay: Option<string>,
    audioSink: Option<string>
  )

  // What a session always sets, whatever the application says.

  function FixedVars(xdg: string): Env {
    map["XDG_RUNTIME_DIR" := xdg, "PUID" := "1000", "PGID" := "1000"]
  }

  function WaylandVars(s: ContainerSession): Env {
    if s.waylandDisplay.None? then map[]
    else map["WAYLAND_DISPLAY" := s.waylandDisplay.value, "REAL_WAYLAND_DISPLAY" := s.waylandDisplay.value]
  }

  function SizeVars(s: ContainerSession): Env {
    map["GAMESCOPE_WIDTH" := Decimal(s.width), "GAMESCOPE_HEIGHT" := Decimal(s.height),
        "GAMESCOPE_REFRESH" := Decimal(s.fps)]
  }

  function ResolutionVars(s: ContainerSession): Env {
    map["RESOLUTION" := Decimal(s.width) + "x" + Decimal(s.height) + "x24"]
  }

  function PulseVars(s: ContainerSession, xdg: string, pulseServer: string): Env {
    if s.audioSink.None? then map[]
    else map["PULSE_SINK" := s.audioSink.value, "PULSE_SOURCE" := s.audioSink.value + ".monitor"]
         + if pulseServer == "" then map[] else map["PULSE_SERVER" := "unix:" + xdg + "/pulse/native"]
  }

  function EarlyVars(s: ContainerSession, xdg: string): Env {
    FixedVars(xdg) + WaylandVars(s) + SizeVars(s)
  }

  function SessionVars(s: ContainerSession, xdg: string, pulseServer: string): Env {
    EarlyVars(s, xdg) + ResolutionVars(s) + PulseVars(s, xdg, pulseServer)
  }

  /** Defaults, which anything else overrides. */
  function Defaults(): Env { map["DISPLAY" := ":99", "VNC_PORT" := "5900"] }

  /** `entry(key).or_insert(value)`. */
  function OrInsert(env: Env, key: string, value: string): Env {
    if key in env then env else env[key := value]
  }

  predicate SetsNoDefault(env: Env) { "DISPLAY" !in env && "VNC_PORT" !in env }

  lemma FixedSetsNoDefault(xdg: string)
    ensures SetsNoDefault(FixedVars(xdg))
  {
    assert |"DISPLAY"| == 7 && |"VNC_PORT"| == 8;
    assert |"XDG_RUNTIME_DIR"| == 15 && |"PUID"| == |"PGID"| == 4;
  }

  lemma WaylandSetsNoDefault(s: ContainerSession)
    ensures SetsNoDefault(WaylandVars(s))
  {
    assert |"DISPLAY"| == 7 && |"VNC_PORT"| == 8;
    assert |"WAYLAND_DISPLAY"| == 15 && |"REAL_WAYLAND_DISPLAY"| == 20;
  }

  lemma SizeSetsNoDefault(s: ContainerSession)
    ensures SetsNoDefault(SizeVars(s)) && SetsNoDefault(ResolutionVars(s))
  {
    assert |"DISPLAY"| == 7 && |"VNC_PORT"| == 8 && |"RESOLUTION"| == 10;
    assert |"GAMESCOPE_WIDTH"| == 15 && |"GAMESCOPE_HEIGHT"| == 16 && |"GAMESCOPE_REFRESH"| == 17;
  }

  lemma SessionSetsNoDefault(s: ContainerSession, xdg: string)
    ensures SetsNoDefault(EarlyVars(s, xdg)) && SetsNoDefault(ResolutionVars(s))
  {
    FixedSetsNoDefault(xdg);
    WaylandSetsNoDefault(s);
    SizeSetsNoDefault(s);
    UnionSetsNoDefault(FixedVars(xdg), WaylandVars(s));
    UnionSetsNoDefault(FixedVars(xdg) + WaylandVars(s), SizeVars(s));
  }

  lemma UnionSetsNoDefault(a: Env, b: Env)
    requires SetsNoDefault(a) && SetsNoDefault(b)
    ensures SetsNoDefault(a + b)
  {
  }

  lemma OrInsertYields(env: Env, later: Env, key: string, value: string)
    requires key !in later
    ensures OrInsert(env + later, key, value) == map[key := value] + env + later
  {
  }

  lemma OrInsertRegroups(d: Env, env: Env, early: Env, middle: Env)
    ensures (d + env + early) + middle == (d + env) + (early + middle)
  {
  }

  lemma DefaultsRegroup(env: Env, a: Env, b: Env)
    ensures map["VNC_PORT" := "5900"] + (map["DISPLAY" := ":99"] + env) + a + b == Defaults() + env + (a + b)
  {
    assert |"DISPLAY"| == 7 && |"VNC_PORT"| == 8;
  }

  /** Where the two or-inserts fall among the inserts makes no difference. */
  lemma DefaultsYield(env: Env, early: Env, middle: Env, late: Env)
    requires SetsNoDefault(early) && SetsNoDefault(middle)
    ensures OrInsert(OrInsert(env + early, "DISPLAY", ":99") + middle, "VNC_PORT", "5900") + late
         == Defaults() + env + (early + middle + late)
  {
    OrInsertYields(env, early, "DISPLAY", ":99");
    OrInsertRegroups(map["DISPLAY" := ":99"], env, early, middle);
    OrInsertYields(map["DISPLAY" := ":99"] + env, early + middle, "VNC_PORT", "5900");
    DefaultsRegroup(env, early + middle, late);
  }

  /** The environment a container starts with, from the lines of its spec. */
  method BuildContainerEnv(lines: seq<string>, s: ContainerSession, xdg: string, pulseServer: string) returns (env: Env)
    ensures env == Defaults() + Parse(lines) + SessionVars(s, xdg, pulseServer)
  {
    env := ParseLines(lines);
    env := InsertEarly(env, s, xdg);
    env := OrInsert(env, "DISPLAY", ":99");
    env := InsertResolution(env, s);
    env := OrInsert(env, "VNC_PORT", "5900");
    env := InsertPulse(env, s, xdg, pulseServer);
    SessionSetsNoDefault(s, xdg);
    DefaultsYield(Parse(lines), EarlyVars(s, xdg), ResolutionVars(s), PulseVars(s, xdg, pulseServer));
  }

  method InsertResolution(start: Env, s: ContainerSession) returns (env: Env)
    ensures env == start + ResolutionVars(s)
  {
    env := start["RESOLUTION" := Decimal(s.width) + "x" + Decimal(s.height) + "x24"];
  }

  method ParseLines(lines: seq<string>) returns (env: Env)
    ensures env == Parse(lines)
  {
    env := map[];
    for i := 0 to |lines|
      invariant env == Parse(lines[..i])
    {
      assert lines[..i + 1][..i] == lines[..i];
      match SplitOnce(lines[i])
      case None =>
      case Some((k, v)) => env := env[k := v];
    }
    assert lines[..|lines|] == lines;
  }

  method InsertEarly(start: Env, s: ContainerSession, xdg: string) returns (env: Env)
    ensures env == start + EarlyVars(s, xdg)
  {
    env := start["XDG_RUNTIME_DIR" := xdg]["PUID" := "1000"]["PGID" := "1000"];
    assert env == start + FixedVars(xdg);
    ghost var fixed := env;
    if s.waylandDisplay.Some? {
      env := env["WAYLAND_DISPLAY" := s.waylandDisplay.value]["REAL_WAYLAND_DISPLAY" := s.waylandDisplay.value];
    }
    assert env == fixed + WaylandVars(s);
    ghost var wayland := env;
    env := env["GAMESCOPE_WIDTH" := Decimal(s.width)]["GAMESCOPE_HEIGHT" := Decimal(s.height)]
              ["GAMESCOPE_REFRESH" := Decimal(s.fps)];
    assert env == wayland + SizeVars(s);
    OverrideIsAssociative(start, FixedVars(xdg), WaylandVars(s), SizeVars(s));
  }

  lemma OverrideIsAssociative(a: Env, b: Env, c: Env, d: Env)
    ensures ((a + b) + c) + d == a + (b + c + d)
  {
  }

  method InsertPulse(start: Env, s: ContainerSession, xdg: string, pulseServer: string) returns (env: Env)
    ensures env == start + PulseVars(s, xdg, pulseServer)
  {
    env := start;
    if s.audioSink.Some? {
      env := env["PULSE_SINK" := s.audioSink.value]["PULSE_SOURCE" := s.audioSink.value + ".monitor"];
      if pulseServer != "" {
        env := env["PULSE_SERVER" := "unix:" + xdg + "/pulse/native"];
      }
    }
  }

  // ----- the whole path ---------------------------------------------------------

  /** What the container should see: plain override, application < contract < session. */
  function SpecContainerEnv(appEnv: Env, layout: string, sway: bool, s: ContainerSession,
                            xdg: string, pulseServer: string): Env
  {
    Defaults() + SpecEnv(appEnv, layout, sway) + SessionVars(s, xdg, pulseServer)
  }

  /** No key the application may set contains an equals sign. */
  predicate PlainKeys(appEnv: Env) {
    forall k :: k in Sanctioned(appEnv) ==> '=' !in k
  }

  lemma ContractKeysArePlain(layout: string, sway: bool)
    ensures forall k :: k in Contract(layout, sway) ==> '=' !in k
    ensures '=' !in OtherKey(sway)
  {
    assert '=' !in "GOW_REQUIRED_DEVICES" && '=' !in "XKB_DEFAULT_LAYOUT";
    assert '=' !in "RUN_SWAY" && '=' !in "RUN_GAMESCOPE";
  }

  predicate AllPlain(env: Env) { forall k :: k in env ==> '=' !in k }

  lemma EarlyKeysArePlain(s: ContainerSession, xdg: string)
    ensures AllPlain(FixedVars(xdg)) && AllPlain(WaylandVars(s)) && AllPlain(SizeVars(s))
  {
    assert '=' !in "XDG_RUNTIME_DIR" && '=' !in "PUID" && '=' !in "PGID";
    assert '=' !in "WAYLAND_DISPLAY" && '=' !in "REAL_WAYLAND_DISPLAY";
    assert '=' !in "GAMESCOPE_WIDTH" && '=' !in "GAMESCOPE_HEIGHT" && '=' !in "GAMESCOPE_REFRESH";
  }

  lemma LateKeysArePlain(s: ContainerSession, xdg: string, pulseServer: string)
    ensures AllPlain(Defaults()) && AllPlain(ResolutionVars(s)) && AllPlain(PulseVars(s, xdg, pulseServer))
  {
    assert '=' !in "DISPLAY" && '=' !in "VNC_PORT" && '=' !in "RESOLUTION";
    assert '=' !in "PULSE_SINK" && '=' !in "PULSE_SOURCE" && '=' !in "PULSE_SERVER";
  }

  lemma SessionKeysArePlain(s: ContainerSession, xdg: string, pulseServer: string)
    ensures AllPlain(Defaults()) && AllPlain(SessionVars(s, xdg, pulseServer))
  {
    EarlyKeysArePlain(s, xdg);
    LateKeysArePlain(s, xdg, pulseServer);
    UnionIsPlain(FixedVars(xdg), WaylandVars(s));
    UnionIsPlain(FixedVars(xdg) + WaylandVars(s), SizeVars(s));
    UnionIsPlain(EarlyVars(s, xdg), ResolutionVars(s));
    UnionIsPlain(EarlyVars(s, xdg) + ResolutionVars(s), PulseVars(s, xdg, pulseServer));
  }

  lemma UnionIsPlain(a: Env, b: Env)
    requires AllPlain(a) && AllPlain(b)
    ensures AllPlain(a + b)
  {
  }

  /**
   * For any list that stands for the specified environment: the container sees plain override
   * of application, contract and session variables exactly when no application key contains
   * an equals sign. Such a key would come back cut at its first equals sign.
   */
  lemma MergeIsOverrideIffPlainKeys(es: seq<Entry>, appEnv: Env, layout: string, sway: bool,
                                    s: ContainerSession, xdg: string, pulseServer: string)
    requires NoDuplicates(es) && ToMap(es) == SpecEnv(appEnv, layout, sway)
    ensures Defaults() + Parse(Lines(es)) + SessionVars(s, xdg, pulseServer)
              == SpecContainerEnv(appEnv, layout, sway, s, xdg, pulseServer)
            <==> PlainKeys(appEnv)
  {
    ContractKeysArePlain(layout, sway);
    if PlainKeys(appEnv) {
      forall i | 0 <= i < |es| ensures '=' !in es[i].0 {
        ToMapLookup(es, i);
      }
      ParseOfLines(es);
    } else {
      var k :| k in Sanctioned(appEnv) && '=' in k;
      assert k in SpecEnv(appEnv, layout, sway);
      ParsedKeysHaveNoEquals(Lines(es));
      SessionKeysArePlain(s, xdg, pulseServer);
      assert k !in Defaults() + Parse(Lines(es)) + SessionVars(s, xdg, pulseServer);
      assert k in SpecContainerEnv(appEnv, layout, sway, s, xdg, pulseServer);
    }
  }

  // ----- when the application breaks the contract ---------------------------------

  /** Read back, the entry's key is cut to c: the key starts with c and an equals sign. */
  predicate CutTo(key: string, c: string) { c + "=" <= key }

  /** The key the container reads from an entry. */
  function Reading(e: Entry): Entry {
    LineRoundTrip(e);
    SplitOnce(Line(e)).value
  }

  lemma ReadingOfCut(e: Entry, c: string)
    requires '=' !in c && CutTo(e.0, c)
    ensures Reading(e) == (c, e.0[|c| + 1..] + "=" + e.1) && '=' in e.0
  {
    var value := e.0[|c| + 1..] + "=" + e.1;
    assert e.0 == c + "=" + e.0[|c| + 1..] && e.0[|c|] == '=';
    assert Line(e) == Line((c, value));
    LineRoundTrip((c, value));
  }

  lemma FirstEqualsIsInKey(e: Entry, r: Entry)
    requires Line(e) == Line(r) && '=' in e.0 && '=' !in r.0
    ensures |r.0| < |e.0|
  {
    var i :| 0 <= i < |e.0| && e.0[i] == '=';
    assert Line(e)[i] == '=';
    assert forall k :: 0 <= k < |r.0| ==> Line(r)[k] == r.0[k] != '=';
  }

  lemma ReadingIsCut(e: Entry)
    ensures '=' !in e.0 ==> Reading(e) == e
    ensures '=' in e.0 ==> CutTo(e.0, Reading(e).0) && '=' !in Reading(e).0
  {
    LineRoundTrip(e);
    if '=' in e.0 {
      var c := Reading(e).0;
      assert Line(e) == Line(Reading(e)) && '=' !in c;
      FirstEqualsIsInKey(e, Reading(e));
      assert Line(e)[|c|] == '=' == e.0[|c|];
      assert e.0[..|c| + 1] == Line(e)[..|c| + 1] == c + "=";
    }
  }

  lemma {:induction false} ParsedKeyIsRead(es: seq<Entry>, c: string)
    ensures c in Parse(Lines(es)) <==> exists i :: 0 <= i < |es| && Reading(es[i]).0 == c
    decreases |es|
  {
    if es != [] {
      var n := |es| - 1;
      LineRoundTrip(es[n]);
      assert Lines(es)[..n] == Lines(es[..n]);
      ParsedKeyIsRead(es[..n], c);
      assert forall i :: 0 <= i < n ==> es[..n][i] == es[i];
    }
  }

  /** Some later entry is read under the same key. */
  predicate Overtaken(es: seq<Entry>, p: nat)
    requires p < |es|
  {
    exists j :: p < j < |es| && CutTo(es[j].0, es[p].0)
  }

  lemma ParseLast(es: seq<Entry>)
    requires es != []
    ensures var n := |es| - 1; var r := Reading(es[n]);
            Parse(Lines(es)) == Parse(Lines(es[..n]))[r.0 := r.1]
  {
    var n := |es| - 1;
    assert Lines(es)[..n] == Lines(es[..n]);
    LineRoundTrip(es[n]);
  }

  lemma CutIsRead(e: Entry, c: string)
    requires '=' !in c && e.0 != c
    ensures Reading(e).0 == c <==> CutTo(e.0, c)
    ensures CutTo(e.0, c) ==> '=' in Reading(e).1
  {
    ReadingIsCut(e);
    if CutTo(e.0, c) {
      ReadingOfCut(e, c);
      assert Reading(e).1[|e.0[|c| + 1..]|] == '=';
    }
  }

  /** What a plain entry's key is read as. */
  predicate ReadAsWritten(es: seq<Entry>, p: nat, read: Env)
    requires p < |es|
  {
    es[p].0 in read && if Overtaken(es, p) then '=' in read[es[p].0] else read[es[p].0] == es[p].1
  }

  /** A plain entry is read as it is, unless a later one is read under its key; then the value has an equals sign. */
  lemma {:induction false} PlainEntryIsRead(es: seq<Entry>, p: nat)
    requires NoDuplicates(es) && p < |es| && '=' !in es[p].0
    ensures ReadAsWritten(es, p, Parse(Lines(es)))
    decreases |es|
  {
    var n := |es| - 1;
    ParseLast(es);
    if p < n {
      PlainEntryIsRead(es[..n], p);
      OvertakenGrows(es, p);
      CutIsRead(es[n], es[p].0);
    } else {
      ReadingIsCut(es[n]);
    }
  }

  lemma OvertakenGrows(es: seq<Entry>, p: nat)
    requires p < |es| - 1
    ensures Overtaken(es, p) <==> Overtaken(es[..|es| - 1], p) || CutTo(es[|es| - 1].0, es[p].0)
  {
    var front := es[..|es| - 1];
    if j :| p < j < |es| && CutTo(es[j].0, es[p].0) {
      assert j < |es| - 1 ==> CutTo(front[j].0, front[p].0);
    }
    if j :| p < j < |front| && CutTo(front[j].0, front[p].0) {
      assert CutTo(es[j].0, es[p].0);
    }
  }

  /** The keys a launch manages itself. */
  function Managed(sway: bool): set<string> {
    {"GOW_REQUIRED_DEVICES", "XKB_DEFAULT_LAYOUT", CompositorKey(sway), OtherKey(sway)}
  }

  /** A key that the defaults and the session leave alone. */
  predicate LeftAlone(env: Env, sway: bool) { forall c :: c in Managed(sway) ==> c !in env }

  lemma ManagedLengths()
    ensures |"GOW_REQUIRED_DEVICES"| == 20 && |"XKB_DEFAULT_LAYOUT"| == 18
    ensures |"RUN_SWAY"| == 8 && |"RUN_GAMESCOPE"| == 13
  {
  }

  lemma EarlyLeavesAlone(s: ContainerSession, xdg: string, sway: bool)
    ensures LeftAlone(FixedVars(xdg), sway) && LeftAlone(WaylandVars(s), sway)
  {
    ManagedLengths();
    assert |"XDG_RUNTIME_DIR"| == |"WAYLAND_DISPLAY"| == 15 && |"PUID"| == |"PGID"| == 4;
    assert |"REAL_WAYLAND_DISPLAY"| == 20 && "REAL_WAYLAND_DISPLAY"[0] == 'R' && "GOW_REQUIRED_DEVICES"[0] == 'G';
  }

  lemma SizesLeaveAlone(s: ContainerSession, sway: bool)
    ensures LeftAlone(SizeVars(s), sway) && LeftAlone(ResolutionVars(s), sway)
  {
    ManagedLengths();
    assert |"GAMESCOPE_WIDTH"| == 15 && |"GAMESCOPE_HEIGHT"| == 16 && |"GAMESCOPE_REFRESH"| == 17;
    assert |"RESOLUTION"| == 10;
  }

  lemma PulseLeavesAlone(s: ContainerSession, xdg: string, pulseServer: string, sway: bool)
    ensures LeftAlone(PulseVars(s, xdg, pulseServer), sway)
  {
    ManagedLengths();
    assert |"PULSE_SINK"| == 10 && |"PULSE_SOURCE"| == |"PULSE_SERVER"| == 12;
  }

  lemma DefaultsLeaveAlone(sway: bool)
    ensures LeftAlone(Defaults(), sway)
  {
    ManagedLengths();
    assert |"DISPLAY"| == 7 && "VNC_PORT"[0] == 'V' && "RUN_SWAY"[0] == 'R' && |"VNC_PORT"| == 8;
  }

  lemma UnionLeavesAlone(a: Env, b: Env, sway: bool)
    requires LeftAlone(a, sway) && LeftAlone(b, sway)
    ensures LeftAlone(a + b, sway)
  {
  }

  lemma SessionLeavesAlone(s: ContainerSession, xdg: string, pulseServer: string, sway: bool)
    ensures LeftAlone(SessionVars(s, xdg, pulseServer), sway)
  {
    EarlyLeavesAlone(s, xdg, sway);
    SizesLeaveAlone(s, sway);
    PulseLeavesAlone(s, xdg, pulseServer, sway);
    UnionLeavesAlone(FixedVars(xdg), WaylandVars(s), sway);
    UnionLeavesAlone(FixedVars(xdg) + WaylandVars(s), SizeVars(s), sway);
    UnionLeavesAlone(EarlyVars(s, xdg), ResolutionVars(s), sway);
    UnionLeavesAlone(EarlyVars(s, xdg) + ResolutionVars(s), PulseVars(s, xdg, pulseServer), sway);
  }

  /** For a managed key, the container has what is read from the list. */
  lemma ManagedIsRead(read: Env, s: ContainerSession, xdg: string, pulseServer: string, sway: bool, c: string)
    requires c in Managed(sway)
    ensures c in Defaults() + read + SessionVars(s, xdg, pulseServer) <==> c in read
    ensures c in read ==> (Defaults() + read + SessionVars(s, xdg, pulseServer))[c] == read[c]
  {
    DefaultsLeaveAlone(sway);
    SessionLeavesAlone(s, xdg, pulseServer, sway);
  }

  /** The application has a key that is read back as c. */
  ghost predicate AppCutsTo(appEnv: Env, c: string) { exists k :: k in Sanctioned(appEnv) && CutTo(k, c) }

  /** A list entry whose key is cut comes from the application. */
  lemma CutEntriesAreTheApps(es: seq<Entry>, appEnv: Env, layout: string, sway: bool, i: nat, c: string)
    requires ToMap(es) == SpecEnv(appEnv, layout, sway) && i < |es| && CutTo(es[i].0, c)
    ensures es[i].0 in Sanctioned(appEnv)
  {
    ContractKeysArePlain(layout, sway);
    assert HasKey(es, es[i].0);
    ToMapKeys(es, es[i].0);
    assert es[i].0[|c|] == '=';
  }

  lemma AppCutsAreEntries(es: seq<Entry>, appEnv: Env, layout: string, sway: bool, k: string, c: string)
    returns (j: nat)
    requires ToMap(es) == SpecEnv(appEnv, layout, sway) && k in Sanctioned(appEnv) && CutTo(k, c)
    ensures j < |es| && es[j].0 == k
  {
    ContractKeysArePlain(layout, sway);
    assert k[|c|] == '=';
    assert k in SpecEnv(appEnv, layout, sway);
    ToMapKeys(es, k);
    j :| 0 <= j < |es| && es[j].0 == k;
  }

  /** The container sees the compositor that was not selected if and only if an application key is cut to its name. */
  lemma OtherCompositorSeenIff(es: seq<Entry>, appEnv: Env, layout: string, sway: bool,
                               s: ContainerSession, xdg: string, pulseServer: string)
    requires NoDuplicates(es) && ToMap(es) == SpecEnv(appEnv, layout, sway)
    ensures OtherKey(sway) in Defaults() + Parse(Lines(es)) + SessionVars(s, xdg, pulseServer)
       <==> AppCutsTo(appEnv, OtherKey(sway))
  {
    var c := OtherKey(sway);
    ContractKeysArePlain(layout, sway);
    ContractWins(Sanctioned(appEnv), layout, sway);
    ManagedIsRead(Parse(Lines(es)), s, xdg, pulseServer, sway, c);
    ParsedKeyIsRead(es, c);
    ToMapKeys(es, c);
    if i :| 0 <= i < |es| && Reading(es[i]).0 == c {
      ReadingIsCut(es[i]);
      assert es[i].0 != c;
      CutEntriesAreTheApps(es, appEnv, layout, sway, i, c);
    }
    if k :| k in Sanctioned(appEnv) && CutTo(k, c) {
      var j := AppCutsAreEntries(es, appEnv, layout, sway, k, c);
      ReadingOfCut(es[j], c);
    }
  }

  /**
   * A variable of the contract reaches the container unchanged unless the application both sets
   * it and has another key that is cut to its name: then that one, sorted behind it, wins. The
   * keyboard layout never contains an equals sign (lightrays/src/launch.rs:199-207).
   */
  lemma ContractReachesContainerIff(es: seq<Entry>, appEnv: Env, layout: string, sway: bool,
                                    s: ContainerSession, xdg: string, pulseServer: string, c: string)
    requires NoDuplicates(es) && ToMap(es) == SpecEnv(appEnv, layout, sway)
    requires AppFirst(es, Sanctioned(appEnv).Keys)
    requires c in Contract(layout, sway) && '=' !in layout
    ensures c in Defaults() + Parse(Lines(es)) + SessionVars(s, xdg, pulseServer)
    ensures (Defaults() + Parse(Lines(es)) + SessionVars(s, xdg, pulseServer))[c] == Contract(layout, sway)[c]
       <==> !(c in Sanctioned(appEnv) && AppCutsTo(appEnv, c))
  {
    ContractKeysArePlain(layout, sway);
    ContractValuesArePlain(layout, sway, c);
    ToMapKeys(es, c);
    var p :| 0 <= p < |es| && es[p].0 == c;
    ToMapLookup(es, p);
    PlainEntryIsRead(es, p);
    ManagedIsRead(Parse(Lines(es)), s, xdg, pulseServer, sway, c);
    OvertakenIff(es, appEnv, layout, sway, p);
  }

  lemma ContractValuesArePlain(layout: string, sway: bool, c: string)
    requires c in Contract(layout, sway) && '=' !in layout
    ensures '=' !in Contract(layout, sway)[c] && c in Managed(sway)
  {
    assert '=' !in "/dev/dri/* /dev/nvidia*" && '=' !in "1";
  }

  lemma OvertakenByTheApp(es: seq<Entry>, appEnv: Env, layout: string, sway: bool, p: nat, j: nat)
    requires ToMap(es) == SpecEnv(appEnv, layout, sway) && AppFirst(es, Sanctioned(appEnv).Keys)
    requires p < j < |es| && CutTo(es[j].0, es[p].0)
    ensures es[p].0 in Sanctioned(appEnv) && AppCutsTo(appEnv, es[p].0)
  {
    CutEntriesAreTheApps(es, appEnv, layout, sway, j, es[p].0);
    AppFirstAt(es, Sanctioned(appEnv).Keys, p, j);
  }

  lemma AppOvertakes(es: seq<Entry>, appEnv: Env, layout: string, sway: bool, p: nat, k: string)
    requires ToMap(es) == SpecEnv(appEnv, layout, sway) && AppFirst(es, Sanctioned(appEnv).Keys)
    requires p < |es| && es[p].0 in Sanctioned(appEnv).Keys && k in Sanctioned(appEnv) && CutTo(k, es[p].0)
    ensures Overtaken(es, p)
  {
    var j := AppCutsAreEntries(es, appEnv, layout, sway, k, es[p].0);
    CutIsLonger(k, es[p].0);
    LongerIsBehind(es, Sanctioned(appEnv).Keys, p, j);
  }

  lemma CutIsLonger(key: string, c: string)
    requires CutTo(key, c)
    ensures c < key
  {
    assert key[..|c|] == (c + "=")[..|c|] == c;
  }

  lemma LongerIsBehind(es: seq<Entry>, app: set<string>, p: nat, j: nat)
    requires AppFirst(es, app) && p < |es| && j < |es| && es[p].0 in app && es[p].0 < es[j].0
    ensures p < j
  {
    if j < p {
      AppFirstAt(es, app, j, p);
    }
  }

  lemma OvertakenIff(es: seq<Entry>, appEnv: Env, layout: string, sway: bool, p: nat)
    requires ToMap(es) == SpecEnv(appEnv, layout, sway) && AppFirst(es, Sanctioned(appEnv).Keys) && p < |es|
    ensures Overtaken(es, p) <==> es[p].0 in Sanctioned(appEnv) && AppCutsTo(appEnv, es[p].0)
  {
    if Overtaken(es, p) {
      var j :| p < j < |es| && CutTo(es[j].0, es[p].0);
      OvertakenByTheApp(es, appEnv, layout, sway, p, j);
    }
    if es[p].0 in Sanctioned(appEnv) && AppCutsTo(appEnv, es[p].0) {
      var k :| k in Sanctioned(appEnv) && CutTo(k, es[p].0);
      AppOvertakes(es, appEnv, layout, sway, p, k);
    }
  }

  // ----- what the container sees, variable by variable ------------------------------

  /** The number a string of decimal digits stands for. */
  function Number(digits: string): nat
    requires forall i :: 0 <= i < |digits| ==> '0' <= digits[i] <= '9'
    decreases |digits|
  {
    if digits == "" then 0
    else 10 * Number(digits[..|digits| - 1]) + (digits[|digits| - 1] as int - '0' as int)
  }

  predicate Reads(digits: string, n: nat) {
    digits != "" && (forall i :: 0 <= i < |digits| ==> '0' <= digits[i] <= '9') && Number(digits) == n
  }

  lemma DigitReads(d: nat)
    requires d < 10
    ensures '0' <= Digit(d) <= '9' && Digit(d) as int - '0' as int == d
  {
  }

  /** Decimal digits read back as the number they were written from. */
  lemma {:induction false} DecimalReads(n: nat)
    ensures Reads(Decimal(n), n)
    decreases n
  {
    DigitReads(n % 10);
    if n < 10 {
      assert [Digit(n)][..0] == "";
    } else {
      DecimalReads(n / 10);
      var d := Decimal(n);
      assert d[..|d| - 1] == Decimal(n / 10);
    }
  }

  predicate Has(env: Env, key: string, value: string) { key in env && env[key] == value }

  predicate HasNumber(env: Env, key: string, n: nat) { key in env && Reads(env[key], n) }

  // The groups of session variables set different keys.

  lemma LaterSizesSpareEarly(s: ContainerSession, xdg: string)
    ensures FixedVars(xdg).Keys !! WaylandVars(s).Keys
    ensures (FixedVars(xdg).Keys + WaylandVars(s).Keys) !! SizeVars(s).Keys
  {
    assert |"XDG_RUNTIME_DIR"| == |"WAYLAND_DISPLAY"| == |"GAMESCOPE_WIDTH"| == 15;
    assert "XDG_RUNTIME_DIR"[0] == 'X' && "WAYLAND_DISPLAY"[0] == 'W' && "GAMESCOPE_WIDTH"[0] == 'G';
    assert |"PUID"| == |"PGID"| == 4 && |"REAL_WAYLAND_DISPLAY"| == 20;
    assert |"GAMESCOPE_HEIGHT"| == 16 && |"GAMESCOPE_REFRESH"| == 17;
  }

  lemma LateSpareEarly(s: ContainerSession, xdg: string, pulseServer: string)
    ensures EarlyVars(s, xdg).Keys !! ResolutionVars(s).Keys
    ensures EarlyVars(s, xdg).Keys !! PulseVars(s, xdg, pulseServer).Keys
  {
    LateKeysAreShort(s, xdg, pulseServer);
    EarlyKeysAreNot(s, xdg);
  }

  lemma LateKeysAreShort(s: ContainerSession, xdg: string, pulseServer: string)
    ensures forall k :: k in ResolutionVars(s) || k in PulseVars(s, xdg, pulseServer) ==> 10 <= |k| <= 12
  {
    assert |"RESOLUTION"| == |"PULSE_SINK"| == 10 && |"PULSE_SOURCE"| == |"PULSE_SERVER"| == 12;
  }

  lemma EarlyKeysAreNot(s: ContainerSession, xdg: string)
    ensures forall k :: k in EarlyVars(s, xdg) ==> |k| < 10 || |k| > 12
  {
    assert |"XDG_RUNTIME_DIR"| == |"WAYLAND_DISPLAY"| == |"GAMESCOPE_WIDTH"| == 15 && |"PUID"| == |"PGID"| == 4;
    assert |"REAL_WAYLAND_DISPLAY"| == 20 && |"GAMESCOPE_HEIGHT"| == 16 && |"GAMESCOPE_REFRESH"| == 17;
  }

  lemma FixedSees(xdg: string)
    ensures Has(FixedVars(xdg), "XDG_RUNTIME_DIR", xdg)
    ensures Has(FixedVars(xdg), "PUID", "1000") && Has(FixedVars(xdg), "PGID", "1000")
  {
    assert |"XDG_RUNTIME_DIR"| == 15 && |"PUID"| == |"PGID"| == 4 && "PUID"[1] == 'U' && "PGID"[1] == 'G';
  }

  lemma WaylandSees(s: ContainerSession)
    ensures s.waylandDisplay.Some? ==>
              && Has(WaylandVars(s), "WAYLAND_DISPLAY", s.waylandDisplay.value)
              && Has(WaylandVars(s), "REAL_WAYLAND_DISPLAY", s.waylandDisplay.value)
  {
  }

  lemma SizeSees(s: ContainerSession)
    ensures HasNumber(SizeVars(s), "GAMESCOPE_WIDTH", s.width)
    ensures HasNumber(SizeVars(s), "GAMESCOPE_HEIGHT", s.height)
    ensures HasNumber(SizeVars(s), "GAMESCOPE_REFRESH", s.fps)
  {
    assert |"GAMESCOPE_WIDTH"| == 15 && |"GAMESCOPE_HEIGHT"| == 16 && |"GAMESCOPE_REFRESH"| == 17;
    DecimalReads(s.width);
    DecimalReads(s.height);
    DecimalReads(s.fps);
  }

  /** A picture size and its depth: width, height, 24, with an x between them. */
  ghost predicate ReadsResolution(value: string, width: nat, height: nat) {
    exists w, h :: value == w + "x" + h + "x24" && Reads(w, width) && Reads(h, height)
  }

  lemma LateSees(s: ContainerSession, xdg: string, pulseServer: string)
    ensures "RESOLUTION" in ResolutionVars(s) && ReadsResolution(ResolutionVars(s)["RESOLUTION"], s.width, s.height)
    ensures s.audioSink.Some? ==>
              && Has(PulseVars(s, xdg, pulseServer), "PULSE_SINK", s.audioSink.value)
              && Has(PulseVars(s, xdg, pulseServer), "PULSE_SOURCE", s.audioSink.value + ".monitor")
    ensures s.audioSink.Some? && pulseServer != "" ==>
              Has(PulseVars(s, xdg, pulseServer), "PULSE_SERVER", "unix:" + xdg + "/pulse/native")
    ensures "RESOLUTION" !in PulseVars(s, xdg, pulseServer)
  {
    assert |"RESOLUTION"| == |"PULSE_SINK"| == 10 && "RESOLUTION"[0] == 'R' && "PULSE_SINK"[0] == 'P';
    assert |"PULSE_SOURCE"| == |"PULSE_SERVER"| == 12 && "PULSE_SOURCE"[7] == 'O' && "PULSE_SERVER"[7] == 'E';
    DecimalReads(s.width);
    DecimalReads(s.height);
  }

  lemma EarlySees(s: ContainerSession, xdg: string)
    ensures Has(EarlyVars(s, xdg), "XDG_RUNTIME_DIR", xdg)
    ensures Has(EarlyVars(s, xdg), "PUID", "1000") && Has(EarlyVars(s, xdg), "PGID", "1000")
    ensures s.waylandDisplay.Some? ==>
              && Has(EarlyVars(s, xdg), "WAYLAND_DISPLAY", s.waylandDisplay.value)
              && Has(EarlyVars(s, xdg), "REAL_WAYLAND_DISPLAY", s.waylandDisplay.value)
    ensures HasNumber(EarlyVars(s, xdg), "GAMESCOPE_WIDTH", s.width)
    ensures HasNumber(EarlyVars(s, xdg), "GAMESCOPE_HEIGHT", s.height)
    ensures HasNumber(EarlyVars(s, xdg), "GAMESCOPE_REFRESH", s.fps)
  {
    FixedSees(xdg);
    WaylandSees(s);
    SizeSees(s);
    LaterSizesSpareEarly(s, xdg);
  }

  /** Every variable a session sets, as the container sees it, whatever the application has set. */
  lemma SessionReachesContainer(read: Env, s: ContainerSession, xdg: string, pulseServer: string)
    ensures var env := Defaults() + read + SessionVars(s, xdg, pulseServer);
            && Has(env, "XDG_RUNTIME_DIR", xdg) && Has(env, "PUID", "1000") && Has(env, "PGID", "1000")
            && (s.waylandDisplay.Some? ==>
                  && Has(env, "WAYLAND_DISPLAY", s.waylandDisplay.value)
                  && Has(env, "REAL_WAYLAND_DISPLAY", s.waylandDisplay.value))
            && HasNumber(env, "GAMESCOPE_WIDTH", s.width) && HasNumber(env, "GAMESCOPE_HEIGHT", s.height)
            && HasNumber(env, "GAMESCOPE_REFRESH", s.fps)
    ensures var env := Defaults() + read + SessionVars(s, xdg, pulseServer);
            && "RESOLUTION" in env && ReadsResolution(env["RESOLUTION"], s.width, s.height)
            && (s.audioSink.Some? ==>
                  && Has(env, "PULSE_SINK", s.audioSink.value)
                  && Has(env, "PULSE_SOURCE", s.audioSink.value + ".monitor")
                  && (pulseServer != "" ==> Has(env, "PULSE_SERVER", "unix:" + xdg + "/pulse/native")))
  {
    EarlySees(s, xdg);
    LateSees(s, xdg, pulseServer);
    LateSpareEarly(s, xdg, pulseServer);
  }

  /** The container sees of a variable what was read from the lines of its spec. */
  predicate SeenAsRead(env: Env, read: Env, key: string) {
    (key in env <==> key in read) && (key in read ==> env[key] == read[key])
  }

  /** Every other variable is the application's, and so are those a session has nothing to say about. */
  lemma ApplicationReachesContainer(read: Env, s: ContainerSession, xdg: string, pulseServer: string, key: string)
    requires key !in {"DISPLAY", "VNC_PORT", "XDG_RUNTIME_DIR", "PUID", "PGID", "RESOLUTION"}
    requires key !in {"GAMESCOPE_WIDTH", "GAMESCOPE_HEIGHT", "GAMESCOPE_REFRESH"}
    requires key in {"WAYLAND_DISPLAY", "REAL_WAYLAND_DISPLAY"} ==> s.waylandDisplay.None?
    requires key in {"PULSE_SINK", "PULSE_SOURCE", "PULSE_SERVER"} ==>
               s.audioSink.None? || (key == "PULSE_SERVER" && pulseServer == "")
    ensures SeenAsRead(Defaults() + read + SessionVars(s, xdg, pulseServer), read, key)
  {
    assert |"PULSE_SINK"| == 10 && |"PULSE_SOURCE"| == |"PULSE_SERVER"| == 12;
    assert "PULSE_SOURCE"[7] == 'O' && "PULSE_SERVER"[7] == 'E';
    assert key !in EarlyVars(s, xdg) && key !in PulseVars(s, xdg, pulseServer);
  }

  /** Display and VNC port are the application's if it sets them, and `:99` and 5900 if not. */
  lemma DefaultsReachContainer(read: Env, s: ContainerSession, xdg: string, pulseServer: string)
    ensures var env := Defaults() + read + SessionVars(s, xdg, pulseServer);
            && Has(env, "DISPLAY", if "DISPLAY" in read then read["DISPLAY"] else ":99")
            && Has(env, "VNC_PORT", if "VNC_PORT" in read then read["VNC_PORT"] else "5900")
  {
    assert |"DISPLAY"| == 7 && |"VNC_PORT"| == 8;
    SessionSetsNoDefault(s, xdg);
    PulseSetsNoDefault(s, xdg, pulseServer);
  }

  lemma PulseSetsNoDefault(s: ContainerSession, xdg: string, pulseServer: string)
    ensures SetsNoDefault(PulseVars(s, xdg, pulseServer))
  {
    assert |"DISPLAY"| == 7 && |"VNC_PORT"| == 8;
    assert |"PULSE_SINK"| == 10 && |"PULSE_SOURCE"| == |"PULSE_SERVER"| == 12;
  }

  lemma CutHasEquals(key: string, c: string)
    requires CutTo(key, c)
    ensures '=' in key
  {
    assert key[|c|] == '=';
  }

  /** Keys of blanks and line ends are dropped; keys with a visible ASCII character are kept as they are. */
  lemma OnlyBlankKeysAreDropped(appEnv: Env, k: string)
    requires k in appEnv
    ensures (forall i :: 0 <= i < |k| ==> k[i] == ' ' || k[i] == '\t' || k[i] == '\n' || k[i] == '\r') ==>
              k !in Sanctioned(appEnv)
    ensures (exists i :: 0 <= i < |k| && '!' <= k[i] <= '~') ==>
              k in Sanctioned(appEnv) && Sanctioned(appEnv)[k] == appEnv[k]
  {
    if i :| 0 <= i < |k| && '!' <= k[i] <= '~' {
      assert !IsWhitespace(k[i]);
    }
  }

  lemma PlainKeysCutToNothing(appEnv: Env, c: string)
    requires PlainKeys(appEnv)
    ensures !AppCutsTo(appEnv, c)
  {
    forall k | k in Sanctioned(appEnv) ensures !CutTo(k, c) {
      if CutTo(k, c) {
        CutHasEquals(k, c);
      }
    }
  }

  /** With plain keys the contract holds by name: the selected compositor alone, devices and keyboard as managed. */
  lemma ContractReachesContainer(es: seq<Entry>, appEnv: Env, layout: string, sway: bool,
                                 s: ContainerSession, xdg: string, pulseServer: string)
    requires NoDuplicates(es) && ToMap(es) == SpecEnv(appEnv, layout, sway)
    requires AppFirst(es, Sanctioned(appEnv).Keys) && PlainKeys(appEnv) && '=' !in layout
    ensures var env := Defaults() + Parse(Lines(es)) + SessionVars(s, xdg, pulseServer);
            && (sway ==> Has(env, "RUN_SWAY", "1") && "RUN_GAMESCOPE" !in env)
            && (!sway ==> Has(env, "RUN_GAMESCOPE", "1") && "RUN_SWAY" !in env)
            && Has(env, "GOW_REQUIRED_DEVICES", "/dev/dri/* /dev/nvidia*")
            && Has(env, "XKB_DEFAULT_LAYOUT", layout)
  {
    ContractHas(layout, sway);
    PlainKeysCutToNothing(appEnv, OtherKey(sway));
    OtherCompositorSeenIff(es, appEnv, layout, sway, s, xdg, pulseServer);
    forall c | c in Contract(layout, sway)
      ensures Has(Defaults() + Parse(Lines(es)) + SessionVars(s, xdg, pulseServer), c, Contract(layout, sway)[c])
    {
      PlainKeysCutToNothing(appEnv, c);
      ContractReachesContainerIff(es, appEnv, layout, sway, s, xdg, pulseServer, c);
    }
  }

  lemma ContractHas(layout: string, sway: bool)
    ensures Has(Contract(layout, sway), if sway then "RUN_SWAY" else "RUN_GAMESCOPE", "1")
    ensures OtherKey(sway) == if sway then "RUN_GAMESCOPE" else "RUN_SWAY"
    ensures Has(Contract(layout, sway), "GOW_REQUIRED_DEVICES", "/dev/dri/* /dev/nvidia*")
    ensures Has(Contract(layout, sway), "XKB_DEFAULT_LAYOUT", layout)
  {
    ManagedLengths();
  }
}
