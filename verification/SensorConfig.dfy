/** The normaliser every controller configuration goes through
    (internal/protocol/types.go). Strings are byte strings. */
module SensorConfig {
  import opened Arithmetic
  import opened Wrappers
  import Planner
  import Schedule
  import TestBytes
  import WindowGrammar

  const HOUSEHOLD_CONTRACT: int := 3

  datatype Name = Household | Saturation | Content | Capacity | Other(name: string)

  datatype Profile = Profile(
    name: Name, enabled: bool, windows: seq<string>, cadence: int,
    minDuration: int, maxDuration: int, maxDownload: int, maxUpload: int,
    maxConcurrent: int, minSpacing: int,
    allowMetered: bool, allowOnBattery: bool, countsTowardExperience: bool)

  datatype Config = Config(
    contractVersion: int, probeInterval: int, uploadInterval: int, dnsInterval: int, httpInterval: int,
    heartbeatInterval: int, dailyBudgetMb: int, monthlyBudgetMb: int, minSpacing: int, crossTrafficMbps: real,
    probeTargets: seq<string>, dnsDomains: seq<string>, dnsResolvers: seq<string>, httpTargets: seq<string>,
    windows: seq<string>, profiles: seq<Profile>, mix: Option<Planner.Mix>,
    sendSsid: bool, sendNetworkIdentity: bool, paused: bool)

  /** Whether one target string is safe to probe, resolve with or fetch. */
  datatype Checks = Checks(probe: string -> bool, resolver: string -> bool, target: string -> bool)

  const ALL_DAY := ["00:00-24:00"]
  const DEFAULT_WINDOWS := ["00:00-06:00", "06:00-12:00", "12:00-18:00", "18:00-24:00"]
  const DEFAULT_PROBES := ["gateway", "controller", "anchor:1.1.1.1", "anchor:8.8.8.8"]
  const DEFAULT_DOMAINS := ["example.com"]
  const DEFAULT_RESOLVERS := ["1.1.1.1"]
  const DEFAULT_HTTP := ["https://www.google.com/generate_204", "https://connectivitycheck.gstatic.com/generate_204"]

  const MIB: int := 1_048_576

  const HOUSEHOLD := Profile(Household, true, ALL_DAY, 360, 8, 30, 225_000_000, 75_000_000, 8, 60, false, false, true)
  const SATURATION :=
    Profile(Saturation, true, ALL_DAY, 1440, 8, 60, 1024 * MIB, 512 * MIB, 8, 360, false, false, false)
  const CONTENT := Profile(Content, true, ALL_DAY, 360, 4, 20, 256 * MIB, 96 * MIB, 4, 15, false, false, true)
  const CAPACITY := Profile(Capacity, false, ["never"], 0, 8, 60, 512 * MIB, 256 * MIB, 8, 60, false, false, false)

  // ---- scalars and lists ----------------------------------------------------

  function Bounded(value: int, low: int, high: int, fallback: int): int {
    if value < low || value > high then fallback else value
  }

  predicate ShortStrings(values: seq<string>, maxLength: int) {
    forall i | 0 <= i < |values| :: values[i] != "" && |values[i]| <= maxLength
  }

  function BoundedStrings(values: seq<string>, maximum: int, maxLength: int, fallback: seq<string>): seq<string> {
    if values == [] || |values| > maximum || !ShortStrings(values, maxLength) then fallback else values
  }

  /** A list kept whole or replaced whole, as one bad entry decides. */
  function AllOrDefault(
    values: seq<string>, maximum: int, maxLength: int, ok: string -> bool, fallback: seq<string>): seq<string>
  {
    var short := BoundedStrings(values, maximum, maxLength, fallback);
    if forall i | 0 <= i < |short| :: ok(short[i]) then short else fallback
  }

  function Runnable(values: seq<string>): seq<string> {
    if values == [] then []
    else if WindowGrammar.Accepted(values[|values| - 1]) then
      Runnable(values[..|values| - 1]) + [values[|values| - 1]]
    else Runnable(values[..|values| - 1])
  }

  function NormalisedWindows(values: seq<string>, fallback: seq<string>): seq<string> {
    var valid := Runnable(BoundedStrings(values, 12, 11, fallback));
    if valid == [] then fallback else valid
  }

  // ---- profiles -------------------------------------------------------------

  function DeviceProfile(name: Name): Profile
    requires !name.Other?
  {
    match name
    case Household => HOUSEHOLD
    case Saturation => SATURATION
    case Content => CONTENT
    case Capacity => CAPACITY
  }

  predicate Allowed(name: Name, household: bool) {
    !name.Other? && (household || name.Content? || name.Capacity?)
  }

  function NormalisedProfile(p: Profile): Profile
    requires !p.name.Other?
  {
    var fallback := DeviceProfile(p.name);
    var low := Bounded(p.minDuration, 2, 30, fallback.minDuration);
    var high := Max(Bounded(p.maxDuration, low, 120, fallback.maxDuration), low);
    var longest := if p.name.Household? then Max(high, 8) else high;
    Profile(p.name, p.enabled, NormalisedWindows(p.windows, fallback.windows),
      if p.cadence == 0 then 0 else Bounded(p.cadence, 60, 1440, fallback.cadence),
      if p.name.Household? then Min(low, longest) else low, longest,
      Bounded(p.maxDownload, MIB / 2, 1024 * MIB, fallback.maxDownload),
      Bounded(p.maxUpload, MIB / 4, 512 * MIB, fallback.maxUpload),
      Bounded(p.maxConcurrent, 1, 8, fallback.maxConcurrent),
      Bounded(p.minSpacing, 15, 10080, fallback.minSpacing),
      false, false, p.name.Household? || p.name.Content?)
  }

  function Names(profiles: seq<Profile>): set<Name> {
    set p | p in profiles :: p.name
  }

  /** The configured profiles that survive: known, allowed, first of their name. */
  function Kept(values: seq<Profile>, household: bool): seq<Profile> {
    if values == [] then []
    else
      var before, last := Kept(values[..|values| - 1], household), values[|values| - 1];
      if Allowed(last.name, household) && last.name !in Names(before)
      then before + [NormalisedProfile(last)] else before
  }

  /** The default profiles of a contract. */
  function Defaults(household: bool): seq<Profile> {
    if household then [HOUSEHOLD, SATURATION] else [CONTENT, CAPACITY]
  }

  function Appended(kept: seq<Profile>, p: Profile): seq<Profile> {
    if p.name in Names(kept) then kept else kept + [p]
  }

  function NormalisedProfiles(values: seq<Profile>, legacyWindows: seq<string>, contract: int): seq<Profile> {
    var household := contract >= HOUSEHOLD_CONTRACT;
    var defaults := Defaults(household);
    var first := if household then defaults[0] else defaults[0].(windows := legacyWindows);
    if values == [] then [first, defaults[1]]
    else
      var kept := Kept(if |values| > 4 then values[..4] else values, household);
      if kept == [] then defaults else Appended(Appended(kept, first), defaults[1])
  }

  // ---- the whole configuration ----------------------------------------------

  function Normalised(c: Config, ok: Checks): Config {
    var contract := Bounded(c.contractVersion, 1, 1000, 2);
    var windows := NormalisedWindows(c.windows, DEFAULT_WINDOWS);
    Config(contract,
      Bounded(c.probeInterval, 1, 60, 1), Bounded(c.uploadInterval, 30, 900, 60),
      Bounded(c.dnsInterval, 30, 3600, 60), Bounded(c.httpInterval, 30, 3600, 60),
      Bounded(c.heartbeatInterval, 300, 3600, 600),
      Bounded(c.dailyBudgetMb, 1, 8192, 4096), Bounded(c.monthlyBudgetMb, 1, 131072, 61440),
      Bounded(c.minSpacing, 15, 1440, 15),
      if c.crossTrafficMbps < 0.0 || c.crossTrafficMbps > 10000.0 then 5.0 else c.crossTrafficMbps,
      AllOrDefault(c.probeTargets, 8, 255, ok.probe, DEFAULT_PROBES),
      BoundedStrings(c.dnsDomains, 16, 253, DEFAULT_DOMAINS),
      AllOrDefault(c.dnsResolvers, 4, 64, ok.resolver, DEFAULT_RESOLVERS),
      AllOrDefault(c.httpTargets, 16, 2048, ok.target, DEFAULT_HTTP),
      windows, NormalisedProfiles(c.profiles, windows, contract),
      if c.mix.Some? && contract >= HOUSEHOLD_CONTRACT then Some(Planner.NormalisedMix(c.mix.value)) else None,
      c.sendSsid, c.sendNetworkIdentity, c.paused)
  }

  // ---- windows --------------------------------------------------------------

  ghost predicate AllAccepted(values: seq<string>) {
    forall i | 0 <= i < |values| :: WindowGrammar.Accepted(values[i])
  }

  /** What a normalised window list looks like. */
  ghost predicate WindowList(values: seq<string>) {
    1 <= |values| <= 12 && ShortStrings(values, 11) && AllAccepted(values)
  }

  lemma {:induction false} RunnableIsAccepted(values: seq<string>)
    ensures AllAccepted(Runnable(values)) && |Runnable(values)| <= |values|
    ensures ShortStrings(values, 11) ==> ShortStrings(Runnable(values), 11)
  {
    if values != [] {
      RunnableIsAccepted(values[..|values| - 1]);
    }
  }

  lemma {:induction false} AcceptedAreRunnable(values: seq<string>)
    requires AllAccepted(values)
    ensures Runnable(values) == values
  {
    if values != [] {
      AcceptedAreRunnable(values[..|values| - 1]);
      assert values == values[..|values| - 1] + [values[|values| - 1]];
    }
  }

  lemma WindowsAreFixed(values: seq<string>, fallback: seq<string>)
    requires WindowList(values)
    ensures NormalisedWindows(values, fallback) == values
  {
    AcceptedAreRunnable(values);
  }

  lemma WindowsBecomeAList(values: seq<string>, fallback: seq<string>)
    requires WindowList(fallback)
    ensures WindowList(NormalisedWindows(values, fallback))
  {
    RunnableIsAccepted(BoundedStrings(values, 12, 11, fallback));
  }

  /** A whole-hour window in the shape the defaults use is accepted. */
  lemma HoursAreAccepted(window: string, a: char, b: char, c: char, d: char)
    requires window == [a, b, ':', '0', '0'] + ['-'] + [c, d, ':', '0', '0']
    requires WindowGrammar.IsDigit(a) && WindowGrammar.IsDigit(b)
    requires WindowGrammar.IsDigit(c) && WindowGrammar.IsDigit(d)
    requires
      var h := (a as int - '0' as int) * 10 + (b as int - '0' as int);
      var k := (c as int - '0' as int) * 10 + (d as int - '0' as int);
      h < k <= 24
    ensures WindowGrammar.Accepted(window)
  {
    WindowGrammar.ClockReads(a, b, '0', '0');
    WindowGrammar.ClockReads(c, d, '0', '0');
    WindowGrammar.PairIsAccepted([a, b, ':', '0', '0'], [c, d, ':', '0', '0']);
  }

  lemma AllDayIsAccepted()
    ensures WindowGrammar.Accepted("00:00-24:00")
  {
    assert "00:00-24:00" == ['0', '0', ':', '0', '0'] + ['-'] + ['2', '4', ':', '0', '0'];
    HoursAreAccepted("00:00-24:00", '0', '0', '2', '4');
  }

  lemma OneWindowIsAList(window: string)
    requires WindowGrammar.Accepted(window) && 0 < |window| <= 11
    ensures WindowList([window])
  {
  }

  lemma AllDayIsAList()
    ensures WindowList(ALL_DAY)
  {
    AllDayIsAccepted();
    OneWindowIsAList("00:00-24:00");
  }

  lemma NightIsAccepted()
    ensures WindowGrammar.Accepted("00:00-06:00")
  {
    assert "00:00-06:00" == ['0', '0', ':', '0', '0'] + ['-'] + ['0', '6', ':', '0', '0'];
    HoursAreAccepted("00:00-06:00", '0', '0', '0', '6');
  }

  lemma MorningIsAccepted()
    ensures WindowGrammar.Accepted("06:00-12:00")
  {
    assert "06:00-12:00" == ['0', '6', ':', '0', '0'] + ['-'] + ['1', '2', ':', '0', '0'];
    HoursAreAccepted("06:00-12:00", '0', '6', '1', '2');
  }

  lemma AfternoonIsAccepted()
    ensures WindowGrammar.Accepted("12:00-18:00")
  {
    assert "12:00-18:00" == ['1', '2', ':', '0', '0'] + ['-'] + ['1', '8', ':', '0', '0'];
    HoursAreAccepted("12:00-18:00", '1', '2', '1', '8');
  }

  lemma EveningIsAccepted()
    ensures WindowGrammar.Accepted("18:00-24:00")
  {
    assert "18:00-24:00" == ['1', '8', ':', '0', '0'] + ['-'] + ['2', '4', ':', '0', '0'];
    HoursAreAccepted("18:00-24:00", '1', '8', '2', '4');
  }

  lemma FourWindowsAreAList(a: string, b: string, c: string, d: string)
    requires WindowGrammar.Accepted(a) && WindowGrammar.Accepted(b)
    requires WindowGrammar.Accepted(c) && WindowGrammar.Accepted(d)
    requires 0 < |a| <= 11 && 0 < |b| <= 11 && 0 < |c| <= 11 && 0 < |d| <= 11
    ensures WindowList([a, b, c, d])
  {
  }

  lemma DefaultWindowsAreLists()
    ensures WindowList(DEFAULT_WINDOWS) && WindowList(ALL_DAY) && WindowList(["never"])
  {
    AllDayIsAList();
    OneWindowIsAList("never");
    NightIsAccepted();
    MorningIsAccepted();
    AfternoonIsAccepted();
    EveningIsAccepted();
    FourWindowsAreAList("00:00-06:00", "06:00-12:00", "12:00-18:00", "18:00-24:00");
  }

  // ---- one profile ----------------------------------------------------------

  /** The bounds every scheduled profile obeys. */
  ghost predicate InBounds(p: Profile) {
    && !p.name.Other? && WindowList(p.windows)
    && (p.cadence == 0 || 60 <= p.cadence <= 1440)
    && 2 <= p.minDuration <= 30 && p.minDuration <= p.maxDuration <= 120
    && (p.name.Household? ==> p.maxDuration >= 8)
    && MIB / 2 <= p.maxDownload <= 1024 * MIB && MIB / 4 <= p.maxUpload <= 512 * MIB
    && 1 <= p.maxConcurrent <= 8 && 15 <= p.minSpacing <= 10080
    && !p.allowMetered && !p.allowOnBattery && p.countsTowardExperience == (p.name.Household? || p.name.Content?)
  }

  lemma DeviceWindowsAreLists(name: Name)
    requires !name.Other?
    ensures WindowList(DeviceProfile(name).windows)
  {
    DefaultWindowsAreLists();
  }

  lemma ProfileEndsInBounds(p: Profile)
    requires !p.name.Other?
    ensures InBounds(NormalisedProfile(p)) && NormalisedProfile(p).name == p.name
  {
    DeviceWindowsAreLists(p.name);
    WindowsBecomeAList(p.windows, DeviceProfile(p.name).windows);
  }

  lemma InBoundsIsFixed(p: Profile)
    requires InBounds(p)
    ensures NormalisedProfile(p) == p
  {
    WindowsAreFixed(p.windows, DeviceProfile(p.name).windows);
  }

  lemma DefaultsAreInBounds(household: bool, legacyWindows: seq<string>)
    requires WindowList(legacyWindows)
    ensures InBounds(Defaults(household)[0]) && InBounds(Defaults(household)[1])
    ensures InBounds(Defaults(household)[0].(windows := legacyWindows))
  {
    DefaultWindowsAreLists();
  }

  // ---- the profile list -----------------------------------------------------

  ghost predicate Sound(profiles: seq<Profile>, household: bool) {
    && (forall i | 0 <= i < |profiles| :: InBounds(profiles[i]) && Allowed(profiles[i].name, household))
    && (forall i, j | 0 <= i < j < |profiles| :: profiles[i].name != profiles[j].name)
  }

  lemma AppendedIsSound(kept: seq<Profile>, p: Profile, household: bool)
    requires Sound(kept, household) && InBounds(p) && Allowed(p.name, household)
    ensures Sound(Appended(kept, p), household) && p.name in Names(Appended(kept, p))
    ensures Names(kept) <= Names(Appended(kept, p))
  {
    assert forall i | 0 <= i < |kept| :: kept[i].name in Names(kept);
    assert (kept + [p])[|kept|] == p;
    assert p in kept + [p];
  }

  lemma {:induction false} KeptIsSound(values: seq<Profile>, household: bool)
    ensures Sound(Kept(values, household), household)
  {
    if values != [] {
      var before, last := Kept(values[..|values| - 1], household), values[|values| - 1];
      KeptIsSound(values[..|values| - 1], household);
      if Allowed(last.name, household) && last.name !in Names(before) {
        ProfileEndsInBounds(last);
        AppendedIsSound(before, NormalisedProfile(last), household);
      }
    }
  }

  lemma LastNameIsNew(profiles: seq<Profile>, household: bool)
    requires profiles != [] && Sound(profiles, household)
    ensures Sound(profiles[..|profiles| - 1], household)
    ensures profiles[|profiles| - 1].name !in Names(profiles[..|profiles| - 1])
  {
  }

  lemma LastIsFixed(profiles: seq<Profile>, household: bool)
    requires profiles != [] && Sound(profiles, household)
    ensures
      var last := profiles[|profiles| - 1];
      Allowed(last.name, household) && NormalisedProfile(last) == last
  {
    InBoundsIsFixed(profiles[|profiles| - 1]);
  }

  lemma KeptGrows(kept: seq<Profile>, p: Profile, household: bool)
    requires Kept(kept, household) == kept
    requires Allowed(p.name, household) && p.name !in Names(kept) && NormalisedProfile(p) == p
    ensures Kept(kept + [p], household) == kept + [p]
  {
    assert (kept + [p])[..|kept|] == kept;
  }

  lemma {:induction false} SoundIsKept(profiles: seq<Profile>, household: bool)
    requires Sound(profiles, household)
    ensures Kept(profiles, household) == profiles
  {
    if profiles != [] {
      var init, last := profiles[..|profiles| - 1], profiles[|profiles| - 1];
      LastNameIsNew(profiles, household);
      LastIsFixed(profiles, household);
      SoundIsKept(init, household);
      KeptGrows(init, last, household);
      assert profiles == init + [last];
    }
  }

  lemma {:induction false} NamesCount(profiles: seq<Profile>)
    requires forall i, j | 0 <= i < j < |profiles| :: profiles[i].name != profiles[j].name
    ensures |Names(profiles)| == |profiles|
  {
    if profiles != [] {
      var init, last := profiles[..|profiles| - 1], profiles[|profiles| - 1];
      NamesCount(init);
      assert profiles == init + [last];
      assert last.name !in Names(init);
      assert Names(profiles) == Names(init) + {last.name};
    }
  }

  lemma SubsetSize(a: set<Name>, b: set<Name>)
    requires a <= b
    ensures |a| <= |b|
  {
    assert b == a + (b - a);
  }

  lemma AtMostFour(profiles: seq<Profile>, household: bool)
    requires Sound(profiles, household)
    ensures |profiles| <= 4
  {
    NamesCount(profiles);
    SubsetSize(Names(profiles), {Household, Saturation, Content, Capacity});
  }

  lemma PairIsSound(first: Profile, second: Profile, household: bool)
    requires InBounds(first) && InBounds(second) && first.name != second.name
    requires Allowed(first.name, household) && Allowed(second.name, household)
    ensures Sound([first, second], household)
    ensures first.name in Names([first, second]) && second.name in Names([first, second])
  {
    assert [first, second][0] == first && [first, second][1] == second;
  }

  lemma FilledIsSound(kept: seq<Profile>, first: Profile, second: Profile, household: bool)
    requires Sound(kept, household) && InBounds(first) && InBounds(second)
    requires Allowed(first.name, household) && Allowed(second.name, household)
    ensures
      var r := Appended(Appended(kept, first), second);
      Sound(r, household) && first.name in Names(r) && second.name in Names(r)
  {
    AppendedIsSound(kept, first, household);
    AppendedIsSound(Appended(kept, first), second, household);
  }

  lemma SoundListSize(r: seq<Profile>, a: Name, b: Name, household: bool)
    requires Sound(r, household) && a in Names(r) && b in Names(r) && a != b
    ensures 2 <= |r| <= 4
  {
    AtMostFour(r, household);
    NamesCount(r);
    SubsetSize({a, b}, Names(r));
  }

  /** Whatever the controller sends, the profiles end in bounds, with distinct
      names that the contract allows, at most four, the defaults among them. */
  lemma ProfilesEndSound(values: seq<Profile>, legacyWindows: seq<string>, contract: int)
    requires WindowList(legacyWindows)
    ensures
      var r, household := NormalisedProfiles(values, legacyWindows, contract), contract >= HOUSEHOLD_CONTRACT;
      && Sound(r, household) && 2 <= |r| <= 4
      && Defaults(household)[0].name in Names(r) && Defaults(household)[1].name in Names(r)
  {
    var r, household := NormalisedProfiles(values, legacyWindows, contract), contract >= HOUSEHOLD_CONTRACT;
    var defaults := Defaults(household);
    var first := if household then defaults[0] else defaults[0].(windows := legacyWindows);
    var short := if |values| > 4 then values[..4] else values;
    DefaultsAreInBounds(household, legacyWindows);
    KeptIsSound(short, household);
    PairIsSound(first, defaults[1], household);
    PairIsSound(defaults[0], defaults[1], household);
    FilledIsSound(Kept(short, household), first, defaults[1], household);
    assert defaults == [defaults[0], defaults[1]];
    SoundListSize(r, defaults[0].name, defaults[1].name, household);
  }

  lemma SoundProfilesAreFixed(profiles: seq<Profile>, legacyWindows: seq<string>, contract: int)
    requires Sound(profiles, contract >= HOUSEHOLD_CONTRACT) && 2 <= |profiles| <= 4
    requires Defaults(contract >= HOUSEHOLD_CONTRACT)[0].name in Names(profiles)
    requires Defaults(contract >= HOUSEHOLD_CONTRACT)[1].name in Names(profiles)
    ensures NormalisedProfiles(profiles, legacyWindows, contract) == profiles
  {
    var household := contract >= HOUSEHOLD_CONTRACT;
    SoundIsKept(profiles, household);
    assert Defaults(household)[0].name in Names(profiles) && Defaults(household)[1].name in Names(profiles);
  }

  // ---- the theorems ---------------------------------------------------------

  lemma AllOrDefaultIsIdempotent(
    values: seq<string>, maximum: int, maxLength: int, ok: string -> bool, fallback: seq<string>)
    ensures
      var once := AllOrDefault(values, maximum, maxLength, ok, fallback);
      AllOrDefault(once, maximum, maxLength, ok, fallback) == once
  {
  }

  /** Every number of a normalised configuration is in its range. */
  lemma NormalisedIsInBounds(c: Config, ok: Checks)
    ensures
      var n := Normalised(c, ok);
      && 1 <= n.contractVersion <= 1000 && 1 <= n.probeInterval <= 60 && 30 <= n.uploadInterval <= 900
      && 30 <= n.dnsInterval <= 3600 && 30 <= n.httpInterval <= 3600 && 300 <= n.heartbeatInterval <= 3600
      && 1 <= n.dailyBudgetMb <= 8192 && 1 <= n.monthlyBudgetMb <= 131072 && 15 <= n.minSpacing <= 1440
      && 0.0 <= n.crossTrafficMbps <= 10000.0
      && WindowList(n.windows) && 2 <= |n.profiles| <= 4
      && Sound(n.profiles, n.contractVersion >= HOUSEHOLD_CONTRACT)
      && (n.mix.Some? ==> Planner.Runnable(n.mix.value) && n.contractVersion >= HOUSEHOLD_CONTRACT)
  {
    DefaultWindowsAreLists();
    WindowsBecomeAList(c.windows, DEFAULT_WINDOWS);
    var n := Normalised(c, ok);
    ProfilesEndSound(c.profiles, n.windows, n.contractVersion);
    if n.mix.Some? {
      Planner.NormalisedMixIsRunnable(c.mix.value);
    }
  }

  /** Normalising is idempotent on every input, so reopening the store any
      number of times leaves the stored configuration fixed. */
  lemma NormalisedIsIdempotent(c: Config, ok: Checks)
    ensures Normalised(Normalised(c, ok), ok) == Normalised(c, ok)
  {
    var n := Normalised(c, ok);
    NormalisedIsInBounds(c, ok);
    ProfilesEndSound(c.profiles, n.windows, n.contractVersion);
    WindowsAreFixed(n.windows, DEFAULT_WINDOWS);
    SoundProfilesAreFixed(n.profiles, n.windows, n.contractVersion);
    AllOrDefaultIsIdempotent(c.probeTargets, 8, 255, ok.probe, DEFAULT_PROBES);
    AllOrDefaultIsIdempotent(c.dnsResolvers, 4, 64, ok.resolver, DEFAULT_RESOLVERS);
    AllOrDefaultIsIdempotent(c.httpTargets, 16, 2048, ok.target, DEFAULT_HTTP);
    if n.mix.Some? {
      Planner.NormalisedMixIsRunnable(c.mix.value);
    }
  }

  // ---- what is kept ---------------------------------------------------------

  /** The configuration of a sensor that no controller has configured. */
  const DEFAULT := Config(
    HOUSEHOLD_CONTRACT, 1, 60, 60, 60, 600, 4096, 61440, 15, 5.0,
    DEFAULT_PROBES, DEFAULT_DOMAINS, DEFAULT_RESOLVERS, DEFAULT_HTTP,
    DEFAULT_WINDOWS, [HOUSEHOLD, SATURATION], None, false, false, false)

  /** The default configuration is already normal, whatever the safety checks say. */
  lemma DefaultIsNormal(ok: Checks)
    ensures Normalised(DEFAULT, ok) == DEFAULT
  {
    DefaultWindowsAreLists();
    WindowsAreFixed(DEFAULT_WINDOWS, DEFAULT_WINDOWS);
    DefaultsAreInBounds(true, DEFAULT_WINDOWS);
    PairIsSound(HOUSEHOLD, SATURATION, true);
    SoundProfilesAreFixed([HOUSEHOLD, SATURATION], DEFAULT_WINDOWS, HOUSEHOLD_CONTRACT);
  }

  /** A number in its range is kept, any other is replaced. */
  predicate KeptOr(value: int, low: int, high: int, other: int, result: int) {
    if low <= value <= high then result == value else result == other
  }

  /** Each number of a configuration is kept if it is in its range and otherwise the
      default's, but for the contract version, which falls back to 2; switches pass
      through, and a mix is taken only under the household contract. */
  lemma NumbersAreKeptOrDefault(c: Config, ok: Checks)
    ensures
      var n, d := Normalised(c, ok), DEFAULT;
      && KeptOr(c.contractVersion, 1, 1000, 2, n.contractVersion)
      && KeptOr(c.probeInterval, 1, 60, d.probeInterval, n.probeInterval)
      && KeptOr(c.uploadInterval, 30, 900, d.uploadInterval, n.uploadInterval)
      && KeptOr(c.dnsInterval, 30, 3600, d.dnsInterval, n.dnsInterval)
      && KeptOr(c.httpInterval, 30, 3600, d.httpInterval, n.httpInterval)
      && KeptOr(c.heartbeatInterval, 300, 3600, d.heartbeatInterval, n.heartbeatInterval)
      && KeptOr(c.dailyBudgetMb, 1, 8192, d.dailyBudgetMb, n.dailyBudgetMb)
      && KeptOr(c.monthlyBudgetMb, 1, 131072, d.monthlyBudgetMb, n.monthlyBudgetMb)
      && KeptOr(c.minSpacing, 15, 1440, d.minSpacing, n.minSpacing)
      && n.crossTrafficMbps == (if 0.0 <= c.crossTrafficMbps <= 10000.0 then c.crossTrafficMbps else d.crossTrafficMbps)
      && n.sendSsid == c.sendSsid && n.sendNetworkIdentity == c.sendNetworkIdentity && n.paused == c.paused
      && (n.mix.Some? <==> c.mix.Some? && n.contractVersion >= 3)
      && (n.mix.Some? ==> n.mix.value == Planner.NormalisedMix(c.mix.value))
  {
  }

  /** A list is kept if it is not empty, not too long and every entry is short and
      passes the check; otherwise the whole of it is replaced. */
  predicate ListKeptOr(
    values: seq<string>, maximum: int, maxLength: int, ok: string -> bool, other: seq<string>, result: seq<string>)
  {
    if 1 <= |values| <= maximum && forall i | 0 <= i < |values| :: 1 <= |values[i]| <= maxLength && ok(values[i])
    then result == values else result == other
  }

  lemma ListsAreKeptOrDefault(c: Config, ok: Checks)
    ensures
      var n := Normalised(c, ok);
      && ListKeptOr(c.probeTargets, 8, 255, ok.probe, DEFAULT_PROBES, n.probeTargets)
      && ListKeptOr(c.dnsDomains, 16, 253, domain => true, DEFAULT_DOMAINS, n.dnsDomains)
      && ListKeptOr(c.dnsResolvers, 4, 64, ok.resolver, DEFAULT_RESOLVERS, n.dnsResolvers)
      && ListKeptOr(c.httpTargets, 16, 2048, ok.target, DEFAULT_HTTP, n.httpTargets)
  {
    AllOrDefaultKeeps(c.probeTargets, 8, 255, ok.probe, DEFAULT_PROBES);
    AllOrDefaultKeeps(c.dnsResolvers, 4, 64, ok.resolver, DEFAULT_RESOLVERS);
    AllOrDefaultKeeps(c.httpTargets, 16, 2048, ok.target, DEFAULT_HTTP);
  }

  lemma AllOrDefaultKeeps(
    values: seq<string>, maximum: int, maxLength: int, ok: string -> bool, fallback: seq<string>)
    ensures ListKeptOr(
      values, maximum, maxLength, ok, fallback, AllOrDefault(values, maximum, maxLength, ok, fallback))
  {
  }

  lemma {:induction false} RunnableMembers(values: seq<string>)
    ensures forall w :: w in Runnable(values) <==> w in values && WindowGrammar.Accepted(w)
  {
    if values != [] {
      RunnableMembers(values[..|values| - 1]);
      assert values == values[..|values| - 1] + [values[|values| - 1]];
    }
  }

  /** Of a well-sized window list exactly the accepted windows are kept, and the
      fallback replaces it if none is, or if it is not well-sized. */
  lemma WindowsAreKeptOrFallback(values: seq<string>, fallback: seq<string>)
    requires WindowList(fallback)
    ensures
      var n := NormalisedWindows(values, fallback);
      if 1 <= |values| <= 12 && ShortStrings(values, 11) && exists w :: w in values && WindowGrammar.Accepted(w)
      then forall w :: w in n <==> w in values && WindowGrammar.Accepted(w)
      else n == fallback
  {
    RunnableMembers(values);
    AcceptedAreRunnable(fallback);
    if Runnable(values) != [] {
      assert Runnable(values)[0] in Runnable(values);
    }
  }

  /** What a profile asks for is kept where it is in range and is otherwise the
      device's own; its maximum is at least its minimum and, for a household, the 8
      seconds that its engine needs. */
  lemma ProfileIsKeptOrDevice(p: Profile)
    requires !p.name.Other?
    ensures
      var n, d := NormalisedProfile(p), DeviceProfile(p.name);
      && d.name == p.name && n.name == p.name && n.enabled == p.enabled
      && n.windows == NormalisedWindows(p.windows, d.windows)
      && KeptOr(p.minDuration, 2, 30, d.minDuration, n.minDuration)
      && n.maxDuration == (
          if n.minDuration <= p.maxDuration <= 120
          then (if p.name.Household? then Max(p.maxDuration, 8) else p.maxDuration)
          else Max(d.maxDuration, n.minDuration))
      && (if p.cadence == 0 then n.cadence == 0 else KeptOr(p.cadence, 60, 1440, d.cadence, n.cadence))
      && KeptOr(p.maxDownload, 512 * 1024, 1024 * 1024 * 1024, d.maxDownload, n.maxDownload)
      && KeptOr(p.maxUpload, 256 * 1024, 512 * 1024 * 1024, d.maxUpload, n.maxUpload)
      && KeptOr(p.maxConcurrent, 1, 8, d.maxConcurrent, n.maxConcurrent)
      && KeptOr(p.minSpacing, 15, 10080, d.minSpacing, n.minSpacing)
  {
  }

  /** The first profile of its name that the contract allows, among the first four. */
  predicate FirstOf(values: seq<Profile>, i: nat, household: bool) {
    && i < |values| && i < 4 && Allowed(values[i].name, household)
    && forall j | 0 <= j < i :: values[j].name != values[i].name
  }

  /** A profile that the controller sent first of its name, in bounds. */
  ghost predicate Sent(q: Profile, values: seq<Profile>, household: bool) {
    exists i: nat :: SentAt(q, values, i, household)
  }

  predicate SentAt(q: Profile, values: seq<Profile>, i: nat, household: bool) {
    FirstOf(values, i, household) && q == NormalisedProfile(values[i])
  }

  lemma SentAtPrefix(values: seq<Profile>, n: nat, household: bool, q: Profile, i: nat)
    requires n <= |values|
    ensures SentAt(q, values[..n], i, household) <==> i < n && SentAt(q, values, i, household)
  {
    if i < n {
      assert forall j | 0 <= j <= i :: values[..n][j] == values[j];
    }
  }

  lemma SentOneMore(values: seq<Profile>, household: bool, q: Profile)
    requires 0 < |values| <= 4
    ensures
      var n := |values| - 1;
      Sent(q, values, household) <==> Sent(q, values[..n], household) || SentAt(q, values, n, household)
  {
    var n := |values| - 1;
    forall i: nat
      ensures SentAt(q, values[..n], i, household) <==> i < n && SentAt(q, values, i, household)
    {
      SentAtPrefix(values, n, household, q, i);
    }
  }

  lemma {:induction false} KeptAreFirsts(values: seq<Profile>, household: bool)
    requires |values| <= 4
    ensures forall q :: q in Kept(values, household) <==> Sent(q, values, household)
  {
    if values != [] {
      var init := values[..|values| - 1];
      KeptAreFirsts(init, household);
      LastIsKept(values, household);
      forall q ensures q in Kept(values, household) <==> Sent(q, values, household) {
        SentOneMore(values, household, q);
      }
    }
  }

  /** The last profile joins exactly if it is the first of its name. */
  lemma LastIsKept(values: seq<Profile>, household: bool)
    requires 0 < |values| <= 4
    ensures
      var init, n := values[..|values| - 1], |values| - 1;
      Kept(values, household) ==
        Kept(init, household) + if FirstOf(values, n, household) then [NormalisedProfile(values[n])] else []
  {
    var init, last, n := values[..|values| - 1], values[|values| - 1], |values| - 1;
    if last.name in Names(Kept(init, household)) {
      KeptNamesAreEarlier(init, last.name, household);
    } else if Allowed(last.name, household) {
      forall j | 0 <= j < n ensures values[j].name != last.name {
        if values[j].name == last.name {
          EarlierNamesAreKept(init, j, household);
        }
      }
    }
  }

  lemma {:induction false} EarlierNamesAreKept(values: seq<Profile>, j: nat, household: bool)
    requires j < |values| && Allowed(values[j].name, household)
    ensures values[j].name in Names(Kept(values, household))
  {
    var init, last := values[..|values| - 1], values[|values| - 1];
    var before := Kept(init, household);
    if j < |values| - 1 {
      EarlierNamesAreKept(init, j, household);
    }
    if Allowed(last.name, household) && last.name !in Names(before) {
      NamesAppend(before, NormalisedProfile(last));
    }
  }

  lemma {:induction false} KeptNamesAreEarlier(values: seq<Profile>, name: Name, household: bool)
    requires name in Names(Kept(values, household))
    ensures exists i :: 0 <= i < |values| && values[i].name == name
  {
    if values != [] {
      var init := values[..|values| - 1];
      if name in Names(Kept(init, household)) {
        KeptNamesAreEarlier(init, name, household);
      } else {
        assert values[|values| - 1].name == name;
      }
    }
  }

  lemma AppendedMembers(kept: seq<Profile>, p: Profile)
    ensures forall q | q in kept :: q in Appended(kept, p)
    ensures forall q | q in Appended(kept, p) :: q in kept || q == p
  {
  }

  lemma KeptAreSent(values: seq<Profile>, household: bool)
    ensures
      var short := if |values| > 4 then values[..4] else values;
      forall q :: q in Kept(short, household) <==> Sent(q, values, household)
  {
    var short := if |values| > 4 then values[..4] else values;
    KeptAreFirsts(short, household);
    forall q ensures Sent(q, short, household) <==> Sent(q, values, household) {
      SentAmongFour(values, household, q);
    }
  }

  lemma SentAmongFour(values: seq<Profile>, household: bool, q: Profile)
    ensures Sent(q, if |values| > 4 then values[..4] else values, household) <==> Sent(q, values, household)
  {
    if |values| > 4 {
      forall i: nat
        ensures SentAt(q, values[..4], i, household) <==> i < 4 && SentAt(q, values, i, household)
      {
        SentAtPrefix(values, 4, household, q, i);
      }
    }
  }

  /** Of what the controller sends, the first profile of each allowed name is used, in
      bounds; nothing else is but the defaults of the contract. */
  lemma ProfilesAreSentOrDefault(values: seq<Profile>, legacyWindows: seq<string>, contract: int, q: Profile)
    ensures
      var r, household := NormalisedProfiles(values, legacyWindows, contract), contract >= 3;
      && (Sent(q, values, household) ==> q in r)
      && (q in r ==>
            || Sent(q, values, household) || q == Defaults(household)[0] || q == Defaults(household)[1]
            || q == Defaults(household)[0].(windows := legacyWindows))
  {
    var household := contract >= 3;
    var kept, defaults := Kept(if |values| > 4 then values[..4] else values, household), Defaults(household);
    var first := if household then defaults[0] else defaults[0].(windows := legacyWindows);
    KeptAreSent(values, household);
    AppendedMembers(kept, first);
    AppendedMembers(Appended(kept, first), defaults[1]);
    assert defaults == [defaults[0], defaults[1]];
  }

  // ---- what the runner and the scheduler are given ------------------------------

  /** The windows of a list that the scheduler can read. */
  function ParsedWindows(windows: seq<string>): (r: seq<Schedule.Window>)
    ensures |r| <= |windows|
    ensures forall i | 0 <= i < |r| :: r[i].Valid()
  {
    if windows == [] then []
    else
      var before, last := ParsedWindows(windows[..|windows| - 1]), WindowGrammar.Parsed(windows[|windows| - 1]);
      if last.Some? then before + [last.value] else before
  }

  /** The profile as the runner sees it. */
  function ForRunner(p: Profile): TestBytes.Profile
    requires p.maxDownload >= 0 && p.maxUpload >= 0 && p.minDuration >= 0 && p.maxDuration >= 0
  {
    TestBytes.Profile(p.maxDownload, p.maxUpload, p.minDuration, p.maxDuration)
  }

  /** The profile as the scheduler sees it. */
  function ForScheduler(p: Profile, jitter: Schedule.Jitter): Schedule.Profile {
    Schedule.Profile(ParsedWindows(p.windows), p.cadence, jitter)
  }

  lemma {:induction false} OneDashIsParsed(windows: seq<string>)
    requires AllAccepted(windows)
    requires forall i | 0 <= i < |windows| :: windows[i] != "never" && WindowGrammar.Count(windows[i], '-') == 1
    ensures |ParsedWindows(windows)| == |windows|
  {
    if windows != [] {
      OneDashIsParsed(windows[..|windows| - 1]);
      WindowGrammar.AcceptedRunsWithOneDash(windows[|windows| - 1]);
    }
  }

  /** A normalised profile is one whose split never overflows and one the
      scheduler can search, with its cadence as the slot length; the scheduler
      reads every window that holds a single dash. */
  lemma NormalisedProfileCanRun(p: Profile, jitter: Schedule.Jitter)
    requires !p.name.Other?
    ensures
      var n := NormalisedProfile(p);
      && InBounds(n) && ForRunner(n).Normalised()
      && (n.cadence != 0 ==> ForScheduler(n, jitter).Valid() && ForScheduler(n, jitter).Minutes() == n.cadence)
      && ((forall i | 0 <= i < |n.windows| ::
             n.windows[i] != "never" && WindowGrammar.Count(n.windows[i], '-') == 1) ==>
            |ParsedWindows(n.windows)| == |n.windows|)
  {
    var n := NormalisedProfile(p);
    ProfileEndsInBounds(p);
    if forall i | 0 <= i < |n.windows| :: n.windows[i] != "never" && WindowGrammar.Count(n.windows[i], '-') == 1 {
      OneDashIsParsed(n.windows);
    }
  }

  /** A normalised cadence is the slot length that the scheduler uses. */
  lemma CadenceIsTheSlotLength(p: Profile, windows: seq<Schedule.Window>, jitter: Schedule.Jitter)
    requires !p.name.Other? && NormalisedProfile(p).cadence != 0
    ensures Schedule.Profile(windows, NormalisedProfile(p).cadence, jitter).Minutes() == NormalisedProfile(p).cadence
  {
    ProfileEndsInBounds(p);
  }

  // ---- the code -------------------------------------------------------------

  method CopyBounded(values: seq<string>, maximum: int, maxLength: int, fallback: seq<string>)
    returns (result: seq<string>)
    ensures result == BoundedStrings(values, maximum, maxLength, fallback)
  {
    if values == [] || |values| > maximum { return fallback; }
    result := [];
    for i := 0 to |values|
      invariant result == values[..i] && ShortStrings(values[..i], maxLength)
    {
      if values[i] == "" || |values[i]| > maxLength { return fallback; }
      result := result + [values[i]];
    }
  }

  method NormaliseSpeedWindows(values: seq<string>, fallback: seq<string>) returns (result: seq<string>)
    ensures result == NormalisedWindows(values, fallback)
  {
    var short := CopyBounded(values, 12, 11, fallback);
    result := [];
    for i := 0 to |short|
      invariant result == Runnable(short[..i])
    {
      assert short[..i + 1][..i] == short[..i];
      if WindowGrammar.Accepted(short[i]) { result := result + [short[i]]; }
    }
    assert short[..|short|] == short;
    if result == [] { return fallback; }
  }

  lemma NamesAppend(profiles: seq<Profile>, p: Profile)
    ensures Names(profiles + [p]) == Names(profiles) + {p.name}
  {
    assert p in profiles + [p];
    assert forall q | q in profiles :: q in profiles + [p];
  }

  /** The first loop of normalizeSpeedProfiles. */
  method KeepProfiles(values: seq<Profile>, household: bool) returns (result: seq<Profile>, seen: set<Name>)
    ensures result == Kept(values, household) && seen == Names(result)
  {
    result, seen := [], {};
    for i := 0 to |values|
      invariant result == Kept(values[..i], household) && seen == Names(result)
    {
      assert values[..i + 1][..i] == values[..i];
      var value := values[i];
      if Allowed(value.name, household) && value.name !in seen {
        seen := seen + {value.name};
        ghost var before := result;
        result := result + [NormalisedProfile(value)];
        NamesAppend(before, NormalisedProfile(value));
      }
    }
    assert values[..|values|] == values;
  }

  method NormaliseSpeedProfiles(values: seq<Profile>, legacyWindows: seq<string>, contract: int)
    returns (result: seq<Profile>)
    ensures result == NormalisedProfiles(values, legacyWindows, contract)
  {
    var household := contract >= HOUSEHOLD_CONTRACT;
    var defaults := Defaults(household);
    var first := if household then defaults[0] else defaults[0].(windows := legacyWindows);
    if values == [] { return [first, defaults[1]]; }
    var seen;
    result, seen := KeepProfiles(if |values| > 4 then values[..4] else values, household);
    if result == [] { return defaults; }
    if first.name !in seen { result := result + [first]; }
    if defaults[1].name !in seen { result := result + [defaults[1]]; }
  }
}
