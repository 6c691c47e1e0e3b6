/**
 * Host configuration: the parsed document with its defaults, the snapshot
 * built from it (id -> mapping table and the flattened list of named apps),
 * and the throttled reload of that snapshot.
 *
 * Reading the file, its modification time and the clock are inputs: a
 * time is an integer count of nanoseconds, a file read plus TOML parse is
 * an `Option<Config>` (None when either fails).
 */
module Config {
  import opened Wrappers
  import opened GainLib

  datatype General = General(volumeStep: real, invertDirection: bool)

  datatype Connection = Connection(
    comPort: Option<string>,
    baudRate: u32,
    vidFilter: Option<u16>,
    pidFilter: Option<u16>,
    serialNumberFilter: Option<string>,
    manufacturerFilter: Option<string>,
    productFilter: Option<string>)

  /** What a slider controls. */
  datatype VolumeTarget = Master | CurrentApp | Unmapped | Apps(apps: seq<string>)

  datatype SliderMappings = SliderMappings(id: u8, target: VolumeTarget)

  datatype Config = Config(connection: Connection, general: General, slider: seq<SliderMappings>)

  const DefaultGeneral := General(0.01, false)
  const DefaultConnection := Connection(None, 57600, None, None, None, None, None)
  const DefaultTarget := Apps([])

  /** A slider entry as written in the document: the target may be absent. */
  datatype MappingDoc = MappingDoc(id: u8, target: Option<VolumeTarget>)

  /** The document as written: each top-level table may be absent. */
  datatype ConfigDoc = ConfigDoc(connection: Option<Connection>, general: Option<General>,
                                 slider: Option<seq<MappingDoc>>)

  /** One `[[slider]]` entry: a missing target is an empty app list. */
  function MappingWithDefault(m: MappingDoc): (r: SliderMappings)
    ensures r.id == m.id
    ensures m.target.None? ==> r.target == Apps([])
    ensures m.target.Some? ==> r.target == m.target.value
  {
    SliderMappings(m.id, if m.target.Some? then m.target.value else DefaultTarget)
  }

  /** The `Config` the deserializer produces, absent fields taking their defaults. */
  function WithDefaults(doc: ConfigDoc): (c: Config)
    ensures doc.general.None? ==> c.general.volumeStep == 0.01 && !c.general.invertDirection
    ensures doc.general.Some? ==> c.general == doc.general.value
    ensures doc.connection.None? ==>
              && c.connection.baudRate == 57600
              && c.connection.comPort.None? && c.connection.vidFilter.None? && c.connection.pidFilter.None?
              && c.connection.serialNumberFilter.None? && c.connection.manufacturerFilter.None?
              && c.connection.productFilter.None?
    ensures doc.connection.Some? ==> c.connection == doc.connection.value
    ensures doc.slider.None? ==> c.slider == []
    ensures doc.slider.Some? ==> |c.slider| == |doc.slider.value|
    ensures doc.slider.Some? ==> forall j :: 0 <= j < |c.slider| ==>
              && c.slider[j].id == doc.slider.value[j].id
              && (doc.slider.value[j].target.None? ==> c.slider[j].target == Apps([]))
              && (doc.slider.value[j].target.Some? ==> c.slider[j].target == doc.slider.value[j].target.value)
  {
    var sliders := if doc.slider.Some? then doc.slider.value else [];
    Config(
      if doc.connection.Some? then doc.connection.value else DefaultConnection,
      if doc.general.Some? then doc.general.value else DefaultGeneral,
      seq(|sliders|, j requires 0 <= j < |sliders| => MappingWithDefault(sliders[j])))
  }

  /** The id -> mapping table, inserted in list order so that a later duplicate id overwrites. */
  function BuildMappings(sliders: seq<SliderMappings>): (m: map<u8, SliderMappings>)
    // every entry is filed under its own id and comes from the list
    ensures forall id :: id in m ==> m[id].id == id && m[id] in sliders
  {
    if sliders == [] then map[]
    else
      var s := sliders[|sliders| - 1];
      BuildMappings(sliders[..|sliders| - 1])[s.id := s]
  }

  /** Entry `j` is the last one in the list carrying its id. */
  ghost predicate LastWithItsId(sliders: seq<SliderMappings>, j: int) {
    0 <= j < |sliders| && forall k :: j < k < |sliders| ==> sliders[k].id != sliders[j].id
  }

  /** Some entry of the list carries `id`. */
  ghost predicate HasId(sliders: seq<SliderMappings>, id: u8) {
    exists j :: 0 <= j < |sliders| && sliders[j].id == id
  }

  /** The table has a key for exactly the ids that occur in the list. */
  lemma {:induction false} MappingsKeys(sliders: seq<SliderMappings>)
    ensures forall id: u8 :: id in BuildMappings(sliders) <==> HasId(sliders, id)
  {
    if sliders != [] {
      var n := |sliders| - 1;
      var init := sliders[..n];
      MappingsKeys(init);
      forall id: u8 ensures id in BuildMappings(sliders) <==> HasId(sliders, id) {
        if HasId(init, id) {
          var j :| 0 <= j < |init| && init[j].id == id;
          assert sliders[j].id == id;
        }
        if HasId(sliders, id) && id != sliders[n].id {
          var j :| 0 <= j < |sliders| && sliders[j].id == id;
          assert init[j].id == id;
        }
      }
    }
  }

  /** Each key maps to the last entry of the list that carries it. */
  lemma {:induction false} MappingsKeepLastEntry(sliders: seq<SliderMappings>)
    ensures forall j :: LastWithItsId(sliders, j) ==>
              sliders[j].id in BuildMappings(sliders) && BuildMappings(sliders)[sliders[j].id] == sliders[j]
  {
    if sliders != [] {
      var n := |sliders| - 1;
      var init := sliders[..n];
      MappingsKeepLastEntry(init);
      forall j | LastWithItsId(sliders, j)
        ensures sliders[j].id in BuildMappings(sliders) && BuildMappings(sliders)[sliders[j].id] == sliders[j]
      {
        if j < n {
          assert LastWithItsId(init, j);
        }
      }
    }
  }

  /** Mapping `id` exists, targets `Apps` and lists `app`. */
  ghost predicate ListsApp(m: map<u8, SliderMappings>, id: u8, app: string) {
    id in m && m[id].target.Apps? && app in m[id].target.apps
  }

  /** Every slider id, in ascending order. */
  function AllIds(): (ids: seq<u8>)
    ensures |ids| == 0x100 && forall id: u8 :: ids[id] == id
  {
    seq(0x100, i requires 0 <= i < 0x100 => i as u8)
  }

  /** The app lists of the `Apps` mappings of the given ids, in that order. */
  function AppsOf(m: map<u8, SliderMappings>, ids: seq<u8>): seq<string> {
    if ids == [] then []
    else
      var id := ids[|ids| - 1];
      AppsOf(m, ids[..|ids| - 1]) + (if id in m && m[id].target.Apps? then m[id].target.apps else [])
  }

  lemma {:induction false} AppsOfLists(m: map<u8, SliderMappings>, ids: seq<u8>, app: string)
    ensures app in AppsOf(m, ids) <==> exists j :: 0 <= j < |ids| && ListsApp(m, ids[j], app)
    decreases |ids|
  {
    if ids != [] {
      var n := |ids| - 1;
      AppsOfLists(m, ids[..n], app);
      if exists j :: 0 <= j < n && ListsApp(m, ids[..n][j], app) {
        var j :| 0 <= j < n && ListsApp(m, ids[..n][j], app);
        assert ListsApp(m, ids[j], app);
      }
      if exists j :: 0 <= j < |ids| && ListsApp(m, ids[j], app) {
        var j :| 0 <= j < |ids| && ListsApp(m, ids[j], app);
        if j < n {
          assert ListsApp(m, ids[..n][j], app);
        }
      }
    }
  }

  /**
   * The flattened app lists of every `Apps` mapping, the exclusion list of
   * `Unmapped`. Only membership is specified: the order is that of a hash
   * map's values.
   */
  function MappedApps(m: map<u8, SliderMappings>): (apps: seq<string>)
    ensures forall a :: a in apps <==> exists id: u8 :: ListsApp(m, id, a)
  {
    forall a ensures a in AppsOf(m, AllIds()) <==> exists id: u8 :: ListsApp(m, id, a) {
      AppsOfLists(m, AllIds(), a);
      if exists id: u8 :: ListsApp(m, id, a) {
        var id: u8 :| ListsApp(m, id, a);
        assert AllIds()[id] == id;
      }
    }
    AppsOf(m, AllIds())
  }

  /**
   * Stated on the slider list: an app is in the exclusion list exactly when
   * an `Apps` entry that survives the duplicate-id overwrite lists it.
   */
  lemma MappedAppsOfSliders(sliders: seq<SliderMappings>, app: string)
    ensures app in MappedApps(BuildMappings(sliders)) <==>
              exists j :: LastWithItsId(sliders, j) && sliders[j].target.Apps? && app in sliders[j].target.apps
  {
    var m := BuildMappings(sliders);
    MappingsKeys(sliders);
    MappingsKeepLastEntry(sliders);
    if app in MappedApps(m) {
      var id: u8 :| ListsApp(m, id, app);
      var j := LastIndexOf(sliders, id);
      assert m[id] == sliders[j];
    }
    if exists j :: LastWithItsId(sliders, j) && sliders[j].target.Apps? && app in sliders[j].target.apps {
      var j :| LastWithItsId(sliders, j) && sliders[j].target.Apps? && app in sliders[j].target.apps;
      assert ListsApp(m, sliders[j].id, app);
    }
  }

  /** The index of the last entry carrying `id`, which must be present. */
  ghost function LastIndexOf(sliders: seq<SliderMappings>, id: u8): (j: int)
    requires HasId(sliders, id)
    ensures LastWithItsId(sliders, j) && sliders[j].id == id
  {
    var n := |sliders| - 1;
    if sliders[n].id == id then n
    else
      var k :| 0 <= k < |sliders| && sliders[k].id == id;
      assert sliders[..n][k].id == id;
      LastIndexOf(sliders[..n], id)
  }

  const NanosPerSec := 1_000_000_000
  /** Minimum whole seconds between two looks at the file's modification time. */
  const ReloadThrottleSecs := 2

  /** `now.duration_since(earlier).as_secs()`: saturates at 0, truncates to whole seconds. */
  function ElapsedSecs(earlier: int, now: int): (secs: nat)
    ensures secs < ReloadThrottleSecs <==> now < earlier + ReloadThrottleSecs * NanosPerSec
  {
    if now <= earlier then 0 else (now - earlier) / NanosPerSec
  }

  /** Whether `should_reload` answers true for these inputs. */
  ghost predicate ReloadDue(lastChecked: int, lastModified: int, now: int, modified: Option<int>) {
    ElapsedSecs(lastChecked, now) >= ReloadThrottleSecs && modified.Some? && modified.value > lastModified
  }

  /** The configuration snapshot in force; a successful reload replaces all of it. */
  class LoadedConfig {
    var general: General
    var connection: Connection
    var mappings: map<u8, SliderMappings>
    var mappedApps: seq<string>
    var lastModified: int
    var lastChecked: int

    /** The exclusion list is always the one derived from the table, never patched. */
    ghost predicate Valid()
      reads this
    {
      mappedApps == MappedApps(mappings)
    }

    /** The fields are exactly those `new` builds from `config`. */
    ghost predicate IsSnapshotOf(config: Config, modified: int, checked: int)
      reads this
    {
      && general == config.general
      && connection == config.connection
      && mappings == BuildMappings(config.slider)
      && mappedApps == MappedApps(mappings)
      && lastModified == modified
      && lastChecked == checked
    }

    /** `LoadedConfig::new`; `now` is the instant it runs. */
    constructor (config: Config, modified: int, now: int)
      ensures Valid() && IsSnapshotOf(config, modified, now)
    {
      new;
      Install(config, modified, now);
    }

    /** Overwrites every field with the snapshot `new` would build. */
    method Install(config: Config, modified: int, now: int)
      modifies this
      ensures Valid() && IsSnapshotOf(config, modified, now)
    {
      general := config.general;
      connection := config.connection;
      mappings := BuildMappings(config.slider);
      mappedApps := MappedApps(mappings);
      lastModified := modified;
      lastChecked := now;
    }

    /**
     * `new_from_file`: fails when the file cannot be read or parsed; the
     * modification time falls back to the wall clock `systemNow`.
     */
    static method NewFromFile(parsed: Option<Config>, modified: Option<int>, systemNow: int, now: int)
      returns (r: Option<LoadedConfig>)
      ensures r.None? <==> parsed.None?
      ensures r.Some? ==> fresh(r.value) && r.value.Valid()
      ensures r.Some? ==>
                r.value.IsSnapshotOf(parsed.value, if modified.Some? then modified.value else systemNow, now)
    {
      if parsed.None? {
        return None;
      }
      var lm := if modified.Some? then modified.value else systemNow;
      var c := new LoadedConfig(parsed.value, lm, now);
      r := Some(c);
    }

    /**
     * `should_reload`: throttled to once per 2 whole seconds; true only for a
     * strictly newer modification time, which is then recorded. `modified`
     * is None when the file's metadata cannot be read.
     */
    method ShouldReload(now: int, modified: Option<int>) returns (reload: bool)
      modifies this`lastChecked, this`lastModified
      ensures reload == ReloadDue(old(lastChecked), old(lastModified), now, modified)
      ensures ElapsedSecs(old(lastChecked), now) < ReloadThrottleSecs ==>
                lastChecked == old(lastChecked) && lastModified == old(lastModified)
      ensures ElapsedSecs(old(lastChecked), now) >= ReloadThrottleSecs ==> lastChecked == now
      ensures lastModified == if reload then modified.value else old(lastModified)
    {
      if ElapsedSecs(lastChecked, now) < ReloadThrottleSecs {
        return false;
      }
      lastChecked := now;
      match modified {
        case Some(modifiedTime) =>
          if modifiedTime > lastModified {
            lastModified := modifiedTime;
            reload := true;
          } else {
            reload := false;
          }
        case None =>
          reload := false;
      }
    }

    /**
     * The state `reload_if_needed` leaves behind, relative to the state
     * before the call, for the clock `now`, the file's modification time
     * `modified` and the outcome `parsed` of reading and parsing it.
     */
    twostate predicate ReloadedFrom(now: int, modified: Option<int>, parsed: Option<Config>)
      reads this
    {
      var due := ReloadDue(old(lastChecked), old(lastModified), now, modified);
      // not due: only the throttle bookkeeping may change
      && (!due ==>
            && general == old(general) && connection == old(connection)
            && mappings == old(mappings) && mappedApps == old(mappedApps)
            && lastModified == old(lastModified)
            && lastChecked == (if ElapsedSecs(old(lastChecked), now) < ReloadThrottleSecs
                               then old(lastChecked) else now))
      // due but unreadable: the previous snapshot stays in force
      && (due && parsed.None? ==>
            && general == old(general) && connection == old(connection)
            && mappings == old(mappings) && mappedApps == old(mappedApps)
            && lastModified == modified.value && lastChecked == now)
      // due and parsed: the whole snapshot is replaced
      && (due && parsed.Some? ==> IsSnapshotOf(parsed.value, modified.value, now))
    }

    /**
     * `reload_if_needed`: when due, re-reads the file. `parsed` is the result
     * of reading and parsing it. A failure keeps the old snapshot, but the
     * newer modification time is already recorded.
     */
    method ReloadIfNeeded(now: int, modified: Option<int>, parsed: Option<Config>) returns (ok: bool)
      requires Valid()
      modifies this
      ensures Valid()
      ensures ok <==> !ReloadDue(old(lastChecked), old(lastModified), now, modified) || parsed.Some?
      ensures ReloadedFrom(now, modified, parsed)
    {
      var due := ShouldReload(now, modified);
      if due {
        match parsed {
          case None =>
            return false;
          case Some(config) =>
            Install(config, lastModified, now);
        }
      }
      ok := true;
    }
  }
}
