/**
 * The audio-session selection rules of the host. The operating system's
 * audio API is replaced by its observable inputs: the list of sessions an
 * enumeration returns (None when setting up the enumerator fails), the
 * foreground process and the master endpoint. Every volume change is
 * recorded as a `VolumeCall`.
 */
module Volume {
  import opened Wrappers
  import opened GainLib

  /**
   * One slot of a session enumeration. `Unreadable`: fetching the session,
   * its control interface or its process id failed. `name` is what the
   * process-name lookup returns for a nonzero pid (None when it fails).
   */
  datatype SessionSlot = Unreadable | Live(pid: u32, name: Option<string>)

  /** What `SetMute` and the level setter receive. */
  datatype Setting = Setting(level: real, mute: bool)

  datatype VolumeCall =
    | SessionVolume(index: nat, pid: u32, setting: Setting)
    | MasterVolume(setting: Setting)

  /** The calls one `set_*` function made, and whether it returned `Ok`. */
  datatype Effect = Effect(calls: seq<VolumeCall>, ok: bool)

  /** The default output device: None when it cannot be reached; otherwise whether it accepts the settings. */
  datatype MasterEndpoint = Unavailable | Available(accepts: bool)

  /** The rule a `set_*` function applies to each session. */
  datatype Rule =
    | NameContains(targetLower: string)
    | NoneExcluded(excludedLower: seq<string>)
    | PidEquals(pid: u32)

  predicate IsUpper(c: char) {
    'A' <= c <= 'Z'
  }

  /** ASCII lower-casing of one character. */
  function LowerChar(c: char): char {
    if IsUpper(c) then (c as int + 32) as char else c
  }

  /** `to_lowercase`, restricted to ASCII. */
  function Lower(s: string): (r: string)
    ensures |r| == |s|
    // no upper-case letter survives
    ensures forall i :: 0 <= i < |r| ==> !IsUpper(r[i])
    // every other character is kept
    ensures forall i :: 0 <= i < |s| && !IsUpper(s[i]) ==> r[i] == s[i]
    // an upper-case letter becomes its lower-case partner
    ensures forall i :: 0 <= i < |s| && IsUpper(s[i]) ==> r[i] as int == s[i] as int + 32
  {
    seq(|s|, i requires 0 <= i < |s| => LowerChar(s[i]))
  }

  /** Lower-casing twice is lower-casing once. */
  lemma LowerIsIdempotent(s: string)
    ensures Lower(Lower(s)) == Lower(s)
  {
  }

  /**
   * Matching a named app is case-insensitive on both sides: targets or names
   * that differ only in case select the same sessions.
   */
  lemma AppMatchIgnoresCase(pid: u32, name1: string, name2: string, target1: string, target2: string)
    requires Lower(name1) == Lower(name2) && Lower(target1) == Lower(target2)
    ensures Selects(NameContains(Lower(target1)), Live(pid, Some(name1)))
            <==> Selects(NameContains(Lower(target2)), Live(pid, Some(name2)))
  {
  }

  function LowerAll(names: seq<string>): seq<string> {
    seq(|names|, i requires 0 <= i < |names| => Lower(names[i]))
  }

  predicate OccursAt(hay: string, needle: string, i: int) {
    0 <= i && i + |needle| <= |hay| && hay[i..i + |needle|] == needle
  }

  /** `str::contains`: `needle` is a substring of `hay`. */
  predicate Contains(hay: string, needle: string)
    ensures Contains(hay, needle) ==> |needle| <= |hay|
    // the empty string occurs in every string
    ensures needle == [] ==> Contains(hay, needle)
  {
    assert OccursAt(hay, [], 0);
    exists i :: 0 <= i <= |hay| - |needle| && OccursAt(hay, needle, i)
  }

  /** `get_process_name`: there is no name for pid 0. */
  function ProcessName(pid: u32, name: Option<string>): (r: Option<string>)
    ensures r.Some? ==> pid != 0 && r == name
    ensures pid != 0 ==> r == name
  {
    if pid == 0 then None else name
  }

  /** Whether the rule sets the volume of this session. */
  predicate Selects(rule: Rule, slot: SessionSlot)
    ensures Selects(rule, slot) ==> slot.Live?
    // the name-based rules skip sessions whose name cannot be read, and pid 0
    ensures Selects(rule, slot) && !rule.PidEquals? ==> slot.pid != 0 && slot.name.Some?
    ensures rule.PidEquals? && slot.Live? ==> (Selects(rule, slot) <==> slot.pid == rule.pid)
  {
    match slot
    case Unreadable => false
    case Live(pid, name) =>
      match rule
      case PidEquals(p) => pid == p
      case NameContains(target) =>
        var n := ProcessName(pid, name);
        n.Some? && Contains(Lower(n.value), target)
      case NoneExcluded(excluded) =>
        var n := ProcessName(pid, name);
        n.Some? && !(exists ex :: ex in excluded && Contains(Lower(n.value), ex))
  }

  /** `set_volume`: clamps to [0, 1] and mutes exactly at 0. */
  function SessionSetting(volume: real): (s: Setting)
    ensures 0.0 <= s.level <= 1.0
    ensures s.mute <==> s.level == 0.0
    ensures 0.0 <= volume <= 1.0 ==> s.level == volume
    ensures volume < 0.0 ==> s.level == 0.0
    ensures volume > 1.0 ==> s.level == 1.0
  {
    var v := if volume < 0.0 then 0.0 else if volume > 1.0 then 1.0 else volume;
    Setting(v, v <= 0.0)
  }

  /** The calls the enumeration loop makes: one per selected session, in enumeration order. */
  function SessionCalls(sessions: seq<SessionSlot>, rule: Rule, volume: real): (calls: seq<VolumeCall>)
    ensures forall c :: c in calls ==>
              c.SessionVolume? && c.index < |sessions| && c.setting == SessionSetting(volume)
    // all matches are set, not only the first
    ensures forall i :: 0 <= i < |sessions| && sessions[i].Live? ==>
              (SessionVolume(i, sessions[i].pid, SessionSetting(volume)) in calls <==> Selects(rule, sessions[i]))
    ensures forall c :: c in calls ==> Selects(rule, sessions[c.index])
    ensures forall a, b :: 0 <= a < b < |calls| ==> calls[a].index < calls[b].index
  {
    if sessions == [] then []
    else
      var n := |sessions| - 1;
      SessionCalls(sessions[..n], rule, volume)
        + (if Selects(rule, sessions[n]) then [SessionVolume(n, sessions[n].pid, SessionSetting(volume))] else [])
  }

  /**
   * The loop inside each `set_*` function: every session is examined; a
   * failure on one session is dropped and the loop goes on to the next.
   */
  method SetMatchingSessions(sessions: seq<SessionSlot>, rule: Rule, volume: real) returns (calls: seq<VolumeCall>)
    ensures calls == SessionCalls(sessions, rule, volume)
  {
    calls := [];
    var i := 0;
    while i < |sessions|
      invariant 0 <= i <= |sessions|
      invariant calls == SessionCalls(sessions[..i], rule, volume)
    {
      assert sessions[..i + 1][..i] == sessions[..i];
      if Selects(rule, sessions[i]) {
        calls := calls + [SessionVolume(i, sessions[i].pid, SessionSetting(volume))];
      }
      i := i + 1;
    }
    assert sessions[..i] == sessions;
  }

  /** The effect of one enumeration-based `set_*` call. */
  function EnumerationEffect(sessions: Option<seq<SessionSlot>>, rule: Rule, volume: real): (e: Effect)
    // `Err` exactly when the enumeration cannot be set up, and then nothing is set
    ensures e.ok <==> sessions.Some?
    ensures !e.ok ==> e.calls == []
    ensures sessions.Some? ==> e.calls == SessionCalls(sessions.value, rule, volume)
  {
    if sessions.Some? then Effect(SessionCalls(sessions.value, rule, volume), true) else Effect([], false)
  }

  /** `set_app_volume`: every session whose lower-cased name contains the lower-cased target. */
  method SetAppVolume(targetAppName: string, volume: real, sessions: Option<seq<SessionSlot>>) returns (e: Effect)
    ensures e == EnumerationEffect(sessions, NameContains(Lower(targetAppName)), volume)
    ensures e.ok <==> sessions.Some?
  {
    var targetLower := Lower(targetAppName);
    if sessions.None? {
      return Effect([], false);
    }
    var calls := SetMatchingSessions(sessions.value, NameContains(targetLower), volume);
    e := Effect(calls, true);
  }

  /** `set_unmapped_volume`: every named session that contains none of the mapped apps. */
  method SetUnmappedVolume(volume: real, mappedApps: seq<string>, sessions: Option<seq<SessionSlot>>)
    returns (e: Effect)
    ensures e == EnumerationEffect(sessions, NoneExcluded(LowerAll(mappedApps)), volume)
    ensures e.ok <==> sessions.Some?
  {
    var excludedLower := LowerAll(mappedApps);
    if sessions.None? {
      return Effect([], false);
    }
    var calls := SetMatchingSessions(sessions.value, NoneExcluded(excludedLower), volume);
    e := Effect(calls, true);
  }

  /**
   * `set_current_app_volume`: `foreground` is the pid owning the foreground
   * window (None when there is no such window). No window or pid 0 is a
   * successful no-op, decided before any enumeration.
   */
  method SetCurrentAppVolume(volume: real, foreground: Option<u32>, sessions: Option<seq<SessionSlot>>)
    returns (e: Effect)
    ensures foreground.None? || foreground.value == 0 ==> e == Effect([], true)
    ensures foreground.Some? && foreground.value != 0 ==>
              e == EnumerationEffect(sessions, PidEquals(foreground.value), volume)
  {
    if foreground.None? {
      return Effect([], true);
    }
    var pid := foreground.value;
    if pid == 0 {
      return Effect([], true);
    }
    if sessions.None? {
      return Effect([], false);
    }
    var calls := SetMatchingSessions(sessions.value, PidEquals(pid), volume);
    e := Effect(calls, true);
  }

  /**
   * `set_master_volume`: an unreachable endpoint is silently skipped; a
   * refused setting is an error. Mute is requested for levels at or below 0.
   */
  function SetMasterVolume(volume: real, endpoint: MasterEndpoint): (e: Effect)
    ensures e.ok <==> endpoint.Unavailable? || endpoint.accepts
    ensures e.calls != [] <==> endpoint.Available? && endpoint.accepts
    ensures |e.calls| <= 1
    ensures forall c :: c in e.calls ==> c == MasterVolume(Setting(volume, volume <= 0.0))
  {
    match endpoint
    case Unavailable => Effect([], true)
    case Available(accepts) =>
      if accepts then Effect([MasterVolume(Setting(volume, volume <= 0.0))], true) else Effect([], false)
  }

  /**
   * Edge cases of the unmapped rule: an empty exclusion list selects every
   * named session, and an empty pattern excludes every session.
   */
  lemma UnmappedRuleEdgeCases(slot: SessionSlot, excluded: seq<string>)
    ensures Selects(NoneExcluded([]), slot) <==> slot.Live? && slot.pid != 0 && slot.name.Some?
    ensures "" in excluded ==> !Selects(NoneExcluded(excluded), slot)
  {
    if "" in excluded && slot.Live? && slot.pid != 0 && slot.name.Some? {
      assert OccursAt(Lower(slot.name.value), "", 0);
    }
  }

  /** The unmapped rule depends only on which patterns are listed, not on their order or repetition. */
  lemma ExclusionIgnoresOrder(slot: SessionSlot, ex1: seq<string>, ex2: seq<string>)
    requires forall p :: p in ex1 <==> p in ex2
    ensures Selects(NoneExcluded(ex1), slot) <==> Selects(NoneExcluded(ex2), slot)
  {
  }

  /**
   * A session that a named app's rule selects is never selected by the
   * unmapped rule built from a list containing that app.
   */
  lemma NamedAndUnmappedAreDisjoint(slot: SessionSlot, mappedApps: seq<string>, app: string)
    requires app in mappedApps
    requires Selects(NameContains(Lower(app)), slot)
    ensures !Selects(NoneExcluded(LowerAll(mappedApps)), slot)
  {
    var i :| 0 <= i < |mappedApps| && mappedApps[i] == app;
    assert LowerAll(mappedApps)[i] == Lower(app);
  }
}
