/**
 * The host program: choosing the serial port, handling each read of the
 * serial stream, and dispatching a decoded slider to its volume target.
 *
 * The serial port, the frame decoder and the audio system are inputs: a
 * finite sequence of read results, a decoding function, and an
 * `AudioSystem` value describing what each call into the audio API sees.
 */
module Host {
  import opened Wrappers
  import opened GainLib
  import opened Config
  import opened Volume

  // ---------------------------------------------------------------- port

  datatype PortType = UsbPort | PciPort | BluetoothPort | Unknown

  datatype PortInfo = PortInfo(portName: string, portType: PortType)

  datatype PortError = EnumerationFailed | NoUsbDevice

  /** The position of the first USB port in enumeration order. */
  function FirstUsbPort(ports: seq<PortInfo>): (r: Option<nat>)
    ensures r.Some? ==>
              && r.value < |ports| && ports[r.value].portType.UsbPort?
              && forall j :: 0 <= j < r.value ==> !ports[j].portType.UsbPort?
    ensures r.None? ==> forall j :: 0 <= j < |ports| ==> !ports[j].portType.UsbPort?
  {
    if ports == [] then None
    else if ports[0].portType.UsbPort? then Some(0)
    else
      match FirstUsbPort(ports[1..])
      case None => None
      case Some(k) => Some(k + 1)
  }

  /**
   * `resolve_port_name`: the configured name if there is one, otherwise the
   * first USB port. `available` is the port enumeration (None when it fails);
   * it is only consulted when no name is configured.
   */
  function ResolvePortName(configured: Option<string>, available: Option<seq<PortInfo>>): (r: Result<string, PortError>)
    ensures configured.Some? ==> r == Ok(configured.value)
    ensures configured.None? && available.None? ==> r == Err(EnumerationFailed)
    ensures configured.None? && available.Some? ==>
              (r.Ok? <==> exists j :: 0 <= j < |available.value| && available.value[j].portType.UsbPort?)
    ensures configured.None? && r.Ok? ==>
              exists j :: 0 <= j < |available.value|
                && available.value[j].portName == r.value && available.value[j].portType.UsbPort?
                && forall k :: 0 <= k < j ==> !available.value[k].portType.UsbPort?
  {
    match configured
    case Some(name) => Ok(name)
    case None =>
      if available.None? then Err(EnumerationFailed)
      else
        match FirstUsbPort(available.value)
        case Some(j) => Ok(available.value[j].portName)
        case None => Err(NoUsbDevice)
  }

  // ------------------------------------------------------------ dispatch

  /**
   * What the audio API shows during one dispatch: the master endpoint, the
   * foreground process (None: no foreground window), and the result of the
   * k-th session enumeration (each `set_*` call enumerates afresh).
   */
  datatype AudioSystem = AudioSystem(
    master: MasterEndpoint,
    foreground: Option<u32>,
    enumerate: nat -> Option<seq<SessionSlot>>)

  /** The calls of `set_app_volume` for each listed app in turn; app `j` sees enumeration `j`. */
  function AppsCalls(apps: seq<string>, volume: real, enumerate: nat -> Option<seq<SessionSlot>>)
    : (calls: seq<VolumeCall>)
    // an app whose enumeration fails does not stop the others
    ensures forall j :: 0 <= j < |apps| ==>
              forall c :: c in EnumerationEffect(enumerate(j), NameContains(Lower(apps[j])), volume).calls ==> c in calls
    ensures forall c :: c in calls ==>
              exists j :: 0 <= j < |apps| && c in EnumerationEffect(enumerate(j), NameContains(Lower(apps[j])), volume).calls
  {
    if apps == [] then []
    else
      var n := |apps| - 1;
      AppsCalls(apps[..n], volume, enumerate)
        + EnumerationEffect(enumerate(n), NameContains(Lower(apps[n])), volume).calls
  }

  /** What `manage_slider` does for a slider, given the snapshot's table and exclusion list. */
  function Dispatch(slider: Slider, mappings: map<u8, SliderMappings>, mappedApps: seq<string>,
                    volume: real, audio: AudioSystem): (e: Effect)
    // an id with no mapping is a successful no-op
    ensures slider.id !in mappings ==> e == Effect([], true)
    // failures of individual apps are absorbed: an Apps target always succeeds
    ensures !e.ok ==> slider.id in mappings && !mappings[slider.id].target.Apps?
    // the unmapped target excludes the whole configuration's named apps, not its own list
    ensures slider.id in mappings && mappings[slider.id].target.Unmapped? ==>
              forall c :: c in e.calls ==>
                c.SessionVolume? && audio.enumerate(0).Some? && c.index < |audio.enumerate(0).value|
                && Selects(NoneExcluded(LowerAll(mappedApps)), audio.enumerate(0).value[c.index])
  {
    if slider.id !in mappings then Effect([], true)
    else
      match mappings[slider.id].target
      case Master => SetMasterVolume(volume, audio.master)
      case CurrentApp =>
        if audio.foreground.None? || audio.foreground.value == 0 then Effect([], true)
        else EnumerationEffect(audio.enumerate(0), PidEquals(audio.foreground.value), volume)
      case Unmapped => EnumerationEffect(audio.enumerate(0), NoneExcluded(LowerAll(mappedApps)), volume)
      case Apps(apps) => Effect(AppsCalls(apps, volume, audio.enumerate), true)
  }

  /**
   * `manage_slider` after quantization: `volume` is the quantized level.
   * Each app of an `Apps` target is handled in list order and its failure
   * only logged.
   */
  method ManageSlider(slider: Slider, config: LoadedConfig, volume: real, audio: AudioSystem) returns (e: Effect)
    ensures e == Dispatch(slider, config.mappings, config.mappedApps, volume, audio)
  {
    if slider.id !in config.mappings {
      return Effect([], true);
    }
    match config.mappings[slider.id].target {
      case Master =>
        e := SetMasterVolume(volume, audio.master);
      case CurrentApp =>
        e := SetCurrentAppVolume(volume, audio.foreground, audio.enumerate(0));
      case Unmapped =>
        e := SetUnmappedVolume(volume, config.mappedApps, audio.enumerate(0));
      case Apps(apps) =>
        var calls := [];
        for j := 0 to |apps|
          invariant calls == AppsCalls(apps[..j], volume, audio.enumerate)
        {
          var r := SetAppVolume(apps[j], volume, audio.enumerate(j));
          assert apps[..j + 1][..j] == apps[..j];
          calls := calls + r.calls;
        }
        assert apps[..|apps|] == apps;
        e := Effect(calls, true);
    }
  }

  /**
   * With the snapshot built from `sliders`, an `Unmapped` slider never sets a
   * session that the rule of any surviving `Apps` entry's app would select.
   */
  lemma UnmappedSparesMappedApps(sliders: seq<SliderMappings>, slider: Slider, volume: real,
                                 audio: AudioSystem, j: int, app: string)
    requires slider.id in BuildMappings(sliders) && BuildMappings(sliders)[slider.id].target.Unmapped?
    requires LastWithItsId(sliders, j) && sliders[j].target.Apps? && app in sliders[j].target.apps
    ensures forall c :: c in Dispatch(slider, BuildMappings(sliders), MappedApps(BuildMappings(sliders)), volume, audio).calls ==>
              !Selects(NameContains(Lower(app)), audio.enumerate(0).value[c.index])
  {
    var m := BuildMappings(sliders);
    var mapped := MappedApps(m);
    MappedAppsOfSliders(sliders, app);
    assert app in mapped;
    forall c | c in Dispatch(slider, m, mapped, volume, audio).calls
      ensures !Selects(NameContains(Lower(app)), audio.enumerate(0).value[c.index])
    {
      var slot := audio.enumerate(0).value[c.index];
      if Selects(NameContains(Lower(app)), slot) {
        NamedAndUnmappedAreDisjoint(slot, mapped, app);
      }
    }
  }

  // -------------------------------------------------------------- stream

  /**
   * The result of one `read_until(0x00, ...)`: the bytes it appended (none
   * for an empty read), a timeout, or any other I/O error.
   */
  datatype ReadResult = Read(bytes: seq<byte>) | TimedOut | IoError

  /** Removes one trailing 0x00 delimiter, if there is one. */
  function StripDelimiter(buffer: seq<byte>): (frame: seq<byte>)
    ensures frame == buffer || frame + [0] == buffer
    ensures |buffer| > 0 && buffer[|buffer| - 1] == 0 ==> frame + [0] == buffer
  {
    if |buffer| > 0 && buffer[|buffer| - 1] == 0 then buffer[..|buffer| - 1] else buffer
  }

  /** The index of the first read that ends the connection, or |results| if none does. */
  function FirstFatal(results: seq<ReadResult>): (k: nat)
    ensures k <= |results|
    ensures forall j :: 0 <= j < k ==> !results[j].IoError?
    ensures k < |results| ==> results[k].IoError?
  {
    if results == [] then 0
    else if results[0].IoError? then 0
    else FirstFatal(results[1..]) + 1
  }

  /** What one read hands to `manage_slider`: the decoded slider of a non-empty read, if it decodes. */
  function Dispatched(r: ReadResult, decode: seq<byte> -> Option<Slider>): seq<Slider> {
    if r.Read? && |r.bytes| > 0 && decode(StripDelimiter(r.bytes)).Some?
    then [decode(StripDelimiter(r.bytes)).value] else []
  }

  /** The sliders decoded from a run of results, in order; results that are not data contribute nothing. */
  function Decoded(results: seq<ReadResult>, decode: seq<byte> -> Option<Slider>): (sliders: seq<Slider>)
  {
    if results == [] then []
    else Dispatched(results[0], decode) + Decoded(results[1..], decode)
  }

  /** A read dispatches at most one slider: the decoding of a non-empty read, when it decodes. */
  lemma DispatchedCases(r: ReadResult, decode: seq<byte> -> Option<Slider>)
    ensures |Dispatched(r, decode)| <= 1
    ensures |Dispatched(r, decode)| == 1 <==> r.Read? && |r.bytes| > 0 && decode(StripDelimiter(r.bytes)).Some?
    ensures |Dispatched(r, decode)| == 1 ==> Dispatched(r, decode)[0] == decode(StripDelimiter(r.bytes)).value
  {
  }

  /**
   * Every dispatched slider comes from one read, and every read that decodes
   * is dispatched: at most one slider per read, and none from a run without data.
   */
  lemma {:induction false} DecodedExactly(results: seq<ReadResult>, decode: seq<byte> -> Option<Slider>)
    ensures |Decoded(results, decode)| <= |results|
    ensures forall x :: x in Decoded(results, decode) <==>
              exists j :: 0 <= j < |results| && Dispatched(results[j], decode) == [x]
  {
    if results != [] {
      var n := |results| - 1;
      var prefix := results[..n];
      var last := results[n];
      DecodedExactly(prefix, decode);
      assert results == prefix + [last];
      DecodedPush(prefix, last, decode);
      DispatchedCases(last, decode);
      forall x ensures x in Decoded(results, decode) <==>
                       exists j :: 0 <= j < |results| && Dispatched(results[j], decode) == [x]
      {
        if x in Decoded(prefix, decode) {
          var j :| 0 <= j < |prefix| && Dispatched(prefix[j], decode) == [x];
          assert prefix[j] == results[j];
        } else if x in Dispatched(last, decode) {
          assert Dispatched(results[n], decode) == [x];
        }
        if exists j :: 0 <= j < |results| && Dispatched(results[j], decode) == [x] {
          var j :| 0 <= j < |results| && Dispatched(results[j], decode) == [x];
          if j < n {
            assert prefix[j] == results[j];
            assert x in Decoded(prefix, decode);
          } else {
            assert x in Dispatched(last, decode);
          }
        }
      }
    }
  }

  lemma {:induction false} DecodedAppend(a: seq<ReadResult>, b: seq<ReadResult>, decode: seq<byte> -> Option<Slider>)
    ensures Decoded(a + b, decode) == Decoded(a, decode) + Decoded(b, decode)
    decreases |a|
  {
    if a == [] {
      assert a + b == b;
    } else {
      assert (a + b)[1..] == a[1..] + b;
      DecodedAppend(a[1..], b, decode);
    }
  }

  /** Appending one read adds exactly what that read dispatches. */
  lemma DecodedPush(results: seq<ReadResult>, r: ReadResult, decode: seq<byte> -> Option<Slider>)
    ensures Decoded(results + [r], decode) == Decoded(results, decode) + Dispatched(r, decode)
  {
    DecodedAppend(results, [r], decode);
    assert Decoded([r], decode) == Dispatched(r, decode);
  }

  lemma DecodedSnoc(results: seq<ReadResult>, i: nat, decode: seq<byte> -> Option<Slider>)
    requires i < |results|
    ensures Decoded(results[..i + 1], decode) == Decoded(results[..i], decode) + Dispatched(results[i], decode)
  {
    assert results[..i + 1] == results[..i] + [results[i]];
    DecodedPush(results[..i], results[i], decode);
  }

  /** Timeouts and empty results are invisible: removing one changes nothing that is dispatched. */
  lemma IdleReadsAreInvisible(a: seq<ReadResult>, idle: ReadResult, b: seq<ReadResult>,
                              decode: seq<byte> -> Option<Slider>)
    requires idle == TimedOut || idle == Read([])
    ensures Decoded(a + [idle] + b, decode) == Decoded(a + b, decode)
  {
    assert Dispatched(idle, decode) == [];
    DecodedPush(a, idle, decode);
    DecodedAppend(a + [idle], b, decode);
    DecodedAppend(a, b, decode);
  }

  /** How the model's finite run of the stream loop ended. */
  datatype StreamEnd = ConnectionLost(at: nat) | InputExhausted

  /** What `reload_if_needed` observes when it is called: the clock, the file's mtime and the parse of its text. */
  datatype ReloadInput = ReloadInput(now: int, modified: Option<int>, parsed: Option<Config>)

  /**
   * One pass of the stream loop for a read that did not fail: the buffer
   * starts empty; a non-empty read first offers the configuration a reload,
   * then drops one trailing 0x00 and decodes; a decoded slider is handed to
   * `manage_slider`, whose error is only logged.
   */
  method HandleRead(bytes: seq<byte>, decode: seq<byte> -> Option<Slider>, config: LoadedConfig,
                    reload: ReloadInput, level: (u16, real) -> real, audio: AudioSystem)
    returns (sliders: seq<Slider>, effects: seq<Effect>)
    requires config.Valid()
    modifies config
    ensures config.Valid()
    ensures sliders == Dispatched(Read(bytes), decode)
    ensures |effects| == |sliders|
    // an empty read touches nothing
    ensures |bytes| == 0 ==> unchanged(config) && effects == []
    // a non-empty read is offered to `reload_if_needed` first
    ensures |bytes| > 0 ==> config.ReloadedFrom(reload.now, reload.modified, reload.parsed)
    // the slider is dispatched against the snapshot in force after that reload
    ensures sliders != [] ==>
              effects == [Dispatch(sliders[0], config.mappings, config.mappedApps,
                                   level(sliders[0].value, config.general.volumeStep), audio)]
  {
    var buffer: seq<byte> := [];
    buffer := buffer + bytes;
    assert buffer == bytes;
    sliders, effects := [], [];
    if |bytes| > 0 {
      var _ := config.ReloadIfNeeded(reload.now, reload.modified, reload.parsed);
      if |buffer| > 0 && buffer[|buffer| - 1] == 0 {
        buffer := buffer[..|buffer| - 1];
      }
      match decode(buffer) {
        case Some(slider) =>
          var e := ManageSlider(slider, config, level(slider.value, config.general.volumeStep), audio);
          sliders, effects := [slider], [e];
        case None =>
      }
    }
  }

  /**
   * One pass of the stream loop for a result that does not end it: a read is
   * handled as above, a timeout changes nothing.
   */
  method ReadCycle(r: ReadResult, decode: seq<byte> -> Option<Slider>, config: LoadedConfig,
                   reload: ReloadInput, level: (u16, real) -> real, audio: AudioSystem)
    returns (sliders: seq<Slider>, effects: seq<Effect>)
    requires !r.IoError? && config.Valid()
    modifies config
    ensures config.Valid()
    ensures sliders == Dispatched(r, decode)
    ensures |effects| == |sliders|
    // a timeout or an empty read touches nothing
    ensures r.TimedOut? || (r.Read? && |r.bytes| == 0) ==> unchanged(config) && effects == []
    // a non-empty read is offered to `reload_if_needed` first
    ensures r.Read? && |r.bytes| > 0 ==> config.ReloadedFrom(reload.now, reload.modified, reload.parsed)
    // the slider is dispatched against the snapshot in force after that reload
    ensures sliders != [] ==>
              effects == [Dispatch(sliders[0], config.mappings, config.mappedApps,
                                   level(sliders[0].value, config.general.volumeStep), audio)]
  {
    if r.TimedOut? {
      return [], [];
    }
    sliders, effects := HandleRead(r.bytes, decode, config, reload, level, audio);
  }

  /**
   * `process_serial_stream` over a finite run of results. Read `i` sees the
   * reload inputs `reloads(i)` and the audio system `audio(i)`; the level of
   * a slider is `level(value, volume_step)`. A decode failure or a failed
   * dispatch is logged and skipped; an empty read or a timeout continues; any
   * other I/O error returns the error to the reconnect loop. `dispatched`
   * lists the sliders handed to `manage_slider`, in order, and `effects` what
   * each of those calls did.
   */
  method ProcessSerialStream(results: seq<ReadResult>, decode: seq<byte> -> Option<Slider>,
                             config: LoadedConfig, reloads: nat -> ReloadInput,
                             level: (u16, real) -> real, audio: nat -> AudioSystem)
    returns (dispatched: seq<Slider>, effects: seq<Effect>, end: StreamEnd)
    requires config.Valid()
    modifies config
    ensures config.Valid()
    // only an I/O error other than a timeout ends the stream; failed decodes and dispatches do not
    ensures end == if FirstFatal(results) < |results| then ConnectionLost(FirstFatal(results)) else InputExhausted
    ensures dispatched == Decoded(results[..FirstFatal(results)], decode)
    ensures |effects| == |dispatched|
  {
    dispatched, effects := [], [];
    var i := 0;
    while i < |results|
      invariant 0 <= i <= |results|
      invariant forall j :: 0 <= j < i ==> !results[j].IoError?
      invariant dispatched == Decoded(results[..i], decode)
      invariant |effects| == |dispatched|
      invariant config.Valid()
    {
      if results[i].IoError? {
        return dispatched, effects, ConnectionLost(i);
      }
      DecodedSnoc(results, i, decode);
      var d, e := ReadCycle(results[i], decode, config, reloads(i), level, audio(i));
      dispatched, effects := dispatched + d, effects + e;
      i := i + 1;
    }
    assert results[..i] == results;
    return dispatched, effects, InputExhausted;
  }
}
