/**
 * Properties of the fan-control state machine: what each operation does,
 * and what every sequence of operations keeps true of the variables and of
 * the history of firmware calls.
 */
module FanProperties {
  import opened Options
  import opened Firmware
  import opened FanModel
  import Platform

  // ----- Reading the state -----

  /** In manual mode the cached speed is reported with status 0 and no RFAN is issued. */
  lemma ManualReadIsCached(s: FanState, fan: FanIndex, prior: int, fw: Reply)
    requires s.fanManualMode[fan]
    ensures GetCurState(s, fan, prior, fw) == ReadResult(0, s.fanStates[fan], [])
  {
  }

  /**
   * In automatic mode exactly one RFAN(fan) is issued; a raw reading r is
   * reported as (r + 1) * 4, and a failure returns the firmware status and
   * leaves `*state` as it was.
   */
  lemma AutomaticReadQueriesFirmware(s: FanState, fan: FanIndex, prior: int, fw: Reply)
    requires !s.fanManualMode[fan]
    ensures var r := GetCurState(s, fan, prior, fw);
      && r.events == [Event(RFAN(fan), fw.status)]
      && (fw.status == AE_OK ==> r.ret == 0 && r.state == (fw.value + 1) * 4)
      && (fw.status != AE_OK ==> r.ret == fw.status && r.state == prior)
  {
  }

  /** A consistent manual fan reports a non-negative speed: its mode's speed. */
  lemma ReadReportsMode(s: FanState, fan: FanIndex, prior: int, fw: Reply)
    requires FanConsistent(s, fan) && ModeOf(s, fan).Manual?
    ensures GetCurState(s, fan, prior, fw).state == ModeOf(s, fan).speed >= 0
  {
  }

  // ----- Setting the state -----

  /**
   * Any value other than 256 pins the fan at that value, whatever the
   * firmware answers, through exactly one SFNV(fan + 1, value); nothing else
   * changes and the status of the write is returned.
   */
  lemma ManualSetPinsFan(s: FanState, fan: FanIndex, state: CValue, fw: Reply)
    requires state != AUTO_REQUEST
    ensures var o := SetCurState(s, fan, state, fw);
      && o.state == s.(fanStates := s.fanStates[fan := state],
                       fanManualMode := s.fanManualMode[fan := true])
      && FanConsistent(o.state, fan) && ModeOf(o.state, fan) == Manual(state)
      && o.events == [Event(SFNV(fan + 1, state), fw.status)]
      && o.ret == fw.status
  {
  }

  /** After a manual set, a read returns the value set, without a firmware call. */
  lemma ManualSetThenRead(s: FanState, fan: FanIndex, state: CValue, fw: Reply, prior: int, fw2: Reply)
    requires state != AUTO_REQUEST
    ensures GetCurState(SetCurState(s, fan, state, fw).state, fan, prior, fw2) == ReadResult(0, state, [])
  {
  }

  /**
   * 256 releases the fan (not manual, cached speed NO_SPEED) and returns what
   * `fan_set_auto` returns: fan 0 is released too, and fan 1 is released when
   * it is the fan addressed or the platform has a graphics fan.
   */
  lemma AutomaticSetReleasesFan(s: FanState, fan: FanIndex, fw: Reply)
    ensures var o := SetCurState(s, fan, AUTO_REQUEST, fw);
      && !o.state.fanManualMode[fan] && o.state.fanStates[fan] == NO_SPEED
      && !o.state.fanManualMode[0] && o.state.fanStates[0] == NO_SPEED
      && (fan == 1 || s.hasGfxFan ==> !o.state.fanManualMode[1] && o.state.fanStates[1] == NO_SPEED)
      && (fan == 0 && !s.hasGfxFan ==>
            o.state.fanManualMode[1] == s.fanManualMode[1] && o.state.fanStates[1] == s.fanStates[1])
      && o.state.hasGfxFan == s.hasGfxFan && o.state.maxFanSpeedSetting == s.maxFanSpeedSetting
      && o == SetAuto(s.(fanStates := s.fanStates[fan := NO_SPEED],
                         fanManualMode := s.fanManualMode[fan := false]), fw)
      && o.events == [Event(SFNV(0, 0), fw.status)] && o.ret == fw.status
  {
  }

  /**
   * The global automatic call releases fan 0 always and fan 1 only on a
   * graphics platform, whatever the firmware answers, and issues exactly
   * SFNV(0, 0).
   */
  lemma SetAutoReleasesFans(s: FanState, fw: Reply)
    ensures var o := SetAuto(s, fw);
      && !o.state.fanManualMode[0] && o.state.fanStates[0] == NO_SPEED
      && (s.hasGfxFan ==> !o.state.fanManualMode[1] && o.state.fanStates[1] == NO_SPEED)
      && (!s.hasGfxFan ==>
            o.state.fanManualMode[1] == s.fanManualMode[1] && o.state.fanStates[1] == s.fanStates[1])
      && o.state.hasGfxFan == s.hasGfxFan && o.state.maxFanSpeedSetting == s.maxFanSpeedSetting
      && o.events == [Event(SFNV(0, 0), fw.status)] && o.ret == fw.status
  {
  }

  /** Calling `fan_set_auto` twice leaves the same variables as calling it once. */
  lemma SetAutoIdempotent(s: FanState, fw1: Reply, fw2: Reply)
    ensures SetAuto(SetAuto(s, fw1).state, fw2).state == SetAuto(s, fw1).state
  {
  }

  // ----- The ceiling -----

  /** A reset ignores `state`, issues QMOD(2) and on success records 255. */
  lemma ResetRestoresCeiling(s: FanState, state: CValue, fw: Reply)
    ensures var o := SetMaxSpeed(s, state, true, fw);
      && o.events == [Event(QMOD(QMOD_RESET), fw.status)] && o.ret == fw.status
      && o.state == (if fw.status == AE_OK then s.(maxFanSpeedSetting := MAX_SPEED_DEFAULT) else s)
  {
  }

  /** Without reset, ST98(state) is issued and on success `state` is recorded. */
  lemma SetRecordsCeiling(s: FanState, state: CValue, fw: Reply)
    ensures var o := SetMaxSpeed(s, state, false, fw);
      && o.events == [Event(ST98(state), fw.status)] && o.ret == fw.status
      && o.state == (if fw.status == AE_OK then s.(maxFanSpeedSetting := state) else s)
  {
  }

  // ----- The tachometer -----

  /** The tachometer is read whatever the mode; a failed read reports 0. */
  lemma RpmIsBestEffort(fan: FanIndex, fw: Reply)
    ensures FanRpm(fan, fw).events == [Event(TACH(fan), fw.status)]
    ensures fw.status != AE_OK ==> FanRpm(fan, fw).value == 0
    ensures fw.status == AE_OK ==> FanRpm(fan, fw).value == fw.value
  {
  }

  // ----- Loading and unloading -----

  /** An unknown vendor or product refuses activation with -ENODEV and touches nothing. */
  lemma InitRefusesUnknownPlatform(s: FanState, vendor: string, product: string, registered: int,
                                   ceilingFw: Reply, autoFw: Reply)
    requires vendor != Platform.ASUS_VENDOR ||
             product !in Platform.SINGLE_FAN_PRODUCTS + Platform.GFX_FAN_PRODUCTS
    ensures Init(s, vendor, product, registered, ceilingFw, autoFw) == Outcome(s, -Platform.ENODEV, [])
  {
  }

  /**
   * On a supported platform the graphics-fan flag follows the product list,
   * and then registration, ST98(255) and SFNV(0, 0) follow in that order,
   * each only if the one before succeeded; the first failing status is
   * returned.
   */
  lemma InitSequence(s: FanState, product: string, registered: int, ceilingFw: Reply, autoFw: Reply)
    requires product in Platform.SINGLE_FAN_PRODUCTS + Platform.GFX_FAN_PRODUCTS
    ensures var o := Init(s, Platform.ASUS_VENDOR, product, registered, ceilingFw, autoFw);
      && o.state.hasGfxFan == (product in Platform.GFX_FAN_PRODUCTS)
      && (registered != AE_OK ==> o.ret == registered && o.events == [])
      && (registered == AE_OK && ceilingFw.status != AE_OK ==>
            o.ret == ceilingFw.status && o.events == [Event(ST98(MAX_SPEED_DEFAULT), ceilingFw.status)])
      && (registered == AE_OK && ceilingFw.status == AE_OK ==>
            o.ret == autoFw.status &&
            o.events == [Event(ST98(MAX_SPEED_DEFAULT), AE_OK), Event(SFNV(0, 0), autoFw.status)])
  {
  }

  /**
   * A load that gets past the ceiling call leaves fan 0 automatic (and fan 1
   * too on a graphics platform) and the ceiling at 255; starting from the
   * variables' initial values, every fan is then automatic.
   */
  lemma InitLeavesFansAutomatic(s: FanState, product: string, ceilingFw: Reply, autoFw: Reply)
    requires product in Platform.SINGLE_FAN_PRODUCTS + Platform.GFX_FAN_PRODUCTS
    requires ceilingFw.status == AE_OK
    ensures var o := Init(s, Platform.ASUS_VENDOR, product, AE_OK, ceilingFw, autoFw);
      && !o.state.fanManualMode[0] && o.state.fanStates[0] == NO_SPEED
      && (o.state.hasGfxFan ==> !o.state.fanManualMode[1] && o.state.fanStates[1] == NO_SPEED)
      && o.state.maxFanSpeedSetting == MAX_SPEED_DEFAULT
      && (s == Initial() ==> !o.state.fanManualMode[1] && o.state.fanStates[1] == NO_SPEED)
  {
  }

  /**
   * Unloading issues SFNV(0, 0), releases fan 0 (and fan 1 on a graphics
   * platform) even if the firmware call fails, and leaves the ceiling as it was.
   */
  lemma ExitReleasesFans(s: FanState, fw: Reply)
    ensures var x := Exit(s, fw);
      && x.events == [Event(SFNV(0, 0), fw.status)]
      && !x.state.fanManualMode[0] && x.state.fanStates[0] == NO_SPEED
      && (s.hasGfxFan ==> !x.state.fanManualMode[1] && x.state.fanStates[1] == NO_SPEED)
      && x.state.maxFanSpeedSetting == s.maxFanSpeedSetting
  {
  }

  // ----- History helpers -----

  lemma LastCommandAppend(h: seq<Event>, e: Event, f: FanIndex)
    ensures LastCommand(h + [e], f) ==
      if e.call.SFNV? && e.call.index == f + 1 then Some(e.call.speed)
      else if e.call.SFNV? && e.call.index == 0 then None
      else LastCommand(h, f)
  {
    assert (h + [e])[..|h|] == h;
  }

  lemma LastCeilingAppend(h: seq<Event>, e: Event)
    ensures LastCeiling(h + [e]) ==
      if e.status == AE_OK && e.call.ST98? then Some(e.call.ceiling)
      else if e.status == AE_OK && e.call == QMOD(QMOD_RESET) then Some(MAX_SPEED_DEFAULT)
      else LastCeiling(h)
  {
    assert (h + [e])[..|h|] == h;
  }

  // ----- One request -----

  /** No request changes the graphics-fan flag, and each issues at most one call. */
  lemma StepShape(s: FanState, op: Op, fw: Reply)
    ensures Step(s, op, fw).state.hasGfxFan == s.hasGfxFan
    ensures |Step(s, op, fw).events| <= 1
  {
  }

  lemma StepKeepsConsistent(s: FanState, op: Op, fw: Reply)
    requires Consistent(s)
    ensures Consistent(Step(s, op, fw).state)
  {
  }

  lemma StepKeepsCeilingMirror(s: FanState, h: seq<Event>, op: Op, fw: Reply)
    requires CeilingMirrors(s, h)
    ensures CeilingMirrors(Step(s, op, fw).state, h + Step(s, op, fw).events)
  {
    var x := Step(s, op, fw);
    StepShape(s, op, fw);
    if |x.events| == 1 {
      assert x.events == [x.events[0]];
      LastCeilingAppend(h, x.events[0]);
    } else {
      assert h + x.events == h;
    }
  }

  lemma StepKeepsCacheMirror(s: FanState, h: seq<Event>, op: Op, fw: Reply, f: FanIndex)
    requires CacheMirrors(s, h, f)
    requires f == 0 || s.hasGfxFan
    ensures CacheMirrors(Step(s, op, fw).state, h + Step(s, op, fw).events, f)
  {
    var x := Step(s, op, fw);
    StepShape(s, op, fw);
    if |x.events| == 1 {
      assert x.events == [x.events[0]];
      LastCommandAppend(h, x.events[0], f);
    } else {
      assert h + x.events == h;
    }
  }

  lemma StepKeepsInvariant(s: FanState, h: seq<Event>, op: Op, fw: Reply)
    requires Invariant(s, h)
    ensures Invariant(Step(s, op, fw).state, h + Step(s, op, fw).events)
  {
    StepKeepsConsistent(s, op, fw);
    StepKeepsCeilingMirror(s, h, op, fw);
    StepKeepsCacheMirror(s, h, op, fw, 0);
  }

  lemma StepIssuesPermittedCalls(s: FanState, op: Op, fw: Reply)
    ensures forall i :: 0 <= i < |Step(s, op, fw).events| ==> Issuable(Step(s, op, fw).events[i].call)
  {
  }

  // ----- Any sequence of requests -----

  /** Serving requests never makes a fan's mode and its cached speed disagree. */
  lemma {:induction false} RunKeepsConsistent(s: FanState, script: seq<(Op, Reply)>)
    requires Consistent(s)
    ensures Consistent(Run(s, script).state)
    ensures Run(s, script).state.hasGfxFan == s.hasGfxFan
    decreases |script|
  {
    if script != [] {
      var x := Step(s, script[0].0, script[0].1);
      StepKeepsConsistent(s, script[0].0, script[0].1);
      StepShape(s, script[0].0, script[0].1);
      RunKeepsConsistent(x.state, script[1..]);
    }
  }

  /**
   * The recorded ceiling always equals the last ceiling the firmware
   * acknowledged, so `fan_get_max_speed` reports what the firmware was last
   * successfully told, although the firmware cannot be asked.
   */
  lemma {:induction false} RunKeepsCeilingMirror(s: FanState, h: seq<Event>, script: seq<(Op, Reply)>)
    requires CeilingMirrors(s, h)
    ensures CeilingMirrors(Run(s, script).state, h + Run(s, script).events)
    decreases |script|
  {
    if script == [] {
      assert h + Run(s, script).events == h;
    } else {
      var x := Step(s, script[0].0, script[0].1);
      StepKeepsCeilingMirror(s, h, script[0].0, script[0].1);
      RunKeepsCeilingMirror(x.state, h + x.events, script[1..]);
      assert h + x.events + Run(x.state, script[1..]).events == h + Run(s, script).events;
    }
  }

  /**
   * The cached mode of fan 0 (and of fan 1 on a graphics platform) always
   * matches the last write addressed to it: manual at v after SFNV(fan + 1, v),
   * automatic after SFNV(0, 0), whether or not the firmware accepted the call.
   */
  lemma {:induction false} RunKeepsCacheMirror(s: FanState, h: seq<Event>, script: seq<(Op, Reply)>, f: FanIndex)
    requires CacheMirrors(s, h, f)
    requires f == 0 || s.hasGfxFan
    ensures CacheMirrors(Run(s, script).state, h + Run(s, script).events, f)
    decreases |script|
  {
    if script == [] {
      assert h + Run(s, script).events == h;
    } else {
      var x := Step(s, script[0].0, script[0].1);
      StepKeepsCacheMirror(s, h, script[0].0, script[0].1, f);
      StepShape(s, script[0].0, script[0].1);
      RunKeepsCacheMirror(x.state, h + x.events, script[1..], f);
      assert h + x.events + Run(x.state, script[1..]).events == h + Run(s, script).events;
    }
  }

  /**
   * Every call the driver issues has one of the permitted shapes: in
   * particular SFNV uses index 0 only as SFNV(0, 0), fan indices 1 and 2
   * otherwise, and the sentinel 256 never reaches the firmware.
   */
  lemma {:induction false} RunIssuesPermittedCalls(s: FanState, script: seq<(Op, Reply)>)
    ensures forall i :: 0 <= i < |Run(s, script).events| ==> Issuable(Run(s, script).events[i].call)
    decreases |script|
  {
    if script != [] {
      var x := Step(s, script[0].0, script[0].1);
      StepIssuesPermittedCalls(s, script[0].0, script[0].1);
      RunIssuesPermittedCalls(x.state, script[1..]);
      var rest := Run(x.state, script[1..]).events;
      assert Run(s, script).events == x.events + rest;
      forall i | 0 <= i < |x.events + rest|
        ensures Issuable((x.events + rest)[i].call)
      {
        if i >= |x.events| {
          assert (x.events + rest)[i] == rest[i - |x.events|];
        }
      }
    }
  }

  /** From load onward, the driver's invariant holds after any requests. */
  lemma RunFromInitial(script: seq<(Op, Reply)>)
    ensures Invariant(Run(Initial(), script).state, Run(Initial(), script).events)
  {
    RunKeepsConsistent(Initial(), script);
    RunKeepsCeilingMirror(Initial(), [], script);
    RunKeepsCacheMirror(Initial(), [], script, 0);
    assert [] + Run(Initial(), script).events == Run(Initial(), script).events;
  }

  /** The invariant survives `fan_init`, whatever the platform and the replies. */
  lemma InitKeepsInvariant(s: FanState, h: seq<Event>, vendor: string, product: string,
                           registered: int, ceilingFw: Reply, autoFw: Reply)
    requires Invariant(s, h)
    ensures var o := Init(s, vendor, product, registered, ceilingFw, autoFw);
      Invariant(o.state, h + o.events)
  {
    var o := Init(s, vendor, product, registered, ceilingFw, autoFw);
    if vendor == Platform.ASUS_VENDOR && Platform.HasGfxFan(product).Some? && registered == AE_OK {
      var s0 := s.(hasGfxFan := Platform.HasGfxFan(product).value);
      var m := Step(s0, SetMax(MAX_SPEED_DEFAULT, false), ceilingFw);
      StepKeepsInvariant(s0, h, SetMax(MAX_SPEED_DEFAULT, false), ceilingFw);
      if ceilingFw.status == AE_OK {
        StepKeepsInvariant(m.state, h + m.events, Auto, autoFw);
        assert h + m.events + Step(m.state, Auto, autoFw).events == h + o.events;
      }
    } else {
      assert h + o.events == h;
    }
  }

  /**
   * After a load that gets past the ceiling call, fan 1's cache also mirrors
   * the firmware on a graphics platform, so from then on every fan present
   * keeps its cache in step with the last write.
   */
  lemma InitAlignsSecondFan(s: FanState, h: seq<Event>, product: string, ceilingFw: Reply, autoFw: Reply)
    requires product in Platform.GFX_FAN_PRODUCTS
    requires ceilingFw.status == AE_OK
    ensures var o := Init(s, Platform.ASUS_VENDOR, product, AE_OK, ceilingFw, autoFw);
      o.state.hasGfxFan && CacheMirrors(o.state, h + o.events, 1)
  {
    var o := Init(s, Platform.ASUS_VENDOR, product, AE_OK, ceilingFw, autoFw);
    assert o.events == [Event(ST98(MAX_SPEED_DEFAULT), AE_OK), Event(SFNV(0, 0), autoFw.status)];
    assert h + o.events == (h + [o.events[0]]) + [o.events[1]];
    LastCommandAppend(h + [o.events[0]], o.events[1], 1);
  }

  /**
   * Fan 1 is accepted on a single-fan platform, and there the global
   * automatic call does not clear it: after pinning fan 1 and releasing fan 0
   * the cache still says manual at 100 although the last write concerning
   * fan 1 was SFNV(0, 0). (On such platforms fan 1 has no sysfs attribute.)
   */
  lemma SecondFanCacheGoesStaleWithoutGfx(fw: Reply)
    ensures var r := Run(Initial(), [(Write(1, 100), fw), (Write(0, AUTO_REQUEST), fw)]);
      && r.state.fanManualMode[1] && r.state.fanStates[1] == 100
      && r.events == [Event(SFNV(2, 100), fw.status), Event(SFNV(0, 0), fw.status)]
      && LastCommand(r.events, 1) == None
  {
    var script := [(Write(1, 100), fw), (Write(0, AUTO_REQUEST), fw)];
    var x := Step(Initial(), Write(1, 100), fw);
    var y := Step(x.state, Write(0, AUTO_REQUEST), fw);
    assert script[1..] == [(Write(0, AUTO_REQUEST), fw)];
    assert script[1..][1..] == [];
    assert Run(y.state, []) == Execution(y.state, []);
    assert Run(x.state, script[1..]) == Execution(y.state, y.events + []);
    assert Run(Initial(), script) == Execution(y.state, x.events + (y.events + []));
    assert !y.state.hasGfxFan && y.state.fanStates[1] == 100 && y.state.fanManualMode[1];
    assert x.events + (y.events + []) == [Event(SFNV(2, 100), fw.status), Event(SFNV(0, 0), fw.status)];
    LastCommandAppend([Event(SFNV(2, 100), fw.status)], Event(SFNV(0, 0), fw.status), 1);
  }
}
