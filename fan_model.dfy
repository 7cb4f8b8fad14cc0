/**
 * The fan-control state of the driver as a value, and one function per
 * operation giving the new state, the returned status and the firmware calls
 * issued. The class in module AsusFan is proved to follow these functions;
 * the lemmas in module FanProperties are stated about them.
 */
module FanModel {
  import opened Options
  import opened Firmware
  import Platform

  /** The largest C `int`; speeds and ceilings are kept within it. */
  const INT_MAX: int := 0x7fff_ffff

  /** The requested state (0x0100) that returns a fan to automatic control. */
  const AUTO_REQUEST: int := 256

  /** What `fan_states` holds for a fan that is not manually controlled. */
  const NO_SPEED: int := -1

  /** `max_fan_speed_default`, also the factory ceiling restored by a reset. */
  const MAX_SPEED_DEFAULT: int := 255

  /** The QMOD argument that sets the quiet mode back to 0xFF. */
  const QMOD_RESET: int := 2

  /** Fan 0 is the CPU fan, fan 1 the graphics fan. */
  type FanIndex = i: int | 0 <= i < 2

  /** A requested speed or ceiling that a C `int` holds unchanged. */
  type CValue = n: int | 0 <= n <= INT_MAX

  type FanStates = s: seq<int> | |s| == 2 witness [-1, -1]
  type FanModes = s: seq<bool> | |s| == 2 witness [false, false]

  /** The driver's process-wide variables. */
  datatype FanState = FanState(
    fanStates: FanStates,        // last manually set speed per fan, or NO_SPEED
    fanManualMode: FanModes,     // whether each fan is manually controlled
    hasGfxFan: bool,             // whether the platform has a second fan
    maxFanSpeedSetting: int)     // the ceiling last acknowledged by the firmware

  /** The variables as the module is loaded. */
  function Initial(): FanState {
    FanState([NO_SPEED, NO_SPEED], [false, false], false, MAX_SPEED_DEFAULT)
  }

  /** A fan is either under firmware control or pinned at a speed. */
  datatype FanMode = Automatic | Manual(speed: nat)

  /** Fan `f` is manual exactly when a (non-negative) speed is cached for it. */
  predicate FanConsistent(s: FanState, f: FanIndex) {
    s.fanStates[f] >= NO_SPEED && (s.fanManualMode[f] <==> s.fanStates[f] >= 0)
  }

  predicate Consistent(s: FanState) {
    FanConsistent(s, 0) && FanConsistent(s, 1)
  }

  function ModeOf(s: FanState, f: FanIndex): FanMode
    requires FanConsistent(s, f)
  {
    if s.fanManualMode[f] then Manual(s.fanStates[f]) else Automatic
  }

  /** A read: the returned status, the value left in `*state`, the calls issued. */
  datatype ReadResult = ReadResult(ret: int, state: int, events: seq<Event>)

  /** A tachometer reading and the calls issued. */
  datatype Reading = Reading(value: nat, events: seq<Event>)

  /** A state change: the new variables, the returned status, the calls issued. */
  datatype Outcome = Outcome(state: FanState, ret: int, events: seq<Event>)

  /** An operation whose status is not returned: the new variables and the calls issued. */
  datatype Execution = Execution(state: FanState, events: seq<Event>)

  /**
   * The N551JK rescaling of an RFAN reading, which makes read-out and
   * commanded speeds agree: the reported value is the multiple of four whose
   * quarter is one more than the raw reading.
   */
  function Rescale(raw: nat): (value: nat)
    ensures value % 4 == 0 && value / 4 == raw + 1
  {
    (raw + 1) * 4
  }

  /** `__fan_get_cur_state`; `prior` is what `*state` held before the call. */
  function GetCurState(s: FanState, fan: FanIndex, prior: int, fw: Reply): ReadResult {
    if s.fanManualMode[fan] then
      ReadResult(0, s.fanStates[fan], [])
    else if fw.status != AE_OK then
      ReadResult(fw.status, prior, [Event(RFAN(fan), fw.status)])
    else
      ReadResult(0, Rescale(fw.value), [Event(RFAN(fan), fw.status)])
  }

  /** `fan_set_speed`: one SFNV write, the fan index shifted by one. */
  function SetSpeed(s: FanState, fan: FanIndex, speed: int, fw: Reply): Outcome {
    Outcome(s, fw.status, [Event(SFNV(fan + 1, speed), fw.status)])
  }

  /** `fan_set_auto`: clear fan 0 (and fan 1 on a graphics platform), then SFNV(0, 0). */
  function SetAuto(s: FanState, fw: Reply): Outcome {
    var s0 := s.(fanManualMode := s.fanManualMode[0 := false],
                 fanStates := s.fanStates[0 := NO_SPEED]);
    var s1 := if s.hasGfxFan then
                s0.(fanStates := s0.fanStates[1 := NO_SPEED],
                    fanManualMode := s0.fanManualMode[1 := false])
              else s0;
    Outcome(s1, fw.status, [Event(SFNV(0, 0), fw.status)])
  }

  /** `__fan_set_cur_state`: 256 goes automatic, anything else pins the fan. */
  function SetCurState(s: FanState, fan: FanIndex, state: CValue, fw: Reply): Outcome {
    var s0 := s.(fanStates := s.fanStates[fan := state]);
    if state == AUTO_REQUEST then
      SetAuto(s0.(fanManualMode := s0.fanManualMode[fan := false],
                  fanStates := s0.fanStates[fan := NO_SPEED]), fw)
    else
      SetSpeed(s0.(fanManualMode := s0.fanManualMode[fan := true]), fan, state, fw)
  }

  /** `fan_set_max_speed`: QMOD(2) on reset, ST98(state) otherwise; record on success. */
  function SetMaxSpeed(s: FanState, state: CValue, reset: bool, fw: Reply): Outcome {
    var ceiling := if reset then MAX_SPEED_DEFAULT else state;
    var e := if reset then Event(QMOD(QMOD_RESET), fw.status) else Event(ST98(state), fw.status);
    if fw.status != AE_OK then
      Outcome(s, fw.status, [e])
    else
      Outcome(s.(maxFanSpeedSetting := ceiling), fw.status, [e])
  }

  /** `__fan_rpm`: a TACH read; 0 when it fails. */
  function FanRpm(fan: FanIndex, fw: Reply): Reading {
    Reading(if fw.status == AE_OK then fw.value else 0, [Event(TACH(fan), fw.status)])
  }

  /**
   * `fan_init`: classify the platform, register (its status is `registered`),
   * then `fan_set_max_speed(255, false)` and `fan_set_auto()`, stopping at the
   * first failure.
   */
  function Init(s: FanState, vendor: string, product: string, registered: int,
                ceilingFw: Reply, autoFw: Reply): Outcome
  {
    if vendor != Platform.ASUS_VENDOR then
      Outcome(s, -Platform.ENODEV, [])
    else
      match Platform.HasGfxFan(product)
      case None => Outcome(s, -Platform.ENODEV, [])
      case Some(gfx) =>
        var s0 := s.(hasGfxFan := gfx);
        if registered != AE_OK then
          Outcome(s0, registered, [])
        else
          var m := SetMaxSpeed(s0, MAX_SPEED_DEFAULT, false, ceilingFw);
          if m.ret != AE_OK then
            m
          else
            var a := SetAuto(m.state, autoFw);
            Outcome(a.state, a.ret, m.events + a.events)
  }

  /** `fan_exit`: `fan_set_auto()`, its status ignored. */
  function Exit(s: FanState, fw: Reply): Execution {
    var a := SetAuto(s, fw);
    Execution(a.state, a.events)
  }

  // ----- Sequences of operations -----

  /** The requests the driver serves once loaded. */
  datatype Op =
    | Read(fan: FanIndex)                    // read wrapper: `*state` preloaded with 0
    | Write(fan: FanIndex, value: CValue)    // write wrapper
    | Auto                                   // fan_set_auto, as called by fan_exit
    | SetMax(value: CValue, reset: bool)
    | ReadMax
    | Rpm(fan: FanIndex)

  function Step(s: FanState, op: Op, fw: Reply): Execution {
    match op
    case Read(fan) => Execution(s, GetCurState(s, fan, 0, fw).events)
    case Write(fan, v) => var o := SetCurState(s, fan, v, fw); Execution(o.state, o.events)
    case Auto => var o := SetAuto(s, fw); Execution(o.state, o.events)
    case SetMax(v, reset) => var o := SetMaxSpeed(s, v, reset, fw); Execution(o.state, o.events)
    case ReadMax => Execution(s, [])
    case Rpm(fan) => Execution(s, FanRpm(fan, fw).events)
  }

  /** Serve the requests of `script` in order, each with its firmware reply. */
  function Run(s: FanState, script: seq<(Op, Reply)>): Execution
    decreases |script|
  {
    if script == [] then
      Execution(s, [])
    else
      var x := Step(s, script[0].0, script[0].1);
      var rest := Run(x.state, script[1..]);
      Execution(rest.state, x.events + rest.events)
  }

  // ----- What a history of firmware calls says the hardware was told -----

  /**
   * The speed most recently written to fan `f` by SFNV(f + 1, speed), or
   * `None` when the most recent write concerning it was the global
   * automatic call SFNV(0, _) or there was none.
   */
  function LastCommand(h: seq<Event>, f: FanIndex): Option<int> {
    if h == [] then
      None
    else
      var c := h[|h| - 1].call;
      if c.SFNV? && c.index == f + 1 then Some(c.speed)
      else if c.SFNV? && c.index == 0 then None
      else LastCommand(h[..|h| - 1], f)
  }

  /** The ceiling most recently acknowledged by ST98 or a QMOD reset, if any. */
  function LastCeiling(h: seq<Event>): Option<int> {
    if h == [] then
      None
    else
      var e := h[|h| - 1];
      if e.status == AE_OK && e.call.ST98? then Some(e.call.ceiling)
      else if e.status == AE_OK && e.call == QMOD(QMOD_RESET) then Some(MAX_SPEED_DEFAULT)
      else LastCeiling(h[..|h| - 1])
  }

  /** The cached mode of fan `f` is what history `h` last told the firmware. */
  predicate CacheMirrors(s: FanState, h: seq<Event>, f: FanIndex) {
    match LastCommand(h, f)
    case None => !s.fanManualMode[f]
    case Some(v) => s.fanManualMode[f] && s.fanStates[f] == v
  }

  /** The recorded ceiling is the last one the firmware acknowledged (255 if none). */
  predicate CeilingMirrors(s: FanState, h: seq<Event>) {
    s.maxFanSpeedSetting == LastCeiling(h).GetOr(MAX_SPEED_DEFAULT)
  }

  /** What the driver keeps true of its variables and its call history. */
  predicate Invariant(s: FanState, h: seq<Event>) {
    Consistent(s) && CeilingMirrors(s, h) && CacheMirrors(s, h, 0)
  }

  /** The shapes of call the driver can issue. */
  predicate Issuable(c: Call) {
    match c
    case RFAN(f) => 0 <= f < 2
    case SFNV(i, v) => (i == 0 && v == 0) || (1 <= i <= 2 && 0 <= v <= INT_MAX && v != AUTO_REQUEST)
    case TACH(f) => 0 <= f < 2
    case QMOD(m) => m == QMOD_RESET
    case ST98(v) => 0 <= v <= INT_MAX
  }
}
