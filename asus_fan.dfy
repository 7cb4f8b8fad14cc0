/**
 * The driver's fan control as it runs: a class whose fields are the
 * module's globals `fan_states`, `fan_manual_mode`, `has_gfx_fan` and
 * `max_fan_speed_setting`, with one method per C function. Every firmware
 * evaluation takes its answer from a `Reply` parameter and is appended to
 * the ghost `trace`. Each method states its effect directly and is tied to
 * the matching function of module FanModel.
 */
module AsusFan {
  import opened Firmware
  import opened FanModel
  import opened FanProperties
  import Platform

  class FanController {
    /** `fan_states`: the last manually set speed of each fan, or NO_SPEED. */
    const fanStates: array<int>
    /** `fan_manual_mode`: whether each fan is manually controlled. */
    const fanManualMode: array<bool>
    /** `has_gfx_fan`: whether the platform has a second (graphics) fan. */
    var hasGfxFan: bool
    /** `max_fan_speed_setting`: the ceiling last acknowledged by the firmware. */
    var maxFanSpeedSetting: int
    /** Every firmware evaluation issued so far, with the status it returned. */
    ghost var trace: seq<Event>

    ghost predicate Shaped() {
      fanStates.Length == 2 && fanManualMode.Length == 2
    }

    /** The globals as a value. */
    ghost function Model(): FanState
      reads this`hasGfxFan, this`maxFanSpeedSetting, fanStates, fanManualMode
      requires Shaped()
    {
      FanState(fanStates[..], fanManualMode[..], hasGfxFan, maxFanSpeedSetting)
    }

    ghost predicate Valid()
      reads this, fanStates, fanManualMode
    {
      Shaped() && Invariant(Model(), trace)
    }

    /** The globals' static initial values, before `fan_init` runs. */
    constructor ()
      ensures Valid() && fresh(fanStates) && fresh(fanManualMode)
      ensures Model() == Initial() && trace == []
    {
      fanStates := new int[] [NO_SPEED, NO_SPEED];
      fanManualMode := new bool[] [false, false];
      hasGfxFan := false;
      maxFanSpeedSetting := MAX_SPEED_DEFAULT;
      trace := [];
      new;
      assert fanStates[..] == [NO_SPEED, NO_SPEED];
      assert fanManualMode[..] == [false, false];
    }

    /**
     * `__fan_get_cur_state`: a manual fan reports its cached speed without a
     * firmware call; otherwise RFAN(fan) is issued and its raw value r is
     * reported as (r + 1) * 4, or, if it fails, its status is returned and
     * `state` keeps the caller's `prior` value.
     */
    method GetCurState(fan: FanIndex, prior: int, fw: Reply) returns (ret: int, state: int)
      requires Valid()
      modifies this`trace
      ensures Valid()
      ensures old(fanManualMode[fan]) ==> ret == 0 && state == fanStates[fan] && trace == old(trace)
      ensures !old(fanManualMode[fan]) ==>
        && trace == old(trace) + [Event(RFAN(fan), fw.status)]
        && (fw.status == AE_OK ==> ret == 0 && state == (fw.value + 1) * 4)
        && (fw.status != AE_OK ==> ret == fw.status && state == prior)
      ensures var r := FanModel.GetCurState(old(Model()), fan, prior, fw);
        ret == r.ret && state == r.state && trace == old(trace) + r.events
    {
      StepKeepsInvariant(Model(), trace, Read(fan), fw);
      if fanManualMode[fan] {
        state := fanStates[fan];
        ret := 0;
        return;
      }
      trace := trace + [Event(RFAN(fan), fw.status)];
      if fw.status != AE_OK {
        ret := fw.status;
        state := prior;
        return;
      }
      state := Rescale(fw.value);
      ret := 0;
    }

    /**
     * `__fan_set_cur_state`: the cached speed is set first; 256 then releases
     * the fan and returns what `fan_set_auto` returns, any other value pins
     * the fan and returns the status of `fan_set_speed`. The local state
     * changes whether or not the firmware call succeeds.
     */
    method SetCurState(fan: FanIndex, state: CValue, fw: Reply) returns (ret: int)
      requires Valid()
      modifies this`trace, fanStates, fanManualMode
      ensures Valid()
      ensures ret == fw.status
      ensures state != AUTO_REQUEST ==>
        && fanManualMode[fan] && fanStates[fan] == state
        && fanManualMode[1 - fan] == old(fanManualMode[1 - fan])
        && fanStates[1 - fan] == old(fanStates[1 - fan])
        && trace == old(trace) + [Event(SFNV(fan + 1, state), fw.status)]
      ensures state == AUTO_REQUEST ==>
        && !fanManualMode[fan] && fanStates[fan] == NO_SPEED
        && !fanManualMode[0] && fanStates[0] == NO_SPEED
        && (hasGfxFan ==> !fanManualMode[1] && fanStates[1] == NO_SPEED)
        && (fan == 0 && !hasGfxFan ==>
              fanManualMode[1] == old(fanManualMode[1]) && fanStates[1] == old(fanStates[1]))
        && trace == old(trace) + [Event(SFNV(0, 0), fw.status)]
      ensures var o := FanModel.SetCurState(old(Model()), fan, state, fw);
        Model() == o.state && ret == o.ret && trace == old(trace) + o.events
    {
      ghost var s, h := Model(), trace;
      StepKeepsInvariant(s, h, Write(fan, state), fw);
      fanStates[fan] := state;
      if state == AUTO_REQUEST {
        fanManualMode[fan] := false;
        fanStates[fan] := NO_SPEED;
        ret := SetAuto(fw);
      } else {
        fanManualMode[fan] := true;
        ret := SetSpeed(fan, state, fw);
      }
    }

    /** `fan_set_speed`: exactly one SFNV(fan + 1, speed); its status is returned. */
    method SetSpeed(fan: FanIndex, speed: int, fw: Reply) returns (ret: int)
      modifies this`trace
      ensures ret == fw.status
      ensures trace == old(trace) + [Event(SFNV(fan + 1, speed), fw.status)]
    {
      trace := trace + [Event(SFNV(fan + 1, speed), fw.status)];
      ret := fw.status;
    }

    /**
     * `fan_set_auto`: fan 0 is released, and fan 1 on a graphics platform,
     * before the single SFNV(0, 0) and regardless of its outcome; its status
     * is returned.
     */
    method SetAuto(fw: Reply) returns (ret: int)
      requires Shaped()
      modifies this`trace, fanStates, fanManualMode
      ensures !fanManualMode[0] && fanStates[0] == NO_SPEED
      ensures hasGfxFan ==> !fanManualMode[1] && fanStates[1] == NO_SPEED
      ensures !hasGfxFan ==> fanManualMode[1] == old(fanManualMode[1]) && fanStates[1] == old(fanStates[1])
      ensures ret == fw.status
      ensures trace == old(trace) + [Event(SFNV(0, 0), fw.status)]
      ensures var o := FanModel.SetAuto(old(Model()), fw);
        Model() == o.state && ret == o.ret && trace == old(trace) + o.events
      ensures old(Valid()) ==> Valid()
    {
      ghost var s, h := Model(), trace;
      if Invariant(s, h) {
        StepKeepsInvariant(s, h, Auto, fw);
      }
      fanManualMode[0] := false;
      fanStates[0] := NO_SPEED;
      if hasGfxFan {
        fanStates[1] := NO_SPEED;
        fanManualMode[1] := false;
      }
      trace := trace + [Event(SFNV(0, 0), fw.status)];
      ret := fw.status;
      assert fanStates[..] == FanModel.SetAuto(s, fw).state.fanStates;
      assert fanManualMode[..] == FanModel.SetAuto(s, fw).state.fanManualMode;
    }

    /**
     * `fan_get_max_speed`: the recorded ceiling, with status 0 and no
     * firmware call (the ceiling cannot be read back).
     */
    method GetMaxSpeed() returns (ret: int, state: int)
      ensures ret == 0 && state == maxFanSpeedSetting
    {
      state := maxFanSpeedSetting;
      ret := 0;
    }

    /**
     * `fan_set_max_speed`: with `reset` the argument is ignored, QMOD(2) is
     * issued and 255 is recorded on success; otherwise ST98(state) is issued
     * and `state` is recorded on success. A failure leaves the ceiling as it
     * was and returns the firmware status.
     */
    method SetMaxSpeed(state: CValue, reset: bool, fw: Reply) returns (ret: int)
      requires Valid()
      modifies this`maxFanSpeedSetting, this`trace
      ensures Valid()
      ensures ret == fw.status
      ensures reset ==> trace == old(trace) + [Event(QMOD(QMOD_RESET), fw.status)]
      ensures !reset ==> trace == old(trace) + [Event(ST98(state), fw.status)]
      ensures maxFanSpeedSetting ==
        if fw.status != AE_OK then old(maxFanSpeedSetting)
        else if reset then MAX_SPEED_DEFAULT else state
      ensures var o := FanModel.SetMaxSpeed(old(Model()), state, reset, fw);
        Model() == o.state && ret == o.ret && trace == old(trace) + o.events
    {
      StepKeepsInvariant(Model(), trace, SetMax(state, reset), fw);
      var ceiling := state;
      if reset {
        ceiling := MAX_SPEED_DEFAULT;
        trace := trace + [Event(QMOD(QMOD_RESET), fw.status)];
        if fw.status != AE_OK {
          return fw.status;
        }
      } else {
        trace := trace + [Event(ST98(ceiling), fw.status)];
        if fw.status != AE_OK {
          return fw.status;
        }
      }
      maxFanSpeedSetting := ceiling;
      ret := fw.status;
    }

    /** `__fan_rpm`: TACH(fan) whatever the mode; 0 when it fails. */
    method FanRpm(fan: FanIndex, fw: Reply) returns (rpm: nat)
      requires Valid()
      modifies this`trace
      ensures Valid()
      ensures rpm == if fw.status == AE_OK then fw.value else 0
      ensures trace == old(trace) + [Event(TACH(fan), fw.status)]
    {
      StepKeepsInvariant(Model(), trace, Rpm(fan), fw);
      trace := trace + [Event(TACH(fan), fw.status)];
      if fw.status != AE_OK {
        return 0;
      }
      rpm := fw.value;
    }

    /**
     * `fan_init`: refuse with -ENODEV unless the vendor is ASUSTeK and the
     * product is listed; record whether it has a graphics fan; then, after a
     * successful registration (status `registered`), reset the ceiling with
     * `fan_set_max_speed(255, false)` and release the fans with
     * `fan_set_auto()`, returning the first failing status.
     */
    method Init(vendor: string, product: string, registered: int, ceilingFw: Reply, autoFw: Reply)
      returns (ret: int)
      requires Valid()
      modifies this`hasGfxFan, this`maxFanSpeedSetting, this`trace, fanStates, fanManualMode
      ensures Valid()
      ensures vendor != Platform.ASUS_VENDOR ||
              product !in Platform.SINGLE_FAN_PRODUCTS + Platform.GFX_FAN_PRODUCTS ==>
        ret == -Platform.ENODEV && Model() == old(Model()) && trace == old(trace)
      ensures ret == AE_OK ==>
        && hasGfxFan == (product in Platform.GFX_FAN_PRODUCTS)
        && !fanManualMode[0] && (hasGfxFan ==> !fanManualMode[1])
        && maxFanSpeedSetting == MAX_SPEED_DEFAULT
        && trace == old(trace) + [Event(ST98(MAX_SPEED_DEFAULT), AE_OK), Event(SFNV(0, 0), AE_OK)]
      ensures var o := FanModel.Init(old(Model()), vendor, product, registered, ceilingFw, autoFw);
        Model() == o.state && ret == o.ret && trace == old(trace) + o.events
    {
      ghost var s, h := Model(), trace;
      InitKeepsInvariant(s, h, vendor, product, registered, ceilingFw, autoFw);
      if vendor != Platform.ASUS_VENDOR {
        return -Platform.ENODEV;
      }
      var gfx := Platform.HasGfxFan(product);
      if gfx.None? {
        return -Platform.ENODEV;
      }
      hasGfxFan := gfx.value;
      if registered != AE_OK {
        return registered;
      }
      ret := SetMaxSpeed(MAX_SPEED_DEFAULT, false, ceilingFw);
      if ret != AE_OK {
        return;
      }
      ret := SetAuto(autoFw);
      assert trace == h + FanModel.Init(s, vendor, product, registered, ceilingFw, autoFw).events;
      if ret != AE_OK {
        return;
      }
      ret := 0;
    }

    /**
     * `fan_exit`: `fan_set_auto()`, its status ignored; the ceiling is not
     * reset.
     */
    method Exit(fw: Reply)
      requires Valid()
      modifies this`trace, fanStates, fanManualMode
      ensures Valid()
      ensures !fanManualMode[0] && fanStates[0] == NO_SPEED
      ensures hasGfxFan ==> !fanManualMode[1] && fanStates[1] == NO_SPEED
      ensures maxFanSpeedSetting == old(maxFanSpeedSetting)
      ensures trace == old(trace) + [Event(SFNV(0, 0), fw.status)]
      ensures var x := FanModel.Exit(old(Model()), fw);
        Model() == x.state && trace == old(trace) + x.events
    {
      var ignored := SetAuto(fw);
    }
  }

  /** A client that relies on the contracts above alone. */
  method Scenario() {
    var ok := Reply(AE_OK, 0);
    var d := new FanController();
    var ret, speed := d.GetMaxSpeed();
    assert speed == 255;
    ret := d.SetMaxSpeed(200, false, ok);
    ret, speed := d.GetMaxSpeed();
    assert speed == 200;
    ret := d.SetMaxSpeed(0, true, ok);
    ret, speed := d.GetMaxSpeed();
    assert speed == 255;
    ret := d.SetCurState(0, 120, Reply(5, 0));
    assert ret == 5;
    ret, speed := d.GetCurState(0, 0, ok);
    assert ret == 0 && speed == 120;
    ret := d.SetCurState(0, AUTO_REQUEST, ok);
    ret, speed := d.GetCurState(0, 0, Reply(AE_OK, 29));
    assert speed == 120;
  }
}
