/**
 * The command layer of the temperature interface firmware
 * (interface_temperature/software/src/cmd/cmd.cpp). Unlike LightKit it keeps
 * its LED state in status registers: STATUS_APPLI (flags), STATUS_BRIGHTNESS
 * (level 0..255) and STATUS_ANIM.
 *
 * `brightness_set` (defined outside this model) is taken to store its
 * argument in STATUS_BRIGHTNESS; `status_led_turnoff` to switch the status
 * LEDs off.
 */
module TemperatureCmd {
  import opened Ints
  import opened StatusBits
  import opened Brightness

  class StatusRegisters {
    /** STATUS_APPLI_STATUS_LED, STATUS_APPLI_AUTOLUM, STATUS_APPLI_LED_IS_ON, STATUS_APPLI_DEMO_MODE. */
    const statusLedFlag: Flag
    const autoLumFlag: Flag
    const ledIsOnFlag: Flag
    const demoModeFlag: Flag

    /** STATUS_APPLI. */
    var statusAppli: bv8
    /** STATUS_BRIGHTNESS. */
    var statusBrightness: u8
    /** STATUS_ANIM. */
    var statusAnim: u8
    /** Whether the status LEDs are lit (what `status_led_turnoff` switches off). */
    var statusLedLit: bool

    constructor (statusLedFlag: Flag, autoLumFlag: Flag, ledIsOnFlag: Flag, demoModeFlag: Flag,
                 statusAppli: bv8, statusBrightness: u8, statusAnim: u8)
      ensures this.statusLedFlag == statusLedFlag && this.autoLumFlag == autoLumFlag
      ensures this.ledIsOnFlag == ledIsOnFlag && this.demoModeFlag == demoModeFlag
      ensures this.statusAppli == statusAppli && this.statusBrightness == statusBrightness
      ensures this.statusAnim == statusAnim && !statusLedLit
    {
      this.statusLedFlag := statusLedFlag;
      this.autoLumFlag := autoLumFlag;
      this.ledIsOnFlag := ledIsOnFlag;
      this.demoModeFlag := demoModeFlag;
      this.statusAppli := statusAppli;
      this.statusBrightness := statusBrightness;
      this.statusAnim := statusAnim;
      statusLedLit := false;
    }

    /**
     * `cmd_set_status_led`: a non-zero argument raises the STATUS_LED flag and
     * does nothing else; zero clears it and switches the LEDs off.
     */
    method SetStatusLed(isEnabled: u8)
      modifies this
      ensures IsSet(statusAppli, statusLedFlag) == (isEnabled != 0)
      ensures statusAppli & !(statusLedFlag as bv8) == old(statusAppli) & !(statusLedFlag as bv8)
      ensures statusLedLit == (old(statusLedLit) && isEnabled != 0)
      ensures statusBrightness == old(statusBrightness) && statusAnim == old(statusAnim)
    {
      if isEnabled != 0 {
        statusAppli := Set(statusAppli, statusLedFlag);
      } else {
        statusAppli := Unset(statusAppli, statusLedFlag);
        statusLedLit := false;
      }
    }

    /**
     * `cmd_set_brightness_auto`: the AUTOLUM flag afterwards equals the
     * argument, and every other bit of STATUS_APPLI is kept.
     */
    method SetBrightnessAuto(newValue: bool)
      modifies this
      ensures IsSet(statusAppli, autoLumFlag) == newValue
      ensures statusAppli & !(autoLumFlag as bv8) == old(statusAppli) & !(autoLumFlag as bv8)
      ensures statusBrightness == old(statusBrightness) && statusAnim == old(statusAnim)
      ensures statusLedLit == old(statusLedLit)
    {
      if newValue {
        statusAppli := Set(statusAppli, autoLumFlag);
      } else {
        statusAppli := Unset(statusAppli, autoLumFlag);
      }
    }

    /**
     * `cmd_set_brightness`: the test `newValue >= 0` can never fail on a
     * `uint8_t`, so every percentage 0..100 is accepted, stored as level
     * `v * 255 / 100` (in [0, 255]), and switches automatic brightness off;
     * above 100 nothing changes.
     */
    method SetBrightness(newValue: u8)
      modifies this
      ensures newValue <= 100 ==>
                statusBrightness == PercentToLevel(newValue)
                && !IsSet(statusAppli, autoLumFlag)
                && statusAppli & !(autoLumFlag as bv8) == old(statusAppli) & !(autoLumFlag as bv8)
      ensures newValue > 100 ==> statusBrightness == old(statusBrightness) && statusAppli == old(statusAppli)
      ensures statusAnim == old(statusAnim) && statusLedLit == old(statusLedLit)
    {
      if newValue >= 0 && newValue <= 100 {
        statusBrightness := PercentToLevel(newValue);
        SetBrightnessAuto(false);
      }
    }

    /** `cmd_get_brightness`: STATUS_BRIGHTNESS as a percentage 0..100. */
    method GetBrightness() returns (percent: u8)
      ensures percent == LevelToPercent(statusBrightness) && percent <= 100
    {
      percent := ToU16(statusBrightness * 100) / 255;
    }

    /** `cmd_get_state`: true exactly when the LED_IS_ON flag is raised. */
    method GetState() returns (isOn: bool)
      ensures isOn <==> statusAppli & ledIsOnFlag != 0
    {
      isOn := IsSet(statusAppli, ledIsOnFlag);
    }

    /** `cmd_get_demo_mode`: true exactly when the DEMO_MODE flag is raised. */
    method GetDemoMode() returns (isDemoMode: bool)
      ensures isDemoMode <==> statusAppli & demoModeFlag != 0
    {
      isDemoMode := IsSet(statusAppli, demoModeFlag);
    }

    /** `cmd_get_animation`: STATUS_ANIM. */
    method GetAnimation() returns (animID: u8)
      ensures animID == statusAnim
    {
      animID := statusAnim;
    }
  }
}
