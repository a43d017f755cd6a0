/**
 * The command layer of the LightKit firmware (lightkit/software/src/cmd/cmd.cpp):
 * the setters and getters the serial/telnet terminal and the web server call
 * to change the persisted settings (`flashSettings`) and the application
 * status byte (STATUS_APPLI).
 *
 * The LED-strip driver calls (`stripled_brightness_set`, `stripled_nb_led_set`,
 * `stripled_color_set`, `stripled_set_state`, `stripled_set_demo_mode`,
 * `stripled_set_animation`) live in stripled.cpp, which is not part of this
 * model: each is taken to store its argument in the matching field of
 * `flashSettings.stripledParams` and, for the animation, to report success.
 * `status_led_turnoff` is taken to switch the status LED off, and
 * `flash_write` (persisting the settings) is left out.
 */
module LightkitCmd {
  import opened Ints
  import opened CStrings
  import opened StatusBits
  import opened Brightness

  /** MODULE_NAME_SIZE_MAX: size of the module-name buffer, terminator included. */
  const MODULE_NAME_SIZE_MAX: nat := 16

  /** `flashSettings.stripledParams`: the persisted LED-strip parameters. */
  datatype StripParams = StripParams(
    brightness: u8,    // level 0..255
    nbLed: u8,
    color: u32,        // 0xAARRGGBB
    isOn: bool,
    isInDemoMode: bool,
    animID: u8)

  /** A colour is black when its low 24 bits (`newValue & 0xFFFFFF`) are all zero. */
  predicate IsBlack(c: u32)
  {
    c % 0x100_0000 == 0
  }

  class Lightkit {
    /** STRIPLED_MAX_NB_PIXELS, declared in stripled.hpp. */
    const maxNbPixels: nat
    /** STATUS_APPLI_STATUS_LED and STATUS_APPLI_AUTOLUM. */
    const statusLedFlag: Flag
    const autoLumFlag: Flag

    /** `flashSettings.moduleName`, a `char[MODULE_NAME_SIZE_MAX]`. */
    var moduleName: array<char>
    var strip: StripParams
    /** STATUS_APPLI. */
    var statusAppli: bv8
    /** Whether the status LED is lit (what `status_led_turnoff` switches off). */
    var statusLedLit: bool

    /** The module-name buffer has its fixed size and is always terminated. */
    ghost predicate Valid()
      reads this, moduleName
    {
      moduleName.Length == MODULE_NAME_SIZE_MAX && moduleName[MODULE_NAME_SIZE_MAX - 1] == NUL
    }

    /** The name `cmd_get_module_name` returns: `String(flashSettings.moduleName)`. */
    function ModuleName(): (name: string)
      requires Valid()
      reads this, moduleName
      ensures |name| < MODULE_NAME_SIZE_MAX && moduleName[|name|] == NUL
      ensures NUL !in name && name == moduleName[..|name|]
    {
      CStr(moduleName[..])
    }

    constructor (maxNbPixels: nat, statusLedFlag: Flag, autoLumFlag: Flag, strip: StripParams, statusAppli: bv8)
      ensures Valid() && fresh(moduleName)
      ensures this.maxNbPixels == maxNbPixels
      ensures this.statusLedFlag == statusLedFlag && this.autoLumFlag == autoLumFlag
      ensures this.strip == strip && this.statusAppli == statusAppli && !statusLedLit
      ensures ModuleName() == []
    {
      this.maxNbPixels := maxNbPixels;
      this.statusLedFlag := statusLedFlag;
      this.autoLumFlag := autoLumFlag;
      this.strip := strip;
      this.statusAppli := statusAppli;
      statusLedLit := false;
      moduleName := new char[MODULE_NAME_SIZE_MAX](_ => NUL);
    }

    /**
     * `cmd_set_module_name`: `strncpy` the new name into the 16-byte buffer,
     * then force the last byte to NUL. The stored name is always terminated
     * and reads back as the new name cut to 15 characters; the result is 0.
     */
    method SetModuleName(newName: string) returns (ret: int)
      requires Valid()
      modifies moduleName
      ensures Valid() && ret == 0
      ensures moduleName[..] == Terminate(Strncpy(newName, MODULE_NAME_SIZE_MAX))
      ensures moduleName[MODULE_NAME_SIZE_MAX - 1] == NUL
      ensures ModuleName() == Take(CStr(newName), MODULE_NAME_SIZE_MAX - 1)
    {
      // strncpy(flashSettings.moduleName, newName.c_str(), MODULE_NAME_SIZE_MAX)
      var src := CStr(newName);
      var i := 0;
      while i < MODULE_NAME_SIZE_MAX
        invariant 0 <= i <= MODULE_NAME_SIZE_MAX
        invariant moduleName[..i] == Strncpy(newName, MODULE_NAME_SIZE_MAX)[..i]
      {
        moduleName[i] := if i < |src| then src[i] else NUL;
        i := i + 1;
      }
      // Always terminate the string
      moduleName[MODULE_NAME_SIZE_MAX - 1] := NUL;
      assert moduleName[..] == Terminate(Strncpy(newName, MODULE_NAME_SIZE_MAX));
      TerminatedCopyReadsBack(newName, MODULE_NAME_SIZE_MAX);
      ret := 0;
    }

    /** `cmd_get_module_name`. */
    method GetModuleName() returns (name: string)
      requires Valid()
      ensures name == ModuleName()
      ensures |name| < MODULE_NAME_SIZE_MAX
    {
      name := CStr(moduleName[..]);
    }

    /**
     * `cmd_set_status_led`: a non-zero argument raises the STATUS_LED flag;
     * zero clears it and switches the status LED off. Nothing else changes.
     */
    method SetStatusLed(isEnabled: u8)
      requires Valid()
      modifies this
      ensures Valid()
      ensures statusAppli == if isEnabled != 0 then Set(old(statusAppli), statusLedFlag)
                                               else Unset(old(statusAppli), statusLedFlag)
      ensures statusLedLit == (old(statusLedLit) && isEnabled != 0)
      ensures strip == old(strip) && moduleName == old(moduleName)
    {
      if isEnabled != 0 {
        statusAppli := Set(statusAppli, statusLedFlag);
      } else {
        statusAppli := Unset(statusAppli, statusLedFlag);
        statusLedLit := false;
      }
    }

    /**
     * `cmd_set_brightness_auto`: the AUTOLUM flag afterwards equals the
     * argument, and every other bit of STATUS_APPLI is kept.
     */
    method SetBrightnessAuto(newValue: bool)
      requires Valid()
      modifies this
      ensures Valid()
      ensures IsSet(statusAppli, autoLumFlag) == newValue
      ensures statusAppli & !(autoLumFlag as bv8) == old(statusAppli) & !(autoLumFlag as bv8)
      ensures strip == old(strip) && statusLedLit == old(statusLedLit) && moduleName == old(moduleName)
    {
      if newValue {
        statusAppli := Set(statusAppli, autoLumFlag);
      } else {
        statusAppli := Unset(statusAppli, autoLumFlag);
      }
    }

    /** Whether `cmd_set_brightness` acts on `v`: only 1..100. */
    static predicate BrightnessAccepted(v: u8)
    {
      v > 0 && v <= 100
    }

    /**
     * `cmd_set_brightness`: a percentage in 1..100 is stored as level
     * `v * 255 / 100` (in [2, 255]) and switches automatic brightness off;
     * any other value changes nothing.
     */
    method SetBrightness(newValue: u8)
      requires Valid()
      modifies this
      ensures Valid()
      ensures BrightnessAccepted(newValue) ==>
                strip == old(strip).(brightness := PercentToLevel(newValue))
                && 2 <= strip.brightness
                && !IsSet(statusAppli, autoLumFlag)
                && statusAppli & !(autoLumFlag as bv8) == old(statusAppli) & !(autoLumFlag as bv8)
      ensures !BrightnessAccepted(newValue) ==> strip == old(strip) && statusAppli == old(statusAppli)
      ensures statusLedLit == old(statusLedLit) && moduleName == old(moduleName)
    {
      if newValue > 0 && newValue <= 100 {
        LevelRange(newValue);
        strip := strip.(brightness := PercentToLevel(newValue));
        SetBrightnessAuto(false);
      }
    }

    /** `cmd_get_brightness`: the stored level as a percentage 0..100. */
    method GetBrightness() returns (percent: u8)
      ensures percent == LevelToPercent(strip.brightness) && percent <= 100
    {
      percent := ToU16(strip.brightness * 100) / 255;
    }

    /**
     * `cmd_set_nb_led`: a count in 1..STRIPLED_MAX_NB_PIXELS is stored; any
     * other count changes nothing.
     */
    method SetNbLed(newValue: u8)
      requires Valid()
      modifies this
      ensures Valid()
      ensures 1 <= newValue <= maxNbPixels ==> strip == old(strip).(nbLed := newValue)
      ensures !(1 <= newValue <= maxNbPixels) ==> strip == old(strip)
      ensures statusAppli == old(statusAppli) && statusLedLit == old(statusLedLit) && moduleName == old(moduleName)
    {
      if newValue >= 1 && newValue <= maxNbPixels {
        strip := strip.(nbLed := newValue);
      }
    }

    /** `cmd_get_nb_led`. */
    method GetNbLed() returns (nbLed: u8)
      ensures nbLed == strip.nbLed
    {
      nbLed := strip.nbLed;
    }

    /**
     * `cmd_set_color`: black (zero low 24 bits) is refused and changes
     * nothing; any other colour is stored whole and switches the strip on,
     * out of demo mode, onto animation 0 (static).
     */
    method SetColor(newValue: u32)
      requires Valid()
      modifies this
      ensures Valid()
      ensures IsBlack(newValue) ==> strip == old(strip)
      ensures !IsBlack(newValue) ==>
                strip == old(strip).(color := newValue, isOn := true, isInDemoMode := false, animID := 0)
      ensures statusAppli == old(statusAppli) && statusLedLit == old(statusLedLit) && moduleName == old(moduleName)
    {
      // We do not accept black color
      if newValue % 0x100_0000 > 0 {
        strip := strip.(color := newValue);
        var _ := SetState(true);
        var _ := SetDemoMode(false);
        var _ := SetAnimation(0);
      }
    }

    /** `cmd_get_color`. */
    method GetColor() returns (color: u32)
      ensures color == strip.color
    {
      color := strip.color;
    }

    /** `cmd_get_state`: whether the strip is on. */
    method GetState() returns (isOn: bool)
      ensures isOn == strip.isOn
    {
      isOn := strip.isOn;
    }

    /** `cmd_set_state`: switch the strip on or off; always 0. */
    method SetState(state: bool) returns (ret: int)
      requires Valid()
      modifies this
      ensures Valid()
      ensures ret == 0 && strip == old(strip).(isOn := state)
      ensures statusAppli == old(statusAppli) && statusLedLit == old(statusLedLit) && moduleName == old(moduleName)
    {
      strip := strip.(isOn := state);
      ret := 0;
    }

    /** `cmd_get_demo_mode`. */
    method GetDemoMode() returns (isInDemoMode: bool)
      ensures isInDemoMode == strip.isInDemoMode
    {
      isInDemoMode := strip.isInDemoMode;
    }

    /** `cmd_set_demo_mode`: always 0. */
    method SetDemoMode(isInDemoMode: bool) returns (ret: int)
      requires Valid()
      modifies this
      ensures Valid()
      ensures ret == 0 && strip == old(strip).(isInDemoMode := isInDemoMode)
      ensures statusAppli == old(statusAppli) && statusLedLit == old(statusLedLit) && moduleName == old(moduleName)
    {
      strip := strip.(isInDemoMode := isInDemoMode);
      ret := 0;
    }

    /** `cmd_get_animation`. */
    method GetAnimation() returns (animID: u8)
      ensures animID == strip.animID
    {
      animID := strip.animID;
    }

    /** `cmd_set_animation`: forwards to the strip driver and returns its result, taken here to be 0. */
    method SetAnimation(animID: u8) returns (ret: int)
      requires Valid()
      modifies this
      ensures Valid()
      ensures ret == 0 && strip == old(strip).(animID := animID)
      ensures statusAppli == old(statusAppli) && statusLedLit == old(statusLedLit) && moduleName == old(moduleName)
    {
      strip := strip.(animID := animID);
      ret := 0;
    }
  }
}
