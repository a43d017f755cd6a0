/**
 * The Wi-Fi settings record of the LightKit firmware
 * (lightkit/software/src/wifi/wifi.hpp): its range constants, the mode
 * enumeration with its name table, the `IP_TO_U32` byte packing and the
 * built-in defaults. The Wi-Fi state machine itself (wifi.cpp) is not part
 * of this model.
 */
module Wifi {
  import opened Wrappers
  import opened Ints
  import opened CStrings

  const WIFI_CHECK_PERIOD: nat := 1000
  const WIFI_SSID_MAX_LEN: nat := 30
  const WIFI_PASSWORD_MAX_LEN: nat := 30
  const WIFI_DELAYED_CONFIG_MS: nat := 100
  const WIFI_SCAN_MIN_INTERVAL_MS: nat := 24 * 60 * 60 * 1000
  const WIFI_MAX_CO_MIN: nat := 1
  const WIFI_MAX_CO_MAX: nat := 3
  const WIFI_CHANNEL_MIN: nat := 1
  const WIFI_CHANNEL_MAX: nat := 13
  const WIFI_DELAY_AP_FALLBACK_MIN: nat := 5000

  /** WIFI_MODE_E: MODE_NONE = 0, MODE_AP, MODE_CLIENT, MODE_SCAN, MODE_MAX. */
  datatype WifiMode = ModeNone | ModeAp | ModeClient | ModeScan | ModeMax

  /** The value of each enumerator. */
  function Ordinal(m: WifiMode): (n: nat)
    ensures n <= 4
  {
    match m
    case ModeNone => 0
    case ModeAp => 1
    case ModeClient => 2
    case ModeScan => 3
    case ModeMax => 4
  }

  /** The enumerator with value `n`, if there is one. */
  function FromOrdinal(n: int): (m: Option<WifiMode>)
    ensures m.Some? <==> 0 <= n <= 4
  {
    if n == 0 then Some(ModeNone)
    else if n == 1 then Some(ModeAp)
    else if n == 2 then Some(ModeClient)
    else if n == 3 then Some(ModeScan)
    else if n == 4 then Some(ModeMax)
    else None
  }

  /** Enumerator and value convert into each other in both directions. */
  lemma OrdinalRoundTrip(m: WifiMode, n: int)
    ensures FromOrdinal(Ordinal(m)) == Some(m)
    ensures 0 <= n <= 4 ==> Ordinal(FromOrdinal(n).value) == n
  {
  }

  /** `outOfRangeStr`. */
  const OUT_OF_RANGE_STR: string := "<unknown>"

  /** `wifiModeStr`: rows of a `char[][7]` array, indexed by the mode's value. */
  const WifiModeStr: seq<string> := ["NONE", "AP", "CLIENT", "SCAN", "MAX"]

  /**
   * The name printed for a mode value, as this model reads the table: the
   * row of the enumerator with that value, and `<unknown>` exactly when no
   * enumerator has it. Every name fits a 7-byte row with its terminator.
   */
  function ModeName(n: int): (s: string)
    ensures s == OUT_OF_RANGE_STR <==> FromOrdinal(n).None?
    ensures FromOrdinal(n).Some? ==> s == WifiModeStr[Ordinal(FromOrdinal(n).value)] && |s| < 7
  {
    if 0 <= n < |WifiModeStr| then WifiModeStr[n] else OUT_OF_RANGE_STR
  }

  /** Different enumerators print different names. */
  lemma ModeNamesDistinct(m1: WifiMode, m2: WifiMode)
    ensures m1 != m2 <==> ModeName(Ordinal(m1)) != ModeName(Ordinal(m2))
  {
  }

  /**
   * The name table has exactly one row per enumerator, and every name with
   * its terminator fits in a 7-byte row.
   */
  lemma ModeTableFits()
    ensures |WifiModeStr| == Ordinal(ModeMax) + 1
    ensures forall i :: 0 <= i < |WifiModeStr| ==> |WifiModeStr[i]| + 1 <= 7 && NUL !in WifiModeStr[i]
  {
  }

  /** `IP_TO_U32(a, b, c, d)`: `a` in the least significant byte, `d` in the most significant. */
  function IpToU32(a: bv8, b: bv8, c: bv8, d: bv8): (ip: bv32)
    ensures ip == (d as bv32) * 0x100_0000 + (c as bv32) * 0x1_0000 + (b as bv32) * 0x100 + (a as bv32)
  {
    ((d as bv32) << 24) | ((c as bv32) << 16) | ((b as bv32) << 8) | (a as bv32)
  }

  /** The four bytes of an address word, least significant first. */
  function Octets(ip: bv32): (o: (bv8, bv8, bv8, bv8))
  {
    ((ip & 0xFF) as bv8, ((ip >> 8) & 0xFF) as bv8, ((ip >> 16) & 0xFF) as bv8, (ip >> 24) as bv8)
  }

  /** Packing four bytes and splitting the word again gives the bytes back, and conversely. */
  lemma IpPackingRoundTrip(a: bv8, b: bv8, c: bv8, d: bv8, ip: bv32)
    ensures Octets(IpToU32(a, b, c, d)) == (a, b, c, d)
    ensures IpToU32(Octets(ip).0, Octets(ip).1, Octets(ip).2, Octets(ip).3) == ip
  {
  }

  const WIFI_DEFAULT_MODE: WifiMode := ModeAp
  const WIFI_DEFAULT_AP_SSID: string := "LightKit_SSID"
  const WIFI_DEFAULT_AP_PASSWORD: string := "bravo42beta"
  const WIFI_DEFAULT_AP_CHANNEL: u8 := 1
  const WIFI_DEFAULT_AP_MAXCO: u8 := 1
  const WIFI_DEFAULT_AP_IP: bv32 := IpToU32(192, 168, 4, 1)
  const WIFI_DEFAULT_AP_GATEWAY: bv32 := IpToU32(192, 168, 4, 254)
  const WIFI_DEFAULT_AP_SUBNET: bv32 := IpToU32(255, 255, 255, 0)
  /** P_WIFI_CLIENT_SSID and P_WIFI_CLIENT_PWD, empty in the private-settings template. */
  const WIFI_DEFAULT_CLIENT_SSID: string := ""
  const WIFI_DEFAULT_CLIENT_PASSWORD: string := ""
  const WIFI_DEFAULT_DELAY_AP_FALLBACK: u32 := 20000

  /** The default addresses pack to these words. */
  lemma DefaultAddressWords()
    ensures WIFI_DEFAULT_AP_IP == 0x0104_A8C0
    ensures WIFI_DEFAULT_AP_GATEWAY == 0xFE04_A8C0
    ensures WIFI_DEFAULT_AP_SUBNET == 0x00FF_FFFF
  {
  }

  /** The `ap` part of `wifi_handle_t`; `ssid` and `password` are 30-byte buffers. */
  datatype ApSettings = ApSettings(
    ssid: seq<char>,
    password: seq<char>,
    channel: u8,
    maxConnection: u8,
    isHidden: bool,      // a one-bit field
    ip: bv32,
    gateway: bv32,
    subnet: bv32)

  /** The `client` part of `wifi_handle_t`. */
  datatype ClientSettings = ClientSettings(
    ssid: seq<char>,
    password: seq<char>,
    delayBeforeAPFallbackMs: u32,
    lastIp: bv32)

  /** `wifi_handle_t`: the persisted Wi-Fi settings. */
  datatype WifiHandle = WifiHandle(
    mode: WifiMode,        // the mode in use
    userMode: WifiMode,    // the mode the user configured
    forcedMode: WifiMode,  // the mode the module forces for the next boot
    ap: ApSettings,
    client: ClientSettings)

  /** `wifi_fast_reconnect_t`. */
  datatype WifiFastReconnect = WifiFastReconnect(isValid: u8, mode: WifiMode, channel: u8, bssid: seq<u8>)

  /** Every string buffer of the record has its declared size. */
  predicate BuffersSized(h: WifiHandle)
  {
    |h.ap.ssid| == WIFI_SSID_MAX_LEN && |h.ap.password| == WIFI_PASSWORD_MAX_LEN
    && |h.client.ssid| == WIFI_SSID_MAX_LEN && |h.client.password| == WIFI_PASSWORD_MAX_LEN
  }

  /** Every string buffer holds a terminator, so it reads as a C string inside its buffer. */
  predicate Terminated(h: WifiHandle)
  {
    NUL in h.ap.ssid && NUL in h.ap.password && NUL in h.client.ssid && NUL in h.client.password
  }

  /** The documented ranges: channel, maximum connections, AP fallback delay. */
  predicate InRange(h: WifiHandle)
  {
    BuffersSized(h)
    && WIFI_CHANNEL_MIN <= h.ap.channel <= WIFI_CHANNEL_MAX
    && WIFI_MAX_CO_MIN <= h.ap.maxConnection <= WIFI_MAX_CO_MAX
    && h.client.delayBeforeAPFallbackMs >= WIFI_DELAY_AP_FALLBACK_MIN
  }

  /**
   * A record filled from the WIFI_DEFAULT_* values, each string copied into
   * its buffer. The defaults name no value for the current mode, the forced
   * mode, the hidden-SSID bit or the last client address; those are
   * parameters here.
   */
  function DefaultHandle(mode: WifiMode, forcedMode: WifiMode, isHidden: bool, lastIp: bv32): (h: WifiHandle)
    ensures h.userMode == WIFI_DEFAULT_MODE
    ensures Octets(h.ap.ip) == (192, 168, 4, 1) && Octets(h.ap.subnet) == (255, 255, 255, 0)
  {
    WifiHandle(mode, WIFI_DEFAULT_MODE, forcedMode,
      ApSettings(Strncpy(WIFI_DEFAULT_AP_SSID, WIFI_SSID_MAX_LEN), Strncpy(WIFI_DEFAULT_AP_PASSWORD, WIFI_PASSWORD_MAX_LEN),
                 WIFI_DEFAULT_AP_CHANNEL, WIFI_DEFAULT_AP_MAXCO, isHidden,
                 WIFI_DEFAULT_AP_IP, WIFI_DEFAULT_AP_GATEWAY, WIFI_DEFAULT_AP_SUBNET),
      ClientSettings(Strncpy(WIFI_DEFAULT_CLIENT_SSID, WIFI_SSID_MAX_LEN), Strncpy(WIFI_DEFAULT_CLIENT_PASSWORD, WIFI_PASSWORD_MAX_LEN),
                     WIFI_DEFAULT_DELAY_AP_FALLBACK, lastIp))
  }

  /**
   * The defaults lie within the documented ranges, every default string fits
   * its buffer with its terminator, and each reads back as the default.
   */
  lemma DefaultsInRange(mode: WifiMode, forcedMode: WifiMode, isHidden: bool, lastIp: bv32)
    ensures var h := DefaultHandle(mode, forcedMode, isHidden, lastIp);
      InRange(h) && Terminated(h)
      && CStr(h.ap.ssid) == WIFI_DEFAULT_AP_SSID && CStr(h.ap.password) == WIFI_DEFAULT_AP_PASSWORD
      && CStr(h.client.ssid) == WIFI_DEFAULT_CLIENT_SSID && CStr(h.client.password) == WIFI_DEFAULT_CLIENT_PASSWORD
  {
    DefaultStringFits(WIFI_DEFAULT_AP_SSID);
    DefaultStringFits(WIFI_DEFAULT_AP_PASSWORD);
    DefaultStringFits(WIFI_DEFAULT_CLIENT_SSID);
    DefaultStringFits(WIFI_DEFAULT_CLIENT_PASSWORD);
  }

  /** Each default string, copied into its 30-byte buffer, is terminated and reads back whole. */
  lemma DefaultStringFits(s: string)
    requires s in {WIFI_DEFAULT_AP_SSID, WIFI_DEFAULT_AP_PASSWORD, WIFI_DEFAULT_CLIENT_SSID, WIFI_DEFAULT_CLIENT_PASSWORD}
    ensures NUL in Strncpy(s, WIFI_SSID_MAX_LEN) && CStr(Strncpy(s, WIFI_SSID_MAX_LEN)) == s
  {
    if s == WIFI_DEFAULT_AP_SSID {
      DefaultStringCopy(WIFI_DEFAULT_AP_SSID, WIFI_SSID_MAX_LEN);
    } else if s == WIFI_DEFAULT_AP_PASSWORD {
      DefaultStringCopy(WIFI_DEFAULT_AP_PASSWORD, WIFI_SSID_MAX_LEN);
    } else {
      DefaultStringCopy(s, WIFI_SSID_MAX_LEN);
    }
  }

  /** A NUL-free string shorter than its buffer is copied terminated and reads back whole. */
  lemma DefaultStringCopy(s: string, n: nat)
    requires NUL !in s && |s| < n
    ensures NUL in Strncpy(s, n) && CStr(Strncpy(s, n)) == s
  {
    CStrOfNulFree(s);
    StrncpyReadsBack(s, n);
  }
}
