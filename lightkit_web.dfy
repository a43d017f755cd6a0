/**
 * The HTTP handlers of the LightKit web server
 * (lightkit/software/src/web/web_server.cpp): the content type and file
 * lookup for static files, the colour encoder and parser, the `v`-argument
 * rule of the set handlers, the Wi-Fi settings copy and the scan reply.
 *
 * A request is its optional `v` argument and whether a `download` argument
 * is present; a reply is its body (every reply here has status 200 and type
 * `text/plain`). Argument text is read as `String::toInt` (decimal `strtol`)
 * and, for the colour, `strtol` in base 16. JSON and dotted-address parsing
 * are library code: the Wi-Fi handler receives the parsed document.
 */
module LightkitWeb {
  import opened Wrappers
  import opened Ints
  import opened CStrings
  import opened NumberText
  import opened Brightness
  import opened StatusBits
  import MimeTypes
  import opened LightkitCmd
  import opened Wifi

  /** The parts of a request the handlers look at. */
  datatype Request = Request(v: Option<string>, download: bool)

  /** The body `handle_bad_parameter` sends. */
  const BAD_PARAMETER: string := "Bad parameter"

  /** `getContentType`, the if-chain as written. */
  function ContentType(filename: string, download: bool): (r: string)
    ensures r == MimeTypes.OCTET_STREAM <==> download
  {
    if download then "application/octet-stream"
    else if EndsWith(filename, ".htm") then "text/html"
    else if EndsWith(filename, ".html") then "text/html"
    else if EndsWith(filename, ".css") then "text/css"
    else if EndsWith(filename, ".js") then "application/javascript"
    else if EndsWith(filename, ".png") then "image/png"
    else if EndsWith(filename, ".gif") then "image/gif"
    else if EndsWith(filename, ".jpg") then "image/jpeg"
    else if EndsWith(filename, ".ico") then "image/x-icon"
    else if EndsWith(filename, ".xml") then "text/xml"
    else if EndsWith(filename, ".pdf") then "application/x-pdf"
    else if EndsWith(filename, ".zip") then "application/x-zip"
    else if EndsWith(filename, ".gz") then "application/x-gzip"
    else "text/plain"
  }

  /** The if-chain gives the type the suffix table calls for, for every name. */
  lemma ContentTypeFollowsTable(filename: string, download: bool)
    ensures ContentType(filename, download) == MimeTypes.TypeFor(filename, download)
  {
    MimeTypes.Step(filename, 0); MimeTypes.Step(filename, 1); MimeTypes.Step(filename, 2);
    MimeTypes.Step(filename, 3); MimeTypes.Step(filename, 4); MimeTypes.Step(filename, 5);
    MimeTypes.Step(filename, 6); MimeTypes.Step(filename, 7); MimeTypes.Step(filename, 8);
    MimeTypes.Step(filename, 9); MimeTypes.Step(filename, 10); MimeTypes.Step(filename, 11);
    MimeTypes.Step(filename, 12);
  }

  /** The path `handle_file_read` looks up: a directory path gets `index.html` appended. */
  function IndexRewrite(path: string): (p: string)
    ensures |p| >= |path| && p[..|path|] == path
    ensures !EndsWith(p, "/")
    ensures EndsWith(path, "/") ==> p == path + "index.html"
    ensures !EndsWith(path, "/") ==> p == path
  {
    if EndsWith(path, "/") then
      var p := path + "index.html";
      assert p[|p| - 1] == 'l';
      p
    else path
  }

  /** Rewriting an already rewritten path changes nothing. */
  lemma IndexRewriteIdempotent(path: string)
    ensures IndexRewrite(IndexRewrite(path)) == IndexRewrite(path)
  {
  }

  /** What `handle_file_read` streams: the file at `path` with its content type. */
  datatype StreamedFile = StreamedFile(path: string, contentType: string)

  /**
   * `handle_file_read`, with the file system given as the set of existing
   * paths: a file is streamed exactly when the rewritten path exists, and it
   * is that path, served with the type its name calls for.
   */
  function FileRead(path: string, download: bool, files: set<string>): (r: Option<StreamedFile>)
    ensures r.Some? <==> IndexRewrite(path) in files
    ensures r.Some? ==> r.value.path == IndexRewrite(path) && !EndsWith(r.value.path, "/")
    ensures r.Some? ==> r.value.contentType == MimeTypes.TypeFor(r.value.path, download)
  {
    var p := IndexRewrite(path);
    var contentType := ContentType(p, download);
    ContentTypeFollowsTable(p, download);
    if p in files then Some(StreamedFile(p, contentType)) else None
  }

  /** The body of a boolean getter: `String(b ? 1 : 0)`. */
  function BoolReply(b: bool): (r: string)
    ensures r == Ultoa(if b then 1 else 0, 10)
    ensures r == "1" <==> b
  {
    if b then "1" else "0"
  }

  // ---------------------------------------------------------------------
  // Colour: `handle_get_color` and `handle_set_color`
  // ---------------------------------------------------------------------

  /** `s` with `0` prepended until it is `n` characters long. */
  function PadLeft(s: string, n: nat): (r: string)
    ensures |r| == if |s| < n then n else |s|
    ensures r[|r| - |s|..] == s
    ensures forall i :: 0 <= i < |r| - |s| ==> r[i] == '0'
    decreases n - |s|
  {
    if |s| < n then
      var t := "0" + s;
      var r := PadLeft(t, n);
      assert r[|r| - |t|] == t[0] == '0';
      assert r[|r| - |s|..] == t[1..] == s;
      assert forall i :: 0 <= i < |r| - |s| ==> r[i] == '0' by {
        forall i | 0 <= i < |r| - |s| ensures r[i] == '0' {
          if i < |r| - |t| {
          } else {
            assert i == |r| - |t|;
          }
        }
      }
      r
    else s
  }

  /** Leading zeros keep a run of digits a run of digits of the same value. */
  lemma {:induction false} PadLeftValue(s: string, n: nat, base: Base)
    requires AllDigits(s, base)
    ensures AllDigits(PadLeft(s, n), base)
    ensures DigitsValue(PadLeft(s, n), base) == DigitsValue(s, base)
    decreases n - |s|
  {
    if |s| < n {
      assert AllDigits("0" + s, base);
      LeadingZero(s, base);
      PadLeftValue("0" + s, n, base);
    }
  }

  /** The reply of `handle_get_color`: the colour without its alpha byte, as six hex digits. */
  function ColorHex(color: u32): (hex: string)
    ensures |hex| == 6 && AllDigits(hex, 16)
    ensures DigitsValue(hex, 16) == color % 0x100_0000
    ensures forall i :: 0 <= i < |hex| ==> '0' <= hex[i] <= '9' || 'a' <= hex[i] <= 'f'
  {
    var rgb := color % 0x100_0000;
    assert Pow(16, 6) == 0x100_0000;
    UltoaLength(rgb, 16, 6);
    UltoaReadsBack(rgb, 16);
    PadLeftValue(Ultoa(rgb, 16), 6, 16);
    PaddedLowerHex(Ultoa(rgb, 16), 6);
    PadLeft(Ultoa(rgb, 16), 6)
  }

  /** Zero padding keeps a run of lower-case hex digits lower-case. */
  lemma PaddedLowerHex(s: string, n: nat)
    requires AllDigits(s, 16) && NoUpperCase(s)
    ensures forall i :: 0 <= i < |PadLeft(s, n)| ==> '0' <= PadLeft(s, n)[i] <= '9' || 'a' <= PadLeft(s, n)[i] <= 'f'
  {
    var r := PadLeft(s, n);
    forall i | 0 <= i < |r| ensures '0' <= r[i] <= '9' || 'a' <= r[i] <= 'f' {
      if i >= |r| - |s| {
        assert r[i] == r[|r| - |s|..][i - (|r| - |s|)];
        assert IsDigit(s[i - (|r| - |s|)], 16);
      }
    }
  }

  /**
   * `handle_get_color`: drop the alpha byte, write the rest in hex and add
   * leading zeros up to six digits.
   */
  method ColorReply(color: u32) returns (hexColor: string)
    ensures hexColor == ColorHex(color)
    ensures |hexColor| == 6 && DigitsValue(hexColor, 16) == color % 0x100_0000
  {
    // Remove alpha channel
    var rgb := color % 0x100_0000;
    hexColor := Ultoa(rgb, 16);
    // Add leading zeros
    while |hexColor| < 6
      invariant PadLeft(hexColor, 6) == ColorHex(color)
      decreases 6 - |hexColor|
    {
      hexColor := "0" + hexColor;
    }
  }

  /** `color |= 0xFF000000`: the alpha byte raised to 0xFF, the colour bytes kept. */
  function WithOpaqueAlpha(c: u32): (r: u32)
    ensures r / 0x100_0000 == 0xFF
    ensures r % 0x100_0000 == c % 0x100_0000
  {
    c % 0x100_0000 + 0xFF00_0000
  }

  /** The colour `handle_set_color` passes on for argument text `v`. */
  function ParseColorArg(v: string): (color: u32)
    ensures color / 0x100_0000 == 0xFF
  {
    WithOpaqueAlpha(ToU32(Strtol(v, 16)))
  }

  /** Two colours with the same colour bytes become the same opaque colour. */
  lemma SameColorBytes(a: u32, b: u32)
    requires a % 0x100_0000 == b % 0x100_0000
    ensures WithOpaqueAlpha(a) == WithOpaqueAlpha(b)
  {
  }

  /** A run of one to six hex digits is parsed to its value, made opaque. */
  lemma ParseShortHex(v: string)
    requires 1 <= |v| <= 6 && AllDigits(v, 16)
    ensures DigitsValue(v, 16) < 0x100_0000 && ParseColorArg(v) == WithOpaqueAlpha(DigitsValue(v, 16))
  {
    ShortHexParses(v);
  }

  /** Colour bytes are their own remainder. */
  lemma ColorBytesKept(x: int)
    requires 0 <= x < 0x100_0000
    ensures x % 0x100_0000 == x
  {
  }

  /**
   * The colour reply read back by `handle_set_color` gives the same colour
   * bytes, with an opaque alpha byte.
   */
  lemma ColorRoundTrip(color: u32)
    ensures ParseColorArg(ColorHex(color)) == WithOpaqueAlpha(color)
  {
    var rgb := color % 0x100_0000;
    ParseShortHex(ColorHex(color));
    ColorBytesKept(rgb);
    SameColorBytes(rgb, color);
  }

  /**
   * Conversely, a colour argument of one to six hex digits comes back in the
   * colour reply with the same value, and it is black, which the setter
   * refuses, exactly when that value is 0.
   */
  lemma ColorArgRoundTrip(v: string)
    requires 1 <= |v| <= 6 && AllDigits(v, 16)
    ensures DigitsValue(ColorHex(ParseColorArg(v)), 16) == DigitsValue(v, 16)
    ensures IsBlack(ParseColorArg(v)) <==> DigitsValue(v, 16) == 0
  {
    ParseShortHex(v);
    ColorBytesKept(DigitsValue(v, 16));
  }

  // ---------------------------------------------------------------------
  // Set handlers. Without a `v` argument each replies "Bad parameter" and
  // calls no setter.
  // ---------------------------------------------------------------------

  /** `handle_set_animation`: `toInt` kept in a `uint16_t`, passed on as a `uint8_t`; empty reply. */
  method HandleSetAnimation(k: Lightkit, req: Request) returns (reply: string)
    requires k.Valid()
    modifies k
    ensures k.Valid() && k.moduleName == old(k.moduleName)
    ensures k.statusAppli == old(k.statusAppli) && k.statusLedLit == old(k.statusLedLit)
    ensures req.v.None? ==> reply == BAD_PARAMETER && k.strip == old(k.strip)
    ensures req.v.Some? ==> reply == "" && k.strip == old(k.strip).(animID := ToU8(ToInt(req.v.value)))
  {
    if req.v.None? {
      reply := BAD_PARAMETER;
      return;
    }
    var animID: u16 := ToU16(ToInt(req.v.value));
    NarrowTwice(ToInt(req.v.value));
    var _ := k.SetAnimation(ToU8(animID));
    reply := "";
  }

  /** `handle_set_demo_mode`: demo mode on exactly when `v` reads as 1; replies the new mode. */
  method HandleSetDemoMode(k: Lightkit, req: Request) returns (reply: string)
    requires k.Valid()
    modifies k
    ensures k.Valid() && k.moduleName == old(k.moduleName)
    ensures k.statusAppli == old(k.statusAppli) && k.statusLedLit == old(k.statusLedLit)
    ensures req.v.None? ==> reply == BAD_PARAMETER && k.strip == old(k.strip)
    ensures req.v.Some? ==> k.strip == old(k.strip).(isInDemoMode := ToInt(req.v.value) == 1)
                            && reply == BoolReply(ToInt(req.v.value) == 1)
  {
    if req.v.None? {
      reply := BAD_PARAMETER;
      return;
    }
    var _ := k.SetDemoMode(ToInt(req.v.value) == 1);
    var isInDemoMode := k.GetDemoMode();
    reply := BoolReply(isInDemoMode);
  }

  /** `handle_set_state`: the strip on exactly when `v` reads as 1; replies the new state. */
  method HandleSetState(k: Lightkit, req: Request) returns (reply: string)
    requires k.Valid()
    modifies k
    ensures k.Valid() && k.moduleName == old(k.moduleName)
    ensures k.statusAppli == old(k.statusAppli) && k.statusLedLit == old(k.statusLedLit)
    ensures req.v.None? ==> reply == BAD_PARAMETER && k.strip == old(k.strip)
    ensures req.v.Some? ==> k.strip == old(k.strip).(isOn := ToInt(req.v.value) == 1)
                            && reply == BoolReply(ToInt(req.v.value) == 1)
  {
    if req.v.None? {
      reply := BAD_PARAMETER;
      return;
    }
    var _ := k.SetState(ToInt(req.v.value) == 1);
    var isOn := k.GetState();
    reply := BoolReply(isOn);
  }

  /**
   * `handle_set_brightness`: `toInt` cut to a `uint8_t` before the setter's
   * range check (so "356" sets 100 %); replies the brightness now in force.
   */
  method HandleSetBrightness(k: Lightkit, req: Request) returns (reply: string)
    requires k.Valid()
    modifies k
    ensures k.Valid() && k.moduleName == old(k.moduleName) && k.statusLedLit == old(k.statusLedLit)
    ensures req.v.None? ==> reply == BAD_PARAMETER && k.strip == old(k.strip) && k.statusAppli == old(k.statusAppli)
    ensures req.v.Some? ==>
              var level := ToU8(ToInt(req.v.value));
              (Lightkit.BrightnessAccepted(level) ==>
                 k.strip == old(k.strip).(brightness := PercentToLevel(level))
                 && !IsSet(k.statusAppli, k.autoLumFlag)
                 && k.statusAppli & !(k.autoLumFlag as bv8) == old(k.statusAppli) & !(k.autoLumFlag as bv8))
              && (!Lightkit.BrightnessAccepted(level) ==> k.strip == old(k.strip) && k.statusAppli == old(k.statusAppli))
              && reply == Ultoa(LevelToPercent(k.strip.brightness), 10)
  {
    if req.v.None? {
      reply := BAD_PARAMETER;
      return;
    }
    var level: u8 := ToU8(ToInt(req.v.value));
    k.SetBrightness(level);
    var percent := k.GetBrightness();
    reply := Ultoa(percent, 10);
  }

  /**
   * `handle_set_nb_led`: `toInt` cut to a `uint8_t` before the setter's range
   * check; replies the LED count now in force.
   */
  method HandleSetNbLed(k: Lightkit, req: Request) returns (reply: string)
    requires k.Valid()
    modifies k
    ensures k.Valid() && k.moduleName == old(k.moduleName)
    ensures k.statusAppli == old(k.statusAppli) && k.statusLedLit == old(k.statusLedLit)
    ensures req.v.None? ==> reply == BAD_PARAMETER && k.strip == old(k.strip)
    ensures req.v.Some? ==>
              var nbLed := ToU8(ToInt(req.v.value));
              (1 <= nbLed <= k.maxNbPixels ==> k.strip == old(k.strip).(nbLed := nbLed))
              && (!(1 <= nbLed <= k.maxNbPixels) ==> k.strip == old(k.strip))
              && reply == Ultoa(k.strip.nbLed, 10)
  {
    if req.v.None? {
      reply := BAD_PARAMETER;
      return;
    }
    var nbLed: u8 := ToU8(ToInt(req.v.value));
    k.SetNbLed(nbLed);
    var n := k.GetNbLed();
    reply := Ultoa(n, 10);
  }

  /**
   * `handle_set_color`: the argument read in hex, forced opaque and handed to
   * `cmd_set_color` (which refuses black); replies the colour now in force.
   */
  method HandleSetColor(k: Lightkit, req: Request) returns (reply: string)
    requires k.Valid()
    modifies k
    ensures k.Valid() && k.moduleName == old(k.moduleName)
    ensures k.statusAppli == old(k.statusAppli) && k.statusLedLit == old(k.statusLedLit)
    ensures req.v.None? ==> reply == BAD_PARAMETER && k.strip == old(k.strip)
    ensures req.v.Some? ==>
              var color := ParseColorArg(req.v.value);
              (IsBlack(color) ==> k.strip == old(k.strip))
              && (!IsBlack(color) ==> k.strip == old(k.strip).(color := color, isOn := true, isInDemoMode := false, animID := 0))
              && reply == ColorHex(k.strip.color)
    ensures req.v.Some? && 1 <= |req.v.value| <= 6 && AllDigits(req.v.value, 16) ==>
              (DigitsValue(req.v.value, 16) != 0 ==> DigitsValue(reply, 16) == DigitsValue(req.v.value, 16))
              && (DigitsValue(req.v.value, 16) == 0 ==> reply == ColorHex(old(k.strip.color)))
  {
    if req.v.None? {
      reply := BAD_PARAMETER;
      return;
    }
    if 1 <= |req.v.value| <= 6 && AllDigits(req.v.value, 16) {
      ColorArgRoundTrip(req.v.value);
    }
    var color: u32 := ToU32(Strtol(req.v.value, 16));
    // Append alpha channel with max value
    color := WithOpaqueAlpha(color);
    k.SetColor(color);
    var current := k.GetColor();
    reply := ColorReply(current);
  }

  /**
   * `handle_set_module_name`: the new name stored as `cmd_set_module_name`
   * does; replies the stored name, which is the argument cut to 15 characters.
   */
  method HandleSetModuleName(k: Lightkit, req: Request) returns (reply: string)
    requires k.Valid()
    modifies k.moduleName
    ensures k.Valid()
    ensures req.v.None? ==> reply == BAD_PARAMETER && k.moduleName[..] == old(k.moduleName[..])
    ensures req.v.Some? ==> reply == k.ModuleName() == Take(CStr(req.v.value), MODULE_NAME_SIZE_MAX - 1)
  {
    if req.v.None? {
      reply := BAD_PARAMETER;
      return;
    }
    var _ := k.SetModuleName(req.v.value);
    reply := k.GetModuleName();
  }

  // ---------------------------------------------------------------------
  // Wi-Fi settings and scans
  // ---------------------------------------------------------------------

  /** The fields `handle_set_wifi_settings` reads from its parsed JSON argument. */
  datatype WifiJson = WifiJson(
    useDefault: bool,
    userMode: WifiMode,
    apSsid: string,
    apPassword: string,
    apChannel: u8,
    apMaxConnection: u8,
    apIsHidden: bool,
    apIp: bv32,
    apGateway: bv32,
    apSubnet: bv32,
    clientSsid: string,
    clientPassword: string,
    clientDelayBeforeAPFallbackMs: u32)

  /**
   * The candidate record `handle_set_wifi_settings` builds on its stack from
   * the JSON fields; `stack` is whatever the record held before, which shows
   * through in the fields the handler never writes. Each string is copied
   * with `strncpy` into its 30-byte buffer and no terminator is forced. The
   * client SSID is copied with WIFI_PASSWORD_MAX_LEN and the client password
   * with WIFI_SSID_MAX_LEN; both are 30.
   */
  function CandidateSettings(j: WifiJson, stack: WifiHandle): (h: WifiHandle)
    ensures BuffersSized(h)
    ensures h.mode == stack.mode && h.forcedMode == stack.forcedMode && h.client.lastIp == stack.client.lastIp
    ensures h.userMode == j.userMode && h.ap.channel == j.apChannel && h.ap.maxConnection == j.apMaxConnection
    ensures h.ap.isHidden == j.apIsHidden && h.ap.ip == j.apIp && h.ap.gateway == j.apGateway && h.ap.subnet == j.apSubnet
    ensures h.client.delayBeforeAPFallbackMs == j.clientDelayBeforeAPFallbackMs
  {
    stack.(
      userMode := j.userMode,
      ap := ApSettings(
        Strncpy(j.apSsid, WIFI_SSID_MAX_LEN),
        Strncpy(j.apPassword, WIFI_PASSWORD_MAX_LEN),
        j.apChannel, j.apMaxConnection, j.apIsHidden,
        j.apIp, j.apGateway, j.apSubnet),
      client := stack.client.(
        ssid := Strncpy(j.clientSsid, WIFI_PASSWORD_MAX_LEN),
        password := Strncpy(j.clientPassword, WIFI_SSID_MAX_LEN),
        delayBeforeAPFallbackMs := j.clientDelayBeforeAPFallbackMs))
  }

  /**
   * What a `strncpy` into an `n`-byte buffer leaves there: a string shorter
   * than the buffer is terminated and reads back whole; a longer one fills
   * the buffer with its first `n` characters and no terminator.
   */
  predicate CopiedFrom(buf: seq<char>, src: string, n: nat)
  {
    (|CStr(src)| < n ==> NUL in buf && CStr(buf) == CStr(src))
    && (|CStr(src)| >= n ==> NUL !in buf && buf == CStr(src)[..n])
  }

  /**
   * Every string of the candidate record is a bounded copy of its JSON
   * field, and the record is terminated throughout exactly when every field
   * is shorter than 30 characters.
   */
  lemma CandidateStrings(j: WifiJson, stack: WifiHandle)
    ensures var h := CandidateSettings(j, stack);
      CopiedFrom(h.ap.ssid, j.apSsid, 30) && CopiedFrom(h.ap.password, j.apPassword, 30)
      && CopiedFrom(h.client.ssid, j.clientSsid, 30) && CopiedFrom(h.client.password, j.clientPassword, 30)
    ensures Terminated(CandidateSettings(j, stack)) <==>
              |CStr(j.apSsid)| < 30 && |CStr(j.apPassword)| < 30 && |CStr(j.clientSsid)| < 30 && |CStr(j.clientPassword)| < 30
  {
    StrncpyReadsBack(j.apSsid, 30);
    StrncpyReadsBack(j.apPassword, 30);
    StrncpyReadsBack(j.clientSsid, 30);
    StrncpyReadsBack(j.clientPassword, 30);
  }

  /** The routine `handle_set_wifi_settings` hands over to. */
  datatype WifiAction = UseDefaultSettings | UseNewSettings(candidate: WifiHandle)

  datatype WifiSettingsReply = WifiSettingsReply(action: Option<WifiAction>, body: string)

  /**
   * `handle_set_wifi_settings`. `arg` is the parsed `v` argument, `None` when
   * it is missing. `defaultRet` is what `wifi_use_default_settings` returns
   * and `newRet`/`newReason` what `wifi_use_new_settings` returns and fills
   * in; only the one that is called matters. The reply is "ok" on success,
   * otherwise the reason, which stays empty on the default path.
   */
  function HandleSetWifiSettings(arg: Option<WifiJson>, stack: WifiHandle, defaultRet: int, newRet: int, newReason: string)
    : (r: WifiSettingsReply)
    ensures arg.None? <==> r.action.None?
    ensures arg.None? ==> r.body == BAD_PARAMETER
    ensures arg.Some? && arg.value.useDefault ==>
              r.action == Some(UseDefaultSettings) && (defaultRet == 0 ==> r.body == "ok") && (defaultRet != 0 ==> r.body == "")
    ensures arg.Some? && !arg.value.useDefault ==>
              r.action == Some(UseNewSettings(CandidateSettings(arg.value, stack)))
              && (newRet == 0 ==> r.body == "ok") && (newRet != 0 ==> r.body == newReason)
  {
    if arg.None? then WifiSettingsReply(None, BAD_PARAMETER)
    else
      var j := arg.value;
      var defaultReason := "";
      var action := if j.useDefault then UseDefaultSettings else UseNewSettings(CandidateSettings(j, stack));
      var ret := if j.useDefault then defaultRet else newRet;
      var reason := if j.useDefault then defaultReason else newReason;
      WifiSettingsReply(Some(action), if ret == 0 then "ok" else reason)
  }

  /** The JSON document `handle_get_wifi_scans` replies with; the lists are absent when no scan is ready. */
  datatype ScanReply = ScanReply(scanCount: int, ssid: Option<seq<string>>, rssi: Option<seq<int>>)

  /**
   * `handle_get_wifi_scans`. `scanCount` is what `wifi_start_scan_req`
   * returns (negative while no result is ready); `ssidAt(i)` and `rssiAt(i)`
   * are the SSID and signal strength of the i-th network found.
   */
  method HandleGetWifiScans(scanCount: int, ssidAt: nat -> string, rssiAt: nat -> int) returns (reply: ScanReply)
    ensures scanCount >= 0 ==>
              reply.scanCount == scanCount && reply.ssid.Some? && reply.rssi.Some?
              && |reply.ssid.value| == scanCount && |reply.rssi.value| == scanCount
              && (forall i :: 0 <= i < scanCount ==> reply.ssid.value[i] == ssidAt(i))
              && (forall i :: 0 <= i < scanCount ==> reply.rssi.value[i] == rssiAt(i))
    ensures scanCount < 0 ==> reply == ScanReply(-1, None, None)
  {
    if scanCount >= 0 {
      var ssidList: seq<string> := [];
      var rssiList: seq<int> := [];
      var i := 0;
      while i < scanCount
        invariant 0 <= i <= scanCount
        invariant |ssidList| == i && |rssiList| == i
        invariant forall n :: 0 <= n < i ==> ssidList[n] == ssidAt(n)
        invariant forall n :: 0 <= n < i ==> rssiList[n] == rssiAt(n)
      {
        ssidList := ssidList + [ssidAt(i)];
        rssiList := rssiList + [rssiAt(i)];
        i := i + 1;
      }
      reply := ScanReply(scanCount, Some(ssidList), Some(rssiList));
    } else {
      reply := ScanReply(-1, None, None);
    }
  }
}
