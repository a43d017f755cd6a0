# Settings and command layer of the Pascal-Project firmware

This project is a Dafny model of the settings and command layer shared by the firmware of several small network-connected boards. The boards are LED strip controllers, and temperature, relay and alarm modules. The model covers:

- **LED and status commands** in two firmware variants:
  - `lightkit/software/src/cmd/cmd.cpp` is the class `LightkitCmd.Lightkit`.
  - `interface_temperature/software/src/cmd/cmd.cpp` is the class `TemperatureCmd.StatusRegisters`.
  - The persisted settings (`flashSettings`) and the application status byte `STATUS_APPLI` are fields these setters update in place.
  - The module name is a 16-byte `array<char>`.
  - The driver calls (`stripled_*`, `brightness_set`, `status_led_turnoff`) are writes to fields. In `LightkitCmd.Lightkit` they write the `strip` record and `statusLedLit`. In `TemperatureCmd.StatusRegisters`, `brightness_set` writes the `statusBrightness` register and `status_led_turnoff` writes `statusLedLit`. Their bodies are not part of this model.
  - The status-bit masks and `STRIPLED_MAX_NB_PIXELS` come from headers that are not part of this model. They are constant fields fixed by the constructor. A mask is any single-bit byte (`StatusBits.Flag`).
- **Brightness scaling** (`Brightness`): percent to a 0..255 level and back.
- **The HTTP handlers of the LightKit web server** (`LightkitWeb`):
  - the content type chosen for a file;
  - the trailing-`/` → `index.html` rewrite;
  - the colour encoder (`handle_get_color`, a loop that left-pads the hex text) and the colour parser (`handle_set_color`);
  - the rule that a set request with no `v` argument gets `Bad parameter` and changes nothing;
  - the bounded copy of the Wi-Fi settings;
  - the shape of the scan reply.
- **The same file-serving code in the RGB controller's web server** (`RgbWeb`).
- **The content-type rule as a table** (`MimeTypes`), against which both if-chains are proved equal.
- **The Wi-Fi settings record** (`Wifi`, from `wifi.hpp`): the range constants as a validity predicate, the mode enumeration and its name table, the `IP_TO_U32` packing, and the built-in defaults.
- **The per-board configuration** (`Boards`, from `global.hpp`): each board's modules, inputs, outputs and aliases as a value, and the preprocessor's dependency checks as the list of `#error` messages they raise.

### Helper modules

- `CStrings`: C strings as NUL-padded buffers, `strncpy`, and the forced terminator.
- `NumberText`: digit strings, `String(n, HEX)` (`Ultoa`), and `strtol` with a 32-bit `long`, which `String::toInt` uses in base 10.
- `Ints`: the C integer widths and truncating casts.
- `Wrappers`: `Option`.

### How requests are represented

A request is its optional `v` argument plus a `download` flag. A reply is its body text. Where a handler hands work to code this model does not include, that work's outcome is a parameter:

- the Wi-Fi module's return code and reason string;
- the scan result count, SSIDs and RSSIs;
- the file system, given as the set of existing paths.

## Model

| member | source | states |
|---|---|---|
| LightkitCmd.Lightkit.SetModuleName | lightkit/software/src/cmd/cmd.cpp:30-41 | The 16-byte buffer holds `strncpy(name, 16)` with its last byte forced to NUL. The stored name reads back as the input cut at its first NUL and at 15 characters. The call returns 0. |
| LightkitCmd.Lightkit.ModuleName | lightkit/software/src/cmd/cmd.cpp:48-51 | The name read from the buffer is shorter than 16, contains no NUL, and is the buffer's prefix up to its first NUL. |
| LightkitCmd.Lightkit.GetModuleName | lightkit/software/src/cmd/cmd.cpp:48-51 | Returns the stored C string, at most 15 characters. |
| LightkitCmd.Lightkit.SetStatusLed | lightkit/software/src/cmd/cmd.cpp:64-72 | Enabling sets only the status-LED bit. Disabling clears only that bit and turns the LED off. Nothing else changes. |
| LightkitCmd.Lightkit.SetBrightnessAuto | lightkit/software/src/cmd/cmd.cpp:89-96 | The AUTOLUM bit equals the argument afterwards, and every other bit of the status byte is unchanged. |
| LightkitCmd.Lightkit.SetBrightness | lightkit/software/src/cmd/cmd.cpp:104-110 | Accepts exactly 1..100. An accepted value sets the level to v*255/100 and clears AUTOLUM. Any other value changes neither the level nor the status byte. |
| LightkitCmd.Lightkit.GetBrightness | lightkit/software/src/cmd/cmd.cpp:118-121 | Returns the level scaled back by *100/255, which is at most 100. |
| LightkitCmd.Lightkit.SetNbLed | lightkit/software/src/cmd/cmd.cpp:129-134 | Stores the count exactly when 1 <= n <= the strip's pixel maximum. Otherwise nothing changes. |
| LightkitCmd.Lightkit.GetNbLed | lightkit/software/src/cmd/cmd.cpp:142-145 | Returns the stored LED count. |
| LightkitCmd.Lightkit.SetColor | lightkit/software/src/cmd/cmd.cpp:153-167 | A colour whose low 24 bits are zero changes nothing. Any other colour is stored, turns the strip on, leaves demo mode and selects animation 0. |
| LightkitCmd.Lightkit.GetColor | lightkit/software/src/cmd/cmd.cpp:175-178 | Returns the stored colour. |
| LightkitCmd.Lightkit.GetState | lightkit/software/src/cmd/cmd.cpp:186-189 | Returns the stored on/off state. |
| LightkitCmd.Lightkit.SetState | lightkit/software/src/cmd/cmd.cpp:198-202 | Stores the state, changes nothing else, and returns 0. |
| LightkitCmd.Lightkit.GetDemoMode | lightkit/software/src/cmd/cmd.cpp:210-213 | Returns the stored demo-mode flag. |
| LightkitCmd.Lightkit.SetDemoMode | lightkit/software/src/cmd/cmd.cpp:222-226 | Stores the flag, changes nothing else, and returns 0. |
| LightkitCmd.Lightkit.GetAnimation | lightkit/software/src/cmd/cmd.cpp:234-237 | Returns the stored animation. |
| LightkitCmd.Lightkit.SetAnimation | lightkit/software/src/cmd/cmd.cpp:246-249 | Stores the animation, changes nothing else, and returns 0. |
| Brightness.PercentToLevel | lightkit/software/src/cmd/cmd.cpp:107 | The level is v*255/100 rounded down, which fits in 0..255 for v <= 100. |
| Brightness.LevelToPercent | lightkit/software/src/cmd/cmd.cpp:120 | The percent is b*100/255 rounded down, which is at most 100. |
| Brightness.LevelRange | lightkit/software/src/cmd/cmd.cpp:106-108 | An accepted value 1..100 gives a level in [2, 255]. |
| Brightness.ReadBack | lightkit/software/src/cmd/cmd.cpp:106-121 | Setting v and reading back gives v or v-1, never more. v = 1 reads back as 0, and 0 and 100 read back exactly. |
| StatusBits.Set | lightkit/software/src/cmd/cmd.cpp:67 | The flag is set afterwards and every other bit is kept. |
| StatusBits.Unset | lightkit/software/src/cmd/cmd.cpp:69 | The flag is clear afterwards and every other bit is kept. |
| StatusBits.IsSet | interface_temperature/software/src/cmd/cmd.cpp:92 | `_isset` holds exactly when clearing the flag would change the byte. |
| StatusBits.OtherFlagKept | lightkit/software/src/cmd/cmd.cpp:89-96 | An update that keeps the other bits leaves every other flag as it was. |
| TemperatureCmd.StatusRegisters.SetStatusLed | interface_temperature/software/src/cmd/cmd.cpp:37-45 | The status-LED bit equals the argument and every other bit is kept. Disabling turns the LEDs off. |
| TemperatureCmd.StatusRegisters.SetBrightnessAuto | interface_temperature/software/src/cmd/cmd.cpp:51-58 | The AUTOLUM bit equals the argument and every other bit is kept. |
| TemperatureCmd.StatusRegisters.SetBrightness | interface_temperature/software/src/cmd/cmd.cpp:66-72 | Accepts every value 0..100, because the `>= 0` test is always true for a byte. An accepted value sets the brightness register to v*255/100 and clears AUTOLUM. Values above 100 change nothing. |
| TemperatureCmd.StatusRegisters.GetBrightness | interface_temperature/software/src/cmd/cmd.cpp:80-83 | Returns the register scaled by *100/255, which is at most 100. |
| TemperatureCmd.StatusRegisters.GetState | interface_temperature/software/src/cmd/cmd.cpp:90-93 | True exactly when the LED_IS_ON bit of the status byte is set. |
| TemperatureCmd.StatusRegisters.GetDemoMode | interface_temperature/software/src/cmd/cmd.cpp:113-116 | True exactly when the demo-mode bit of the status byte is set. |
| TemperatureCmd.StatusRegisters.GetAnimation | interface_temperature/software/src/cmd/cmd.cpp:137-140 | Returns the animation register. |
| MimeTypes.FirstMatchFrom | lightkit/software/src/web/web_server.cpp:40-63 | No result exactly when no suffix from position k on ends the name. Otherwise the result is the type of the first entry that does. |
| MimeTypes.DownloadOverrides | commande_led_rgb/software/src/web/web_server.cpp:50 | With `download` the type is `application/octet-stream`, whatever the name. |
| MimeTypes.FirstSuffixWins | commande_led_rgb/software/src/web/web_server.cpp:51-62 | The first matching suffix in table order decides the type. |
| MimeTypes.UnmatchedIsPlainText | commande_led_rgb/software/src/web/web_server.cpp:63 | A name that no suffix ends is served as `text/plain`. |
| MimeTypes.HtmlSuffixes | commande_led_rgb/software/src/web/web_server.cpp:51-52 | `.htm` and `.html` both give `text/html`. |
| LightkitWeb.ContentType | lightkit/software/src/web/web_server.cpp:36-65 | The reply type is `application/octet-stream` exactly when `download` is present, since no suffix maps to it. `LightkitWeb.ContentTypeFollowsTable` gives the rest. |
| LightkitWeb.ContentTypeFollowsTable | lightkit/software/src/web/web_server.cpp:36-65 | The if-chain equals the table rule for every name and every `download` setting. |
| LightkitWeb.IndexRewrite | lightkit/software/src/web/web_server.cpp:70-72 | A path ending in `/` becomes that path plus `index.html`. A path not ending in `/` is kept. The result extends the request path and never ends in `/`. |
| LightkitWeb.IndexRewriteIdempotent | lightkit/software/src/web/web_server.cpp:70-72 | Rewriting twice is the same as rewriting once. |
| LightkitWeb.FileRead | lightkit/software/src/web/web_server.cpp:67-81 | A file is streamed exactly when the rewritten path exists. It is the rewritten path, served with the table's content type. |
| LightkitWeb.BoolReply | lightkit/software/src/web/web_server.cpp:213 | The reply is the decimal text of 1 or 0, and it is "1" exactly when the flag is true. |
| LightkitWeb.PadLeft | lightkit/software/src/web/web_server.cpp:317-319 | The result has length max(n, \|s\|), ends with `s`, and has only '0' before it. |
| LightkitWeb.PadLeftValue | lightkit/software/src/web/web_server.cpp:317-319 | Leading zeros keep a digit string's value. |
| LightkitWeb.ColorHex | lightkit/software/src/web/web_server.cpp:306-322 | The colour reply is exactly 6 lower-case hex digits, and their value is the colour without its alpha byte. |
| LightkitWeb.PaddedLowerHex | lightkit/software/src/web/web_server.cpp:315-319 | Zero-padding the lower-case digits of `String(n, HEX)` keeps every character a lower-case hex digit. |
| LightkitWeb.ColorReply | lightkit/software/src/web/web_server.cpp:312-319 | The padding loop builds exactly `ColorHex(color)`: 6 digits whose value is the low 24 bits. |
| LightkitWeb.WithOpaqueAlpha | lightkit/software/src/web/web_server.cpp:337 | The top byte is 0xFF and the low 24 bits are kept. |
| LightkitWeb.ParseColorArg | lightkit/software/src/web/web_server.cpp:334-337 | The colour passed on always has top byte 0xFF. |
| LightkitWeb.ColorRoundTrip | lightkit/software/src/web/web_server.cpp:312-337 | Parsing the colour reply gives back the colour's low 24 bits, with an opaque alpha byte. |
| LightkitWeb.ColorArgRoundTrip | lightkit/software/src/web/web_server.cpp:327-341 | For an argument of 1 to 6 hex digits, the 6-digit encoding of the parsed colour has the argument's value. The parsed colour is black, which the setter refuses, exactly when that value is 0. |
| LightkitWeb.HandleSetAnimation | lightkit/software/src/web/web_server.cpp:188-206 | No `v` gives `Bad parameter` and nothing changes. Otherwise the animation becomes the argument cut to 16 and then 8 bits. |
| Ints.NarrowTwice | lightkit/software/src/web/web_server.cpp:191-200 | Keeping `toInt` in a `uint16_t` and passing it on as a `uint8_t` gives the same byte as narrowing to 8 bits at once. |
| LightkitWeb.HandleSetDemoMode | lightkit/software/src/web/web_server.cpp:219-229 | No `v` gives `Bad parameter` and nothing changes. Otherwise demo mode is set exactly when `v` parses to 1, and the reply is the new mode as 1 or 0. |
| LightkitWeb.HandleSetState | lightkit/software/src/web/web_server.cpp:242-252 | No `v` gives `Bad parameter` and nothing changes. Otherwise the strip is on exactly when `v` parses to 1, and the reply is the new state as 1 or 0. |
| LightkitWeb.HandleSetBrightness | lightkit/software/src/web/web_server.cpp:265-277 | No `v` gives `Bad parameter` and nothing changes. Otherwise the argument is cut to 8 bits and then range-checked by the setter. An accepted level is stored and switches automatic brightness off, leaving the other status bits alone; a rejected one changes nothing. The reply is the brightness read back. |
| LightkitWeb.HandleSetNbLed | lightkit/software/src/web/web_server.cpp:290-301 | No `v` gives `Bad parameter` and nothing changes. Otherwise the argument is cut to 8 bits and then range-checked by the setter, and the reply is the count read back. |
| LightkitWeb.HandleSetColor | lightkit/software/src/web/web_server.cpp:327-341 | No `v` gives `Bad parameter` and nothing changes. Otherwise the parsed colour, with alpha 0xFF, goes to the setter, and the reply is the 6-digit colour read back. For 1 to 6 hex digits with a non-zero value, the reply has the argument's value. For a zero value, black is refused and the reply is the old colour. |
| LightkitWeb.HandleSetModuleName | lightkit/software/src/web/web_server.cpp:488-499 | No `v` gives `Bad parameter` and the name is unchanged. Otherwise the reply is the stored name, which is `v` cut to 15 characters. |
| LightkitWeb.CandidateSettings | lightkit/software/src/web/web_server.cpp:420-437 | Every buffer has its declared size. The mode, channel, connection count, hidden bit, AP addresses and fallback delay all come from the request. The fields the handler never writes are those of the stack record. |
| LightkitWeb.CandidateStrings | lightkit/software/src/web/web_server.cpp:421-435 | Each string field holds `strncpy(src, 30)`, with no forced terminator. The record is terminated exactly when all four strings are shorter than 30. |
| LightkitWeb.HandleSetWifiSettings | lightkit/software/src/web/web_server.cpp:399-449 | No `v` gives `Bad parameter`. `use_default` routes to the defaults, and the reply is `ok` on a 0 return code and the empty reason otherwise. Otherwise the copied record is offered, and the reply is `ok` on a 0 return code and the filled-in reason otherwise. |
| LightkitWeb.HandleGetWifiScans | lightkit/software/src/web/web_server.cpp:454-481 | For a count of 0 or more, the reply carries that count and two lists of exactly that many entries, holding the SSIDs and RSSIs in order. The 1024-byte document capacity is not modelled. For a negative count, the reply is -1 with no lists. |
| RgbWeb.ContentType | commande_led_rgb/software/src/web/web_server.cpp:48-64 | The type is `application/octet-stream` exactly when `download` is present. `RgbWeb.ContentTypeFollowsTable` gives the rest. |
| RgbWeb.ContentTypeFollowsTable | commande_led_rgb/software/src/web/web_server.cpp:48-64 | The RGB server's if-chain equals the same table rule. |
| RgbWeb.IndexPath | commande_led_rgb/software/src/web/web_server.cpp:69-71 | A path ending in `/` becomes that path plus `index.html`. Any other path is kept. The result never ends in `/`. |
| RgbWeb.IndexPathIdempotent | commande_led_rgb/software/src/web/web_server.cpp:69-71 | Rewriting twice gives the same path as rewriting once. |
| RgbWeb.FileRead | commande_led_rgb/software/src/web/web_server.cpp:66-80 | A file is streamed exactly when the rewritten path exists. It is served with the table's content type. Otherwise nothing is streamed. |
| Wifi.Ordinal | lightkit/software/src/wifi/wifi.hpp:48-56 | Each enumerator's value is at most MODE_MAX = 4. |
| Wifi.FromOrdinal | lightkit/software/src/wifi/wifi.hpp:48-56 | A value names an enumerator exactly when it lies in 0..4. |
| Wifi.OrdinalRoundTrip | lightkit/software/src/wifi/wifi.hpp:48-56 | The enumerator and its value convert into each other in both directions. |
| Wifi.ModeName | lightkit/software/src/wifi/wifi.hpp:58-66 | The lookup is this model's reading of the `wifiModeStr` table, whose users live in `wifi.cpp`, which is not part of this model. The name is `<unknown>` exactly when no enumerator has the value. Otherwise it is that enumerator's row, shorter than 7 bytes. |
| Wifi.ModeNamesDistinct | lightkit/software/src/wifi/wifi.hpp:48-66 | Two enumerators get the same name exactly when they are the same enumerator. |
| Wifi.ModeTableFits | lightkit/software/src/wifi/wifi.hpp:58-66 | The table has one row per enumerator, and each name with its terminator fits in 7 bytes. |
| Wifi.IpToU32 | lightkit/software/src/wifi/wifi.hpp:33 | The shifts and ORs give the word `d*2^24 + c*2^16 + b*2^8 + a`. |
| Wifi.IpPackingRoundTrip | lightkit/software/src/wifi/wifi.hpp:33 | `IP_TO_U32(a, b, c, d)` puts `a` in the low byte and `d` in the high byte. Splitting the word gives the four bytes back, and packing the split bytes gives the word back. |
| Wifi.DefaultAddressWords | lightkit/software/src/wifi/wifi.hpp:40-42 | The default IP, gateway and subnet pack to 0x0104A8C0, 0xFE04A8C0 and 0x00FFFFFF. |
| Wifi.InRange | lightkit/software/src/wifi/wifi.hpp:23-31 | The documented ranges: 30-byte buffers, channel in [1, 13], 1 to 3 connections, and an AP fallback of at least 5000 ms. `Wifi.DefaultsInRange` proves the defaults meet them. |
| Wifi.DefaultHandle | lightkit/software/src/wifi/wifi.hpp:35-45 | The default record uses the AP mode, and the address 192.168.4.1 with mask 255.255.255.0. |
| Wifi.DefaultsInRange | lightkit/software/src/wifi/wifi.hpp:22-45 | The defaults satisfy the documented ranges: channel 1 in [1,13], one connection in [1,3], and a fallback of 20000 >= 5000. Every default string fits its 30-byte buffer with a terminator and reads back unchanged. |
| Boards.TempDomoticzBoard | lightkit/software/src/global.hpp:67-175 | Every variant of TEMP_DOMOTICZ is well formed: its input and buzzer tables match their counts, every alias index is below its COUNT, every module finds its constants, and the dependency checks hold. |
| Boards.TempTelegramBoard | lightkit/software/src/global.hpp:182-280 | Every variant of TEMP_TELEGRAM is well formed in the same sense. |
| Boards.TempBoardModules | lightkit/software/src/global.hpp:84-94 | On TEMP_DOMOTICZ, outputs are present exactly for the BUZZER or RELAY variant, and the relay exactly for the RELAY variant; there is no web server and no LED strip. On TEMP_TELEGRAM, outputs are always present, the relay exactly for the RELAY variant, and Telegram replaces Domoticz. |
| Boards.RingBoard | lightkit/software/src/global.hpp:287-328 | Well formed: its inputs and aliases are consistent. It has inputs and a 12-pixel strip. |
| Boards.StripOnlyBoard | lightkit/software/src/global.hpp:335-420 | Each web-controlled strip board is well formed, with only the web server, the strip and the terminal modules, and no inputs or outputs. |
| Boards.FeuRougeBoard | lightkit/software/src/global.hpp:428-494 | Well formed, with the I2C extension, inputs, outputs, and the buzzer on output 6. |
| Boards.Configure | lightkit/software/src/global.hpp:67-494 | Every board and variant selection yields a well-formed configuration. |
| Boards.DependencyErrors | lightkit/software/src/global.hpp:500-514 | No `#error` of the final block fires exactly when relay needs outputs, telnet and serial need the terminal, and the I2C extension needs inputs and outputs all hold. |
| Boards.AllBoardsPassDependencyChecks | lightkit/software/src/global.hpp:500-514 | Every board passes the dependency checks. |
| Boards.CompileErrors | lightkit/software/src/global.hpp:172-174 | As written, the exclusivity check fires exactly for a temperature board with both `_RELAIS` and `_BUZZER` defined. |
| Boards.IntendedCompileErrors | lightkit/software/src/global.hpp:277-279 | The corrected check fires exactly for a temperature board with both `_RELAY` and `_BUZZER` defined. |
| Boards.RelayBuzzerAcceptedAsWritten | lightkit/software/src/global.hpp:69-94 | A RELAY+BUZZER build of either temperature board passes the check as written, yet the corrected check rejects it. That build gets both the relay and the outputs. |
| Boards.TempDomoticzOutputPins | lightkit/software/src/global.hpp:132-133 | TEMP_DOMOTICZ declares two outputs but lists a single output pin. |
| CStrings.CStr | lightkit/software/src/cmd/cmd.cpp:48-51 | A buffer read as a C string: its prefix before the first NUL. |
| CStrings.Strncpy | lightkit/software/src/cmd/cmd.cpp:33-34 | `strncpy` fills exactly `n` bytes. |
| CStrings.TerminatedCopyReadsBack | lightkit/software/src/cmd/cmd.cpp:33-36 | A copy with a forced terminator reads back as the source cut at its first NUL and at n-1 characters. |
| NumberText.UltoaReadsBack | lightkit/software/src/web/web_server.cpp:315 | Reading the digits of `String(n, base)` gives `n` back. |
| NumberText.ShortHexParses | lightkit/software/src/web/web_server.cpp:334 | `strtol` in base 16 reads 1 to 6 hex digits as their value, below 0x1000000. |

## Left out

- The Wi-Fi state machine (fallback to AP, scanning, fast reconnect), the relay feedback and retry logic, and the temperature alarm: `wifi.hpp`, `relay.hpp`, `script.hpp` and `temp.hpp` only declare them. Their bodies are not part of this model.
- The firmware-update handlers (`handle_update_*`) and the OTA set-up are flash and update-library plumbing.
- `bootloader_main` in `commande_led_rgb/software/src/bootloader/bootloader.cpp`: a Wi-Fi status poll. Its `tick > bootloaderTick` test at line 78 does not survive the tick counter wrapping round.
- The main loop (`interface_temperature/software/src/main.cpp`) is init and dispatch glue around an interrupt-driven tick.
- Logging (`log.cpp`), the ncurses CLI demo and the line buffer: terminal I/O, with prototypes only.
- `telegram.hpp`, `domoticz.hpp` and `private_tmpl.hpp`: declarations, strings and secrets only.
- The floating-point thresholds and hysteresis of `global.hpp`: their consumer is not part of this model.
- JSON parsing and `IPAddress::fromString`: the Wi-Fi handler receives the parsed document (`LightkitWeb.WifiJson`). A JSON string field that is missing (a null `as<char *>()`) is not modelled. Neither is a `userMode` outside the enumeration.
- `cmd_reset_module`, `cmd_print_status`, `cmd_print_help`, `cmd_set_buzzer` and `cmd_flash_setting_reset`: restart, terminal output and calls into modules whose code is not part of this model. The persisting of settings (`flash_write`) is also left out.
- The interface_temperature `cmd_set_state`, `cmd_set_demo_mode` and `cmd_set_animation`: they only call strip functions whose code is not part of this model.
- The plain getter handlers (`handle_get_state`, `handle_get_version`, `handle_get_display_info`, `handle_get_wifi_settings`, ...): their replies are serialisations of values the getters above return. Route registration and the 404 handler in `web_server_init` are left out too.
- The RGB controller's set handlers: its command layer is not part of this model.
- Defining two BOARD_* macros at once: `Boards.Build` names a single board.
- OUTPUTS_COUNT against the length of the output pin list: TEMP_DOMOTICZ declares two outputs with one pin (`Boards.TempDomoticzOutputPins`), so no equality is claimed.
- LightkitCmd.Lightkit.SetAnimation: always returns 0, because the animation setter it calls is not part of this model.
- Wifi.DefaultHandle: the current mode, the forced mode, the AP's hidden-SSID bit and the last client address are parameters, because the defaults name no value for them.
- LightkitWeb.ColorArgRoundTrip: stated only for 1 to 6 hex digits. Longer arguments saturate `strtol` on a 32-bit `long`, or lose their high digits.
- LightkitWeb.HandleSetWifiSettings: the return codes and the reason string of `wifi_use_default_settings` and `wifi_use_new_settings` are parameters. Their validation lives in `wifi.cpp`, which is not part of this model.
- LightkitWeb.HandleGetWifiScans: the result of `wifi_start_scan_req` and the scanned SSIDs and RSSIs are parameters. The reply document is a `DynamicJsonDocument` of 1024 bytes, which silently drops entries once full. That capacity is not modelled, so the model's lists always hold every network found.

### Notes on the settings handlers

- `handle_set_wifi_settings` (lightkit/software/src/web/web_server.cpp:399-449) checks neither the channel, nor the connection count, nor the string lengths before it hands the record on. It copies the strings with `strncpy` and no forced terminator. It never writes `mode`, `forcedMode` or `client.lastIp` of its stack record. The model does the same (`LightkitWeb.CandidateSettings`, `LightkitWeb.CandidateStrings`).
- The same handler copies the client SSID with the password's length constant and the client password with the SSID's. Both constants are 30, so the result is the same.
- The brightness and LED-count handlers cut the argument to 8 bits before the setter's range check. "356" therefore sets brightness 100.

## Findings

| source | as written | input that shows it | evidently intended | confidence | as-written member | corrected member |
|---|---|---|---|---|---|---|
| lightkit/software/src/global.hpp:172-174 | The exclusivity check tests `BOARD_TEMP_DOMOTICZ_RELAIS`, a macro nothing else uses; the variant is selected by `BOARD_TEMP_DOMOTICZ_RELAY`. | A build defining `BOARD_TEMP_DOMOTICZ_RELAY` and `BOARD_TEMP_DOMOTICZ_BUZZER` compiles. It gets the relay and the outputs, and the buzzer variant is silently dropped. | The check rejects RELAY together with BUZZER. | not executed | Boards.RelayBuzzerAcceptedAsWritten | Boards.IntendedCompileErrors |
| lightkit/software/src/global.hpp:277-279 | The same check for TEMP_TELEGRAM tests `BOARD_TEMP_TELEGRAM_RELAIS`, while the variant is selected by `BOARD_TEMP_TELEGRAM_RELAY`. | A build defining `BOARD_TEMP_TELEGRAM_RELAY` and `BOARD_TEMP_TELEGRAM_BUZZER` compiles with the relay. | The check rejects RELAY together with BUZZER. | not executed | Boards.RelayBuzzerAcceptedAsWritten | Boards.IntendedCompileErrors |
