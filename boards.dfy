/**
 * The per-board configuration of the LightKit firmware
 * (lightkit/software/src/global.hpp). Each supported board selects a set of
 * firmware modules and declares its input and output pins with named
 * aliases; the preprocessor then rejects a configuration that breaks a
 * dependency between modules. Here a board's configuration is a value, the
 * dependency checks are a list of the `#error` messages they would raise,
 * and each board is proved well formed.
 */
module Boards {
  import opened Wrappers

  /** The MODULE_* switches. */
  datatype Module =
    | Temperature | Domoticz | Telegram | StatusLed | Inputs | Outputs | Relay
    | WebServer | StripLed | Serial | Telnet | Term | FeuRougeLogic | Buzzer

  /** The BOARD_* macros. */
  datatype BoardId = TempDomoticz | TempTelegram | Ring | NeopixelWebThierry | NeopixelWeb | LightkitV2David | FeuRouge

  /**
   * What is being compiled: the board, and which of its variant macros are
   * defined (`<board>_RELAY`, `<board>_BUZZER`, and `<board>_RELAIS`, which
   * only the exclusivity check mentions). Only the two temperature boards
   * read the variant macros.
   */
  datatype Build = Build(board: BoardId, relay: bool, buzzer: bool, relais: bool)

  /** A pin: a plain GPIO number, an ESP8266 `Dn` pin name, or `io_special_ioi2c(n)` on the I2C extension. */
  datatype Pin = Gpio(n: nat) | D(n: nat) | Ioi2c(n: nat)

  /** Input pin modes: I_N (no pull-up) = 0, I_U (pull-up) = 1, I_A (analog) = 2. */
  datatype InputMode = IN | IU | IA

  /** A named index into the pins: INPUTS_PIR_DETECTOR = 1, OUTPUTS_BUZZER = 6, ... */
  datatype Alias = Alias(name: string, index: nat)

  /** INPUTS_COUNT, INPUTS_PINS, INPUTS_MODES and the input aliases. */
  datatype InputsConfig = InputsConfig(count: nat, pins: seq<Pin>, modes: seq<InputMode>, aliases: seq<Alias>)

  /** OUTPUTS_COUNT, OUTPUTS_PINS and the output aliases. */
  datatype OutputsConfig = OutputsConfig(count: nat, pins: seq<Pin>, aliases: seq<Alias>)

  /** BUZZERS_COUNT, BUZZERS_OUTPUTS (output indices) and the buzzer aliases. */
  datatype BuzzersConfig = BuzzersConfig(count: nat, outputs: seq<nat>, aliases: seq<Alias>)

  /**
   * One board's block of definitions. A block may define the constants of a
   * module it leaves switched off (the buzzer-less TEMP_DOMOTICZ still
   * declares its outputs), so the constants are kept apart from the module set.
   */
  datatype Board = Board(
    modules: set<Module>,
    hasIoi2c: bool,
    inputs: Option<InputsConfig>,
    outputs: Option<OutputsConfig>,
    relayCmdAlias: Option<nat>,
    buzzers: Option<BuzzersConfig>,
    stripPixels: Option<nat>,
    firmwareSuffix: string)

  predicate AliasesBelow(aliases: seq<Alias>, count: nat)
  {
    forall i :: 0 <= i < |aliases| ==> aliases[i].index < count
  }

  /**
   * The input and buzzer tables agree with their counts, and every alias
   * index lies below its COUNT. The output pin list is not compared with
   * OUTPUTS_COUNT.
   */
  predicate TablesConsistent(b: Board)
  {
    (b.inputs.Some? ==>
       |b.inputs.value.pins| == b.inputs.value.count && |b.inputs.value.modes| == b.inputs.value.count
       && AliasesBelow(b.inputs.value.aliases, b.inputs.value.count))
    && (b.outputs.Some? ==> AliasesBelow(b.outputs.value.aliases, b.outputs.value.count))
    && (b.relayCmdAlias.Some? ==> b.outputs.Some? && b.relayCmdAlias.value < b.outputs.value.count)
    && (b.buzzers.Some? ==>
          |b.buzzers.value.outputs| == b.buzzers.value.count
          && AliasesBelow(b.buzzers.value.aliases, b.buzzers.value.count)
          && b.outputs.Some?
          && forall i :: 0 <= i < |b.buzzers.value.outputs| ==> b.buzzers.value.outputs[i] < b.outputs.value.count)
  }

  /** Every switched-on module finds the constants it is built with. */
  predicate ModulesConfigured(b: Board)
  {
    (Inputs in b.modules ==> b.inputs.Some?)
    && (Outputs in b.modules ==> b.outputs.Some?)
    && (Relay in b.modules ==> b.relayCmdAlias.Some?)
    && (Buzzer in b.modules ==> b.buzzers.Some?)
    && (StripLed in b.modules ==> b.stripPixels.Some?)
  }

  /** The module dependencies the final CHECKS block enforces. */
  predicate DependenciesHold(b: Board)
  {
    (Relay in b.modules ==> Outputs in b.modules)
    && (Telnet in b.modules ==> Term in b.modules)
    && (Serial in b.modules ==> Term in b.modules)
    && (b.hasIoi2c ==> Inputs in b.modules && Outputs in b.modules)
  }

  predicate WellFormed(b: Board)
  {
    TablesConsistent(b) && ModulesConfigured(b) && DependenciesHold(b)
  }

  const TERMINAL: set<Module> := {Serial, Telnet, Term}

  /** BOARD_TEMP_DOMOTICZ: outputs only with the BUZZER or RELAY variant, the relay only with RELAY. */
  function TempDomoticzBoard(relay: bool, buzzer: bool): (b: Board)
    ensures WellFormed(b)
  {
    Board(
      {Temperature, Domoticz, StatusLed, Inputs} + TERMINAL
        + (if relay || buzzer then {Outputs} else {}) + (if relay then {Relay} else {}),
      false,
      Some(InputsConfig(1, [Gpio(0)], [IU], [Alias("INPUTS_OPT_ALARM_IMPULSION_MODE_EN", 0)])),
      Some(OutputsConfig(2, [Gpio(12)], [Alias("OUTPUTS_BUZZER", 0), Alias("OUTPUTS_RELAIS_CMD", 0)])),
      Some(0),
      None,
      None,
      if relay then " - TEMP. DOMOTICZ RELAY" else if buzzer then " - TEMP. DOMOTICZ BUZZER" else " - TEMP. DOMOTICZ")
  }

  /** BOARD_TEMP_TELEGRAM: outputs always, the relay only with the RELAY variant. */
  function TempTelegramBoard(relay: bool, buzzer: bool): (b: Board)
    ensures WellFormed(b)
  {
    Board(
      {Temperature, Telegram, StatusLed, Inputs, Outputs} + TERMINAL + (if relay then {Relay} else {}),
      false,
      Some(InputsConfig(2, [D(3), D(1)], [IU, IU],
        [Alias("INPUTS_OPT_TEMP_ALARM_EN", 0), Alias("INPUTS_OPT_ALARM_IMPULSION_MODE_EN", 1)])),
      Some(OutputsConfig(1, [D(6)], [Alias("OUTPUTS_BUZZER", 0), Alias("OUTPUTS_RELAIS_CMD", 0)])),
      Some(0),
      None,
      None,
      if relay then " - TEMP. TELEGRAM RELAY" else if buzzer then " - TEMP. TELEGRAM BUZZER" else " - TEMP. TELEGRAM")
  }

  /** The variant macros of the temperature boards select the outputs and the relay. */
  lemma TempBoardModules(relay: bool, buzzer: bool)
    ensures var b := TempDomoticzBoard(relay, buzzer);
      (Outputs in b.modules <==> relay || buzzer) && (Relay in b.modules <==> relay)
      && Domoticz in b.modules && WebServer !in b.modules && StripLed !in b.modules
    ensures var b := TempTelegramBoard(relay, buzzer);
      Outputs in b.modules && (Relay in b.modules <==> relay)
      && Telegram in b.modules && Domoticz !in b.modules && WebServer !in b.modules
  {
  }

  /** BOARD_RING: a 12-pixel strip, a web server and four inputs. */
  function RingBoard(): (b: Board)
    ensures WellFormed(b)
    ensures Inputs in b.modules && b.stripPixels == Some(12)
  {
    Board(
      {Inputs, WebServer, StripLed} + TERMINAL,
      false,
      Some(InputsConfig(4, [Gpio(32), Gpio(4), Gpio(25), Gpio(26)], [IU, IN, IN, IA],
        [Alias("INPUTS_OPT_WEB_SERVER_DISPLAY", 0), Alias("INPUTS_PIR_DETECTOR", 1),
         Alias("INPUTS_PIR_DETECTOR_ENABLE", 2), Alias("INPUTS_PIR_DETECTOR_DELAY", 3)])),
      None,
      None,
      None,
      Some(12),
      " - RING")
  }

  /** The three strip-only boards: a web server driving a strip of `pixels` pixels, no I/O. */
  function StripOnlyBoard(pixels: nat, suffix: string): (b: Board)
    ensures WellFormed(b)
    ensures b.inputs.None? && b.outputs.None? && b.stripPixels == Some(pixels)
    ensures b.modules == {WebServer, StripLed} + TERMINAL
  {
    Board({WebServer, StripLed} + TERMINAL, false, None, None, None, None, Some(pixels), suffix)
  }

  /** BOARD_FEU_ROUGE: inputs and outputs on an IOI2C extension board, and a buzzer on output 6. */
  function FeuRougeBoard(): (b: Board)
    ensures WellFormed(b)
    ensures b.hasIoi2c && Inputs in b.modules && Outputs in b.modules
    ensures b.buzzers.Some? && b.buzzers.value.outputs == [6]
  {
    Board(
      {Inputs, Outputs, FeuRougeLogic, Buzzer} + TERMINAL,
      true,
      Some(InputsConfig(2, [Ioi2c(0), Ioi2c(1)], [IU, IU],
        [Alias("INPUTS_UNUSED_E1", 0), Alias("INPUTS_DOOR_SWITCH", 1)])),
      Some(OutputsConfig(7, [Ioi2c(0), Ioi2c(1), Ioi2c(2), Ioi2c(3), Ioi2c(4), Ioi2c(5), D(5)],
        [Alias("OUTPUTS_TRAFFIC_LIGHT_GREEN", 0), Alias("OUTPUTS_TRAFFIC_LIGHT_YELLOW", 1),
         Alias("OUTPUTS_TRAFFIC_LIGHT_RED", 2), Alias("OUTPUTS_UNUSED_S4", 3),
         Alias("OUTPUTS_UNUSED_S5", 4), Alias("OUTPUTS_UNUSED_S6", 5), Alias("OUTPUTS_BUZZER", 6)])),
      None,
      Some(BuzzersConfig(1, [6], [Alias("BUZZERS_ALARM", 0)])),
      None,
      " - FEU ROUGE")
  }

  /** The configuration the preprocessor produces for a build. */
  function Configure(build: Build): (b: Board)
    ensures WellFormed(b)
  {
    match build.board
    case TempDomoticz => TempDomoticzBoard(build.relay, build.buzzer)
    case TempTelegram => TempTelegramBoard(build.relay, build.buzzer)
    case Ring => RingBoard()
    case NeopixelWebThierry => StripOnlyBoard(140, " - NEOPIXEL_WEB_THIERRY")
    case NeopixelWeb => StripOnlyBoard(140, " - NEOPIXEL_WEB")
    case LightkitV2David => StripOnlyBoard(60, " - LIGHTKITV2 DAVID")
    case FeuRouge => FeuRougeBoard()
  }

  /** The `#error` directives of the file. */
  datatype CompileError =
    | RelayNeedsOutputs | TelnetNeedsTerm | SerialNeedsTerm | Ioi2cNeedsInputsAndOutputs
    | RingNeedsInputs
    | RelaisWithBuzzer(board: BoardId)   // the exclusivity check as written
    | RelayWithBuzzer(board: BoardId)    // the exclusivity check as intended

  /** The text each directive prints. */
  function Message(e: CompileError): string
  {
    match e
    case RelayNeedsOutputs => "MODULE_RELAY needs MODULE_OUTPUTS to work properly"
    case TelnetNeedsTerm => "MODULE_TELNET needs MODULE_TERM to work properly"
    case SerialNeedsTerm => "MODULE_SERIAL needs MODULE_TERM to work properly"
    case Ioi2cNeedsInputsAndOutputs => "HAS_IOI2C_BOARD needs MODULE_INPUTS and MODULE_OUTPUTS to work properly"
    case RingNeedsInputs => "BOARD_RING require MODULE_INPUTS"
    case RelaisWithBuzzer(TempDomoticz) => "BOARD_TEMP_DOMOTICZ_RELAIS cannot be defined with BOARD_TEMP_DOMOTICZ_BUZZER"
    case RelaisWithBuzzer(_) => "BOARD_TEMP_TELEGRAM_RELAIS cannot be defined with BOARD_TEMP_TELEGRAM_BUZZER"
    case RelayWithBuzzer(TempDomoticz) => "BOARD_TEMP_DOMOTICZ_RELAY cannot be defined with BOARD_TEMP_DOMOTICZ_BUZZER"
    case RelayWithBuzzer(_) => "BOARD_TEMP_TELEGRAM_RELAY cannot be defined with BOARD_TEMP_TELEGRAM_BUZZER"
  }

  /** One `#if ... #error ... #endif` block: the error, when its condition holds. */
  function Raise(fires: bool, e: CompileError): (errors: seq<CompileError>)
    ensures |errors| == if fires then 1 else 0
  {
    if fires then [e] else []
  }

  /** The errors of the final CHECKS block, in order, for the modules a board selects. */
  function DependencyErrors(b: Board): (errors: seq<CompileError>)
    ensures errors == [] <==> DependenciesHold(b)
  {
    Raise(Relay in b.modules && Outputs !in b.modules, RelayNeedsOutputs)
    + Raise(Telnet in b.modules && Term !in b.modules, TelnetNeedsTerm)
    + Raise(Serial in b.modules && Term !in b.modules, SerialNeedsTerm)
    + Raise(b.hasIoi2c && (Inputs !in b.modules || Outputs !in b.modules), Ioi2cNeedsInputsAndOutputs)
  }

  /** The per-board checks: RING requires its inputs, and the temperature boards test their variants. */
  function BoardErrors(build: Build, b: Board, exclusive: bool, e: CompileError): (errors: seq<CompileError>)
    ensures |errors| <= 1
  {
    match build.board
    case TempDomoticz => Raise(exclusive && build.buzzer, e)
    case TempTelegram => Raise(exclusive && build.buzzer, e)
    case Ring => Raise(Inputs !in b.modules, RingNeedsInputs)
    case _ => []
  }

  /**
   * The errors a build raises, as written: the two temperature boards test
   * the `_RELAIS` macro against the `_BUZZER` variant.
   */
  function CompileErrors(build: Build): (errors: seq<CompileError>)
    ensures errors == [] <==> !((build.board == TempDomoticz || build.board == TempTelegram) && build.relais && build.buzzer)
  {
    AllBoardsPassDependencyChecks(build);
    var b := Configure(build);
    BoardErrors(build, b, build.relais, RelaisWithBuzzer(build.board)) + DependencyErrors(b)
  }

  /** The checks as evidently intended: the exclusivity test reads the RELAY variant that selects the relay. */
  function IntendedCompileErrors(build: Build): (errors: seq<CompileError>)
    ensures errors == [] <==> !((build.board == TempDomoticz || build.board == TempTelegram) && build.relay && build.buzzer)
  {
    AllBoardsPassDependencyChecks(build);
    var b := Configure(build);
    BoardErrors(build, b, build.relay, RelayWithBuzzer(build.board)) + DependencyErrors(b)
  }

  /** A build the corrected checks accept. */
  predicate Buildable(build: Build)
  {
    IntendedCompileErrors(build) == []
  }

  /** Every board passes the dependency checks, whatever variant macros are defined. */
  lemma AllBoardsPassDependencyChecks(build: Build)
    ensures DependencyErrors(Configure(build)) == []
    ensures WellFormed(Configure(build))
  {
  }

  /**
   * As written, the exclusivity checks never fire unless the `_RELAIS`
   * macro is defined, which no variant selection does: a RELAY+BUZZER
   * temperature build is accepted, with both the relay and the outputs
   * switched on, although the corrected checks reject it.
   */
  lemma {:induction false} RelayBuzzerAcceptedAsWritten(board: BoardId)
    requires board == TempDomoticz || board == TempTelegram
    ensures var build := Build(board, true, true, false);
      CompileErrors(build) == [] && !Buildable(build)
      && Relay in Configure(build).modules && Outputs in Configure(build).modules
  {
  }

  /**
   * TEMP_DOMOTICZ declares two outputs but lists a single pin; the relay
   * command and the buzzer both use output 0.
   */
  lemma TempDomoticzOutputPins(relay: bool, buzzer: bool)
    ensures var o := TempDomoticzBoard(relay, buzzer).outputs.value; o.count == 2 && |o.pins| == 1
  {
  }
}
