/** Configuration resolution: the process-wide configuration and its getters, each of
    which falls back to a fixed default. */
module Configuration {
  import Text
  import opened Wrappers

  /** Rust's `u16`. */
  newtype u16 = x: int | 0 <= x < 0x1_0000

  /** The deserialised configuration file; every entry may be missing. */
  datatype Config = Config(
    webListen: Option<string>,
    webPort: Option<u16>,
    logLevel: Option<string>,
    logFile: Option<string>,
    model: Option<string>)

  const DefaultWebPort: string := "8633"
  const DefaultModel: string := "phi-2.Q4_0.gguf"
  const DefaultLogFile: string := "smail-server.log"
  const DefaultWebListen: string := "0.0.0.0"
  const DefaultLogLevel: string := "info"

  /** The recognised level names, indexed by the number `log_level` gives them. */
  const LevelNames: seq<string> := ["off", "critical", "error", "warning", "info", "debug", "trace"]

  /** The match in `log_level`: a recognised name gives its index, anything else 0. */
  function LevelOf(name: string): (n: nat)
    ensures n < |LevelNames|
    ensures forall i :: 0 <= i < |LevelNames| && LevelNames[i] == name ==> n == i
    ensures name !in LevelNames ==> n == 0
  {
    match name
    case "off" => 0
    case "critical" => 1
    case "error" => 2
    case "warning" => 3
    case "info" => 4
    case "debug" => 5
    case "trace" => 6
    case _ => 0
  }

  /** `GLOBAL_CONFIG`, the mutable static every getter reads. */
  class GlobalConfig {
    var current: Option<Config>

    /** Before any configuration is set the static is `None`. */
    constructor ()
      ensures current == None
    {
      current := None;
    }

    /** `set_global_config`: replaces whatever was there, so every getter now reflects
        `config` alone. */
    method SetGlobalConfig(config: Config)
      modifies this
      ensures current == Some(config)
      ensures LogLevelStr() == (if config.logLevel.Some? then config.logLevel.value else DefaultLogLevel)
      ensures LogFile() == (if config.logFile.Some? then config.logFile.value else DefaultLogFile)
      ensures WebListenOrDefault() == (if config.webListen.Some? then config.webListen.value else DefaultWebListen)
      ensures WebPortOrDefault() == (if config.webPort.Some? then Text.Decimal(config.webPort.value as nat) else DefaultWebPort)
      ensures ModelOrDefault() == (if config.model.Some? then config.model.value else DefaultModel)
    {
      current := Some(config);
    }

    /** `log_level_str`: the configured level name, "info" without one. */
    function LogLevelStr(): (s: string)
      reads this
      ensures current.Some? && current.value.logLevel.Some? ==> s == current.value.logLevel.value
      ensures current.None? || current.value.logLevel.None? ==> s == "info"
    {
      if current.Some? && current.value.logLevel.Some? then current.value.logLevel.value else DefaultLogLevel
    }

    /** `log_level`: the index of the configured name among the level names, 0 ("off")
        for an unrecognised name, 4 ("info") when nothing is configured. */
    function LogLevel(): (n: nat)
      reads this
      ensures n <= 6
      ensures forall i :: 0 <= i < |LevelNames| && LevelNames[i] == LogLevelStr() ==> n == i
      ensures LogLevelStr() !in LevelNames ==> n == 0
      ensures current.None? || current.value.logLevel.None? ==> n == 4
    {
      LevelOf(LogLevelStr())
    }

    /** `log_file`: the configured file, "smail-server.log" without one. */
    function LogFile(): (s: string)
      reads this
      ensures current.Some? && current.value.logFile.Some? ==> s == current.value.logFile.value
      ensures current.None? || current.value.logFile.None? ==> s == "smail-server.log"
    {
      if current.Some? && current.value.logFile.Some? then current.value.logFile.value else DefaultLogFile
    }

    /** `config_web_listen_or_default`: the configured address, "0.0.0.0" without one. */
    function WebListenOrDefault(): (s: string)
      reads this
      ensures current.Some? && current.value.webListen.Some? ==> s == current.value.webListen.value
      ensures current.None? || current.value.webListen.None? ==> s == "0.0.0.0"
    {
      if current.Some? && current.value.webListen.Some? then current.value.webListen.value else DefaultWebListen
    }

    /** `config_web_port_or_default`: the configured port in decimal, "8633" without one.
        The rendering is canonical (no leading zero) and reads back as the configured number. */
    function WebPortOrDefault(): (s: string)
      reads this
      ensures 1 <= |s| && forall i :: 0 <= i < |s| ==> Text.IsDigit(s[i])
      ensures |s| > 1 ==> s[0] != '0'
      ensures current.Some? && current.value.webPort.Some? ==> Text.DecimalValue(s) == current.value.webPort.value as nat
      ensures current.None? || current.value.webPort.None? ==> s == "8633"
    {
      if current.Some? && current.value.webPort.Some? then
        var port := current.value.webPort.value as nat;
        Text.DecimalRoundTrip(port);
        Text.Decimal(port)
      else
        DefaultWebPort
    }

    /** `config_model_or_default`: the configured model, "phi-2.Q4_0.gguf" without one. */
    function ModelOrDefault(): (s: string)
      reads this
      ensures current.Some? && current.value.model.Some? ==> s == current.value.model.value
      ensures current.None? || current.value.model.None? ==> s == "phi-2.Q4_0.gguf"
    {
      if current.Some? && current.value.model.Some? then current.value.model.value else DefaultModel
    }
  }
}
