/** The SDK's logger settings (`logger.LoggerConfig`) and the defaults `Initial` fills in
    for every field left empty or zero. */
module LoggerConfig {
  import opened Val

  /** The fields every log line carries (`LogConfigMeta`). */
  datatype LogConfigMeta = LogConfigMeta(
    timeKey: string, levelKey: string, nameKey: string, callerKey: string,
    messageKey: string, stacktraceKey: string, appName: string, env: string)

  /** The settings a `LoggerConfig` holds, as one value. */
  datatype Settings = Settings(
    level: string, outputDir: string, fileNameFormat: string,
    maxSize: int, maxBackups: int, maxAge: int,
    compress: bool, showCaller: bool, enableConsole: bool, enableJson: bool,
    enableStackTrace: bool, stackTraceLevel: string, timeFormat: string,
    meta: LogConfigMeta, customFields: map<string, Any>)

  const DefaultLevel: string := "info"
  const DefaultOutputDir: string := "logs"
  const DefaultTimeFormat: string := "2006-01-02 15:04:05"
  const DefaultFileNameFormat: string := "APP-%Y%m%d.log"
  const DefaultStackTraceLevel: string := "error"
  const DefaultMaxSize: int := 200
  const DefaultMaxBackups: int := 30
  const DefaultMaxAge: int := 7

  /** A text setting: kept when set, the default when empty. */
  function TextOr(v: string, dflt: string): (r: string)
    ensures v != "" ==> r == v
    ensures v == "" ==> r == dflt
  {
    if v == "" then dflt else v
  }

  /** A count setting: kept when non-zero (negative included), the default when zero. */
  function CountOr(v: int, dflt: int): (r: int)
    ensures v != 0 ==> r == v
    ensures v == 0 ==> r == dflt
  {
    if v == 0 then dflt else v
  }

  /** The metadata keys after `Initial`; the application name and environment have no
      default. */
  function InitialMeta(m: LogConfigMeta): LogConfigMeta {
    LogConfigMeta(
      TextOr(m.timeKey, "time"), TextOr(m.levelKey, "level"), TextOr(m.nameKey, "logging"),
      TextOr(m.callerKey, "caller"), TextOr(m.messageKey, "msg"),
      TextOr(m.stacktraceKey, "stack"), m.appName, m.env)
  }

  /** The settings after `Initial`. */
  function Initialized(s: Settings): Settings {
    s.(level := TextOr(s.level, DefaultLevel), outputDir := TextOr(s.outputDir, DefaultOutputDir),
       maxSize := CountOr(s.maxSize, DefaultMaxSize), maxBackups := CountOr(s.maxBackups, DefaultMaxBackups),
       maxAge := CountOr(s.maxAge, DefaultMaxAge), timeFormat := TextOr(s.timeFormat, DefaultTimeFormat),
       fileNameFormat := TextOr(s.fileNameFormat, DefaultFileNameFormat),
       stackTraceLevel := TextOr(s.stackTraceLevel, DefaultStackTraceLevel), meta := InitialMeta(s.meta))
  }

  /** Every defaulted field is set afterwards; a field already set keeps its value; the
      switches, custom fields, application name and environment are never touched. */
  lemma InitializedFields(s: Settings)
    ensures var r := Initialized(s);
      && r.level != "" && r.outputDir != "" && r.fileNameFormat != "" && r.timeFormat != ""
      && r.stackTraceLevel != "" && r.maxSize != 0 && r.maxBackups != 0 && r.maxAge != 0
      && r.meta.timeKey != "" && r.meta.levelKey != "" && r.meta.nameKey != ""
      && r.meta.callerKey != "" && r.meta.messageKey != "" && r.meta.stacktraceKey != ""
    ensures var r := Initialized(s);
      && (s.level != "" ==> r.level == s.level)
      && (s.outputDir != "" ==> r.outputDir == s.outputDir)
      && (s.fileNameFormat != "" ==> r.fileNameFormat == s.fileNameFormat)
      && (s.timeFormat != "" ==> r.timeFormat == s.timeFormat)
      && (s.stackTraceLevel != "" ==> r.stackTraceLevel == s.stackTraceLevel)
      && (s.maxSize != 0 ==> r.maxSize == s.maxSize)
      && (s.maxBackups != 0 ==> r.maxBackups == s.maxBackups)
      && (s.maxAge != 0 ==> r.maxAge == s.maxAge)
      && (s.meta.timeKey != "" ==> r.meta.timeKey == s.meta.timeKey)
      && (s.meta.levelKey != "" ==> r.meta.levelKey == s.meta.levelKey)
      && (s.meta.nameKey != "" ==> r.meta.nameKey == s.meta.nameKey)
      && (s.meta.callerKey != "" ==> r.meta.callerKey == s.meta.callerKey)
      && (s.meta.messageKey != "" ==> r.meta.messageKey == s.meta.messageKey)
      && (s.meta.stacktraceKey != "" ==> r.meta.stacktraceKey == s.meta.stacktraceKey)
    ensures var r := Initialized(s);
      && r.compress == s.compress && r.showCaller == s.showCaller
      && r.enableConsole == s.enableConsole && r.enableJson == s.enableJson
      && r.enableStackTrace == s.enableStackTrace && r.customFields == s.customFields
      && r.meta.appName == s.meta.appName && r.meta.env == s.meta.env
  {
  }

  /** Running `Initial` twice is running it once. */
  lemma InitializedIdempotent(s: Settings)
    ensures Initialized(Initialized(s)) == Initialized(s)
  {
  }

  /** A configuration with everything set is its own initialisation. */
  lemma CompleteUnchanged(s: Settings)
    requires s.level != "" && s.outputDir != "" && s.fileNameFormat != "" && s.timeFormat != ""
    requires s.stackTraceLevel != "" && s.maxSize != 0 && s.maxBackups != 0 && s.maxAge != 0
    requires s.meta.timeKey != "" && s.meta.levelKey != "" && s.meta.nameKey != ""
    requires s.meta.callerKey != "" && s.meta.messageKey != "" && s.meta.stacktraceKey != ""
    ensures Initialized(s) == s
  {
  }

  /** The zero configuration (`new(LoggerConfig)`). */
  const Zero: Settings := Settings("", "", "", 0, 0, 0, false, false, false, false, false,
    "", "", LogConfigMeta("", "", "", "", "", "", "", ""), map[])

  /** `DefaultLogConfig`'s settings, field by field. */
  lemma DefaultsListed()
    ensures Initialized(Zero) == Settings("info", "logs", "APP-%Y%m%d.log", 200, 30, 7,
      false, false, false, false, false, "error", "2006-01-02 15:04:05",
      LogConfigMeta("time", "level", "logging", "caller", "msg", "stack", "", ""), map[])
  {
  }

  class LoggerConfig {
    var level: string
    var outputDir: string
    var fileNameFormat: string
    var maxSize: int
    var maxBackups: int
    var maxAge: int
    var compress: bool
    var showCaller: bool
    var enableConsole: bool
    var enableJson: bool
    var enableStackTrace: bool
    var stackTraceLevel: string
    var timeFormat: string
    var logConfigMeta: LogConfigMeta
    var customFields: map<string, Any>

    /** The fields, gathered. */
    function Current(): Settings
      reads this
    {
      Settings(level, outputDir, fileNameFormat, maxSize, maxBackups, maxAge, compress,
        showCaller, enableConsole, enableJson, enableStackTrace, stackTraceLevel, timeFormat,
        logConfigMeta, customFields)
    }

    /** The fields `Initial` never touches. */
    function Switches(): (bool, bool, bool, bool, bool, LogConfigMeta, map<string, Any>)
      reads this
    {
      (compress, showCaller, enableConsole, enableJson, enableStackTrace, logConfigMeta, customFields)
    }

    /** `new(LoggerConfig)`. */
    constructor ()
      ensures Current() == Zero
    {
      level, outputDir, fileNameFormat := "", "", "";
      maxSize, maxBackups, maxAge := 0, 0, 0;
      compress, showCaller, enableConsole, enableJson, enableStackTrace := false, false, false, false, false;
      stackTraceLevel, timeFormat := "", "";
      logConfigMeta := LogConfigMeta("", "", "", "", "", "", "", "");
      customFields := map[];
    }

    /** `Initial`: each empty or zero field gets its default. */
    method Initial()
      modifies this
      ensures Current() == Initialized(old(Current()))
    {
      InitialRotation();
      InitialFormats();
      logConfigMeta := InitialMeta(logConfigMeta);
    }

    /** The level, directory and rotation defaults of `Initial`. */
    method InitialRotation()
      modifies this
      ensures level == TextOr(old(level), DefaultLevel)
      ensures outputDir == TextOr(old(outputDir), DefaultOutputDir)
      ensures maxSize == CountOr(old(maxSize), DefaultMaxSize)
      ensures maxBackups == CountOr(old(maxBackups), DefaultMaxBackups)
      ensures maxAge == old(maxAge) && timeFormat == old(timeFormat)
      ensures fileNameFormat == old(fileNameFormat) && stackTraceLevel == old(stackTraceLevel)
      ensures Switches() == old(Switches())
    {
      if level == "" { level := DefaultLevel; }
      if outputDir == "" { outputDir := DefaultOutputDir; }
      if maxSize == 0 { maxSize := DefaultMaxSize; }
      if maxBackups == 0 { maxBackups := DefaultMaxBackups; }
    }

    /** The age and format defaults of `Initial`. */
    method InitialFormats()
      modifies this
      ensures maxAge == CountOr(old(maxAge), DefaultMaxAge)
      ensures timeFormat == TextOr(old(timeFormat), DefaultTimeFormat)
      ensures fileNameFormat == TextOr(old(fileNameFormat), DefaultFileNameFormat)
      ensures stackTraceLevel == TextOr(old(stackTraceLevel), DefaultStackTraceLevel)
      ensures level == old(level) && outputDir == old(outputDir)
      ensures maxSize == old(maxSize) && maxBackups == old(maxBackups)
      ensures Switches() == old(Switches())
    {
      if maxAge == 0 { maxAge := DefaultMaxAge; }
      if timeFormat == "" { timeFormat := DefaultTimeFormat; }
      if fileNameFormat == "" { fileNameFormat := DefaultFileNameFormat; }
      if stackTraceLevel == "" { stackTraceLevel := DefaultStackTraceLevel; }
    }
  }

  /** `DefaultLogConfig`: the zero configuration after `Initial`. */
  method DefaultLogConfig() returns (cfg: LoggerConfig)
    ensures fresh(cfg) && cfg.Current() == Initialized(Zero)
  {
    cfg := new LoggerConfig();
    cfg.Initial();
  }
}
