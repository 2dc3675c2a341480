// LogManager: the process-wide logger facade. Its static state (the
// `_isInitialized` flag and the `_logger` it guards) becomes the fields of
// one LogManager object; what the Serilog logger is asked to write is kept
// as a sequence of events instead of going to console and file sinks.
// ContextualLogger and PerformanceTracker delegate to it after building
// their message and operation names.

module LoggerManager {
  import opened DotNet

  datatype Level = Debug | Information | Warning | Error

  /** A property value handed to a message template: a string, a number, or
      an object destructured with `@`. */
  datatype Arg = Text(s: string) | Number(n: int) | Structured

  /** One call on the Serilog logger: level, message template, positional
      property values, the message of the exception attached, if any, and
      the "Context" property a `context` overload adds with `ForContext`. */
  datatype LogEvent = LogEvent(level: Level, template: string, args: seq<Arg>, exception: Option<string>,
                               context: Option<Arg>)

  /** The value Serilog gives the k-th placeholder of the template: the
      positional values fill the placeholders in order, and a placeholder
      beyond them is left unfilled. */
  function PlaceholderValue(e: LogEvent, k: nat): Option<Arg>
  {
    if k < |e.args| then Some(e.args[k]) else None
  }

  const DefaultApplicationName: string := "SmartBill"
  const DefaultMaxFileSizeMB: Int32 := 40

  /** `maxFileSizeMB * 1024 * 1024` evaluated in unchecked 32-bit int. */
  function MaxFileSizeBytes(maxFileSizeMB: Int32): (bytes: Int32)
    // the true product when it fits in an int ...
    ensures -2048 <= maxFileSizeMB < 2048 ==> bytes == maxFileSizeMB * 1048576
    // ... and otherwise the true product wrapped around modulo 2^32
    ensures (bytes - maxFileSizeMB * 1048576) % 0x1_0000_0000 == 0
  {
    var kilo := WrapInt32(maxFileSizeMB * 1024);
    var bytes := WrapInt32(kilo * 1024);
    WrapCongruent(kilo, maxFileSizeMB * 1024, 1024);
    bytes
  }

  /** Scaling both sides keeps a congruence modulo 2^32. */
  lemma WrapCongruent(a: int, b: int, k: nat)
    requires (a - b) % 0x1_0000_0000 == 0
    ensures (WrapInt32(a * k) - b * k) % 0x1_0000_0000 == 0
  {
    var q := (a - b) / 0x1_0000_0000;
    assert a - b == q * 0x1_0000_0000;
    assert a * k - b * k == (q * k) * 0x1_0000_0000;
    var w := WrapInt32(a * k);
    var p := (w - a * k) / 0x1_0000_0000;
    assert w - a * k == p * 0x1_0000_0000;
    assert w - b * k == (p + q * k) * 0x1_0000_0000;
  }

  /** The byte limit is exact below 2048 MB (the default 40 MB gives
      41943040 bytes); 2048 MB wraps around to a negative limit and 4096 MB
      to zero. */
  lemma MaxFileSizeBytesRange(maxFileSizeMB: Int32)
    ensures -2048 <= maxFileSizeMB < 2048 ==> MaxFileSizeBytes(maxFileSizeMB) == maxFileSizeMB * 1048576
    ensures MaxFileSizeBytes(DefaultMaxFileSizeMB) == 41943040
    ensures maxFileSizeMB == 2048 ==> MaxFileSizeBytes(maxFileSizeMB) == Int32Min
    ensures maxFileSizeMB == 4096 ==> MaxFileSizeBytes(maxFileSizeMB) == 0
  {
  }

  /** The settings a logger was created with. */
  datatype LoggerConfig = LoggerConfig(applicationName: string, logDirectory: string, fileSizeLimitBytes: Int32)

  /** What Initialize writes once the new logger is in place. The process
      id is passed to `LogInfo` as a lone plain value, so C# picks the
      overload with a `context` parameter: the id becomes the "Context"
      property and `{ProcessId}` is left unfilled. */
  function StartupEvents(config: LoggerConfig, maxFileSizeMB: Int32, processId: int): (es: seq<LogEvent>)
    ensures |es| == 5 && forall i :: 0 <= i < 5 ==> es[i].level == Information && es[i].exception.None?
    ensures es[0].args == [] && es[1].args == [Text(config.applicationName)]
    ensures es[2].args == [Text(config.logDirectory)] && es[3].args == [Number(maxFileSizeMB)]
    ensures forall i :: 0 <= i < 4 ==> es[i].context.None?
    ensures PlaceholderValue(es[4], 0).None? && es[4].context == Some(Number(processId))
  {
    [ LogEvent(Information, "=== Logging System Initialized ===", [], None, None),
      LogEvent(Information, "Application: {ApplicationName}", [Text(config.applicationName)], None, None),
      LogEvent(Information, "Log Directory: {LogDirectory}", [Text(config.logDirectory)], None, None),
      LogEvent(Information, "Max File Size: {MaxFileSizeMB} MB", [Number(maxFileSizeMB)], None, None),
      LogEvent(Information, ProcessIdTemplate, [], None, Some(Number(processId))) ]
  }

  const ProcessIdTemplate: string := "Process ID: {ProcessId}"

  /** The process-id event as the call was evidently meant: the id fills
      `{ProcessId}`. */
  function IntendedProcessIdEvent(processId: int): (e: LogEvent)
    ensures e.level == Information && e.template == ProcessIdTemplate
    ensures PlaceholderValue(e, 0) == Some(Number(processId)) && e.context.None?
  {
    LogEvent(Information, ProcessIdTemplate, [Number(processId)], None, None)
  }

  /** As written, the startup sequence never shows the process id in its
      message: `{ProcessId}` is unfilled, where the intended event fills it. */
  lemma ProcessIdPlaceholderUnfilled(config: LoggerConfig, maxFileSizeMB: Int32, processId: int)
    ensures PlaceholderValue(StartupEvents(config, maxFileSizeMB, processId)[4], 0).None?
    ensures StartupEvents(config, maxFileSizeMB, processId)[4] != IntendedProcessIdEvent(processId)
  {
  }

  /** LogSecurity's user property: the user id, or "Unknown" for null. */
  function SecurityUser(userId: Option<string>): (u: string)
    ensures userId.Some? ==> u == userId.value
    ensures userId.None? ==> u == "Unknown"
  {
    match userId
    case Some(id) => id
    case None => "Unknown"
  }

  /** The structured events the dedicated logging calls write. Each has an
      optional trailing object; without it the template ends before the
      object's placeholder. */

  const MethodEntryTemplate := "\U{2192} Entering {ClassName}.{MethodName}"
  const MethodExitTemplate := "\U{2190} Exiting {ClassName}.{MethodName}"
  const PerformanceTemplate := "\U{23F1}\U{FE0F} Performance: {Operation} completed in {Duration}ms"
  const BusinessTemplate := "\U{1F3E2} Business: {Operation} - {Status}"
  const SecurityTemplate := "\U{1F512} Security: {SecurityEvent} | User: {UserId}"

  function MethodEntryEvent(className: string, methodName: string, parameters: Option<Arg>): (e: LogEvent)
    ensures |e.args| == if parameters.Some? then 3 else 2
    ensures e.level == Debug && e.exception.None?
    ensures e.args == [Text(className), Text(methodName)] + (if parameters.Some? then [parameters.value] else [])
    ensures e.template == MethodEntryTemplate + (if parameters.Some? then " with parameters: {@Parameters}" else "")
  {
    if parameters.Some? then
      LogEvent(Debug, MethodEntryTemplate + " with parameters: {@Parameters}",
               [Text(className), Text(methodName), parameters.value], None, None)
    else
      LogEvent(Debug, MethodEntryTemplate, [Text(className), Text(methodName)], None, None)
  }

  function MethodExitEvent(className: string, methodName: string, result: Option<Arg>): (e: LogEvent)
    ensures |e.args| == if result.Some? then 3 else 2
    ensures e.level == Debug && e.exception.None?
    ensures e.args == [Text(className), Text(methodName)] + (if result.Some? then [result.value] else [])
    ensures e.template == MethodExitTemplate + (if result.Some? then " with result: {@Result}" else "")
  {
    if result.Some? then
      LogEvent(Debug, MethodExitTemplate + " with result: {@Result}",
               [Text(className), Text(methodName), result.value], None, None)
    else
      LogEvent(Debug, MethodExitTemplate, [Text(className), Text(methodName)], None, None)
  }

  function PerformanceEvent(operation: string, durationMs: int, additionalData: Option<Arg>): (e: LogEvent)
    ensures |e.args| == if additionalData.Some? then 3 else 2
    ensures e.level == Information && e.exception.None?
    ensures e.args == [Text(operation), Number(durationMs)] + (if additionalData.Some? then [additionalData.value] else [])
    ensures e.template == PerformanceTemplate + (if additionalData.Some? then " {@AdditionalData}" else "")
  {
    if additionalData.Some? then
      LogEvent(Information, PerformanceTemplate + " {@AdditionalData}",
               [Text(operation), Number(durationMs), additionalData.value], None, None)
    else
      LogEvent(Information, PerformanceTemplate,
               [Text(operation), Number(durationMs)], None, None)
  }

  function BusinessEvent(operation: string, status: string, data: Option<Arg>): (e: LogEvent)
    ensures |e.args| == if data.Some? then 3 else 2
    ensures e.level == Information && e.exception.None?
    ensures e.args == [Text(operation), Text(status)] + (if data.Some? then [data.value] else [])
    ensures e.template == BusinessTemplate + (if data.Some? then " {@Data}" else "")
  {
    if data.Some? then
      LogEvent(Information, BusinessTemplate + " {@Data}",
               [Text(operation), Text(status), data.value], None, None)
    else
      LogEvent(Information, BusinessTemplate, [Text(operation), Text(status)], None, None)
  }

  /** LogSecurity writes a warning naming the user, "Unknown" when none is given. */
  function SecurityEvent(securityEvent: string, userId: Option<string>, details: Option<Arg>): (e: LogEvent)
    ensures |e.args| == if details.Some? then 3 else 2
    ensures e.level == Warning && e.exception.None?
    ensures e.args == [Text(securityEvent), Text(SecurityUser(userId))] + (if details.Some? then [details.value] else [])
    ensures e.template == SecurityTemplate + (if details.Some? then " {@Details}" else "")
  {
    if details.Some? then
      LogEvent(Warning, SecurityTemplate + " {@Details}",
               [Text(securityEvent), Text(SecurityUser(userId)), details.value], None, None)
    else
      LogEvent(Warning, SecurityTemplate,
               [Text(securityEvent), Text(SecurityUser(userId))], None, None)
  }

  // ------------------------------------------------------------ log cleanup

  /** A file in the log directory matching `*.txt`. */
  datatype LogFile = LogFile(path: string, creationTime: DateTime)

  /** The files older than the cutoff, in listing order. */
  function Expired(files: seq<LogFile>, cutoff: DateTime): (r: seq<LogFile>)
    ensures |r| <= |files|
    ensures forall f :: f in r <==> f in files && f.creationTime < cutoff
  {
    if files == [] then []
    else if files[0].creationTime < cutoff then [files[0]] + Expired(files[1..], cutoff)
    else Expired(files[1..], cutoff)
  }

  /** What the deletion loop of CleanupOldLogs achieves: the files it
      deleted, in order, and the file whose deletion threw, if any (the loop
      stops there). */
  datatype CleanupRun = CleanupRun(deleted: seq<LogFile>, failedOn: Option<LogFile>)

  function Cleanup(files: seq<LogFile>, cutoff: DateTime, deleteSucceeds: string -> bool): CleanupRun
  {
    if files == [] then CleanupRun([], None)
    else if files[0].creationTime < cutoff then
      if deleteSucceeds(files[0].path) then
        var rest := Cleanup(files[1..], cutoff, deleteSucceeds);
        CleanupRun([files[0]] + rest.deleted, rest.failedOn)
      else CleanupRun([], Some(files[0]))
    else Cleanup(files[1..], cutoff, deleteSucceeds)
  }

  /** The deletion loop deletes expired files and nothing else, in listing
      order; when no deletion throws it deletes exactly the expired files,
      and when one throws it stopped at the first expired file that could not
      be deleted, having deleted every expired file before it. */
  lemma {:induction false} CleanupDeletesExactlyExpired(files: seq<LogFile>, cutoff: DateTime, deleteSucceeds: string -> bool)
    ensures var run := Cleanup(files, cutoff, deleteSucceeds);
      && (forall f :: f in run.deleted ==> f in files && f.creationTime < cutoff && deleteSucceeds(f.path))
      && (run.failedOn.None? <==> forall f :: f in Expired(files, cutoff) ==> deleteSucceeds(f.path))
      && (run.failedOn.None? ==> run.deleted == Expired(files, cutoff))
      && (run.failedOn.Some? ==>
            && run.failedOn.value in files && run.failedOn.value.creationTime < cutoff
            && !deleteSucceeds(run.failedOn.value.path)
            && run.deleted + [run.failedOn.value] <= Expired(files, cutoff))
  {
    if files != [] {
      CleanupDeletesExactlyExpired(files[1..], cutoff, deleteSucceeds);
      var run := Cleanup(files, cutoff, deleteSucceeds);
      var rest := Cleanup(files[1..], cutoff, deleteSucceeds);
      assert forall f :: f in files[1..] ==> f in files;
      if files[0].creationTime < cutoff {
        assert Expired(files, cutoff) == [files[0]] + Expired(files[1..], cutoff);
        if deleteSucceeds(files[0].path) {
          assert run.deleted == [files[0]] + rest.deleted;
          if rest.failedOn.Some? {
            assert run.deleted + [run.failedOn.value] == [files[0]] + (rest.deleted + [rest.failedOn.value]);
          }
        } else {
          assert files[0] in Expired(files, cutoff);
        }
      } else {
        assert Expired(files, cutoff) == Expired(files[1..], cutoff);
      }
    }
  }

  /** The `foreach` of CleanupOldLogs: delete each file created before the
      cutoff and count it; a deletion that throws ends the loop. */
  method DeleteExpired(files: seq<LogFile>, cutoff: DateTime, deleteSucceeds: string -> bool)
    returns (deleted: seq<LogFile>, failedOn: Option<LogFile>, deletedCount: nat)
    ensures CleanupRun(deleted, failedOn) == Cleanup(files, cutoff, deleteSucceeds)
    ensures deletedCount == |deleted|
  {
    deleted, failedOn, deletedCount := [], None, 0;
    var i := 0;
    while i < |files|
      invariant 0 <= i <= |files|
      invariant deletedCount == |deleted|
      invariant Cleanup(files, cutoff, deleteSucceeds)
                == var rest := Cleanup(files[i..], cutoff, deleteSucceeds);
                   CleanupRun(deleted + rest.deleted, rest.failedOn)
    {
      var file := files[i];
      assert files[i..][0] == file && files[i..][1..] == files[i + 1..];
      if file.creationTime < cutoff {
        if !deleteSucceeds(file.path) {
          failedOn := Some(file);
          return;
        }
        deleted := deleted + [file];
        deletedCount := deletedCount + 1;
      }
      i := i + 1;
    }
    assert files[i..] == [];
  }

  /** The cutoff `now.AddDays(-keepDays)`, or None when it falls outside the
      range of DateTime (AddDays then throws). For keepDays = int.MinValue the
      C# negation wraps back to int.MinValue; the cutoff is out of range
      either way. */
  function CleanupCutoff(now: DateTime, keepDays: Int32): (cutoff: Option<DateTime>)
    ensures cutoff.Some? ==> cutoff.value == now - keepDays * SecondsPerDay
    ensures cutoff.Some? <==> 0 <= now - keepDays * SecondsPerDay <= MaxDateTime
  {
    var c := AddDays(now, -(keepDays as int));
    if 0 <= c <= MaxDateTime then Some(c) else None
  }

  const CleanupCompletedTemplate: string := "Log cleanup completed. Deleted {DeletedCount} old log files older than {KeepDays} days"
  const CleanupFailedTemplate: string := "Failed to cleanup old log files"

  /** The completion event as CleanupOldLogs writes it. `deletedCount` and
      `keepDays` are two plain values, so C# picks the `LogInfo` overload
      with a `context` parameter: the count becomes the "Context" property,
      `{DeletedCount}` shows keepDays and `{KeepDays}` is left unfilled. */
  function CleanupCompletedEvent(deletedCount: nat, keepDays: Int32): (e: LogEvent)
    ensures e.level == Information && e.template == CleanupCompletedTemplate && e.exception.None?
    ensures PlaceholderValue(e, 0) == Some(Number(keepDays)) && PlaceholderValue(e, 1).None?
    ensures e.context == Some(Number(deletedCount))
  {
    LogEvent(Information, CleanupCompletedTemplate, [Number(keepDays)], None, Some(Number(deletedCount)))
  }

  /** The completion event as evidently meant: `{DeletedCount}` shows the
      count and `{KeepDays}` the retention. */
  function IntendedCleanupCompletedEvent(deletedCount: nat, keepDays: Int32): (e: LogEvent)
    ensures e.level == Information && e.template == CleanupCompletedTemplate && e.exception.None?
    ensures PlaceholderValue(e, 0) == Some(Number(deletedCount))
    ensures PlaceholderValue(e, 1) == Some(Number(keepDays)) && e.context.None?
  {
    LogEvent(Information, CleanupCompletedTemplate, [Number(deletedCount), Number(keepDays)], None, None)
  }

  /** Whenever the count differs from keepDays the message reports the wrong
      count (3 files deleted with the default 30 days reads "Deleted 30"),
      and in every case the written event is not the intended one. */
  lemma CleanupCountMisreported(deletedCount: nat, keepDays: Int32)
    ensures deletedCount != keepDays ==>
              PlaceholderValue(CleanupCompletedEvent(deletedCount, keepDays), 0) != Some(Number(deletedCount))
    ensures CleanupCompletedEvent(deletedCount, keepDays) != IntendedCleanupCompletedEvent(deletedCount, keepDays)
  {
  }

  // ---------------------------------------------------------- the log manager

  class LogManager {
    /** The entry assembly's name, if any; "SmartBill" stands in for none. */
    const entryAssemblyName: Option<string>
    /** Path.Combine(AppDomain.CurrentDomain.BaseDirectory, "Logs"). */
    const defaultLogDirectory: string
    const processId: int

    /** `_isInitialized`. */
    var isInitialized: bool
    /** Whether `_logger` is a live logger, as opposed to none yet or one
        closed by Log.CloseAndFlush. */
    var loggerOpen: bool
    /** How many loggers Initialize has built. */
    var loggersCreated: nat
    var config: LoggerConfig
    /** Everything handed to `_logger`, oldest first. */
    var events: seq<LogEvent>

    constructor (entryAssemblyName: Option<string>, defaultLogDirectory: string, processId: int)
      ensures this.entryAssemblyName == entryAssemblyName && this.defaultLogDirectory == defaultLogDirectory
      ensures this.processId == processId
      ensures !isInitialized && !loggerOpen && loggersCreated == 0 && events == []
    {
      this.entryAssemblyName := entryAssemblyName;
      this.defaultLogDirectory := defaultLogDirectory;
      this.processId := processId;
      isInitialized := false;
      loggerOpen := false;
      loggersCreated := 0;
      config := LoggerConfig("", "", 0);
      events := [];
    }

    /** The application name EnsureInitialized and ForceLogRollover pass. */
    function AutoApplicationName(): string
    {
      match entryAssemblyName
      case Some(name) => name
      case None => DefaultApplicationName
    }

    /** The settings Initialize uses for the given arguments. */
    function ConfigFor(applicationName: string, customLogPath: Option<string>, maxFileSizeMB: Int32): LoggerConfig
    {
      var directory := match customLogPath case Some(p) => p case None => defaultLogDirectory;
      LoggerConfig(applicationName, directory, MaxFileSizeBytes(maxFileSizeMB))
    }

    /** The settings of a logger built without arguments. */
    function AutoConfig(): LoggerConfig
    {
      ConfigFor(AutoApplicationName(), None, DefaultMaxFileSizeMB)
    }

    /** The state after EnsureInitialized: untouched if the flag was set,
        otherwise a fresh logger with the automatic settings that has written
        its startup messages. */
    twostate predicate EnsuredInitialized()
      reads this
    {
      && isInitialized
      && (old(isInitialized) ==>
            events == old(events) && loggerOpen == old(loggerOpen)
            && loggersCreated == old(loggersCreated) && config == old(config))
      && (!old(isInitialized) ==>
            && loggerOpen && loggersCreated == old(loggersCreated) + 1 && config == AutoConfig()
            && events == old(events) + StartupEvents(AutoConfig(), DefaultMaxFileSizeMB, processId))
    }

    /** The state after a public logging call that wrote `e`: the logger was
        made ready as by EnsureInitialized, and `e` is the last event. */
    twostate predicate Logged(new e: LogEvent)
      reads this
    {
      && isInitialized
      && |events| > |old(events)|
      && events[|events| - 1] == e
      && (old(isInitialized) ==>
            events == old(events) + [e] && loggerOpen == old(loggerOpen)
            && loggersCreated == old(loggersCreated) && config == old(config))
      && (!old(isInitialized) ==>
            && loggerOpen && loggersCreated == old(loggersCreated) + 1 && config == AutoConfig()
            && events == old(events) + StartupEvents(AutoConfig(), DefaultMaxFileSizeMB, processId) + [e])
    }

    /** Initialize: does nothing when already initialised; otherwise builds a
        logger with the given settings, sets the flag, and logs the startup
        messages (their own EnsureInitialized is then a no-op). */
    method Initialize(applicationName: string, customLogPath: Option<string>, maxFileSizeMB: Int32)
      modifies this
      ensures isInitialized
      ensures old(isInitialized) ==>
                events == old(events) && loggerOpen == old(loggerOpen)
                && loggersCreated == old(loggersCreated) && config == old(config)
      ensures !old(isInitialized) ==>
                && loggerOpen && loggersCreated == old(loggersCreated) + 1
                && config == ConfigFor(applicationName, customLogPath, maxFileSizeMB)
                && events == old(events) + StartupEvents(config, maxFileSizeMB, processId)
    {
      if isInitialized {
        return;
      }
      config := ConfigFor(applicationName, customLogPath, maxFileSizeMB);
      loggerOpen := true;
      loggersCreated := loggersCreated + 1;
      isInitialized := true;
      events := events + StartupEvents(config, maxFileSizeMB, processId);
    }

    /** EnsureInitialized: Initialize with the automatic settings unless the
        flag is already set. */
    method EnsureInitialized()
      modifies this
      ensures EnsuredInitialized()
    {
      if !isInitialized {
        Initialize(AutoApplicationName(), None, DefaultMaxFileSizeMB);
      }
    }

    /** Every public entry point: make sure a logger exists, then hand it
        the event. */
    method Log(e: LogEvent)
      modifies this
      ensures Logged(e)
    {
      EnsureInitialized();
      events := events + [e];
    }

    method LogInfo(message: string, args: seq<Arg>)
      modifies this
      ensures Logged(LogEvent(Information, message, args, None, None))
    {
      Log(LogEvent(Information, message, args, None, None));
    }

    method LogWarning(message: string, args: seq<Arg>)
      modifies this
      ensures Logged(LogEvent(Warning, message, args, None, None))
    {
      Log(LogEvent(Warning, message, args, None, None));
    }

    method LogError(message: string, args: seq<Arg>)
      modifies this
      ensures Logged(LogEvent(Error, message, args, None, None))
    {
      Log(LogEvent(Error, message, args, None, None));
    }

    /** LogError(Exception, string, ...). */
    method LogException(exception: string, message: string, args: seq<Arg>)
      modifies this
      ensures Logged(LogEvent(Error, message, args, Some(exception), None))
    {
      Log(LogEvent(Error, message, args, Some(exception), None));
    }

    /** LogInfo(string, object context, params object[]): the context is
        attached as the "Context" property, not as a positional value. */
    method LogInfoWithContext(message: string, context: Arg, args: seq<Arg>)
      modifies this
      ensures Logged(LogEvent(Information, message, args, None, Some(context)))
    {
      Log(LogEvent(Information, message, args, None, Some(context)));
    }

    method LogWarningWithContext(message: string, context: Arg, args: seq<Arg>)
      modifies this
      ensures Logged(LogEvent(Warning, message, args, None, Some(context)))
    {
      Log(LogEvent(Warning, message, args, None, Some(context)));
    }

    method LogErrorWithContext(message: string, context: Arg, args: seq<Arg>)
      modifies this
      ensures Logged(LogEvent(Error, message, args, None, Some(context)))
    {
      Log(LogEvent(Error, message, args, None, Some(context)));
    }

    /** LogError(Exception, string, object context, params object[]). */
    method LogExceptionWithContext(exception: string, message: string, context: Arg, args: seq<Arg>)
      modifies this
      ensures Logged(LogEvent(Error, message, args, Some(exception), Some(context)))
    {
      Log(LogEvent(Error, message, args, Some(exception), Some(context)));
    }

    method LogDebug(message: string, args: seq<Arg>)
      modifies this
      ensures Logged(LogEvent(Debug, message, args, None, None))
    {
      Log(LogEvent(Debug, message, args, None, None));
    }

    method LogMethodEntry(className: string, methodName: string, parameters: Option<Arg>)
      modifies this
      ensures Logged(MethodEntryEvent(className, methodName, parameters))
    {
      Log(MethodEntryEvent(className, methodName, parameters));
    }

    method LogMethodExit(className: string, methodName: string, result: Option<Arg>)
      modifies this
      ensures Logged(MethodExitEvent(className, methodName, result))
    {
      Log(MethodExitEvent(className, methodName, result));
    }

    /** LogPerformance, with the duration in whole milliseconds. */
    method LogPerformance(operation: string, durationMs: int, additionalData: Option<Arg>)
      modifies this
      ensures Logged(PerformanceEvent(operation, durationMs, additionalData))
    {
      Log(PerformanceEvent(operation, durationMs, additionalData));
    }

    method LogBusinessOperation(operation: string, status: string, data: Option<Arg>)
      modifies this
      ensures Logged(BusinessEvent(operation, status, data))
    {
      Log(BusinessEvent(operation, status, data));
    }

    method LogSecurity(securityEvent: string, userId: Option<string>, details: Option<Arg>)
      modifies this
      ensures Logged(SecurityEvent(securityEvent, userId, details))
    {
      Log(SecurityEvent(securityEvent, userId, details));
    }

    /** ForceLogRollover: log the request, close the logger, clear the flag
        and initialise again with the automatic settings, so the flag ends up
        set, a new logger is open, and settings passed to an earlier
        Initialize (name, directory, size) are replaced by the automatic ones. */
    method ForceLogRollover()
      modifies this
      ensures isInitialized && loggerOpen && config == AutoConfig()
      ensures loggersCreated == old(loggersCreated) + (if old(isInitialized) then 1 else 2)
      ensures var request := LogEvent(Information, "=== Manual Log Rollover Requested ===", [], None, None);
              var restart := StartupEvents(AutoConfig(), DefaultMaxFileSizeMB, processId);
              events == old(events)
                        + (if old(isInitialized) then [] else restart)
                        + [request] + restart
    {
      EnsureInitialized();
      LogInfo("=== Manual Log Rollover Requested ===", []);
      loggerOpen := false;       // Log.CloseAndFlush()
      isInitialized := false;
      Initialize(AutoApplicationName(), None, DefaultMaxFileSizeMB);
    }

    /** Shutdown: when initialised, log the shutdown and close the logger.
        The flag is left set, so later logging calls do not build a new
        logger. */
    method Shutdown()
      modifies this
      ensures isInitialized == old(isInitialized) && loggersCreated == old(loggersCreated) && config == old(config)
      ensures old(isInitialized) ==>
                !loggerOpen && events == old(events) + [LogEvent(Information, "=== Logging System Shutting Down ===", [], None, None)]
      ensures !old(isInitialized) ==> loggerOpen == old(loggerOpen) && events == old(events)
    {
      if isInitialized {
        LogInfo("=== Logging System Shutting Down ===", []);
        loggerOpen := false;       // Log.CloseAndFlush()
      }
    }

    /** CleanupOldLogs: delete the `*.txt` files of the log directory created
        before now - keepDays, then log how many were deleted. Listing the
        directory, computing the cutoff and deleting a file may each throw;
        any such exception is caught and logged as an error, so the method
        itself never fails. `listFiles(dir)` is the directory listing, None
        when listing throws; `deleteSucceeds(path)` says whether File.Delete
        succeeds. The files actually deleted are returned. */
    method CleanupOldLogs(logDirectory: Option<string>, keepDays: Int32, now: DateTime,
                          listFiles: string -> Option<seq<LogFile>>, deleteSucceeds: string -> bool)
      returns (deleted: seq<LogFile>)
      modifies this
      ensures var dir := match logDirectory case Some(d) => d case None => defaultLogDirectory;
              var cutoff := CleanupCutoff(now, keepDays);
              if cutoff.Some? && listFiles(dir).Some? then
                var run := Cleanup(listFiles(dir).value, cutoff.value, deleteSucceeds);
                && deleted == run.deleted
                && (run.failedOn.None? ==>
                      Logged(CleanupCompletedEvent(|deleted|, keepDays)))
                && (run.failedOn.Some? ==> Logged(LogEvent(Error, CleanupFailedTemplate, [], Some("File.Delete failed"), None)))
              else
                deleted == [] && Logged(LogEvent(Error, CleanupFailedTemplate, [], Some("cleanup setup failed"), None))
    {
      EnsureInitialized();
      deleted := [];
      var dir := match logDirectory case Some(d) => d case None => defaultLogDirectory;
      var cutoff := CleanupCutoff(now, keepDays);
      if cutoff.None? || listFiles(dir).None? {
        LogException("cleanup setup failed", CleanupFailedTemplate, []);
        return;
      }
      var failedOn, deletedCount;
      deleted, failedOn, deletedCount := DeleteExpired(listFiles(dir).value, cutoff.value, deleteSucceeds);
      if failedOn.Some? {
        LogException("File.Delete failed", CleanupFailedTemplate, []);
      } else {
        LogInfoWithContext(CleanupCompletedTemplate, Number(deletedCount), [Number(keepDays)]);
      }
    }
  }

  /** After Shutdown the flag stays set: a later logging call goes to the
      closed logger instead of building a new one. */
  method LogAfterShutdown(manager: LogManager, message: string)
    requires manager.isInitialized
    modifies manager
    ensures manager.isInitialized && !manager.loggerOpen
    ensures manager.loggersCreated == old(manager.loggersCreated)
    ensures manager.events == old(manager.events)
              + [LogEvent(Information, "=== Logging System Shutting Down ===", [], None, None),
                 LogEvent(Information, message, [], None, None)]
  {
    manager.Shutdown();
    manager.LogInfo(message, []);
  }

  // --------------------------------------------------- contextual logging

  /** C# interpolation of a string that may be null: null becomes "". */
  function Interpolated(s: Option<string>): string
  {
    match s
    case Some(v) => v
    case None => ""
  }

  /** `$"[{context}] {message}"`: the message follows the bracketed context
      and can be read back from the prefixed text. */
  function ContextMessage(context: Option<string>, message: string): (r: string)
    ensures var c := Interpolated(context);
      && |r| == |c| + 3 + |message|
      && r[..|c| + 3] == "[" + c + "] "
      && r[|c| + 3..] == message
  {
    "[" + Interpolated(context) + "] " + message
  }

  /** `$"{context}.{operation}"`. */
  function QualifiedOperation(context: Option<string>, operation: string): (r: string)
    ensures var c := Interpolated(context);
      && |r| == |c| + 1 + |operation|
      && r[..|c|] == c && r[|c|] == '.' && r[|c| + 1..] == operation
  {
    Interpolated(context) + "." + operation
  }

  /** Prefixing loses nothing: the same context never maps two messages to
      the same text. */
  lemma ContextMessageInjective(context: Option<string>, m1: string, m2: string)
    requires ContextMessage(context, m1) == ContextMessage(context, m2)
    ensures m1 == m2
  {
    var c := Interpolated(context);
    assert m1 == ContextMessage(context, m1)[|c| + 3..];
  }

  /** ContextualLogger: every message gets the "[context] " prefix and every
      operation name the "context." prefix before LogManager writes it. */
  class ContextualLogger {
    const context: Option<string>
    const manager: LogManager

    constructor (context: Option<string>, manager: LogManager)
      ensures this.context == context && this.manager == manager
    {
      this.context := context;
      this.manager := manager;
    }

    method LogInfo(message: string, args: seq<Arg>)
      modifies manager
      ensures manager.Logged(LogEvent(Information, ContextMessage(context, message), args, None, None))
    {
      manager.LogInfo(ContextMessage(context, message), args);
    }

    method LogWarning(message: string, args: seq<Arg>)
      modifies manager
      ensures manager.Logged(LogEvent(Warning, ContextMessage(context, message), args, None, None))
    {
      manager.LogWarning(ContextMessage(context, message), args);
    }

    method LogError(message: string, args: seq<Arg>)
      modifies manager
      ensures manager.Logged(LogEvent(Error, ContextMessage(context, message), args, None, None))
    {
      manager.LogError(ContextMessage(context, message), args);
    }

    method LogException(exception: string, message: string, args: seq<Arg>)
      modifies manager
      ensures manager.Logged(LogEvent(Error, ContextMessage(context, message), args, Some(exception), None))
    {
      manager.LogException(exception, ContextMessage(context, message), args);
    }

    method LogDebug(message: string, args: seq<Arg>)
      modifies manager
      ensures manager.Logged(LogEvent(Debug, ContextMessage(context, message), args, None, None))
    {
      manager.LogDebug(ContextMessage(context, message), args);
    }

    method LogBusinessOperation(operation: string, status: string, data: Option<Arg>)
      modifies manager
      ensures manager.Logged(BusinessEvent(QualifiedOperation(context, operation), status, data))
    {
      manager.LogBusinessOperation(QualifiedOperation(context, operation), status, data);
    }

    method LogPerformance(operation: string, durationMs: int, additionalData: Option<Arg>)
      modifies manager
      ensures manager.Logged(PerformanceEvent(QualifiedOperation(context, operation), durationMs, additionalData))
    {
      manager.LogPerformance(QualifiedOperation(context, operation), durationMs, additionalData);
    }
  }

  // ------------------------------------------------- performance tracking

  /** The operation name a PerformanceTracker reports: the bare operation
      when the context is null or empty, otherwise "context.operation". */
  function TrackedOperation(operation: string, context: Option<string>): (name: string)
    ensures IsNullOrEmpty(context) ==> name == operation
    ensures !IsNullOrEmpty(context) ==> name == QualifiedOperation(context, operation)
  {
    if IsNullOrEmpty(context) then operation else context.value + "." + operation
  }

  /** A tracker and a contextual logger name an operation alike, except for
      a null or empty context: the tracker then reports the bare operation,
      the contextual logger a leading dot. */
  lemma TrackerAndContextualNames(operation: string, context: Option<string>)
    ensures !IsNullOrEmpty(context) ==> TrackedOperation(operation, context) == QualifiedOperation(context, operation)
    ensures IsNullOrEmpty(context) ==>
              TrackedOperation(operation, context) == operation && QualifiedOperation(context, operation) == "." + operation
  {
  }

  const TrackingStartTemplate: string := "\U{23F1}\U{FE0F} Starting performance tracking for: {Operation}"

  /** PerformanceTracker: logs the start when created and the elapsed time
      when disposed, under one operation name. The stopwatch reading is
      passed to Dispose. */
  class PerformanceTracker {
    const operation: string
    const context: Option<string>
    const additionalData: Option<Arg>
    const manager: LogManager

    constructor (operation: string, context: Option<string>, additionalData: Option<Arg>, manager: LogManager)
      modifies manager
      ensures this.operation == operation && this.context == context
      ensures this.additionalData == additionalData && this.manager == manager
      ensures manager.Logged(LogEvent(Debug, TrackingStartTemplate, [Text(TrackedOperation(operation, context))], None, None))
    {
      this.operation := operation;
      this.context := context;
      this.additionalData := additionalData;
      this.manager := manager;
      new;
      manager.LogDebug(TrackingStartTemplate, [Text(TrackedOperation(operation, context))]);
    }

    method Dispose(elapsedMs: int)
      modifies manager
      ensures manager.Logged(PerformanceEvent(TrackedOperation(operation, context), elapsedMs, additionalData))
    {
      manager.LogPerformance(TrackedOperation(operation, context), elapsedMs, additionalData);
    }
  }
}
