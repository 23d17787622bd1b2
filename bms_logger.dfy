/**
 * CDVMFPLogger, the iOS logger plugin: it checks the arguments JavaScript
 * passes and then sets the BMS Logger's level filter or store size, or logs
 * one message. Logger.logLevelFilter and Logger.maxLogStoreSize are modelled
 * as fields of the plugin; results go back through the command delegate and
 * are recorded in `sent`; messages handed to the Logger are recorded in
 * `logged`.
 */
module BMSLogger {
  import opened Wrappers
  import opened JsonValues
  import opened Cordova
  import opened LogLevels

  const LogLevelInvalid: string := "LogLevel Parameter is Invalid."
  const MaxLogStoreSizeInvalid: string := "MaxLogStoreSize is Invalid."
  const NameInvalid: string := "Name  Parameter is Invalid."
  const MessageInvalid: string := "message  Parameter is Invalid."

  /** Bounds of Swift's 64-bit Int, and the first value past UInt64. */
  const IntMin: int := -0x8000_0000_0000_0000
  const IntMax: int := 0x7fff_ffff_ffff_ffff
  const UInt64Limit: int := 0x1_0000_0000_0000_0000

  /** `as? Int`: an integral number that fits Swift's Int. */
  predicate IsSwiftInt(j: Json)
  {
    j.JNum? && IntMin <= j.n <= IntMax
  }

  /** The level `setLevel` asks for: argument 0 must be a string and a key of the table. */
  function LevelArg(arguments: seq<Json>): (r: Result<LogLevel, string>)
    requires |arguments| >= 1
    ensures r.Success? <==> arguments[0].JStr? && exists level :: LevelKey(level) == arguments[0].s
    ensures r.Success? ==> arguments[0] == JStr(LevelKey(r.value))
    ensures r.Failure? ==> r.error == LogLevelInvalid
  {
    if !arguments[0].JStr? then Failure(LogLevelInvalid)
    else match LevelOf(arguments[0].s)
      case None => Failure(LogLevelInvalid)
      case Some(level) => Success(level)
  }

  /**
   * The size `setMaxLogStoreSize` stores: argument 0 must be an Int. A
   * negative Int makes the UInt64 conversion trap, so callers must not pass one.
   */
  function StoreSizeArg(arguments: seq<Json>): (r: Result<nat, string>)
    requires |arguments| >= 1
    requires IsSwiftInt(arguments[0]) ==> arguments[0].n >= 0
    ensures r.Success? <==> IsSwiftInt(arguments[0])
    ensures r.Success? ==> r.value == arguments[0].n && r.value < UInt64Limit
    ensures r.Failure? ==> r.error == MaxLogStoreSizeInvalid
  {
    if IsSwiftInt(arguments[0]) then Success(arguments[0].n) else Failure(MaxLogStoreSizeInvalid)
  }

  /**
   * The name and message every log method reads. The name is checked first:
   * a bad name is reported without looking at the message. Argument 1 is
   * only read once the name is a string; reading it when absent traps.
   */
  function LogArgs(arguments: seq<Json>): (r: Result<(string, string), string>)
    requires |arguments| >= 1 && (arguments[0].JStr? ==> |arguments| >= 2)
    ensures r.Success? <==> arguments[0].JStr? && arguments[1].JStr?
    ensures r.Success? ==> arguments[0] == JStr(r.value.0) && arguments[1] == JStr(r.value.1)
    ensures r == Failure(NameInvalid) <==> !arguments[0].JStr?
    ensures r == Failure(MessageInvalid) <==> arguments[0].JStr? && !arguments[1].JStr?
  {
    if !arguments[0].JStr? then Failure(NameInvalid)
    else if !arguments[1].JStr? then Failure(MessageInvalid)
    else Success((arguments[0].s, arguments[1].s))
  }

  /** A call from JavaScript: the callback to answer and the arguments. */
  datatype Command = Command(callbackId: string, arguments: seq<Json>)

  /** A result sent through the command delegate to a callback. */
  datatype Sent = Sent(callbackId: string, result: PluginResult)

  /** A message handed to `Logger.logger(name:)` at a level. */
  datatype LogRecord = LogRecord(name: string, level: LogLevel, message: string)

  class CDVMFPLogger {
    var logLevelFilter: LogLevel
    var maxLogStoreSize: nat
    var sent: seq<Sent>
    var logged: seq<LogRecord>

    /** The store size is a UInt64. */
    ghost predicate Valid()
      reads this
    {
      maxLogStoreSize < UInt64Limit
    }

    constructor (logLevelFilter: LogLevel, maxLogStoreSize: nat)
      requires maxLogStoreSize < UInt64Limit
      ensures Valid()
      ensures this.logLevelFilter == logLevelFilter && this.maxLogStoreSize == maxLogStoreSize
      ensures sent == [] && logged == []
    {
      this.logLevelFilter := logLevelFilter;
      this.maxLogStoreSize := maxLogStoreSize;
      sent := [];
      logged := [];
    }

    /** Report an error to the command's callback. */
    method SendError(command: Command, message: string)
      modifies this`sent
      ensures sent == old(sent) + [Sent(command.callbackId, ErrorResult(Text(message)))]
    {
      sent := sent + [Sent(command.callbackId, ErrorResult(Text(message)))];
    }

    /** `setMaxLogStoreSize`: store an Int argument; otherwise report the error. Success sends nothing. */
    method SetMaxLogStoreSize(command: Command)
      requires Valid()
      requires |command.arguments| >= 1
      requires IsSwiftInt(command.arguments[0]) ==> command.arguments[0].n >= 0
      modifies this`maxLogStoreSize, this`sent
      ensures Valid()
      ensures match StoreSizeArg(command.arguments)
        case Success(size) => maxLogStoreSize == size && sent == old(sent)
        case Failure(message) =>
          maxLogStoreSize == old(maxLogStoreSize) &&
          sent == old(sent) + [Sent(command.callbackId, ErrorResult(Text(message)))]
    {
      match StoreSizeArg(command.arguments)
      case Failure(message) =>
        SendError(command, message);
      case Success(size) =>
        maxLogStoreSize := size;
    }

    /** `setLevel`: set the filter to the level a valid name maps to; otherwise report the error. Success sends nothing. */
    method SetLevel(command: Command)
      requires |command.arguments| >= 1
      modifies this`logLevelFilter, this`sent
      ensures match LevelArg(command.arguments)
        case Success(level) => logLevelFilter == level && sent == old(sent)
        case Failure(message) =>
          logLevelFilter == old(logLevelFilter) &&
          sent == old(sent) + [Sent(command.callbackId, ErrorResult(Text(message)))]
    {
      match LevelArg(command.arguments)
      case Failure(message) =>
        SendError(command, message);
      case Success(level) =>
        logLevelFilter := level;
    }

    /** What each log method does at its own level: log one message, or report the first bad argument. */
    twostate predicate LogDone(level: LogLevel, command: Command)
      requires |command.arguments| >= 1 && (command.arguments[0].JStr? ==> |command.arguments| >= 2)
      reads this
    {
      && logLevelFilter == old(logLevelFilter) && maxLogStoreSize == old(maxLogStoreSize)
      && match LogArgs(command.arguments)
         case Success((name, message)) =>
           logged == old(logged) + [LogRecord(name, level, message)] && sent == old(sent)
         case Failure(error) =>
           logged == old(logged) && sent == old(sent) + [Sent(command.callbackId, ErrorResult(Text(error)))]
    }

    /** The body the five log methods share. */
    method Log(level: LogLevel, command: Command)
      requires |command.arguments| >= 1 && (command.arguments[0].JStr? ==> |command.arguments| >= 2)
      modifies this`logged, this`sent
      ensures LogDone(level, command)
    {
      match LogArgs(command.arguments)
      case Failure(error) =>
        SendError(command, error);
      case Success((name, message)) =>
        logged := logged + [LogRecord(name, level, message)];
    }

    method LogDebug(command: Command)
      requires |command.arguments| >= 1 && (command.arguments[0].JStr? ==> |command.arguments| >= 2)
      modifies this`logged, this`sent
      ensures LogDone(Debug, command)
    {
      Log(Debug, command);
    }

    method LogInfo(command: Command)
      requires |command.arguments| >= 1 && (command.arguments[0].JStr? ==> |command.arguments| >= 2)
      modifies this`logged, this`sent
      ensures LogDone(Info, command)
    {
      Log(Info, command);
    }

    method LogWarn(command: Command)
      requires |command.arguments| >= 1 && (command.arguments[0].JStr? ==> |command.arguments| >= 2)
      modifies this`logged, this`sent
      ensures LogDone(Warn, command)
    {
      Log(Warn, command);
    }

    method LogError(command: Command)
      requires |command.arguments| >= 1 && (command.arguments[0].JStr? ==> |command.arguments| >= 2)
      modifies this`logged, this`sent
      ensures LogDone(ErrorLevel, command)
    {
      Log(ErrorLevel, command);
    }

    method LogFatal(command: Command)
      requires |command.arguments| >= 1 && (command.arguments[0].JStr? ==> |command.arguments| >= 2)
      modifies this`logged, this`sent
      ensures LogDone(Fatal, command)
    {
      Log(Fatal, command);
    }
  }
}
