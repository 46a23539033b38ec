/** `Logtor`: a logregator whose logger writes to the console, a file, or
    both, chosen from an optional file name and an optional console flag. */
module Logtors {
  import opened Wrappers
  import opened Records
  import opened Consumer
  import opened Loggers
  import opened Sessions

  const DEFAULT_MODE := "a"
  const DEFAULT_LEVEL := INFO
  const DEFAULT_LOGTOR_NAME := "LOGTOR"
  const NO_FILENAME_MESSAGE := "must provide a `filename` when `console` is False"

  datatype Destination = ConsoleOnly | FileAndConsole | FileOnly

  datatype ConfigError = ValueError(message: string)

  /** Where a `Logtor` writes. An absent console flag means "console only
      when there is no file"; asking for no console and no file is an
      error. */
  function ChooseDestination(filename: Option<string>, console: Option<bool>): (r: Result<Destination, ConfigError>)
    ensures r.Failure? <==> filename.None? && console == Some(false)
    ensures r.Failure? ==> r.error == ValueError(NO_FILENAME_MESSAGE)
    ensures r == Success(ConsoleOnly) <==> filename.None? && console != Some(false)
    ensures r == Success(FileAndConsole) <==> filename.Some? && console == Some(true)
    ensures r == Success(FileOnly) <==> filename.Some? && console != Some(true)
  {
    var wantsConsole := if console.None? then filename.None? else console.value;
    if filename.None? then
      if !wantsConsole then Failure(ValueError(NO_FILENAME_MESSAGE)) else Success(ConsoleOnly)
    else if wantsConsole then Success(FileAndConsole)
    else Success(FileOnly)
  }

  /** The handler kinds of the logger built for a destination, in order. */
  function DestinationKinds(d: Destination, filename: string, mode: string): (r: seq<HandlerKind>)
    ensures FileHandler(filename, mode) in r <==> d != ConsoleOnly
    ensures StreamHandler in r <==> d != FileOnly
    ensures forall k :: k in r ==> IsStreamHandler(k)
  {
    match d
    case ConsoleOnly => [StreamHandler]
    case FileAndConsole => [FileHandler(filename, mode), StreamHandler]
    case FileOnly => [FileHandler(filename, mode)]
  }

  /** A constructed `Logtor`: its logger and the logregator around it. */
  datatype Logtor = Logtor(logger: Logger, session: Logregator)

  /** `Logtor.__init__`: builds the preconfigured logger for the chosen
      destination and a stopped logregator forwarding into it. */
  method NewLogtor(manager: Manager, filename: Option<string>, mode: string, level: int, console: Option<bool>,
                   name: string, myPid: nat, startMethodIsSpawn: bool)
    returns (r: Result<Logtor, ConfigError>)
    requires manager.Valid()
    modifies manager, manager.root, manager.loggers.Values
    ensures manager.Valid()
    ensures r.Failure? <==> ChooseDestination(filename, console).Failure?
    ensures r.Failure? ==> r.error == ValueError(NO_FILENAME_MESSAGE) && unchanged(manager)
    ensures r.Success? ==> manager.Registered(r.value.logger)
    ensures manager.Extends(old(manager.loggers))
    ensures forall l :: l in old(manager.loggers.Values) && (r.Failure? || l != r.value.logger) ==> unchanged(l)
    ensures r.Failure? || r.value.logger != manager.root ==> unchanged(manager.root)
    ensures r.Success? ==>
      var d := ChooseDestination(filename, console).value;
      var t := r.value;
      t.logger.name == ResolvedName(name) && t.logger.level == level &&
      Kinds(t.logger.handlers) == DestinationKinds(d, if filename.Some? then filename.value else "", mode) &&
      fresh(t.session) && t.session.Valid() && !t.session.Started() &&
      t.session.sink == Sink(t.logger.name, level) && t.session.myPid == myPid
  {
    var d := ChooseDestination(filename, console);
    if d.Failure? {
      return Failure(d.error);
    }
    var logger: Logger;
    match d.value {
      case ConsoleOnly =>
        logger := GetConsoleLogger(manager, name, level);
      case FileAndConsole =>
        logger := GetFileAndConsoleLogger(manager, name, filename.value, mode, level);
      case FileOnly =>
        logger := GetFileLogger(manager, name, filename.value, mode, level);
    }
    var session := new Logregator(Sink(logger.name, level), myPid, startMethodIsSpawn);
    r := Success(Logtor(logger, session));
  }

  /** `Logtor()` with every default: a console-only logger "LOGTOR" at
      INFO, behind a session that is not started. */
  method DefaultLogtor() returns (created: bool, name: string, level: int, kinds: seq<HandlerKind>, started: bool)
    ensures created && name == "LOGTOR" && level == INFO && kinds == [StreamHandler] && !started
  {
    var manager := new Manager();
    var r := NewLogtor(manager, None, DEFAULT_MODE, DEFAULT_LEVEL, None, DEFAULT_LOGTOR_NAME, 1000, false);
    created := r.Success?;
    name, level, kinds, started := "", NOTSET, [], false;
    if r.Success? {
      var t := r.value;
      name, level, kinds, started := t.logger.name, t.logger.level, Kinds(t.logger.handlers), t.session.Started();
    }
  }

  /** With a file name, a `Logtor` always writes to that file, whether or
      not the console flag is given. */
  lemma WithFilenameWritesFile(filename: string, mode: string, console: Option<bool>)
    ensures ChooseDestination(Some(filename), console).Success?
    ensures FileHandler(filename, mode) in DestinationKinds(ChooseDestination(Some(filename), console).value, filename, mode)
  {
  }

  /** Without a file name, a `Logtor` writes to the console unless the
      console is explicitly refused, which is an error. */
  lemma WithoutFilenameWritesConsole(console: Option<bool>)
    ensures console != Some(false) ==> ChooseDestination(None, console) == Success(ConsoleOnly)
    ensures console == Some(false) ==> ChooseDestination(None, console) == Failure(ValueError(NO_FILENAME_MESSAGE))
  {
  }
}
