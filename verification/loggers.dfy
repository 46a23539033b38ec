/** Logger factories: the automatic naming rule of `get_logger`, its handler
    list policy, `ClassLogger` naming and the preconfigured console/file
    loggers. Loggers live in a manager that maps names to logger objects, as
    `logging.getLogger` does. */
module Loggers {
  import opened Wrappers
  import opened Records

  const ROOT_NAME := "root"
  const DEFAULT_NAME := "<default>"
  /** The function name reported for code running at module level. */
  const MODULE_FRAME := "<module>"

  // ---------------------------------------------------------------------
  // Names.

  /** Python truthiness of an optional string. */
  predicate Present(s: Option<string>)
  {
    s.Some? && s.value != ""
  }

  /** The name `get_logger` picks when given none: "module.func" when both
      the caller's module name and function name are present (module-level
      code has no function), else whichever one is present, else
      "<default>". */
  function CallerName(moduleName: Option<string>, funcName: string): (name: string)
    ensures !Present(moduleName) && (funcName == "" || funcName == MODULE_FRAME) ==> name == DEFAULT_NAME
    ensures Present(moduleName) && funcName != "" && funcName != MODULE_FRAME ==> name == moduleName.value + "." + funcName
    ensures Present(moduleName) && (funcName == "" || funcName == MODULE_FRAME) ==> name == moduleName.value
    ensures !Present(moduleName) && funcName != "" && funcName != MODULE_FRAME ==> name == funcName
  {
    var func := if funcName == MODULE_FRAME then None else Some(funcName);
    if Present(moduleName) && Present(func) then moduleName.value + "." + func.value
    else if Present(moduleName) then moduleName.value
    else if Present(func) then func.value
    else DEFAULT_NAME
  }

  /** Called inside function `f` of module `m`, the name is "m.f". */
  lemma CallerNameInFunction(m: string, f: string)
    requires m != "" && f != "" && f != MODULE_FRAME
    ensures CallerName(Some(m), f) == m + "." + f
  {
  }

  /** Called at module level of module `m`, the name is "m". */
  lemma CallerNameAtModuleLevel(m: string)
    requires m != ""
    ensures CallerName(Some(m), MODULE_FRAME) == m
  {
  }

  /** How `get_logger` is asked for a name: explicitly, or from its caller's
      frame (module name, if any, and function name). */
  datatype NameRequest = Named(name: string) | FromCaller(moduleName: Option<string>, funcName: string)

  function RequestedName(request: NameRequest): string
  {
    match request
    case Named(n) => n
    case FromCaller(m, f) => CallerName(m, f)
  }

  /** The name of the logger `logging.getLogger(name)` returns: the empty
      name and "root" both give the root logger. */
  function ResolvedName(name: string): (r: string)
    ensures r != ""
    ensures r == ROOT_NAME || r == name
    ensures name != "" && name != ROOT_NAME ==> r == name
  {
    if name == "" || name == ROOT_NAME then ROOT_NAME else name
  }

  /** `getChild`: a child of the root is named by the suffix alone, any
      other child by "parent.suffix". The child is looked up by that name
      directly in the manager, without the root special case of
      `logging.getLogger`. */
  function ChildName(parentIsRoot: bool, parentName: string, suffix: string): string
  {
    if parentIsRoot then suffix else parentName + "." + suffix
  }

  /** `ClassLogger` without a parent, in a class `c` of module `m`: the
      logger is named "m.c" unless the module name gives the root, in which
      case it is named "c". */
  lemma ClassLoggerName(m: string, c: string)
    ensures m != "" && m != ROOT_NAME ==>
      ChildName(ResolvedName(m) == ROOT_NAME, ResolvedName(m), c) == m + "." + c
    ensures m == "" || m == ROOT_NAME ==>
      ChildName(ResolvedName(m) == ROOT_NAME, ResolvedName(m), c) == c
  {
  }

  // ---------------------------------------------------------------------
  // Handler lists.

  predicate NoDuplicates<T(==)>(s: seq<T>)
  {
    forall i, j :: 0 <= i < j < |s| ==> s[i] != s[j]
  }

  /** The list `addHandler` builds from `s`, one call per element in order:
      an element already present is not added again. */
  function Dedup<T(==)>(s: seq<T>): (r: seq<T>)
    ensures forall i :: 0 <= i < |r| ==> r[i] in s
    ensures forall i :: 0 <= i < |s| ==> s[i] in r
    ensures NoDuplicates(r)
    ensures |r| <= |s|
  {
    if s == [] then []
    else
      var d := Dedup(s[..|s| - 1]);
      if s[|s| - 1] in d then d else d + [s[|s| - 1]]
  }

  /** Distinct handlers are kept exactly, in order. */
  lemma {:induction false} DedupOfDistinct<T>(s: seq<T>)
    requires NoDuplicates(s)
    ensures Dedup(s) == s
  {
    if s != [] {
      var init := s[..|s| - 1];
      assert NoDuplicates(init);
      DedupOfDistinct(init);
      assert s[|s| - 1] !in init;
      assert init + [s[|s| - 1]] == s;
    }
  }

  datatype HandlerKind = StreamHandler | FileHandler(filename: string, mode: string) | NullHandler | OtherHandler(id: nat)

  /** `isinstance(h, StreamHandler)`: a file handler is a stream handler. */
  predicate IsStreamHandler(k: HandlerKind)
  {
    k.StreamHandler? || k.FileHandler?
  }

  datatype Formatter = Formatter(fmt: string, datefmt: string)

  const PRECONFIGURED_FORMATTER := Formatter("%(asctime)s %(name)s %(levelname)s %(message)s", "%Y-%m-%d %H:%M:%S")

  class Handler {
    const kind: HandlerKind
    var level: int
    var formatter: Option<Formatter>

    constructor (kind: HandlerKind)
      ensures this.kind == kind && level == NOTSET && formatter == None
    {
      this.kind := kind;
      level := NOTSET;
      formatter := None;
    }
  }

  /** The kinds of a handler list, in order. */
  function Kinds(hs: seq<Handler>): (r: seq<HandlerKind>)
    ensures |r| == |hs|
    ensures forall i :: 0 <= i < |hs| ==> r[i] == hs[i].kind
  {
    seq(|hs|, i requires 0 <= i < |hs| => hs[i].kind)
  }

  class Logger {
    const name: string
    var level: int
    var handlers: seq<Handler>

    constructor (name: string)
      ensures this.name == name && level == NOTSET && handlers == []
    {
      this.name := name;
      level := NOTSET;
      handlers := [];
    }
  }

  /** The logger registry behind `logging.getLogger`. */
  class Manager {
    const root: Logger
    var loggers: map<string, Logger>

    /** The root, named "root", is not in the table; every other logger is
        registered under its own name. (A logger created through `getChild`
        of the root may itself be called "root".) */
    ghost predicate Valid()
      reads this
    {
      root.name == ROOT_NAME &&
      forall n :: n in loggers ==> loggers[n].name == n && loggers[n] != root
    }

    /** `l` is the root or the manager's logger of its name. */
    ghost predicate Registered(l: Logger)
      reads this
    {
      l == root || (l.name in loggers && loggers[l.name] == l)
    }

    /** Every name registered in `before` still maps to the same logger:
        the registry only ever grows. */
    ghost predicate Extends(before: map<string, Logger>)
      reads this
    {
      forall n :: n in before ==> n in loggers && loggers[n] == before[n]
    }

    constructor ()
      ensures Valid() && loggers == map[] && fresh(root)
      ensures root.level == WARNING && root.handlers == []
    {
      var r := new Logger(ROOT_NAME);
      r.level := WARNING;
      root := r;
      loggers := map[];
    }

    /** `logging.getLogger(name)`: the root for "" and "root", the
        registered logger of that name, or a new one registered now. */
    method GetLogger(name: string) returns (logger: Logger)
      requires Valid()
      modifies this
      ensures Valid()
      ensures logger.name == ResolvedName(name)
      ensures Registered(logger)
      ensures logger == root <==> name == "" || name == ROOT_NAME
      ensures name == "" || name == ROOT_NAME ==> logger == root && loggers == old(loggers)
      ensures name != "" && name != ROOT_NAME && name in old(loggers) ==>
        logger == old(loggers)[name] && loggers == old(loggers)
      ensures name != "" && name != ROOT_NAME && name !in old(loggers) ==>
        fresh(logger) && logger.level == NOTSET && logger.handlers == [] &&
        loggers == old(loggers)[name := logger]
    {
      if name == "" || name == ROOT_NAME {
        return root;
      }
      logger := Lookup(name);
    }

    /** `Manager.getLogger(name)`: the registered logger of that name, or a
        new one registered now; never the root. */
    method Lookup(name: string) returns (logger: Logger)
      requires Valid()
      modifies this
      ensures Valid()
      ensures logger.name == name && logger != root
      ensures name in loggers && loggers[name] == logger
      ensures name in old(loggers) ==> logger == old(loggers)[name] && loggers == old(loggers)
      ensures name !in old(loggers) ==>
        fresh(logger) && logger.level == NOTSET && logger.handlers == [] &&
        loggers == old(loggers)[name := logger]
    {
      if name in loggers {
        return loggers[name];
      }
      logger := new Logger(name);
      loggers := loggers[name := logger];
    }
  }

  // ---------------------------------------------------------------------
  // The factories.

  /** `get_logger`. With handlers given, the logger's list becomes exactly
      those handlers (an element given twice is attached once); with none
      given, a logger that reaches no handler (neither its own nor, through
      `ancestorsHaveHandlers`, an ancestor's) gets one new NullHandler and
      any other keeps its list. The level is always the requested one. */
  method GetLogger(manager: Manager, request: NameRequest, level: int, handlers: seq<Handler>, ancestorsHaveHandlers: bool)
    returns (logger: Logger)
    requires manager.Valid()
    modifies manager, manager.root, manager.loggers.Values
    ensures manager.Valid()
    ensures manager.Extends(old(manager.loggers))
    ensures logger.name == ResolvedName(RequestedName(request))
    ensures manager.Registered(logger)
    ensures logger == manager.root <==> ResolvedName(RequestedName(request)) == ROOT_NAME
    ensures manager.loggers == old(manager.loggers) ||
      (fresh(logger) && manager.loggers == old(manager.loggers)[logger.name := logger])
    ensures logger.level == level
    ensures |handlers| > 0 ==> logger.handlers == Dedup(handlers)
    ensures |handlers| == 0 && !fresh(logger) && (old(logger.handlers) != [] || ancestorsHaveHandlers) ==>
      logger.handlers == old(logger.handlers)
    ensures |handlers| == 0 && fresh(logger) && ancestorsHaveHandlers ==> logger.handlers == []
    ensures |handlers| == 0 && (fresh(logger) || old(logger.handlers) == []) && !ancestorsHaveHandlers ==>
      |logger.handlers| == 1 && fresh(logger.handlers[0]) && logger.handlers[0].kind == NullHandler
    ensures forall l :: l in old(manager.loggers.Values) && l != logger ==> unchanged(l)
    ensures logger != manager.root ==> unchanged(manager.root)
  {
    logger := manager.GetLogger(RequestedName(request));
    if |handlers| > 0 {
      ReplaceHandlers(logger, handlers);
    } else if logger.handlers == [] && !ancestorsHaveHandlers {
      var nullHandler := new Handler(NullHandler);
      logger.handlers := logger.handlers + [nullHandler];
    }
    logger.level := level;
  }

  /** The handler replacement loop of `get_logger`: every current handler is
      removed, then each given handler is added with `addHandler`. */
  method ReplaceHandlers(logger: Logger, handlers: seq<Handler>)
    modifies logger
    ensures logger.handlers == Dedup(handlers)
    ensures logger.level == old(logger.level)
  {
    logger.handlers := [];
    var i := 0;
    while i < |handlers|
      invariant 0 <= i <= |handlers|
      invariant logger.handlers == Dedup(handlers[..i])
      invariant logger.level == old(logger.level)
    {
      assert handlers[..i + 1][..i] == handlers[..i];
      if handlers[i] !in logger.handlers {
        logger.handlers := logger.handlers + [handlers[i]];
      }
      i := i + 1;
    }
    assert handlers[..|handlers|] == handlers;
  }

  class ClassLogger {
    const parent: Logger?

    constructor (parent: Logger?)
      ensures this.parent == parent
    {
      this.parent := parent;
    }

    /** The logger a class with module `classModule` and name `className`
        gets: the child `className` of the given parent, or of the logger
        named after the module. That module logger (`moduleLogger`, null
        when a parent is given) is fetched through `get_logger` with the
        default level, so every access resets its level to NOTSET and, when
        it reaches no handler, gives it a NullHandler. Every other logger
        that existed before is left alone. */
    method Get(manager: Manager, classModule: string, className: string, ancestorsHaveHandlers: bool)
      returns (logger: Logger, ghost moduleLogger: Logger?)
      requires manager.Valid()
      modifies manager, manager.root, manager.loggers.Values
      ensures manager.Valid()
      ensures manager.Extends(old(manager.loggers))
      ensures manager.Registered(logger) && logger != manager.root
      ensures logger.name !in old(manager.loggers) ==>
        fresh(logger) && logger.level == NOTSET && logger.handlers == []
      ensures parent != null ==>
        moduleLogger == null &&
        logger.name == ChildName(parent == manager.root, parent.name, className)
      ensures parent == null ==>
        moduleLogger != null && manager.Registered(moduleLogger) &&
        moduleLogger.name == ResolvedName(classModule) &&
        moduleLogger.level == NOTSET &&
        logger.name == ChildName(ResolvedName(classModule) == ROOT_NAME, ResolvedName(classModule), className)
      ensures parent == null && !fresh(moduleLogger) && (old(moduleLogger.handlers) != [] || ancestorsHaveHandlers) ==>
        moduleLogger.handlers == old(moduleLogger.handlers)
      ensures parent == null && fresh(moduleLogger) && ancestorsHaveHandlers ==> moduleLogger.handlers == []
      ensures parent == null && (fresh(moduleLogger) || old(moduleLogger.handlers) == []) && !ancestorsHaveHandlers ==>
        |moduleLogger.handlers| == 1 && fresh(moduleLogger.handlers[0]) && moduleLogger.handlers[0].kind == NullHandler
      ensures forall l :: l in old(manager.loggers.Values) && l != moduleLogger ==> unchanged(l)
      ensures manager.root != moduleLogger ==> unchanged(manager.root)
    {
      var p := parent;
      moduleLogger := null;
      if p == null {
        p := GetLogger(manager, Named(classModule), NOTSET, [], ancestorsHaveHandlers);
        moduleLogger := p;
        assert p == manager.root <==> ResolvedName(classModule) == ROOT_NAME;
      }
      // getChild
      var full := if p == manager.root then className else p.name + "." + className;
      assert p != manager.root ==> |full| > |p.name|;
      logger := manager.Lookup(full);
    }
  }

  /** A class logger with an explicit parent "parent_logger", in class
      "TestClassLogger": its logger is "parent_logger.TestClassLogger". */
  method ChildOfNamedParentScenario() returns (name: string)
    ensures name == "parent_logger.TestClassLogger"
  {
    var manager := new Manager();
    var parent := GetLogger(manager, Named("parent_logger"), NOTSET, [], false);
    var classLogger := new ClassLogger(parent);
    var logger, moduleLogger := classLogger.Get(manager, "some_module", "TestClassLogger", false);
    name := logger.name;
  }

  /** A class named "root" whose parent is the root logger gets a new logger
      that is called "root" but is not the root: it has level NOTSET and no
      handlers, while the root keeps its own level. */
  method RootChildNamedRoot() returns (isRoot: bool, name: string, level: int, handlerCount: nat, rootLevel: int)
    ensures !isRoot && name == ROOT_NAME && level == NOTSET && handlerCount == 0
    ensures rootLevel == WARNING
  {
    var manager := new Manager();
    var classLogger := new ClassLogger(manager.root);
    var logger, moduleLogger := classLogger.Get(manager, "some_module", ROOT_NAME, false);
    isRoot := logger == manager.root;
    name, level, handlerCount, rootLevel := logger.name, logger.level, |logger.handlers|, manager.root.level;
  }

  /** `_get_preconfigured_logger`: every handler first gets the logger's
      level and the standard formatter, then the logger is fetched with
      exactly these handlers. */
  method GetPreconfiguredLogger(manager: Manager, name: string, level: int, handlers: seq<Handler>, ancestorsHaveHandlers: bool)
    returns (logger: Logger)
    requires manager.Valid()
    modifies manager, manager.root, manager.loggers.Values, set h | h in handlers
    ensures manager.Valid()
    ensures manager.Extends(old(manager.loggers))
    ensures logger.name == ResolvedName(name) && logger.level == level
    ensures |handlers| > 0 ==> logger.handlers == Dedup(handlers)
    ensures |handlers| == 0 && !fresh(logger) && (old(logger.handlers) != [] || ancestorsHaveHandlers) ==>
      logger.handlers == old(logger.handlers)
    ensures |handlers| == 0 && fresh(logger) && ancestorsHaveHandlers ==> logger.handlers == []
    ensures |handlers| == 0 && (fresh(logger) || old(logger.handlers) == []) && !ancestorsHaveHandlers ==>
      |logger.handlers| == 1 && fresh(logger.handlers[0]) && logger.handlers[0].kind == NullHandler
    ensures manager.Registered(logger)
    ensures forall l :: l in old(manager.loggers.Values) && l != logger ==> unchanged(l)
    ensures logger != manager.root ==> unchanged(manager.root)
    ensures forall h :: h in handlers ==> h.level == level && h.formatter == Some(PRECONFIGURED_FORMATTER)
  {
    var i := 0;
    while i < |handlers|
      modifies set h | h in handlers
      invariant 0 <= i <= |handlers|
      invariant forall k :: 0 <= k < i ==> handlers[k].level == level && handlers[k].formatter == Some(PRECONFIGURED_FORMATTER)
    {
      handlers[i].level := level;
      handlers[i].formatter := Some(PRECONFIGURED_FORMATTER);
      i := i + 1;
    }
    logger := GetLogger(manager, Named(name), level, handlers, ancestorsHaveHandlers);
  }

  /** `get_console_logger`: exactly one handler, a stream handler. */
  method GetConsoleLogger(manager: Manager, name: string, level: int) returns (logger: Logger)
    requires manager.Valid()
    modifies manager, manager.root, manager.loggers.Values
    ensures manager.Valid()
    ensures manager.Extends(old(manager.loggers))
    ensures logger.name == ResolvedName(name) && logger.level == level
    ensures Kinds(logger.handlers) == [StreamHandler]
    ensures manager.Registered(logger)
    ensures forall l :: l in old(manager.loggers.Values) && l != logger ==> unchanged(l)
    ensures logger != manager.root ==> unchanged(manager.root)
    ensures forall h :: h in logger.handlers ==> fresh(h) && h.level == level && h.formatter == Some(PRECONFIGURED_FORMATTER)
  {
    var stream := new Handler(StreamHandler);
    logger := GetPreconfiguredLogger(manager, name, level, [stream], false);
    DedupOfDistinct([stream]);
  }

  /** `get_file_logger`: exactly one handler, a file handler. */
  method GetFileLogger(manager: Manager, name: string, filename: string, mode: string, level: int) returns (logger: Logger)
    requires manager.Valid()
    modifies manager, manager.root, manager.loggers.Values
    ensures manager.Valid()
    ensures manager.Extends(old(manager.loggers))
    ensures logger.name == ResolvedName(name) && logger.level == level
    ensures Kinds(logger.handlers) == [FileHandler(filename, mode)]
    ensures manager.Registered(logger)
    ensures forall l :: l in old(manager.loggers.Values) && l != logger ==> unchanged(l)
    ensures logger != manager.root ==> unchanged(manager.root)
    ensures forall h :: h in logger.handlers ==> fresh(h) && h.level == level && h.formatter == Some(PRECONFIGURED_FORMATTER)
  {
    var file := new Handler(FileHandler(filename, mode));
    logger := GetPreconfiguredLogger(manager, name, level, [file], false);
    DedupOfDistinct([file]);
  }

  /** `get_file_and_console_logger`: exactly two handlers, the file handler
      and then the stream handler. */
  method GetFileAndConsoleLogger(manager: Manager, name: string, filename: string, mode: string, level: int)
    returns (logger: Logger)
    requires manager.Valid()
    modifies manager, manager.root, manager.loggers.Values
    ensures manager.Valid()
    ensures manager.Extends(old(manager.loggers))
    ensures logger.name == ResolvedName(name) && logger.level == level
    ensures Kinds(logger.handlers) == [FileHandler(filename, mode), StreamHandler]
    ensures manager.Registered(logger)
    ensures forall l :: l in old(manager.loggers.Values) && l != logger ==> unchanged(l)
    ensures logger != manager.root ==> unchanged(manager.root)
    ensures forall h :: h in logger.handlers ==> fresh(h) && h.level == level && h.formatter == Some(PRECONFIGURED_FORMATTER)
  {
    var file := new Handler(FileHandler(filename, mode));
    var stream := new Handler(StreamHandler);
    logger := GetPreconfiguredLogger(manager, name, level, [file, stream], false);
    DedupOfDistinct([file, stream]);
  }
}
