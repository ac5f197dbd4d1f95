/** The `pyres_worker` management command (management/commands/pyres_worker.py):
    how `handle_noargs` turns the environment, the Django settings and the
    command-line options into the one call `Worker.run(queues, server,
    interval)`, or stops with a `CommandError` before starting anything. */
module WorkerCommand {
  import opened Results
  import opened PyStr
  import opened PyInt

  /** `PYRES_QUEUES`: a comma-separated string or a list of names. */
  datatype QueueSetting = QueueText(spec: string) | QueueList(names: seq<string>)

  /** `REDIS_PORT`: a number, or a text, which `%d` refuses. */
  datatype PortSetting = PortNumber(n: int) | PortText(text: string)

  /** The Django settings the command reads; `None` is an absent setting. */
  datatype Settings = Settings(pyresQueues: Option<QueueSetting>, redisHost: Option<string>, redisPort: Option<PortSetting>)

  /** `--interval`: the default is the number 5; given on the command line it is text. */
  datatype IntervalOption = IntervalNumber(n: int) | IntervalText(text: string)

  /** The command's options: `--interval`, `--log-level`, `--file`. */
  datatype Options = Options(interval: IntervalOption, logLevel: string, logFile: Option<string>)

  const DefaultInterval: int := 5
  const DefaultLogLevel: string := "info"
  const DefaultHost: string := "localhost"
  const DefaultPort: int := 6379

  /** The options when none is given on the command line. */
  function DefaultOptions(): Options
  {
    Options(IntervalNumber(DefaultInterval), DefaultLogLevel, None)
  }

  /** What `getattr(logging, name, 'INFO')` yields: a level number, or a text. */
  datatype LogLevel = Numeric(level: int) | Named(text: string)

  /** The reasons the command stops: the two `CommandError`s it raises for
      missing queues and a bad interval, and the `TypeError` that `"%d"`
      raises for a port that is not a number. */
  datatype Failure = NoQueues | PortNotNumber | IntervalNotInteger

  /** The one call `Worker.run(queues, server, interval)`. */
  datatype RunCall = RunCall(queues: seq<string>, server: string, interval: int)

  /** What a successful `handle_noargs` does: set up logging, then run the worker. */
  datatype Launch = Launch(logLevel: LogLevel, logFile: Option<string>, run: RunCall)

  /** Python truth of a queue setting: non-empty. */
  predicate Truthy(q: QueueSetting)
  {
    match q
    case QueueText(s) => s != []
    case QueueList(l) => l != []
  }

  /** An environment variable that is set and non-empty. */
  predicate EnvGiven(env: map<string, string>, name: string)
  {
    name in env && env[name] != []
  }

  /** `environ.get('QUEUES') or environ.get('QUEUE') or PYRES_QUEUES`,
      keeping only a true value: the first non-empty source in that order. */
  function QueueSource(env: map<string, string>, settings: Settings): (src: Option<QueueSetting>)
    ensures src.Some? ==> Truthy(src.value)
    ensures EnvGiven(env, "QUEUES") ==> src == Some(QueueText(env["QUEUES"]))
    ensures !EnvGiven(env, "QUEUES") && EnvGiven(env, "QUEUE") ==> src == Some(QueueText(env["QUEUE"]))
    ensures !EnvGiven(env, "QUEUES") && !EnvGiven(env, "QUEUE") ==>
      src == if settings.pyresQueues.Some? && Truthy(settings.pyresQueues.value) then settings.pyresQueues else None
  {
    if EnvGiven(env, "QUEUES") then Some(QueueText(env["QUEUES"]))
    else if EnvGiven(env, "QUEUE") then Some(QueueText(env["QUEUE"]))
    else match settings.pyresQueues
      case Some(q) => if Truthy(q) then Some(q) else None
      case None => None
  }

  /** The queue check and the split of a string on commas. */
  function ResolveQueues(env: map<string, string>, settings: Settings): (r: Result<seq<string>, Failure>)
    ensures r.Err? <==> QueueSource(env, settings).None?
    ensures r.Err? ==> r.error == NoQueues
  {
    match QueueSource(env, settings)
    case None => Err(NoQueues)
    case Some(QueueText(s)) => Ok(Split(s, ','))
    case Some(QueueList(l)) => Ok(l)
  }

  /** The worker gets at least one queue; a string source is exactly its
      comma-separated names, and a list source is passed through unchanged. */
  lemma ResolvedQueues(env: map<string, string>, settings: Settings)
    requires ResolveQueues(env, settings).Ok?
    ensures var queues := ResolveQueues(env, settings).value;
      var src := QueueSource(env, settings).value;
      && |queues| >= 1
      && (src.QueueText? ==> Join(queues, ",") == src.spec && forall q :: q in queues ==> ',' !in q)
      && (src.QueueList? ==> queues == src.names)
  {
    var src := QueueSource(env, settings).value;
    if src.QueueText? {
      JoinSplit(src.spec, ',');
    }
  }

  /** `REDIS_HOST`, or `localhost` when absent. */
  function Host(settings: Settings): string
  {
    match settings.redisHost
    case Some(h) => h
    case None => DefaultHost
  }

  /** `"%s:%d" % (REDIS_HOST, REDIS_PORT)`, defaulting to `localhost` and
      6379; a text port makes the format raise. */
  function Server(settings: Settings): (r: Result<string, Failure>)
    ensures r.Err? <==> settings.redisPort.Some? && settings.redisPort.value.PortText?
    ensures r.Err? ==> r.error == PortNotNumber
    ensures r.Ok? ==>
      var port := if settings.redisPort.Some? then settings.redisPort.value.n else DefaultPort;
      && r.value == Host(settings) + ":" + IntToString(port)
      && (':' !in Host(settings) ==> Split(r.value, ':') == [Host(settings), IntToString(port)])
  {
    match settings.redisPort
    case Some(PortText(_)) => Err(PortNotNumber)
    case Some(PortNumber(p)) => Ok(HostPort(Host(settings), p))
    case None => Ok(HostPort(Host(settings), DefaultPort))
  }

  /** With neither setting the worker talks to `localhost:6379`. */
  lemma DefaultServer(queues: Option<QueueSetting>)
    ensures Server(Settings(queues, None, None)) == Ok("localhost:6379")
  {
    IntTextShape(DefaultPort);
    assert NatToDigits(6) == "6";
    assert NatToDigits(63) == "63";
    assert NatToDigits(637) == "637";
    assert NatToDigits(6379) == "6379";
    assert HostPort(DefaultHost, DefaultPort) == "localhost:6379";
  }

  /** `int(options.get('interval'))`: a number as it is, a text parsed as an integer. */
  function ParseInterval(opt: IntervalOption): (r: Result<int, Failure>)
    ensures opt.IntervalNumber? ==> r == Ok(opt.n)
    ensures opt.IntervalText? ==> (r.Ok? <==> ParseInt(opt.text).Some?)
    ensures opt.IntervalText? && r.Ok? ==> r.value == ParseInt(opt.text).value
    ensures r.Err? ==> r.error == IntervalNotInteger
  {
    match opt
    case IntervalNumber(n) => Ok(n)
    case IntervalText(t) =>
      match ParseInt(t)
      case Some(n) => Ok(n)
      case None => Err(IntervalNotInteger)
  }

  /** An interval written out in decimal is read back as that number. */
  lemma IntervalTextRoundTrip(n: int)
    ensures ParseInterval(IntervalText(IntToString(n))) == Ok(n)
  {
    IntRoundTrip(n);
  }

  /** The value of an upper-case attribute of Python 2's `logging` module:
      the level numbers 0 to 50 in steps of 10, and the text `BASIC_FORMAT`. */
  function LoggingAttribute(name: string): (attr: Option<LogLevel>)
    ensures attr.Some? && attr.value.Numeric? ==> attr.value.level % 10 == 0 && 0 <= attr.value.level <= 50
    ensures attr.Some? && attr.value.Named? ==> name == "BASIC_FORMAT"
    ensures name == "INFO" ==> attr == Some(Numeric(20))
    ensures attr.Some? ==> forall i :: 0 <= i < |name| ==> !('a' <= name[i] <= 'z')
  {
    if name == "CRITICAL" || name == "FATAL" then Some(Numeric(50))
    else if name == "ERROR" then Some(Numeric(40))
    else if name == "WARNING" || name == "WARN" then Some(Numeric(30))
    else if name == "INFO" then Some(Numeric(20))
    else if name == "DEBUG" then Some(Numeric(10))
    else if name == "NOTSET" then Some(Numeric(0))
    else if name == "BASIC_FORMAT" then Some(Named("%(levelname)s:%(name)s:%(message)s"))
    else None
  }

  /** `getattr(logging, name.upper(), 'INFO')`. */
  function LogLevelFor(name: string): (level: LogLevel)
    ensures LoggingAttribute(Upper(name)).None? ==> level == Named("INFO")
    ensures LoggingAttribute(Upper(name)).Some? ==> level == LoggingAttribute(Upper(name)).value
  {
    match LoggingAttribute(Upper(name))
    case Some(l) => l
    case None => Named("INFO")
  }

  /** The level does not depend on the case the name is written in. */
  lemma LogLevelIgnoresCase(name: string)
    ensures LogLevelFor(Upper(name)) == LogLevelFor(name)
  {
    UpperIdempotent(name);
  }

  /** The documented level names select their numeric levels. */
  lemma DocumentedLogLevels()
    ensures LogLevelFor("debug") == Numeric(10)
    ensures LogLevelFor("info") == Numeric(20)
    ensures LogLevelFor("warning") == Numeric(30)
    ensures LogLevelFor("error") == Numeric(40)
    ensures LogLevelFor("critical") == Numeric(50)
  {
    assert Upper("debug") == "DEBUG";
    assert Upper("info") == "INFO";
    assert Upper("warning") == "WARNING";
    assert Upper("error") == "ERROR";
    assert Upper("critical") == "CRITICAL";
  }

  /** `handle_noargs`: the queue check, then the server address, then the
      interval check, then the log level; on success the one worker run. */
  function HandleNoArgs(env: map<string, string>, settings: Settings, options: Options): (r: Result<Launch, Failure>)
    ensures QueueSource(env, settings).None? ==> r == Err(NoQueues)
    ensures QueueSource(env, settings).Some? && Server(settings).Err? ==> r == Err(PortNotNumber)
    ensures QueueSource(env, settings).Some? && Server(settings).Ok? && ParseInterval(options.interval).Err? ==>
      r == Err(IntervalNotInteger)
    ensures r.Ok? <==> QueueSource(env, settings).Some? && Server(settings).Ok? && ParseInterval(options.interval).Ok?
    ensures r.Ok? ==> r.value == Launch(
      LogLevelFor(options.logLevel), options.logFile,
      RunCall(ResolveQueues(env, settings).value, Server(settings).value, ParseInterval(options.interval).value))
  {
    match ResolveQueues(env, settings)
    case Err(e) => Err(e)
    case Ok(queues) =>
      match Server(settings)
      case Err(e) => Err(e)
      case Ok(server) =>
        match ParseInterval(options.interval)
        case Err(e) => Err(e)
        case Ok(interval) =>
          Ok(Launch(LogLevelFor(options.logLevel), options.logFile, RunCall(queues, server, interval)))
  }

  /** Run with no options, the worker polls every 5 seconds and logs at level INFO. */
  lemma DefaultLaunch(env: map<string, string>, settings: Settings)
    requires QueueSource(env, settings).Some? && Server(settings).Ok?
    ensures HandleNoArgs(env, settings, DefaultOptions()).Ok?
    ensures HandleNoArgs(env, settings, DefaultOptions()).value.run.interval == DefaultInterval
    ensures HandleNoArgs(env, settings, DefaultOptions()).value.logLevel == Numeric(20)
  {
    DocumentedLogLevels();
  }

  /** `QUEUES=q1,q2` runs the worker on `q1` then `q2`, whatever the settings say. */
  lemma EnvironmentQueuesWin(settings: Settings, options: Options)
    requires Server(settings).Ok? && ParseInterval(options.interval).Ok?
    ensures var r := HandleNoArgs(map["QUEUES" := "q1,q2"], settings, options);
      r.Ok? && r.value.run.queues == ["q1", "q2"]
  {
    var env := map["QUEUES" := "q1,q2"];
    assert EnvGiven(env, "QUEUES");
    assert Split("q1,q2", ',') == ["q1", "q2"] by {
      assert Join(["q1", "q2"], [',']) == "q1,q2";
      SplitJoin(["q1", "q2"], ',');
    }
    assert ResolveQueues(env, settings) == Ok(["q1", "q2"]);
  }
}
