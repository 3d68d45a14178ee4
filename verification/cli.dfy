/**
 * The deterministic core of package gocli (cli.go): the command table and its dispatch,
 * construction defaults and the pid/log paths, the interval clamp and tick loop of RunLoop,
 * and the early-return chains that start and stop the daemon.
 *
 * Real operating-system effects are outcomes handed in by the caller (StartEnv, StopEnv);
 * the files those effects touch live in a Disk.
 */
module GoCli {
  import opened Wrappers
  import opened Strconv
  import Filepath

  /** A Go time.Duration counts nanoseconds. */
  const Second: int := 1_000_000_000

  const DefaultRuntimePath: string := "runtime/"

  /** CliOptions, as given to NewCliWithConfig. */
  datatype CliOptions = CliOptions(
    appName: string,
    version: string,
    configFile: seq<string>,
    runtimePath: string,
    autoLoadConfig: bool)

  /** NewCli passes every option at its zero value. */
  const NoOptions: CliOptions := CliOptions("", "", [], "", false)

  /** What the argument parser hands over: the positional command token and the raw argument list. */
  datatype Args = Args(command: string, rawArgs: seq<string>)

  /** The handler functions the table can hold. */
  datatype Handler =
    | Custom(id: nat)               // a function registered by the application
    | PrintVersion                  // the closure addDefaultCommand registers
    | DaemonStart(command: string)  // the closure StartService registers under its start command
    | DaemonStop                    // the closure StopService registers

  /** What Run does with the command token: invoke one handler, or print a not-found message. */
  datatype Dispatch = Invoke(handler: Handler) | NotFound(message: string)

  /** CliRunLoop: the callbacks (None for a nil func) and the requested interval in nanoseconds. */
  datatype CliRunLoop = CliRunLoop(onLoop: Option<nat>, onShutdown: Option<nat>, timeLoop: int)

  /** Outcomes of the operating-system calls startDaemon makes, in order. */
  datatype StartEnv = StartEnv(logOpens: bool, spawned: Option<Int64>, pidWritten: bool)

  /** Outcomes of the operating-system calls stopDaemon makes after reading and parsing the pid file. */
  datatype StopEnv = StopEnv(processFound: bool, signalDelivered: bool, removed: bool)

  /** The detached child: binary path, argument list, and the file receiving its stdout and stderr. */
  datatype Launch = Launch(path: string, args: seq<string>, output: string)

  datatype StartOutcome = LogOpenFailed | SpawnFailed | PidWriteFailed | Exited(code: int)

  datatype StopOutcome = ReadFailed | InvalidPid | FindFailed | SignalFailed | Stopped(pid: Int64)

  /** An empty runtime path is replaced by the default. */
  function RuntimePathOf(requested: string): (r: string)
    ensures r != []
    ensures requested == [] ==> r == DefaultRuntimePath
    ensures requested != [] ==> r == requested
  {
    if requested == [] then DefaultRuntimePath else requested
  }

  /** Plain concatenation: no separator is inserted after the runtime path. */
  function PidFilePath(runtimePath: string, argv0: string): (p: string)
    ensures |p| == |runtimePath| + |Filepath.Base(argv0)| + 4
    ensures p[..|runtimePath|] == runtimePath
    ensures p[|runtimePath|..|p| - 4] == Filepath.Base(argv0)
    ensures p[|p| - 4..] == ".pid"
  {
    runtimePath + Filepath.Base(argv0) + ".pid"
  }

  /** The daemon's log file, named like the pid file with ".log" in place of ".pid". */
  function LogFilePath(runtimePath: string, argv0: string): (p: string)
    ensures |p| == |runtimePath| + |Filepath.Base(argv0)| + 4
    ensures p[..|runtimePath|] == runtimePath
    ensures p[|runtimePath|..|p| - 4] == Filepath.Base(argv0)
    ensures p[|p| - 4..] == ".log"
  {
    runtimePath + Filepath.Base(argv0) + ".log"
  }

  /** For a binary invoked by a plain name, the pid file is the runtime path, the name and ".pid", run together. */
  lemma PidFilePathOfPlainName(runtimePath: string, name: string)
    requires name != [] && '/' !in name
    ensures PidFilePath(runtimePath, name) == runtimePath + name + ".pid"
    ensures LogFilePath(runtimePath, name) == runtimePath + name + ".log"
  {
    Filepath.BaseOfPlainName(name);
  }

  /** A runtime path given without a trailing '/' is glued to the binary name. */
  lemma RuntimePathWithoutSlash()
    ensures PidFilePath("runtime", "app") == "runtimeapp.pid"
  {
    PidFilePathOfPlainName("runtime", "app");
  }

  /** The daemon's log and its pid are never written to the same file. */
  lemma PidAndLogFilesDiffer(runtimePath: string, argv0: string)
    ensures PidFilePath(runtimePath, argv0) != LogFilePath(runtimePath, argv0)
  {
    var p, l := PidFilePath(runtimePath, argv0), LogFilePath(runtimePath, argv0);
    assert p[|p| - 1] != l[|l| - 1];
  }

  /** RunLoop's clamp, as written: the test is against 2 nanoseconds, and smaller values become 2 seconds. */
  function ClampInterval(d: int): (r: int)
    ensures r >= 2
    ensures d >= 2 ==> r == d
    ensures d < 2 ==> r == 2 * Second
  {
    if d < 2 then 2 * Second else d
  }

  lemma ClampIdempotent(d: int)
    ensures ClampInterval(ClampInterval(d)) == ClampInterval(d)
  {
  }

  /** A requested interval of one millisecond is kept: the clamp does not raise it to 2 seconds. */
  lemma ClampKeepsOneMillisecond()
    ensures ClampInterval(Second / 1000) == Second / 1000
  {
  }

  /**
   * The index of the first tick at which a shutdown has been signalled (|signals| if none is):
   * the number of tasks the loop launches.
   */
  function FirstShutdownTick(signals: seq<bool>): (k: nat)
    ensures k <= |signals|
    ensures forall i :: 0 <= i < k ==> !signals[i]
    ensures k < |signals| ==> signals[k]
  {
    if signals == [] || signals[0] then 0 else 1 + FirstShutdownTick(signals[1..])
  }

  /** Ticks after the one that observes the shutdown change nothing: the loop has returned by then. */
  lemma {:induction false} LaterTicksIgnored(signals: seq<bool>, later: seq<bool>)
    requires FirstShutdownTick(signals) < |signals|
    ensures FirstShutdownTick(signals + later) == FirstShutdownTick(signals)
  {
    if !signals[0] {
      assert (signals + later)[1..] == signals[1..] + later;
      LaterTicksIgnored(signals[1..], later);
    }
  }

  /** The child's arguments: the service command in place of the first raw argument, the rest kept. */
  function ChildArgs(command: string, rawArgs: seq<string>): (args: seq<string>)
    requires |rawArgs| >= 1
    ensures |args| == |rawArgs|
    ensures args[0] == command
    ensures forall i :: 1 <= i < |args| ==> args[i] == rawArgs[i]
  {
    [command] + rawArgs[1..]
  }

  /** The files after opening `path` with O_CREATE: an absent file is created empty, an existing one is untouched. */
  function Touch(files: map<string, string>, path: string): (r: map<string, string>)
    ensures path in r && r.Keys == files.Keys + {path}
    ensures forall p :: p in files ==> r[p] == files[p]
  {
    if path in files then files else files[path := ""]
  }

  /** `after` agrees with `before` on every key outside `keys`. */
  ghost predicate AgreeOutside(after: map<string, Handler>, before: map<string, Handler>, keys: set<string>)
  {
    forall k :: k !in keys ==> (k in after <==> k in before) && (k in after ==> after[k] == before[k])
  }

  /** The files the daemon commands read and write. */
  class Disk {
    var files: map<string, string>

    constructor (files: map<string, string>)
      ensures this.files == files
    {
      this.files := files;
    }
  }

  class Cli {
    var isShutdown: bool
    var handler: map<string, Handler>
    const appName: string
    const version: string
    const configFile: seq<string>
    const runtimePath: string
    const pidFile: string
    /** os.Args[0], the path the binary was started by. */
    const argv0: string
    const args: Args

    /** The derived fields keep the relation construction gives them. */
    predicate Valid()
    {
      runtimePath != [] && pidFile == PidFilePath(runtimePath, argv0)
    }

    /** NewCliWithConfig; NewCli is this constructor given NoOptions. */
    constructor (options: CliOptions, argv0: string, args: Args)
      ensures Valid()
      ensures runtimePath == RuntimePathOf(options.runtimePath)
      ensures pidFile == runtimePath + Filepath.Base(argv0) + ".pid"
      ensures handler == map["version" := PrintVersion, "v" := PrintVersion]
      ensures !isShutdown
      ensures appName == options.appName && version == options.version && configFile == options.configFile
      ensures this.argv0 == argv0 && this.args == args
    {
      appName := options.appName;
      version := options.version;
      configFile := options.configFile;
      this.argv0 := argv0;
      this.args := args;
      var path := options.runtimePath;
      if path == "" {
        path := DefaultRuntimePath;
      }
      runtimePath := path;
      pidFile := path + Filepath.Base(argv0) + ".pid";
      isShutdown := false;
      handler := map[];
      new;
      AddDefaultCommand();
    }

    function RuntimePath(): (r: string)
      requires Valid()
      ensures r != []
    {
      runtimePath
    }

    /** Registers the version command under "version" and its alias "v". */
    method AddDefaultCommand()
      modifies this`handler
      ensures handler == old(handler)["version" := PrintVersion]["v" := PrintVersion]
    {
      AddCommandAndAlias("version", "v", PrintVersion);
    }

    method AddCommandAndAlias(command: string, alias: string, h: Handler)
      modifies this`handler
      ensures handler == old(handler)[command := h][alias := h]
      ensures command in handler && alias in handler && handler[command] == h && handler[alias] == h
      ensures AgreeOutside(handler, old(handler), {command, alias})
    {
      handler := handler[command := h];
      handler := handler[alias := h];
    }

    /** Binds `command` to `h`, replacing any earlier binding: the last registration wins. */
    method AddCommand(command: string, h: Handler)
      modifies this`handler
      ensures handler == old(handler)[command := h]
      ensures command in handler && handler[command] == h
      ensures AgreeOutside(handler, old(handler), {command})
    {
      handler := handler[command := h];
    }

    /** Registers the service under `command` and the daemon launcher for it under `startCmd`. */
    method StartService(command: string, startCmd: string, h: Handler)
      modifies this`handler
      ensures handler == old(handler)[command := h][startCmd := DaemonStart(command)]
      ensures startCmd in handler && handler[startCmd] == DaemonStart(command)
      ensures command != startCmd ==> command in handler && handler[command] == h
      ensures AgreeOutside(handler, old(handler), {command, startCmd})
    {
      AddCommand(command, h);
      AddCommand(startCmd, DaemonStart(command));
    }

    method StopService(stopCmd: string)
      modifies this`handler
      ensures handler == old(handler)[stopCmd := DaemonStop]
      ensures stopCmd in handler && handler[stopCmd] == DaemonStop
      ensures AgreeOutside(handler, old(handler), {stopCmd})
    {
      AddCommand(stopCmd, DaemonStop);
    }

    /** Looks the command token up; an unknown command is reported, and the error result is nil either way. */
    method Run() returns (d: Dispatch, err: Option<string>)
      ensures err == None
      ensures d.Invoke? <==> args.command in handler
      ensures d.Invoke? ==> d.handler == handler[args.command]
      ensures d.NotFound? ==> d.message == "Command '" + args.command + "' not found\n"
    {
      if args.command in handler {
        d := Invoke(handler[args.command]);
      } else {
        d := NotFound("Command '" + args.command + "' not found\n");
      }
      err := None;
    }

    /** The signal listener's reaction to an interrupt or terminate signal: the flag is only ever set to true. */
    method MarkShutdown()
      modifies this`isShutdown
      ensures isShutdown
    {
      isShutdown := true;
    }

    /**
     * RunLoop over a finite stretch of ticks. `signals[i]` holds when the listener has handled a terminate
     * signal before tick i is served. Returns the clamped interval, the number of OnLoop tasks launched,
     * and whether the loop returned within the given ticks.
     */
    method RunLoop(loop: CliRunLoop, signals: seq<bool>) returns (interval: int, launched: nat, returned: bool)
      modifies this`isShutdown
      ensures interval == ClampInterval(loop.timeLoop)
      ensures loop.onLoop.None? ==> launched == 0 && returned && !isShutdown
      ensures loop.onLoop.Some? ==> launched == FirstShutdownTick(signals)
      ensures loop.onLoop.Some? ==> returned == (launched < |signals|) && isShutdown == returned
    {
      interval := loop.timeLoop;
      if interval < 2 {
        interval := 2 * Second;
      }
      isShutdown := false;
      launched, returned := 0, false;
      if loop.onLoop.None? {
        returned := true;
        return;
      }
      var tick := 0;
      while tick < |signals|
        invariant tick <= FirstShutdownTick(signals)
        invariant launched == tick
        invariant !isShutdown
      {
        if signals[tick] {
          MarkShutdown();
        }
        if isShutdown {
          returned := true;
          return;
        }
        launched := launched + 1;
        tick := tick + 1;
      }
    }

    /**
     * startDaemon: open the log, spawn the detached child, write its pid, exit with status 0.
     * Each failure is reported and ends the chain.
     */
    method StartDaemon(command: string, disk: Disk, env: StartEnv) returns (outcome: StartOutcome, child: Option<Launch>)
      requires Valid() && |args.rawArgs| >= 1
      modifies disk
      ensures outcome.LogOpenFailed? <==> !env.logOpens
      ensures child.Some? <==> env.logOpens
      ensures child.Some? ==> child.value == Launch(argv0, ChildArgs(command, args.rawArgs), LogFilePath(runtimePath, argv0))
      ensures outcome.SpawnFailed? <==> env.logOpens && env.spawned.None?
      ensures outcome.PidWriteFailed? <==> env.logOpens && env.spawned.Some? && !env.pidWritten
      ensures outcome.Exited? ==> outcome.code == 0 && env.spawned.Some?
      ensures !env.logOpens ==> disk.files == old(disk.files)
      ensures env.logOpens && !outcome.Exited? ==> disk.files == Touch(old(disk.files), LogFilePath(runtimePath, argv0))
      ensures outcome.Exited? ==>
        disk.files == Touch(old(disk.files), LogFilePath(runtimePath, argv0))[pidFile := Itoa(env.spawned.value)]
    {
      child := None;
      var logFile := runtimePath + Filepath.Base(argv0) + ".log";
      if !env.logOpens {
        outcome := LogOpenFailed;
        return;
      }
      disk.files := Touch(disk.files, logFile);
      var childArgs := [command] + args.rawArgs[1..];
      child := Some(Launch(argv0, childArgs, logFile));
      if env.spawned.None? {
        outcome := SpawnFailed;
        return;
      }
      var pid := env.spawned.value;
      if !env.pidWritten {
        outcome := PidWriteFailed;
        return;
      }
      disk.files := disk.files[pidFile := Itoa(pid)];
      outcome := Exited(0);
    }

    /**
     * stopDaemon: read the pid file, parse it, find the process, send it SIGTERM, remove the pid file.
     * Each failure is reported and ends the chain with the pid file left as it was.
     */
    method StopDaemon(disk: Disk, env: StopEnv) returns (outcome: StopOutcome, signalled: Option<Int64>)
      modifies disk
      ensures pidFile !in old(disk.files) ==> outcome == ReadFailed && signalled == None
      ensures pidFile in old(disk.files) ==> (outcome == InvalidPid <==> Atoi(old(disk.files)[pidFile]).None?)
      ensures signalled.Some? <==>
        pidFile in old(disk.files) && Atoi(old(disk.files)[pidFile]).Some? && env.processFound
      ensures signalled.Some? ==> Atoi(old(disk.files)[pidFile]) == signalled
      ensures outcome.FindFailed? <==>
        pidFile in old(disk.files) && Atoi(old(disk.files)[pidFile]).Some? && !env.processFound
      ensures outcome.SignalFailed? <==> signalled.Some? && !env.signalDelivered
      ensures outcome.Stopped? <==> signalled.Some? && env.signalDelivered
      ensures outcome.Stopped? ==> signalled == Some(outcome.pid)
      ensures disk.files == if outcome.Stopped? && env.removed then old(disk.files) - {pidFile} else old(disk.files)
    {
      signalled := None;
      if pidFile !in disk.files {
        outcome := ReadFailed;
        return;
      }
      var parsed := Atoi(disk.files[pidFile]);
      if parsed.None? {
        outcome := InvalidPid;
        return;
      }
      var pid := parsed.value;
      if !env.processFound {
        outcome := FindFailed;
        return;
      }
      signalled := Some(pid);
      if !env.signalDelivered {
        outcome := SignalFailed;
        return;
      }
      if env.removed {
        disk.files := disk.files - {pidFile};
      }
      outcome := Stopped(pid);
    }
  }

  /**
   * Starting a daemon and later stopping it through a Cli built the same way: the stop signals exactly the
   * spawned pid and the pid file is gone afterwards.
   */
  method StartThenStop(starter: Cli, stopper: Cli, disk: Disk, command: string, pid: Int64)
    returns (started: StartOutcome, stopped: StopOutcome)
    requires starter.Valid() && stopper.Valid() && |starter.args.rawArgs| >= 1
    requires stopper.runtimePath == starter.runtimePath && stopper.argv0 == starter.argv0
    modifies disk
    ensures started == Exited(0)
    ensures stopped == Stopped(pid)
    ensures starter.pidFile !in disk.files
  {
    var child;
    started, child := starter.StartDaemon(command, disk, StartEnv(true, Some(pid), true));
    AtoiItoa(pid);
    var signalled;
    stopped, signalled := stopper.StopDaemon(disk, StopEnv(true, true, true));
  }
}
