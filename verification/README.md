# go-cli core, modelled in Dafny

go-cli is a small Go library for long-running command-line services. A `Cli` value holds a table from
command names to handler functions and dispatches the command token given on the command line. `RunLoop`
runs a periodic task on a ticker until a terminate signal sets the shutdown flag. `StartService` and
`StopService` register commands that turn the service into a detached daemon, recorded in a pid file, and
stop it again. This project models that deterministic core of `cli.go`, plus the `ConfigType` value of
`config_type.go` and the `random_string` example command.

Modules follow the Go packages:

- `Strconv` (strconv.dfy): `Itoa` and `Atoi` on 64-bit integers, with the round trip in both directions.
  These are the calls that write the pid file and read it back.
- `Filepath` (filepath.dfy): `filepath.Base` on Unix, used to name the pid and log files.
- `GoCli` (cli.dfy): the `Cli` class and its command table, the construction defaults, the interval clamp,
  the tick loop, and the `startDaemon`/`stopDaemon` chains. The files those chains touch are held in a
  `Disk` object. Each operating-system call is an outcome given by the caller (`StartEnv`, `StopEnv`).
- `ConfigTypes` (config_type.dfy): `ConfigType`, `Json` and `Yaml`.
- `Commands` (random_string.dfy): `random_string` and the `RandomString` command. The random generator is
  replaced by the sequence of indices it returns.
- `Wrappers` (wrappers.dfy): `Option`.

Handlers are values of `Handler`: `Custom(id)` for an application function, and one constructor for each
closure the library builds itself (`PrintVersion`, `DaemonStart(command)`, `DaemonStop`). Durations are
integers counting nanoseconds, like Go's `time.Duration`. Go's `int` is modelled as `Int64`.

The tick loop is fed a finite sequence `signals`. `signals[i]` holds when the signal listener has set the
shutdown flag before tick `i` is served. The listener's write is `MarkShutdown`, which only ever sets the
flag to true.

Points where the code behaves differently from what a reader might expect; the model follows the code:

- The interval floor is tested as `TimeLoop < 2` on a `time.Duration` (cli.go:222), so the threshold is
  2 nanoseconds. Only intervals below 2 ns become 2 seconds. A requested 1 ms interval is kept
  (`ClampKeepsOneMillisecond`), although the comment beside the assignment (cli.go:223) speaks of a
  2-second minimum.
- The pid file path is `runtimePath + base name + ".pid"` by plain concatenation, and no separator is
  inserted. A runtime path without a trailing `/` is therefore glued to the name (`RuntimePathWithoutSlash`).
- `RunLoop` resets `IsShutdown` to false on entry (cli.go:229), so a flag set earlier is cleared when the
  loop is entered again. Within one run of the loop it only goes from false to true.
- When sending the stop signal fails, the pid file is kept. It is removed only after a successful signal.

## Model

| member | source | states |
|---|---|---|
| `Strconv.Itoa` | cli.go:305 | the pid text is canonical decimal: at least one digit, no leading zero, '-' exactly for negative values |
| `Strconv.Atoi` | cli.go:330-334 | a parsed pid comes from an optional sign followed by one or more digits only, and a negative result needs a leading '-' |
| `Strconv.AtoiItoa` | cli.go:305-330 | reading back the pid text written by the daemon launcher gives the same pid, for every 64-bit integer |
| `Strconv.ItoaAtoi` | cli.go:330-334 | every canonical decimal text that Atoi accepts is exactly the Itoa text of its value |
| `Strconv.AtoiRejectsNonDigit` | cli.go:330-334 | any character that is neither a digit nor a leading sign makes the pid invalid |
| `Strconv.AtoiRejectsTrailingNewline` | cli.go:330-334 | a pid file holding a number followed by a newline is reported as an invalid pid |
| `Strconv.AtoiRejectsEmpty` | cli.go:330-334 | an empty pid file is an invalid pid |
| `Filepath.Base` | cli.go:84 | the binary name is never empty and holds no '/' unless it is "/" itself; the empty path gives "."; a path of separators only gives "/" |
| `Filepath.BaseIgnoresTrailingSeparator` | cli.go:84 | a trailing separator is dropped before the last element is taken, so "bin/app/" names the same binary as "bin/app" |
| `Filepath.BaseOfPlainName` | cli.go:84 | a binary invoked by a plain name keeps that name |
| `Filepath.BaseDropsDirectories` | cli.go:84 | the directories in front of the binary's name are dropped |
| `GoCli.PidFilePath` | cli.go:84-85 | the pid file path is the runtime path, then the binary's base name, then ".pid", with nothing in between |
| `GoCli.LogFilePath` | cli.go:283-284 | the log file path is the runtime path, then the binary's base name, then ".log", with nothing in between |
| `GoCli.RuntimePathOf` | cli.go:78-81 | the runtime path is never empty: an empty option becomes "runtime/", any other is kept |
| `GoCli.PidFilePathOfPlainName` | cli.go:84-85 | pid and log paths are runtime path, binary name and suffix run together with nothing inserted |
| `GoCli.RuntimePathWithoutSlash` | cli.go:85 | runtime path "runtime" and binary "app" give the pid file "runtimeapp.pid" |
| `GoCli.PidAndLogFilesDiffer` | cli.go:284-305 | the daemon's log file and its pid file are never the same path |
| `GoCli.ClampInterval` | cli.go:222-224 | the interval is at least 2 ns; inputs of 2 ns or more are kept; smaller ones become 2 seconds |
| `GoCli.ClampIdempotent` | cli.go:222-224 | clamping twice is the same as clamping once |
| `GoCli.ClampKeepsOneMillisecond` | cli.go:222-224 | a 1 ms request is not raised to 2 seconds |
| `GoCli.FirstShutdownTick` | cli.go:231-245 | the number of launched tasks is the index of the first tick that sees the flag; no earlier tick sees it |
| `GoCli.LaterTicksIgnored` | cli.go:231-238 | ticks after the one that observes shutdown do not change how many tasks were launched |
| `GoCli.ChildArgs` | cli.go:294 | the child's arguments have the raw arguments' length, the service command first and the rest unchanged |
| `GoCli.Touch` | cli.go:286 | opening the log with O_CREATE makes it exist and leaves every existing file's content alone |
| `GoCli.Cli.constructor` | cli.go:56-91 | the runtime path defaults to "runtime/"; the pid file is runtime path + base name + ".pid"; "version" and "v" share one handler; the shutdown flag is false |
| `GoCli.Cli.RuntimePath` | cli.go:105 | the runtime path a constructed Cli reports is never empty |
| `GoCli.Cli.AddDefaultCommand` | cli.go:108-112 | "version" and its alias "v" are bound to the version handler |
| `GoCli.Cli.AddCommandAndAlias` | cli.go:120-123 | both the command and the alias map to the same handler, and every other entry is unchanged |
| `GoCli.Cli.AddCommand` | cli.go:130-132 | the command maps to the new handler even if it was bound before, and every other entry is unchanged |
| `GoCli.Cli.StartService` | cli.go:269-275 | the service runs under its command, and the start command launches it as a daemon |
| `GoCli.Cli.StopService` | cli.go:317-321 | the stop command is bound to the daemon stopper, and nothing else changes |
| `GoCli.Cli.Run` | cli.go:253-261 | a known command invokes exactly its handler; an unknown one invokes none and prints "Command '<name>' not found"; the error is nil in both cases |
| `GoCli.Cli.MarkShutdown` | cli.go:177-181 | the signal listener only ever sets the shutdown flag to true |
| `GoCli.Cli.RunLoop` | cli.go:219-248 | the flag is reset on entry and the interval is clamped; with no OnLoop no task runs; otherwise one task per tick before the first tick that sees the flag, then return |
| `GoCli.Cli.StartDaemon` | cli.go:281-311 | a log-open failure stops before any spawn; a spawn failure stops before any pid write; the child runs with [command] ++ rawArgs[1:], output to the log; exit 0 only after the pid text is written |
| `GoCli.Cli.StopDaemon` | cli.go:324-346 | read, parse, find and signal happen in order, each failure ending the chain; the pid file is removed only when all four succeed, otherwise it is left exactly as it was |
| `GoCli.StartThenStop` | cli.go:281-346 | after a successful start, a stop signals exactly the spawned pid and the pid file no longer exists |
| `ConfigTypes.ConfigType.String` | config_type.go:7-9 | String returns the slug field unchanged |
| `ConfigTypes.JsonString` | config_type.go:12 | Json prints as "json" |
| `ConfigTypes.YamlString` | config_type.go:13 | Yaml prints as "yaml" |
| `ConfigTypes.StringDeterminesValue` | config_type.go:7-9 | String returns the slug unchanged, so two config types print the same exactly when they are equal |
| `ConfigTypes.JsonYamlDistinct` | config_type.go:12-13 | Json and Yaml are distinct values with distinct names |
| `Commands.LetterBytesSize` | example/commands/random_string.go:10 | the alphabet has 62 characters, so every index the generator returns is a valid position |
| `Commands.RandomLetters` | example/commands/random_string.go:12-18 | for n >= 0 the string has exactly n characters, the i-th being the alphabet letter at the i-th drawn index; n = 0 gives the empty string |
| `Commands.LengthOf` | example/commands/random_string.go:21 | the length is the flag's value, or 10 when the flag is absent |
| `Commands.RandomString` | example/commands/random_string.go:20-25 | the command prints the banner, the length in decimal, and a random string of that length |

## Left out

- The signal listener goroutine (cli.go:149-208) is not modelled. This covers the SIGHUP reload of the
  configuration, the OnShutdown task behind its `recover` barrier, `wg.Wait`, and `os.Exit(0)`. These exist
  to coordinate concurrency. Only its write of the shutdown flag is kept, as `MarkShutdown`.
- Loading and reloading configuration (`LoadConfig`, the `AutoLoadConfig` branch, cli.go:62-73 and 94-102)
  calls into the go-config library, whose code is not part of this model. Parse results are opaque.
- Argument parsing (`Args.Parse`, `GetRawArgs`, `GetIntOr`) belongs to the go-args library. Its results are
  inputs: the `Args` value and the optional `length` flag.
- Opening, writing, reading and removing files, spawning with `Setsid`, finding and signalling a process:
  each is an outcome given by the caller. The model keeps only their effect on the files in `Disk` and the
  argument list of the spawned child.
- Timing and logging are not modelled: ticker timing, `time.Now`, the `Log` format, and the version
  handler's printed text. Only the clamped interval is computed.
- The tick loop runs over a finite sequence of ticks. The real ticker never ends, so `returned` is false when
  no tick in the sequence sees the flag.
- Overlap of tick tasks, panics inside `OnLoop`, and the `wg.Wait` before the loop returns are concurrency
  concerns and are not modelled. The race between the listener and the `IsShutdown = false` reset on entry
  is not modelled either.
- The math/rand generator is replaced by the sequence of indices it returns.
- `NewCli` is not a separate member. It is the constructor given `NoOptions`.
- The other example files (`example/main.go`, `world.go`, `clear_log.go`, `listen.go`) only wire up or print.
- `GoCli.Cli.StopDaemon`: a pid file that cannot be read is modelled only as an absent file. Other read errors
  are not distinguished.
- `GoCli.Cli.StartDaemon`: a failed pid-file write leaves the files as they were after the log was opened.
  A partial write is not modelled.
- `Strconv.Atoi`: Go's two error kinds (syntax and range) are both reported as `None`.
- `Commands.RandomLetters`: the buffer is built from `char`s rather than bytes. This is faithful because
  every letter of the alphabet is ASCII.
