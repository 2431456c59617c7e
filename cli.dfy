/** The `isolate` command line tool (src/main.rs): where the configuration file is looked
    for, which text is parsed as the configuration, and the `-d` early exit.

    Docopt has already turned the command line into `Arguments`; the environment variable
    HOME, the files that exist, the files that can be read and the texts TOML accepts are
    fixed by an `Env` value. */
module Cli {
  import opened Errors

  const LOCAL_CONFIG: string := "isolate.toml"
  const HIDDEN_CONFIG: string := ".isolate.toml"
  const SYSTEM_CONFIG: string := "/etc/isolate.toml"

  /** The two candidates under the home directory `home`. */
  function UserConfig(home: string): string {
    home + "/.config/isolate.toml"
  }

  function HiddenUserConfig(home: string): string {
    home + "/.isolate.toml"
  }

  /** `default_config_paths`: the working directory's two names, the two under HOME when HOME
      is set, and the system-wide file. */
  function ConfigCandidates(home: Option<string>): seq<string> {
    [LOCAL_CONFIG, HIDDEN_CONFIG]
      + (if home.Some? then [UserConfig(home.value), HiddenUserConfig(home.value)] else [])
      + [SYSTEM_CONFIG]
  }

  /** Five candidates with HOME, three without; the system-wide file is always the last. */
  lemma ConfigCandidatesShape(home: Option<string>)
    ensures var paths := ConfigCandidates(home);
      && |paths| == (if home.Some? then 5 else 3)
      && paths[0] == "isolate.toml" && paths[1] == ".isolate.toml"
      && paths[|paths| - 1] == "/etc/isolate.toml"
      && (home.Some? ==>
            paths[2] == home.value + "/.config/isolate.toml" && paths[3] == home.value + "/.isolate.toml")
  {
  }

  /** `default_config_paths`, building the list with pushes. */
  method DefaultConfigPaths(home: Option<string>) returns (paths: seq<string>)
    ensures paths == ConfigCandidates(home)
  {
    paths := [LOCAL_CONFIG, HIDDEN_CONFIG];
    if home.Some? {
      paths := paths + [UserConfig(home.value)];
      paths := paths + [HiddenUserConfig(home.value)];
    }
    paths := paths + [SYSTEM_CONFIG];
  }

  /** The first of `paths` that exists, if any. */
  function FirstExisting(paths: seq<string>, existing: set<string>): (r: Option<string>)
    ensures r.None? <==> forall i :: 0 <= i < |paths| ==> paths[i] !in existing
    ensures r.Some? ==> exists k :: 0 <= k < |paths| && paths[k] == r.value && r.value in existing
                                    && forall i :: 0 <= i < k ==> paths[i] !in existing
  {
    if paths == [] then None
    else if paths[0] in existing then Some(paths[0])
    else
      var rest := FirstExisting(paths[1..], existing);
      assert forall i :: 0 < i < |paths| ==> paths[i] == paths[1..][i - 1];
      if rest.Some? then
        var k :| 0 <= k < |paths[1..]| && paths[1..][k] == rest.value && rest.value in existing
                 && forall i :: 0 <= i < k ==> paths[1..][i] !in existing;
        assert paths[k + 1] == rest.value;
        rest
      else
        rest
  }

  /** `find_config_path`: the `--config-file` path when one was given, otherwise the first
      candidate that exists. */
  function FindConfig(explicit: Option<string>, home: Option<string>, existing: set<string>): Option<string> {
    if explicit.Some? then explicit else FirstExisting(ConfigCandidates(home), existing)
  }

  /** An explicit path is taken as given, whether or not it exists; otherwise the result is
      the earliest existing candidate, and there is none exactly when no candidate exists. */
  lemma FindConfigChoice(explicit: Option<string>, home: Option<string>, existing: set<string>)
    ensures explicit.Some? ==> FindConfig(explicit, home, existing) == explicit
    ensures explicit.None? ==>
      var paths := ConfigCandidates(home);
      var found := FindConfig(explicit, home, existing);
      && (found.None? <==> forall i :: 0 <= i < |paths| ==> paths[i] !in existing)
      && (found.Some? ==> exists k :: 0 <= k < |paths| && paths[k] == found.value && found.value in existing
                                      && forall i :: 0 <= i < k ==> paths[i] !in existing)
  {
  }

  /** Neither candidate under HOME can name the system-wide file, whatever HOME is. */
  lemma SystemConfigIsNotUnderHome(home: string)
    ensures UserConfig(home) != SYSTEM_CONFIG && HiddenUserConfig(home) != SYSTEM_CONFIG
  {
    var hidden := HiddenUserConfig(home);
    if |hidden| == |SYSTEM_CONFIG| {
      assert hidden[|home| + 1] == '.' != SYSTEM_CONFIG[|home| + 1];
    }
  }

  /** A file in the working directory wins over every other candidate, and the system-wide
      file is used only when none of the others exists. */
  lemma FindConfigPrecedence(home: Option<string>, existing: set<string>)
    ensures LOCAL_CONFIG in existing ==> FindConfig(None, home, existing) == Some(LOCAL_CONFIG)
    ensures FindConfig(None, home, existing) == Some(SYSTEM_CONFIG) <==>
      SYSTEM_CONFIG in existing && forall i :: 0 <= i < |ConfigCandidates(home)| - 1 ==> ConfigCandidates(home)[i] !in existing
  {
    var paths := ConfigCandidates(home);
    ConfigCandidatesShape(home);
    var found := FindConfig(None, home, existing);
    if found == Some(SYSTEM_CONFIG) {
      var k :| 0 <= k < |paths| && paths[k] == SYSTEM_CONFIG && SYSTEM_CONFIG in existing
               && forall i :: 0 <= i < k ==> paths[i] !in existing;
      if home.Some? {
        SystemConfigIsNotUnderHome(home.value);
      }
    }
    if SYSTEM_CONFIG in existing && forall i :: 0 <= i < |paths| - 1 ==> paths[i] !in existing {
      assert paths[|paths| - 1] in existing;
      var k :| 0 <= k < |paths| && paths[k] == found.value && found.value in existing
               && forall i :: 0 <= i < k ==> paths[i] !in existing;
      assert k == |paths| - 1;
    }
  }

  /** `find_config_path`: the loop over the candidates, returning at the first that exists. */
  method FindConfigPath(explicit: Option<string>, home: Option<string>, existing: set<string>) returns (found: Option<string>)
    ensures found == FindConfig(explicit, home, existing)
  {
    if explicit.Some? {
      return explicit;
    }
    var paths := DefaultConfigPaths(home);
    var i := 0;
    while i < |paths|
      invariant 0 <= i <= |paths|
      invariant FirstExisting(paths, existing) == FirstExisting(paths[i..], existing)
    {
      assert paths[i..][1..] == paths[i + 1..];
      if paths[i] in existing {
        return Some(paths[i]);
      }
      i := i + 1;
    }
    found := None;
  }

  /** A value, or the message of the `expect` that panicked. */
  datatype Checked<T> = Value(value: T) | Panic(message: string)

  /** The configuration file format has no field yet. */
  datatype Configuration = Configuration

  /** What the program runs: program, arguments and configuration. */
  datatype Command = Command(program: string, arguments: seq<string>, config: Configuration)

  /** `Command::new`: stores its three arguments as they are. */
  function NewCommand(program: string, arguments: seq<string>, config: Configuration): (c: Command)
    ensures c.program == program && c.arguments == arguments && c.config == config
  {
    Command(program, arguments, config)
  }

  /** The command line after Docopt: `--config-file`, `-d`, the program and its arguments. */
  datatype Arguments = Arguments(configFile: Option<string>, defaultConfig: bool, program: string, args: seq<string>)

  /** HOME (if set and valid), the paths that exist, the files that can be opened, each with
      its contents when reading it succeeds or `None` when `read_to_string` fails (a directory,
      text that is not UTF-8), and the texts that TOML deserialises into a `Configuration`. */
  datatype Env = Env(home: Option<string>, existing: set<string>, openable: map<string, Option<string>>, validToml: set<string>)

  const OPEN_FAILED: string := "could not open configuration file"
  const READ_FAILED: string := "could not read configuration file"

  /** The text `config` parses: the found file's contents, or the built-in default when no
      file was found. A found file that cannot be opened panics with the open message; one
      that opens but cannot be read panics with the read message. */
  function ConfigText(found: Option<string>, openable: map<string, Option<string>>, defaultText: string): (r: Checked<string>)
    ensures found.None? ==> r == Value(defaultText)
    ensures found.Some? && found.value !in openable ==> r == Panic(OPEN_FAILED)
    ensures found.Some? && found.value in openable && openable[found.value].None? ==> r == Panic(READ_FAILED)
    ensures found.Some? && found.value in openable && openable[found.value].Some? ==> r == Value(openable[found.value].value)
    ensures r.Panic? <==> found.Some? && (found.value !in openable || openable[found.value].None?)
  {
    match found
    case None => Value(defaultText)
    case Some(path) =>
      if path !in openable then Panic(OPEN_FAILED)
      else match openable[path]
        case None => Panic(READ_FAILED)
        case Some(text) => Value(text)
  }

  /** `from_str(&text).expect(...)`. */
  function ParseConfig(text: string, validToml: set<string>): Checked<Configuration> {
    if text in validToml then Value(Configuration) else Panic("could not parse configuration")
  }

  /** `Arguments::config`. */
  function Config(args: Arguments, env: Env, defaultText: string): Checked<Configuration> {
    match ConfigText(FindConfig(args.configFile, env.home, env.existing), env.openable, defaultText)
    case Panic(m) => Panic(m)
    case Value(text) => ParseConfig(text, env.validToml)
  }

  /** `into_command`. */
  function IntoCommand(args: Arguments, env: Env, defaultText: string): Checked<Command> {
    match Config(args, env, defaultText)
    case Panic(m) => Panic(m)
    case Value(config) => Value(NewCommand(args.program, args.args, config))
  }

  /** How `main` ends: the default configuration printed with exit status 0, a panic, or the
      command handed to `exec`. */
  datatype Exit = Printed(text: string, status: int) | Panicked(message: string) | Spawned(command: Command)

  function MainRun(args: Arguments, env: Env, defaultText: string): Exit {
    if args.defaultConfig then Printed(defaultText, 0)
    else match IntoCommand(args, env, defaultText)
      case Panic(m) => Panicked(m)
      case Value(c) => Spawned(c)
  }

  /** With `-d` the built-in configuration is printed and the program exits with 0 before any
      configuration file is looked for or any command is built: nothing in the environment
      changes the outcome. */
  lemma DefaultConfigExitsFirst(args: Arguments, env: Env, other: Env, defaultText: string)
    requires args.defaultConfig
    ensures MainRun(args, env, defaultText) == Printed(defaultText, 0)
    ensures MainRun(args, env, defaultText) == MainRun(args, other, defaultText)
  {
  }

  /** Without any configuration file, the built-in default is what gets parsed. */
  lemma NoFileUsesDefault(args: Arguments, env: Env, defaultText: string)
    requires FindConfig(args.configFile, env.home, env.existing).None?
    ensures Config(args, env, defaultText) == ParseConfig(defaultText, env.validToml)
  {
  }

  /** The program spawns a command exactly when `-d` was not given, the configuration text
      was obtained and it parsed; the command is the program and arguments as given. */
  lemma MainSpawnsIff(args: Arguments, env: Env, defaultText: string)
    ensures var found := FindConfig(args.configFile, env.home, env.existing);
      var text := ConfigText(found, env.openable, defaultText);
      && (MainRun(args, env, defaultText).Spawned? <==>
            !args.defaultConfig && text.Value? && text.value in env.validToml)
      && (MainRun(args, env, defaultText).Spawned? ==>
            MainRun(args, env, defaultText).command == Command(args.program, args.args, Configuration))
  {
  }
}
