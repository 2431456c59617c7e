# isolate — a Dafny model of its namespace-composition core

`isolate` launches a process inside fresh Linux namespaces. A `Context` is an ordered list of
namespaces (control group, IPC, mount, network, PID, user, UTS). It ORs their `CLONE_NEW*`
flags into the flags word of clone(2). It runs each namespace's configuration hooks in order,
stopping at the first error. It launches a child in four steps: map a stack, clone, configure
the child from outside, send SIGCONT. The user namespace maps root inside the new namespace to
the calling user and group by appending to `/proc/<pid>/uid_map`, `setgroups` and `gid_map`.
A `SplitBox` splits a namespace into its external and internal halves exactly once. The
command-line tool looks for its configuration file in a fixed list of places.

The model's files:

- `errors.dfy`: the error kinds and the result shapes.
- `sys.dfy`: the kernel boundary. An `Os` value fixes what each system call answers. Every
  operation returns a `Run`: its outcome plus the ordered log of requests it issued. `Then` and
  `Sequence` give Rust's `?` semantics.
- `clone_flags.dfy`: the clone(2) flag values and bit lemmas.
- `decimal.dfy`: decimal rendering of ids, as `format!("{}")` produces it.
- `namespace.dfy`: the namespace kinds, their flag table, and their hooks.
- `kinds.dfy`: one lemma per built-in kind, following the files under src/namespace/.
- `user.dfy`: the user namespace's builders and its mapping writes.
- `split_box.dfy`: the one-shot `SplitBox`.
- `context.dfy`: `Context` as a class over a `seq` of namespaces, and the launch protocol.
- `cli.dfy`: configuration-file discovery and `main`.

The repository has two versions of the `Namespace` trait:

- src/namespace.rs: a `c_int` flag plus three hooks.
- src/namespace/mod.rs: an optional flag plus `prepare`.

The model reads both as one table from kind to optional flag (`Namespace.CloneFlag`). The
integer flag of the older trait is that flag, or 0 when there is none (`Namespace.FlagBits`).
Every built-in kind is built by an argument-less `new()`, so each kind other than `User` is a
single nullary constructor: all values of a kind are equal. `Foreign` stands for any other
implementor of the trait. Its flag and its hook results are data.

Where the code and its documentation disagree, the model follows the code:

- `Share::addrspace` (src/context.rs:147-152) asks for CLONE_VM for `Private` and nothing for
  `Shared`. The doc comments of `exec_private` and `exec_shared` (src/context.rs:58-73) say
  the reverse. `Contexts.Addrspace` and `Contexts.ShareFlags` state what the code does.
- `exec` runs only the external configuration of each namespace (src/context.rs:87). The
  model never calls `prepare` or `internal_config` during a launch either.

## Model

| member | source | states |
|---|---|---|
| Namespace.FlagTable | src/namespace.rs:74-193 | ControlGroup, Ipc, Mount, Pid, User and Uts have the flags CLONE_NEWCGROUP, CLONE_NEWIPC, CLONE_NEWNS, CLONE_NEWPID, CLONE_NEWUSER and CLONE_NEWUTS, with their clone(2) values. An implementor that keeps the newer trait's default (src/namespace/mod.rs:68-70) has no flag, which the OR-fold sees as 0 |
| Kinds.MountKind | src/namespace/mount.rs:20-33 | every Mount value is the same; its flag is always CLONE_NEWNS (0x20000); every hook is the trait default, `Ok` without any request; it has no `Split` |
| Kinds.PidKind | src/namespace/pid.rs:11-24 | every Pid value is the same; its flag is always `Some(CLONE_NEWPID)` (0x20000000), never `None`; `prepare` is the default; it has no `Split`, so no `SplitBox` can hold it |
| Kinds.NetworkKind | src/namespace/network.rs:17-30 | every Network value is the same; its flag is always `Some(CLONE_NEWNET)` (0x40000000), never `None`; `prepare` is the default; it has no `Split` |
| Kinds.IpcKind | src/namespace/ipc.rs:13-28 | every Ipc value is the same; its flag is always `Some(CLONE_NEWIPC)` (0x8000000); `prepare` is the default; its split discards it and hands out `((), ())` |
| Kinds.UtsKind | src/namespace/uts.rs:10-25 | every Uts value is the same; its flag is always `Some(CLONE_NEWUTS)` (0x4000000); `prepare` is the default; its split discards it and hands out `((), ())` |
| Kinds.ControlGroupKind | src/namespace/control_group.rs:12-27 | every ControlGroup value is the same; its flag is always `Some(CLONE_NEWCGROUP)` (0x2000000); `prepare` is the default; its split discards it and hands out `((), ())` |
| Kinds.UserKind | src/namespace/user.rs:94-110 | the user namespace's flag is CLONE_NEWUSER (0x10000000); only `external_config` is overridden, and it performs the mapping plan of the two builder flags |
| Namespace.BuiltinFlagShape | src/namespace.rs:28-32 | a built-in kind's flag is present, is a single bit, and is neither CLONE_VM nor in the termination-signal byte |
| Namespace.BuiltinFlagsDistinct | src/namespace.rs:74-193 | two built-in namespaces have equal flags exactly when they are of the same kind, and disjoint flags otherwise |
| Namespace.BuiltinHooks | src/namespace.rs:38-56 | every built-in hook keeps the default: `Ok` with no request. The one exception is the user namespace's `external_config`, which performs exactly its mapping plan |
| SplitBoxes.DiscardedHalvesDoNothing | src/namespace/mod.rs:105-140 | both halves' `configure` and `cleanup` are `Ok` with no request (the defaults used by the `()` implementations at src/namespace/mod.rs:118 and 198) |
| SplitBoxes.SplitBox.constructor | src/namespace/mod.rs:153-161 | a new box holds the namespace `Together`. Only kinds that implement `Split` (Ipc, Uts, ControlGroup) can be boxed; Pid, Network, Mount and User cannot |
| SplitBoxes.SplitBox.CloneFlag | src/namespace/mod.rs:165-170 | the flag is the inner namespace's while `Together`, and `None` exactly when `Split` |
| SplitBoxes.SplitBox.Prepare | src/namespace/mod.rs:172-177 | `prepare` succeeds without any request, whether it delegates or the box is split |
| SplitBoxes.SplitBox.BoxedSplit | src/namespace/mod.rs:186-195 | the box is `Split` afterwards. Halves are returned, and they are the namespace's split, exactly when it was `Together`; otherwise the call panics (`None`) |
| SplitBoxes.SplitTwice | src/namespace/mod.rs:186-195 | splitting is one-shot: the first split of a new box succeeds, the second panics, and the box then has no flag |
| UserNamespace.Default | src/namespace/user.rs:85-92 | the default maps neither root user nor root group |
| UserNamespace.New | src/namespace/user.rs:38-40 | `User::new()` is the default, which maps neither root user nor root group |
| UserNamespace.MapRootUser | src/namespace/user.rs:43-49 | sets the user flag and keeps the group flag |
| UserNamespace.MapRootGroup | src/namespace/user.rs:52-58 | sets the group flag and keeps the user flag |
| UserNamespace.BuildersIdempotentAndCommute | src/namespace/user.rs:43-58 | each builder is idempotent, and the two commute |
| UserNamespace.SetGroupsTextRoundTrip | src/namespace/user.rs:129-137 | `Allow` is written "allow" and `Deny` "deny", and each text reads back as its value |
| UserNamespace.RootMapLineRoundTrip | src/namespace/user.rs:66 | the line "0 <id> 1" names exactly the outside id it was built from |
| Decimal.NatToStringRoundTrip | src/namespace/user.rs:66 | the decimal rendering of an id reads back as that id |
| Decimal.NatToStringInjective | src/namespace/user.rs:79 | distinct ids render as distinct texts |
| UserNamespace.MappingPlan | src/namespace/user.rs:99-109 | the plan is the uid mapping (if asked for), then "deny" to `setgroups` and the gid mapping (if asked for) |
| UserNamespace.ExternalConfigFollowsPlan | src/namespace/user.rs:99-109 | `external_config` performs the mapping plan, stopping at its first failing append |
| UserNamespace.ExternalConfigWithoutMappings | src/namespace/user.rs:99-109 | with neither flag set, it succeeds without touching any file |
| UserNamespace.UidFailureAbortsGroupMapping | src/namespace/user.rs:100-106 | a failing uid mapping is returned as the error, and neither `setgroups` nor `gid_map` is touched |
| UserNamespace.ExternalConfigOrder | src/namespace/user.rs:72-79 | the files touched are a prefix of the plan, so `gid_map` comes after `setgroups`. The call succeeds exactly when every planned file is writable, and then the whole plan ran |
| Sys.ApplyWritesStopsAtFirstFailure | src/namespace/user.rs:63-66 | a failed open or write is returned as the error of that file; nothing after it is written |
| UserNamespace.WriteSetGroups | src/namespace/user.rs:119-126 | issues exactly one append, of the value's text to `/proc/<pid>/setgroups`, and fails with that path's `Io` error exactly when the file cannot be written |
| UserNamespace.SetRootUser | src/namespace/user.rs:61-69 | issues exactly one append, of "0 <uid> 1" with the caller's uid to `/proc/<pid>/uid_map`, and fails with that path's `Io` error exactly when the file cannot be written |
| UserNamespace.SetRootGroup | src/namespace/user.rs:72-82 | writes "deny" to `setgroups`; only if that succeeded, appends "0 <gid> 1" to `gid_map` |
| UserNamespace.ExternalConfig | src/namespace/user.rs:99-109 | the uid mapping if asked for, then the group mapping if asked for; each failure aborts the rest |
| Contexts.ShareFlags | src/context.rs:139-152 | the mapping mode is `MAP_SHARED` exactly for `Shared` and `MAP_PRIVATE` exactly for `Private`. CLONE_VM is asked for exactly for `Private`, and `addrspace` never sets another bit |
| Contexts.StackMapping | src/context.rs:178-196 | the stack is readable and writable, anonymous and marked as a stack; it is shared with the parent exactly for `Shared` and private exactly for `Private` |
| Contexts.StackFromPtr | src/context.rs:158-167 | mmap's -1 or 0 is `StackAllocation`; any other address gives the stack top, `size` bytes above it |
| Contexts.ChildFromTid | src/context.rs:220-225 | a tid of -1 is a `Clone` error; any other tid is the child's pid |
| Contexts.Wait | src/context.rs:228-239 | one waitpid request; -1 is `ChildWait` |
| Contexts.Cont | src/context.rs:247-252 | one SIGCONT to the child; -1 is `ChildContinue` |
| Contexts.FoldIncludesAll | src/context.rs:104-106 | the OR-fold keeps every member's bits |
| Contexts.FoldIncludesNothingElse | src/context.rs:104-106 | the OR-fold sets no bit that no member sets |
| Contexts.FoldOrderIndependent | src/context.rs:104-106 | two lists with the same members have the same flags, whatever the order and the repetitions |
| Contexts.FoldAppend | src/context.rs:104-106 | adding a namespace ORs its flag into the flags |
| Contexts.BuiltinFoldFlags | src/context.rs:104-106 | for built-in namespaces, a kind's flag is set exactly when a namespace of that kind is in the context |
| Contexts.BuiltinFoldAvoidsVmAndSignal | src/context.rs:104-106 | the flags of built-in namespaces never include CLONE_VM or a bit of the signal byte |
| Contexts.ExecSignalIsSigchld | src/context.rs:79-84 | for built-in namespaces, the termination-signal byte of the clone flags is exactly SIGCHLD, whatever the sharing choice |
| Contexts.ExecVmIffPrivate | src/context.rs:79-84 | for built-in namespaces, CLONE_VM is in the clone flags exactly when the sharing choice is `Private` |
| Contexts.ExecNamespaceFlags | src/context.rs:79-84 | for built-in namespaces, a kind's flag is in the clone flags exactly when a namespace of that kind is in the context |
| Contexts.RunPassStopsAtFirstFailure | src/context.rs:108-130 | a pass succeeds exactly when every hook does, and then it issues every hook's requests in order. Otherwise it fails with the first failing hook's error, and no later namespace is called |
| Contexts.RunPassAppend | src/context.rs:108-130 | a namespace added last runs after the others and does not change what they do |
| Contexts.BuiltinPrepareIsNoOp | src/context.rs:108-122 | `prepare` and `internal_config` of built-in namespaces succeed without any request |
| Contexts.ExecProtocol | src/context.rs:76-91 | the stack is mapped first, with a length of 2048 pages, and clone is asked for only with a stack and with the composed flags. The child is continued only after every namespace configured it, so a configuration error is returned without SIGCONT; a failed SIGCONT returns `ChildContinue`. The child is returned exactly when every step succeeded |
| Contexts.Context.constructor | src/context.rs:43-47 | a new context has no namespace |
| Contexts.Context.With | src/context.rs:50-56 | appends the namespace after the others and ORs its flag into the context's flags |
| Contexts.Context.CloneFlag | src/context.rs:104-106 | an empty context's flags are 0; the flags include every member's bits |
| Contexts.Context.RunPhase | src/context.rs:108-130 | the loop over the namespaces returns what a pass stopping at the first failure returns |
| Contexts.Context.Prepare | src/context.rs:108-114 | the `prepare` pass |
| Contexts.Context.InternalConfig | src/context.rs:116-122 | the `internal_config` pass |
| Contexts.Context.ExternalConfig | src/context.rs:124-130 | the `external_config` pass |
| Contexts.Context.Configure | src/context.rs:94-100 | the external configuration pass that `exec` runs |
| Contexts.Context.Exec | src/context.rs:76-91 | the launch issues and returns what the launch protocol describes |
| Contexts.Context.Finish | src/context.rs:87-90 | after the clone: configure, then continue, each only if the previous step succeeded |
| Contexts.Context.ExecPrivate | src/context.rs:61-64 | a launch with `Private` |
| Contexts.Context.ExecShared | src/context.rs:70-73 | a launch with `Shared` |
| Cli.ConfigCandidatesShape | src/main.rs:118-132 | five candidates with HOME and three without, in the documented order, with `/etc/isolate.toml` last |
| Cli.DefaultConfigPaths | src/main.rs:118-132 | the pushes build exactly the candidate list |
| Cli.FirstExisting | src/main.rs:107-113 | the result is the earliest existing path, and it is `None` exactly when no path exists |
| Cli.FindConfigChoice | src/main.rs:101-115 | an explicit path is returned unchanged, whether or not it exists. Otherwise the result is the earliest existing candidate, and `None` exactly when no candidate exists |
| Cli.SystemConfigIsNotUnderHome | src/main.rs:124-129 | no HOME makes a candidate under HOME name `/etc/isolate.toml` |
| Cli.FindConfigPrecedence | src/main.rs:105-113 | `./isolate.toml` wins when it exists. `/etc/isolate.toml` is chosen exactly when it exists and no other candidate does |
| Cli.FindConfigPath | src/main.rs:101-115 | the loop with its early return chooses as described above |
| Cli.ConfigText | src/main.rs:87-95 | with no file found the text is the built-in default, and a found file's contents are used when it opens and reads. A found file that cannot be opened panics with "could not open configuration file"; one that opens but cannot be read panics with "could not read configuration file"; nothing else panics |
| Cli.NoFileUsesDefault | src/main.rs:88-97 | with no file found, the built-in default is what gets parsed |
| Cli.NewCommand | src/main.rs:149-155 | the command stores program, arguments and configuration unchanged |
| Cli.DefaultConfigExitsFirst | src/main.rs:38-47 | with `-d` the default configuration is printed with exit status 0, before any file is looked for; the environment cannot change this |
| Cli.MainSpawnsIff | src/main.rs:81-97 | a command is spawned exactly when `-d` was not given and the configuration text was obtained and parsed. Its program and arguments are those given |
| Sys.SequenceStopsAtFirstFailure | src/context.rs:108-114 | `?` after each step: the requests up to and including the first failing step are issued, and that step's error is returned |

## Left out

- System calls: `mmap`, `clone`, `kill`, `waitpid`, `sysconf`, `getuid` and `getgid` are not executed. An `Os` value fixes their answers, and the requests are logged.
- errno: the `errno!` payload of each error is not modelled. Errors carry their kind and, for file errors, the path.
- `exec_closure` (src/context.rs:199-214), the child-side self-SIGSTOP and the closure call: inter-process synchronisation. The model keeps the parent-side order "configure, then continue".
- Pointers are unbounded integers: `ptr + size` in `Stack::from_ptr` has no `isize` wrap-around, and the stack length `2048 * page size` has no `size_t` overflow. The page size is a `nat`, so a `sysconf` answer of -1 cannot be expressed. Also, `Box::into_raw`/`from_raw` and `Deref for Stack` are not modelled.
- File I/O: an append under `/proc` is a logged `(path, text)` request that fails exactly for the paths the `Os` marks unwritable. `Path::exists`, which configuration files open and whether reading them succeeds are parameters of `Cli.Env`.
- Docopt argument parsing, the `-h`/`-v` exits and `version()`: library code and build-time strings. The parsed `Arguments` are an input.
- TOML deserialisation: the texts it accepts are a parameter, and `Configuration` has no field.
- `Command::exec`: the `unshare` crate's spawn and wait are foreign. `Cli.MainRun` ends in `Spawned(command)`.
- The contents of `isolate.toml`: the built-in default text is a parameter.
- A `Context` nested as a namespace in another `Context` is covered only as a `Foreign` namespace, whose flag and hook results are data.
- The user namespace of the older trait (src/namespace.rs:162-175) has no mapping. The model uses src/namespace/user.rs, whose `external_config` maps root; both have the same flag.
- `SetGroups::Allow` is never written by the code; it appears only in the text round trip.
- The demo programs jail.rs and shell.rs, and src/lib.rs, are not part of this model: they are demonstrations and module wiring.
- src/error.rs is reflected only by the `Errors.Error` datatype.
