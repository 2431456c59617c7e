/** The user namespace (src/namespace/user.rs): two builder flags, and the appends under
    `/proc/<pid>/` that map root inside the new namespace to the calling user and group.
    The line written to `uid_map` and `gid_map` has the "ID-inside-ns ID-outside-ns length"
    form of the user_namespaces(7) manual page. */
module UserNamespace {
  import opened Errors
  import opened Sys
  import opened Decimal

  /** Whether root inside the namespace is mapped to the creator's uid and gid. */
  datatype User = User(mapRootUser: bool, mapRootGroup: bool)

  /** `User::default()`, which `User::new()` returns. */
  function Default(): (u: User)
    ensures !u.mapRootUser && !u.mapRootGroup
  {
    User(false, false)
  }

  /** `User::new()`: the default, so neither mapping is asked for. */
  function New(): (u: User)
    ensures !u.mapRootUser && !u.mapRootGroup
  {
    Default()
  }

  /** `map_root_user`: sets the user flag and keeps the group flag. */
  function MapRootUser(u: User): (r: User)
    ensures r.mapRootUser && r.mapRootGroup == u.mapRootGroup
  {
    u.(mapRootUser := true)
  }

  /** `map_root_group`: sets the group flag and keeps the user flag. */
  function MapRootGroup(u: User): (r: User)
    ensures r.mapRootGroup && r.mapRootUser == u.mapRootUser
  {
    u.(mapRootGroup := true)
  }

  /** The builders are idempotent and commute, so a User is determined by which were applied. */
  lemma BuildersIdempotentAndCommute(u: User)
    ensures MapRootUser(MapRootUser(u)) == MapRootUser(u)
    ensures MapRootGroup(MapRootGroup(u)) == MapRootGroup(u)
    ensures MapRootUser(MapRootGroup(u)) == MapRootGroup(MapRootUser(u))
    ensures MapRootUser(MapRootGroup(New())) == User(true, true)
  {
  }

  /** The two values of `/proc/<pid>/setgroups`. */
  datatype SetGroups = Allow | Deny

  /** `Display for SetGroups`. */
  function SetGroupsText(sg: SetGroups): string {
    match sg
    case Allow => "allow"
    case Deny => "deny"
  }

  /** How the kernel reads the contents of `setgroups` back. */
  function ParseSetGroups(s: string): Option<SetGroups> {
    if s == "allow" then Some(Allow) else if s == "deny" then Some(Deny) else None
  }

  lemma SetGroupsTextRoundTrip(sg: SetGroups)
    ensures ParseSetGroups(SetGroupsText(sg)) == Some(sg)
  {
  }

  /** `format!("/proc/{}/{}", pid, file)`. */
  function ProcPath(pid: int, file: string): string {
    "/proc/" + IntToString(pid) + "/" + file
  }

  /** `format!("0 {} 1", id)`: id 0 inside the namespace is `id` outside, range length 1. */
  function RootMapLine(id: nat): string {
    "0 " + NatToString(id) + " 1"
  }

  /** Reads a line of the form "0 <id> 1" back. */
  function ParseRootMapLine(line: string): Option<nat> {
    if |line| >= 5 && line[..2] == "0 " && line[|line| - 2..] == " 1" && IsDigits(line[2..|line| - 2])
    then Some(DigitsValue(line[2..|line| - 2]))
    else None
  }

  /** The mapping line names exactly the outside id it was built from. */
  lemma RootMapLineRoundTrip(id: nat)
    ensures ParseRootMapLine(RootMapLine(id)) == Some(id)
  {
    var s := NatToString(id);
    var line := RootMapLine(id);
    assert line[..2] == "0 ";
    assert line[|line| - 2..] == " 1";
    assert line[2..|line| - 2] == s;
    NatToStringRoundTrip(id);
  }

  function UidMapWrite(pid: int, uid: nat): Write {
    Write(ProcPath(pid, "uid_map"), RootMapLine(uid))
  }

  function SetGroupsWrite(sg: SetGroups, pid: int): Write {
    Write(ProcPath(pid, "setgroups"), SetGroupsText(sg))
  }

  function GidMapWrite(pid: int, gid: nat): Write {
    Write(ProcPath(pid, "gid_map"), RootMapLine(gid))
  }

  /** The appends the user namespace asks for, in order: the uid mapping, then "deny" to
      `setgroups` (an unprivileged process may write `gid_map` only after that), then the gid
      mapping. */
  function MappingPlan(u: User, pid: int, uid: nat, gid: nat): (plan: seq<Write>)
    ensures |plan| == (if u.mapRootUser then 1 else 0) + (if u.mapRootGroup then 2 else 0)
    ensures u.mapRootUser ==> plan[0] == UidMapWrite(pid, uid)
    ensures u.mapRootGroup ==>
      plan[|plan| - 2] == SetGroupsWrite(Deny, pid) && plan[|plan| - 1] == GidMapWrite(pid, gid)
  {
    (if u.mapRootUser then [UidMapWrite(pid, uid)] else [])
      + (if u.mapRootGroup then [SetGroupsWrite(Deny, pid), GidMapWrite(pid, gid)] else [])
  }

  /** `SetGroups::write`. */
  function SetGroupsRun(sg: SetGroups, pid: int, os: Os): Run {
    Append(SetGroupsWrite(sg, pid), os)
  }

  /** `set_root_user`, with `getuid()` answered by `os`. */
  function SetRootUserRun(pid: int, os: Os): Run {
    Append(UidMapWrite(pid, os.uid), os)
  }

  /** `set_root_group`, with `getgid()` answered by `os`. */
  function SetRootGroupRun(pid: int, os: Os): Run {
    Then(SetGroupsRun(Deny, pid, os), Append(GidMapWrite(pid, os.gid), os))
  }

  /** `external_config`. */
  function ExternalConfigRun(u: User, pid: int, os: Os): Run {
    Then(if u.mapRootUser then SetRootUserRun(pid, os) else Done,
         if u.mapRootGroup then SetRootGroupRun(pid, os) else Done)
  }

  /** `external_config` performs the mapping plan, stopping at its first failing append. */
  lemma ExternalConfigFollowsPlan(u: User, pid: int, os: Os)
    ensures ExternalConfigRun(u, pid, os) == ApplyWrites(MappingPlan(u, pid, os.uid, os.gid), os)
  {
    var userPart := if u.mapRootUser then [UidMapWrite(pid, os.uid)] else [];
    var groupPart := if u.mapRootGroup then [SetGroupsWrite(Deny, pid), GidMapWrite(pid, os.gid)] else [];
    assert MappingPlan(u, pid, os.uid, os.gid) == userPart + groupPart;
    ApplyWritesConcat(userPart, groupPart, os);
    var userRun := if u.mapRootUser then SetRootUserRun(pid, os) else Done;
    var groupRun := if u.mapRootGroup then SetRootGroupRun(pid, os) else Done;
    assert Appends([], os) == [];
    if u.mapRootUser {
      ApplyWritesSingle(UidMapWrite(pid, os.uid), os);
    }
    assert ApplyWrites(userPart, os) == userRun;
    if u.mapRootGroup {
      assert groupPart == [SetGroupsWrite(Deny, pid)] + [GidMapWrite(pid, os.gid)];
      ApplyWritesConcat([SetGroupsWrite(Deny, pid)], [GidMapWrite(pid, os.gid)], os);
      ApplyWritesSingle(SetGroupsWrite(Deny, pid), os);
      ApplyWritesSingle(GidMapWrite(pid, os.gid), os);
    }
    assert ApplyWrites(groupPart, os) == groupRun;
  }

  /** Without either mapping, `external_config` succeeds without touching any file. */
  lemma ExternalConfigWithoutMappings(u: User, pid: int, os: Os)
    requires !u.mapRootUser && !u.mapRootGroup
    ensures ExternalConfigRun(u, pid, os) == Done
  {
  }

  /** When the uid mapping cannot be written, neither `setgroups` nor `gid_map` is touched. */
  lemma UidFailureAbortsGroupMapping(u: User, pid: int, os: Os)
    requires u.mapRootUser && ProcPath(pid, "uid_map") in os.unwritable
    ensures ExternalConfigRun(u, pid, os)
         == Run(Fail(Io(ProcPath(pid, "uid_map"))), [AppendFile(ProcPath(pid, "uid_map"), RootMapLine(os.uid))])
  {
  }

  /** `gid_map` is appended to only after "deny" was written to `setgroups`, which in turn
      comes after the uid mapping when that is asked for; success means the whole plan ran. */
  lemma ExternalConfigOrder(u: User, pid: int, os: Os)
    ensures var run := ExternalConfigRun(u, pid, os);
      var plan := MappingPlan(u, pid, os.uid, os.gid);
      && |run.log| <= |plan|
      && run.log == AppendsOf(plan[..|run.log|])
      && (run.outcome.Pass? <==> forall i :: 0 <= i < |plan| ==> plan[i].path !in os.unwritable)
      && (run.outcome.Pass? ==> run.log == AppendsOf(plan))
  {
    var plan := MappingPlan(u, pid, os.uid, os.gid);
    ExternalConfigFollowsPlan(u, pid, os);
    ApplyWritesStopsAtFirstFailure(plan, os);
    assert plan[..|plan|] == plan;
  }

  /** `SetGroups::write`: one append of the Display text to the process's `setgroups`, which
      fails exactly when that file cannot be written. */
  method WriteSetGroups(sg: SetGroups, pid: int, os: Os) returns (run: Run)
    ensures run.log == [AppendFile(ProcPath(pid, "setgroups"), SetGroupsText(sg))]
    ensures run.outcome.Fail? <==> ProcPath(pid, "setgroups") in os.unwritable
    ensures run.outcome.Fail? ==> run.outcome.error == Io(ProcPath(pid, "setgroups"))
  {
    var path := ProcPath(pid, "setgroups");
    var text := SetGroupsText(sg);
    run := Append(Write(path, text), os);
  }

  /** `set_root_user`: one append of "0 <uid> 1", with the caller's uid, to the process's
      `uid_map`, which fails exactly when that file cannot be written. */
  method SetRootUser(pid: int, os: Os) returns (run: Run)
    ensures run.log == [AppendFile(ProcPath(pid, "uid_map"), RootMapLine(os.uid))]
    ensures run.outcome.Fail? <==> ProcPath(pid, "uid_map") in os.unwritable
    ensures run.outcome.Fail? ==> run.outcome.error == Io(ProcPath(pid, "uid_map"))
  {
    var uid := os.uid;
    run := Append(Write(ProcPath(pid, "uid_map"), RootMapLine(uid)), os);
  }

  /** `set_root_group`: "deny" to `setgroups` first, the gid mapping only if that succeeded. */
  method SetRootGroup(pid: int, os: Os) returns (run: Run)
    ensures run == SetRootGroupRun(pid, os)
  {
    run := WriteSetGroups(Deny, pid, os);
    if run.outcome.Fail? {
      return;
    }
    var gid := os.gid;
    var gidMap := Append(Write(ProcPath(pid, "gid_map"), RootMapLine(gid)), os);
    run := Run(gidMap.outcome, run.log + gidMap.log);
  }

  /** `external_config`: the uid mapping if asked for, then the group mapping if asked for,
      each aborting the rest on failure. */
  method ExternalConfig(u: User, pid: int, os: Os) returns (run: Run)
    ensures run == ExternalConfigRun(u, pid, os)
  {
    run := Done;
    if u.mapRootUser {
      run := SetRootUser(pid, os);
      if run.outcome.Fail? {
        return;
      }
    }
    if u.mapRootGroup {
      var group := SetRootGroup(pid, os);
      run := Run(group.outcome, run.log + group.log);
    }
  }
}
