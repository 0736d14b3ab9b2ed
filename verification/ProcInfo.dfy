/** Which program a request is about, as the PAM module and as the polkit agent work it out. */
module ProcInfo {
  import opened Common
  import opened Text
  import opened Elevation

  datatype ExeCmdline = ExeCmdline(exe: string, cmdline: string)

  /** What `/proc` says about the process the module is loaded into, and about its parent. */
  datatype RawProcess = RawProcess(exe: string, cmdline: string, parent: Option<ExeCmdline>)

  datatype ProcessInfo = ProcessInfo(
    exe: string, cmdline: string, rememberCommand: Option<string>, policyExe: Option<string>)

  function RememberCommandFor(cmd: string): Option<string> {
    var c := Trim(cmd);
    if c != "" && Eligible(c) then Some(c) else None
  }

  function FirstWord(s: string, default: string): string {
    var parts := Split(s); if parts == [] then default else parts[0]
  }

  /** `ProcessInfo::for_pid`, its three paths in order. */
  function ForPid(raw: RawProcess): ProcessInfo {
    var stripped := Strip(raw.cmdline);
    var wasElevation := raw.cmdline != "" && stripped != raw.cmdline;
    if wasElevation && stripped != "" then
      var target := FirstWord(stripped, "unknown");
      ProcessInfo(target, stripped, RememberCommandFor(stripped), Some(target))
    else if wasElevation then
      match raw.parent
      case Some(p) => ProcessInfo(p.exe, p.cmdline, None, None)
      case None => ProcessInfo(raw.exe, raw.cmdline, None, None)
    else
      ProcessInfo(raw.exe, raw.cmdline, RememberCommandFor(raw.cmdline), Some(raw.exe))
  }

  lemma RememberCommandForIs(cmd: string)
    ensures RememberCommandFor(cmd) == if Eligible(cmd) then Some(Trim(cmd)) else None
    ensures Eligible(cmd) ==> Eligible(Trim(cmd)) && Trim(Trim(cmd)) == Trim(cmd)
  {
    SplitTrim(cmd);
    TrimIdempotent(cmd);
  }

  /**
   A command is rememberable exactly when what is left of the command line after
   stripping is eligible, and then it is that remainder: eligible itself, trimmed,
   and a fixed point of stripping.
   */
  lemma RememberCommandSound(raw: RawProcess)
    ensures var r := ForPid(raw).rememberCommand;
      && (r.Some? <==> Eligible(Strip(raw.cmdline)))
      && (r.Some? ==>
            && r.value == Trim(Strip(raw.cmdline))
            && Eligible(r.value) && Strip(r.value) == r.value && Trim(r.value) == r.value)
  {
    RememberCommandForIs(Strip(raw.cmdline));
    if Eligible(Strip(raw.cmdline)) {
      EligibleIsStripped(Trim(Strip(raw.cmdline)));
    }
  }

  /** A wrapper without a target has nothing `[policy]` may match and nothing to remember. */
  lemma BareElevation(raw: RawProcess)
    ensures ForPid(raw).policyExe.None? <==> raw.cmdline != "" && Strip(raw.cmdline) == ""
    ensures ForPid(raw).policyExe.None? ==> ForPid(raw).rememberCommand == None
    ensures IsWrapper(raw.cmdline) && Strip(raw.cmdline) != "" ==>
      && Split(Strip(raw.cmdline)) != []
      && ForPid(raw).policyExe == Some(Split(Strip(raw.cmdline))[0])
      && Some(ForPid(raw).exe) == ForPid(raw).policyExe && ForPid(raw).cmdline == Strip(raw.cmdline)
    ensures ForPid(raw).policyExe.None? ==>
      ExeCmdline(ForPid(raw).exe, ForPid(raw).cmdline) ==
        if raw.parent.Some? then raw.parent.value else ExeCmdline(raw.exe, raw.cmdline)
  {
    hide Strip, IsWrapper, Split, Trim, Eligible;
    StripChanges(raw.cmdline);
    if IsWrapper(raw.cmdline) && Strip(raw.cmdline) != "" {
      TargetHasWords(raw.cmdline);
    }
  }

  lemma TargetHasWords(cmdline: string)
    requires IsWrapper(cmdline) && Strip(cmdline) != ""
    ensures cmdline != "" && Split(Strip(cmdline)) != []
  {
    hide Basename, DropFlags;
    var rest := DropFlags(Split(cmdline)[1..]);
    JoinEnds(rest);
    SplitJoin(rest);
  }

  /** Of a process that is no wrapper the policy sees the executable and nothing the process says of itself. */
  lemma PlainProcess(raw: RawProcess)
    requires !IsWrapper(raw.cmdline) && (raw.cmdline == "" || !Blank(raw.cmdline))
    ensures ForPid(raw).policyExe == Some(raw.exe)
    ensures ForPid(raw).exe == raw.exe && ForPid(raw).cmdline == raw.cmdline
  {
    StripChanges(raw.cmdline);
  }

  /** The polkit `details` and the two processes they point at. */
  datatype AgentDetails = AgentDetails(
    program: Option<string>, commandLine: Option<string>,
    callerCmdline: Option<string>, subjectExe: Option<string>)

  datatype AgentSubject = AgentSubject(exe: Option<string>, cmdline: Option<string>)

  function NonEmpty(s: Option<string>): Option<string> {
    if s == Some("") then None else s
  }

  /** How `begin_authentication` picks the program and the command line it shows and keys on. */
  function SubjectOf(d: AgentDetails): AgentSubject {
    var recovered :=
      if NonEmpty(d.commandLine).Some? || d.callerCmdline.None? then None
      else
        var raw := d.callerCmdline.value;
        var stripped := Strip(raw);
        if stripped != raw && stripped != "" then Some(stripped) else None;
    var cmdline := if NonEmpty(d.commandLine).Some? then NonEmpty(d.commandLine) else recovered;
    var exe :=
      if NonEmpty(d.program).Some? then NonEmpty(d.program)
      else if cmdline.Some? && Split(cmdline.value) != [] then Some(Split(cmdline.value)[0])
      else d.subjectExe;
    AgentSubject(exe, cmdline)
  }

  /**
   `sudo X` through PAM and `pkexec X` through the agent: the same wrapper line
   yields the same program, the same eligibility and, in either scope, the same key.
   */
  lemma PathsAgree(raw: RawProcess, d: AgentDetails, scope: RememberScope)
    requires IsWrapper(raw.cmdline) && Strip(raw.cmdline) != ""
    requires NonEmpty(d.program) == None && NonEmpty(d.commandLine) == None
    requires d.callerCmdline == Some(raw.cmdline)
    ensures var pam, agent := ForPid(raw), SubjectOf(d);
      && agent.exe == pam.policyExe == Some(pam.exe)
      && agent.cmdline == Some(pam.cmdline)
      && (pam.rememberCommand.Some? <==> Eligible(agent.cmdline.value))
      && (pam.rememberCommand.Some? ==>
            KeyCommand(pam.rememberCommand.value, scope) == KeyCommand(agent.cmdline.value, scope))
  {
    BareElevation(raw);
    RememberCommandSound(raw);
    StripOfWrapper(raw.cmdline);
    StripChanges(raw.cmdline);
  }

  /**
   What polkit forwards wins over what the caller's command line shows, and a caller that is no wrapper lends the
   agent nothing.
   */
  lemma ForwardedWins(d: AgentDetails)
    ensures NonEmpty(d.commandLine).Some? ==> SubjectOf(d).cmdline == d.commandLine
    ensures NonEmpty(d.program).Some? ==> SubjectOf(d).exe == d.program
    ensures NonEmpty(d.commandLine).None? ==>
      (SubjectOf(d).cmdline.Some? <==>
         d.callerCmdline.Some? && IsWrapper(d.callerCmdline.value) && Strip(d.callerCmdline.value) != "")
    ensures NonEmpty(d.commandLine).None? && SubjectOf(d).cmdline.Some? ==>
      d.callerCmdline.Some? && SubjectOf(d).cmdline.value == Strip(d.callerCmdline.value)
    ensures NonEmpty(d.program).None? ==>
      var words := if SubjectOf(d).cmdline.Some? then Split(SubjectOf(d).cmdline.value) else [];
      SubjectOf(d).exe == if words == [] then d.subjectExe else Some(words[0])
  {
    if d.callerCmdline.Some? {
      StripChanges(d.callerCmdline.value);
      SplitIsEmpty(d.callerCmdline.value);
    }
  }
}
