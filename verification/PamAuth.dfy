/** `sm_authenticate`: what the PAM module decides, and what it asks of dialog and broker on the way. */
module PamAuth {
  import opened Common
  import opened Text
  import opened Elevation
  import opened ProcInfo
  import opened Config
  import opened BrokerProto
  import Policy
  import VerdictWire

  datatype PamResult = PAM_SUCCESS | PAM_AUTH_ERR | PAM_IGNORE

  datatype Source = ByAgent | ByHeadless | ByPolicy | ByRemember | ByDialog | Nobody

  /** One call, with what the module reads about it. */
  datatype Call = Call(
    service: string, cfg: ServiceConfig, hasDisplay: bool, process: RawProcess, loginuid: u32, sessionid: u32)

  /** The helper's verdict; None when it could not be run or timed out. */
  type DialogResult = Option<VerdictWire.Verdict>

  /** Result, who decided it, the requests sent to the broker, and the window the dialog offered. */
  datatype Trace = Trace(rc: PamResult, source: Source, sent: seq<Request>, offered: Option<u32>)

  function HandleHeadless(cfg: ServiceConfig): PamResult {
    match cfg.headlessAction
    case Allow => PAM_SUCCESS
    case Deny => PAM_AUTH_ERR
    case Password => PAM_IGNORE
  }

  function PolicyDecision(call: Call): Policy.Decision {
    call.cfg.policy.Decide(ForPid(call.process).policyExe, None)
  }

  /** The exits before the broker is asked. */
  function Immediate(call: Call, bypass: bool): Option<Trace> {
    if bypass then Some(Trace(PAM_SUCCESS, ByAgent, [], None))
    else if !call.cfg.enabled then Some(Trace(PAM_IGNORE, Nobody, [], None))
    else if !call.hasDisplay then Some(Trace(HandleHeadless(call.cfg), ByHeadless, [], None))
    else match PolicyDecision(call)
      case Allow => Some(Trace(PAM_SUCCESS, ByPolicy, [], None))
      case Deny => Some(Trace(PAM_AUTH_ERR, ByPolicy, [], None))
      case Ask => None
  }

  /** The grant this call may use or record. */
  function KeyOf(call: Call): Option<RememberKey> {
    if call.loginuid == U32_MAX || call.sessionid == U32_MAX then None
    else match ForPid(call.process).rememberCommand
      case None => None
      case Some(c) =>
        Some(RememberKey(call.loginuid, call.sessionid, call.service, KeyCommand(c, call.cfg.rememberScope)))
  }

  /** The request sent before the dialog, if any. */
  function CheckOf(call: Call): Option<Request> {
    if call.cfg.rememberSeconds > 0 && KeyOf(call).Some?
    then Some(CheckRemember(KeyOf(call).value, call.cfg.rememberSeconds)) else None
  }

  lemma CheckOfIs(call: Call)
    requires CheckOf(call).Some?
    ensures KeyOf(call).Some? && CheckOf(call).value == CheckRemember(KeyOf(call).value, call.cfg.rememberSeconds)
    ensures call.cfg.rememberSeconds > 0
  {
  }

  function OfferedWindow(call: Call): u32 {
    if KeyOf(call).Some? then call.cfg.rememberSeconds else 0
  }

  function DialogOutcome(d: DialogResult): PamResult {
    if d.Some? && d.value.outcome == VerdictWire.Allow then PAM_SUCCESS else PAM_AUTH_ERR
  }

  /** The request sent after the dialog, if any. */
  function RecordOf(call: Call, d: DialogResult): Option<Request> {
    if d == Some(VerdictWire.Verdict(VerdictWire.Allow, true)) && OfferedWindow(call) > 0
    then Some(RecordRemember(KeyOf(call).value)) else None
  }

  function ToSeq(r: Option<Request>): seq<Request> {
    if r.Some? then [r.value] else []
  }

  /** The whole call, given what agent, broker and dialog would answer. */
  function Authenticated(call: Call, bypass: bool, answer: Option<Response>, d: DialogResult): Trace {
    match Immediate(call, bypass)
    case Some(t) => t
    case None =>
      if CheckOf(call).Some? && answer == Some(Remember(true)) then
        Trace(PAM_SUCCESS, ByRemember, ToSeq(CheckOf(call)), None)
      else
        Trace(DialogOutcome(d), ByDialog, ToSeq(CheckOf(call)) + ToSeq(RecordOf(call, d)), Some(OfferedWindow(call)))
  }

  method CheckPolicy(call: Call, process: ProcessInfo) returns (r: Option<PamResult>)
    requires process == ForPid(call.process)
    ensures r == match PolicyDecision(call)
                 case Allow => Some(PAM_SUCCESS)
                 case Deny => Some(PAM_AUTH_ERR)
                 case Ask => None
  {
    match call.cfg.policy.Decide(process.policyExe, None) {
      case Allow => r := Some(PAM_SUCCESS);
      case Deny => r := Some(PAM_AUTH_ERR);
      case Ask => r := None;
    }
  }

  method RememberKeyFor(call: Call, process: ProcessInfo) returns (key: Option<RememberKey>)
    requires process == ForPid(call.process)
    ensures key == KeyOf(call)
  {
    key := None;
    if call.loginuid != U32_MAX && call.sessionid != U32_MAX {
      if process.rememberCommand.Some? {
        var command := KeyCommand(process.rememberCommand.value, call.cfg.rememberScope);
        key := Some(RememberKey(call.loginuid, call.sessionid, call.service, command));
      }
    }
  }

  method SmAuthenticate(call: Call, bypass: bool, answer: Option<Response>, d: DialogResult) returns (t: Trace)
    ensures t == Authenticated(call, bypass, answer, d)
  {
    if bypass { return Trace(PAM_SUCCESS, ByAgent, [], None); }
    if !call.cfg.enabled { return Trace(PAM_IGNORE, Nobody, [], None); }
    if !call.hasDisplay { return Trace(HandleHeadless(call.cfg), ByHeadless, [], None); }

    var process := ForPid(call.process);
    var decided := CheckPolicy(call, process);
    if decided.Some? { return Trace(decided.value, ByPolicy, [], None); }
    assert Immediate(call, bypass) == None;

    var rememberKey := RememberKeyFor(call, process);
    var sent: seq<Request> := [];
    if call.cfg.rememberSeconds > 0 {
      if rememberKey.Some? {
        sent := sent + [CheckRemember(rememberKey.value, call.cfg.rememberSeconds)];
        if answer == Some(Remember(true)) { return Trace(PAM_SUCCESS, ByRemember, sent, None); }
      }
    }
    assert sent == ToSeq(CheckOf(call));

    var window := if rememberKey.Some? then call.cfg.rememberSeconds else 0;
    var rc, remember := SpawnDialog(d);
    if remember && window > 0 {
      if rememberKey.Some? {
        sent := sent + [RecordRemember(rememberKey.value)];
      }
    }
    assert sent == ToSeq(CheckOf(call)) + ToSeq(RecordOf(call, d));
    t := Trace(rc, ByDialog, sent, Some(window));
  }

  method SpawnDialog(d: DialogResult) returns (rc: PamResult, remember: bool)
    ensures rc == DialogOutcome(d)
    ensures remember <==> d == Some(VerdictWire.Verdict(VerdictWire.Allow, true))
  {
    if d.Some? && d.value.outcome == VerdictWire.Allow {
      return PAM_SUCCESS, d.value.remember;
    }
    return PAM_AUTH_ERR, false;
  }

  /** A deny match ends the call: no grant and no dialog can overturn it, and neither is consulted. */
  lemma DenyMatchIsFinal(call: Call, answer: Option<Response>, d: DialogResult)
    requires call.cfg.enabled && call.hasDisplay && PolicyDecision(call) == Policy.Deny
    ensures Authenticated(call, false, answer, d) == Trace(PAM_AUTH_ERR, ByPolicy, [], None)
  {
  }

  /** A name without a slash that is a file name. */
  predicate IsPlainName(name: string) {
    name != "" && name != "." && name != ".." && '/' !in name
  }

  /**
   A plain name on the deny list stops `sudo`, `su` and the like from running the program
   of that name from whatever directory, if all that stands between the tool and the
   program are options that the loop reads to their end.
   */
  lemma DenyEntryStopsTheTarget(
      call: Call, opts: seq<string>, name: string, dir: string, args: seq<string>, answer: Option<Response>,
      d: DialogResult)
    requires call.cfg.enabled && call.hasDisplay && name in call.cfg.policy.deny
    requires IsPlainName(name) && (dir == "" || dir[|dir| - 1] == '/') && !IsFlag(dir + name)
    requires var words := Split(call.process.cmdline);
      words != [] && Basename(words[0]) in ELEVATION_TOOLS && words[1..] == opts + ([dir + name] + args)
    requires AllOptions(opts)
    ensures Authenticated(call, false, answer, d) == Trace(PAM_AUTH_ERR, ByPolicy, [], None)
  {
    TargetIsFirstLeft(call.process, opts, [dir + name] + args);
    FileNameOf(dir, name);
    BareEntrySees(name, dir + name);
    EntryDenies(call.cfg.policy, name, dir + name);
    DenyMatchIsFinal(call, answer, d);
  }

  /** The policy sees of a wrapper line only the first word that is no option. */
  lemma TargetIsFirstLeft(process: RawProcess, opts: seq<string>, rest: seq<string>)
    requires Split(process.cmdline) != [] && Basename(Split(process.cmdline)[0]) in ELEVATION_TOOLS
    requires Split(process.cmdline)[1..] == opts + rest && AllOptions(opts) && rest != [] && !IsFlag(rest[0])
    ensures ForPid(process).policyExe == Some(rest[0])
  {
    StripOfWords(process.cmdline, opts, rest);
    BareElevation(process);
  }

  /** A bare entry matches exactly the paths with its file name. */
  lemma BareEntrySees(name: string, path: string)
    requires '/' !in name
    ensures Policy.EntryMatches(name, Some(path), None) <==> FileName(path) == Some(name)
  {
  }

  lemma EntryDenies(p: Policy.Policy, name: string, path: string)
    requires name in p.deny && Policy.EntryMatches(name, Some(path), None)
    ensures p.Decide(Some(path), None) == Policy.Deny
  {
    var i :| 0 <= i < |p.deny| && p.deny[i] == name;
    assert Policy.EntryMatches(p.deny[i], Some(path), None);
  }

  /**
   And it stops nothing else: with that one entry a wrapper line is denied if and only if
   the first word left has that file name. So a line escapes the entry whose first word
   left is another: the value of an option the loop does not know to take one
   (`doas -a s pacman`), an assignment (`sudo FOO=1 pacman`), a user
   (`su root -c pacman`).
   */
  lemma DenyEntrySeesOnlyTheFirstLeft(call: Call, opts: seq<string>, name: string, rest: seq<string>)
    requires call.cfg.policy.deny == [name] && '/' !in name
    requires var words := Split(call.process.cmdline);
      words != [] && Basename(words[0]) in ELEVATION_TOOLS && words[1..] == opts + rest
    requires AllOptions(opts) && rest != [] && !IsFlag(rest[0])
    ensures PolicyDecision(call) == Policy.Deny <==> FileName(rest[0]) == Some(name)
  {
    hide ForPid, FileName, Split, Basename, IsFlag, AllOptions;
    TargetIsFirstLeft(call.process, opts, rest);
    BareEntrySees(name, rest[0]);
    if FileName(rest[0]) == Some(name) {
      EntryDenies(call.cfg.policy, name, rest[0]);
    }
  }

  /**
   For a process that is no wrapper the executable decides, whatever its command line
   says: an entry with its whole path, or without a slash with its file name, is its denial.
   */
  lemma DenyEntryStopsTheProcess(call: Call, entry: string, answer: Option<Response>, d: DialogResult)
    requires call.cfg.enabled && call.hasDisplay && entry in call.cfg.policy.deny
    requires !IsWrapper(call.process.cmdline) && (call.process.cmdline == "" || !Blank(call.process.cmdline))
    requires (entry == call.process.exe && '/' in entry)
      || (IsPlainName(entry) && exists dir :: (dir == "" || dir[|dir| - 1] == '/') && call.process.exe == dir + entry)
    ensures Authenticated(call, false, answer, d) == Trace(PAM_AUTH_ERR, ByPolicy, [], None)
  {
    PlainProcess(call.process);
    if '/' !in entry {
      var dir :| (dir == "" || dir[|dir| - 1] == '/') && call.process.exe == dir + entry;
      FileNameOf(dir, entry);
    }
    EntryDenies(call.cfg.policy, entry, call.process.exe);
    DenyMatchIsFinal(call, answer, d);
  }

  /** And a single entry denies such a process if and only if it is one of the two; an allow entry likewise. */
  lemma PlainProcessIsItsExecutable(call: Call, entry: string)
    requires !IsWrapper(call.process.cmdline) && (call.process.cmdline == "" || !Blank(call.process.cmdline))
    ensures var named := if '/' in entry then entry == call.process.exe else FileName(call.process.exe) == Some(entry);
      && (call.cfg.policy.deny == [entry] ==> (PolicyDecision(call) == Policy.Deny <==> named))
      && (call.cfg.policy.deny == [] && call.cfg.policy.allow == [entry] ==>
            (PolicyDecision(call) == Policy.Allow <==> named))
  {
    hide FileName, IsWrapper;
    PlainProcess(call.process);
    var p, exe := call.cfg.policy, call.process.exe;
    Policy.DecidedByNames(p, Some(exe), None);
    assert Policy.Names(entry, Some(exe), None) <==>
        if '/' in entry then entry == exe else FileName(exe) == Some(entry);
    if p.deny == [entry] {
      assert p.deny[0] == entry;
    } else if p.allow == [entry] {
      assert p.allow[0] == entry;
    }
  }

  /** The decision on such a process is a matter of its executable and the lists alone. */
  lemma NothingElseDecides(call: Call, other: Call)
    requires !IsWrapper(call.process.cmdline) && (call.process.cmdline == "" || !Blank(call.process.cmdline))
    requires !IsWrapper(other.process.cmdline) && (other.process.cmdline == "" || !Blank(other.process.cmdline))
    requires call.process.exe == other.process.exe && call.cfg.policy == other.cfg.policy
    ensures PolicyDecision(call) == PolicyDecision(other)
  {
    PlainProcess(call.process);
    PlainProcess(other.process);
  }

  /** A wrapper without a target is the dialog's decision alone, whatever lists and grants say, and leaves no grant. */
  lemma BareElevationIsTheDialogs(call: Call, answer: Option<Response>, d: DialogResult)
    requires call.cfg.enabled && call.hasDisplay
    requires IsWrapper(call.process.cmdline) && Strip(call.process.cmdline) == ""
    ensures var t := Authenticated(call, false, answer, d);
      && t.source == ByDialog && t.sent == [] && t.offered == Some(0)
      && (t.rc == PAM_SUCCESS <==> d.Some? && d.value.outcome == VerdictWire.Allow)
  {
    BareElevation(call.process);
    StripChanges(call.process.cmdline);
    DialogDecides(call, answer, d);
  }

  lemma DialogDecides(call: Call, answer: Option<Response>, d: DialogResult)
    requires call.cfg.enabled && call.hasDisplay
    requires ForPid(call.process).policyExe == None && ForPid(call.process).rememberCommand == None
    ensures Authenticated(call, false, answer, d) == Trace(DialogOutcome(d), ByDialog, [], Some(0))
  {
    Policy.NothingMatchesNothing(call.cfg.policy);
  }

  /** Every key is bindable, and its command is what an eligible, fully stripped command narrows to. */
  lemma KeyIsSound(call: Call)
    requires KeyOf(call).Some?
    ensures var k := KeyOf(call).value;
      && k.IsBindable() && Eligible(k.command) && !IsWrapper(k.command)
      && k.loginuid == call.loginuid && k.sessionid == call.sessionid && k.service == call.service
      && k.command == KeyCommand(Strip(call.process.cmdline), call.cfg.rememberScope)
  {
    var stripped := Strip(call.process.cmdline);
    var c := ForPid(call.process).rememberCommand.value;
    RememberCommandSound(call.process);
    KeyNarrowsOnce(stripped, Command, call.cfg.rememberScope);
    assert KeyCommand(c, call.cfg.rememberScope) == KeyCommand(stripped, call.cfg.rememberScope);
    KeyKeepsEligibility(c, call.cfg.rememberScope);
    EligibleIsStripped(KeyOf(call).value.command);
  }

  /** There is a key exactly for a login session and an eligible command. */
  lemma KeyExactlyWhen(call: Call)
    ensures KeyOf(call).Some? <==>
      call.loginuid != U32_MAX && call.sessionid != U32_MAX && Eligible(Strip(call.process.cmdline))
  {
    RememberCommandSound(call.process);
  }

  /** Where the policy leaves it open, a live grant of this very key spares the dialog, if a window is configured. */
  lemma GrantSparesTheDialog(call: Call, d: DialogResult)
    requires call.cfg.enabled && call.hasDisplay && PolicyDecision(call) == Policy.Ask && call.cfg.rememberSeconds > 0
    requires call.loginuid != U32_MAX && call.sessionid != U32_MAX && Eligible(Strip(call.process.cmdline))
    ensures KeyOf(call).Some?
    ensures Authenticated(call, false, Some(Remember(true)), d) ==
      Trace(PAM_SUCCESS, ByRemember, [CheckRemember(KeyOf(call).value, call.cfg.rememberSeconds)], None)
  {
    hide KeyOf, PolicyDecision;
    KeyExactlyWhen(call);
  }

  lemma RecordOfIs(call: Call, d: DialogResult)
    ensures RecordOf(call, d).Some? <==>
      d == Some(VerdictWire.Verdict(VerdictWire.Allow, true)) && KeyOf(call).Some? && call.cfg.rememberSeconds > 0
    ensures RecordOf(call, d).Some? ==> RecordOf(call, d).value == RecordRemember(KeyOf(call).value)
  {
  }

  /** A grant goes out for recording exactly when a window was offered and the verdict was an opted-in Allow. */
  lemma RecordedExactlyWhenOptedIn(call: Call, bypass: bool, answer: Option<Response>, d: DialogResult)
    ensures var t := Authenticated(call, bypass, answer, d);
      (exists k :: RecordRemember(k) in t.sent) <==>
        t.offered.Some? && t.offered.value > 0 && d == Some(VerdictWire.Verdict(VerdictWire.Allow, true))
  {
    var t := Authenticated(call, bypass, answer, d);
    RecordOfIs(call, d);
    if t.offered.Some? && RecordOf(call, d).Some? {
      assert t.sent[|t.sent| - 1] == RecordRemember(KeyOf(call).value);
    }
  }

  lemma SentOnlyBy(call: Call, bypass: bool, answer: Option<Response>, d: DialogResult, req: Request)
    requires req in Authenticated(call, bypass, answer, d).sent
    ensures CheckOf(call) == Some(req)
      || (RecordOf(call, d) == Some(req) && Authenticated(call, bypass, answer, d).rc == DialogOutcome(d))
  {
    hide ForPid, KeyCommand;
  }

  /** Whatever is sent is about this call's own key, with the configured window; a recording only beside a success. */
  lemma SentIsOwn(call: Call, bypass: bool, answer: Option<Response>, d: DialogResult, req: Request)
    requires req in Authenticated(call, bypass, answer, d).sent
    ensures KeyOf(call).Some? && call.cfg.rememberSeconds > 0
    ensures req == CheckRemember(KeyOf(call).value, call.cfg.rememberSeconds)
      || (req == RecordRemember(KeyOf(call).value) && Authenticated(call, bypass, answer, d).rc == PAM_SUCCESS)
  {
    hide Authenticated, CheckOf, RecordOf, KeyOf;
    SentOnlyBy(call, bypass, answer, d, req);
    if CheckOf(call) == Some(req) {
      CheckOfIs(call);
    } else {
      RecordOfIs(call, d);
    }
  }

  /** The only roads to success past the agent's bypass: the admin's settings, a fresh grant or an Allow click. */
  lemma SuccessHasAReason(call: Call, answer: Option<Response>, d: DialogResult)
    requires call.cfg.enabled
    ensures Authenticated(call, false, answer, d).rc == PAM_SUCCESS <==>
      if !call.hasDisplay then call.cfg.headlessAction == HeadlessAction.Allow
      else
        || PolicyDecision(call) == Policy.Allow
        || (PolicyDecision(call) == Policy.Ask &&
              ((CheckOf(call).Some? && answer == Some(Remember(true)))
                || (d.Some? && d.value.outcome == VerdictWire.Allow)))
  {
  }

  /**
   The stack below is left to ask for the password exactly when Sentinel is disabled or the headless setting says
   so.
   */
  lemma IgnoredExactlyWhen(call: Call, bypass: bool, answer: Option<Response>, d: DialogResult)
    ensures Authenticated(call, bypass, answer, d).rc == PAM_IGNORE <==>
      !bypass && (!call.cfg.enabled || (!call.hasDisplay && call.cfg.headlessAction == HeadlessAction.Password))
    ensures bypass ==> Authenticated(call, bypass, answer, d) == Trace(PAM_SUCCESS, ByAgent, [], None)
  {
  }
}
