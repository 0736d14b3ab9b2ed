/**
 What a wrapper command line (`sudo -u root pacman -Syu`) is really about: the
 elevated command behind it, whether that command may be remembered, and the
 string a remember grant is keyed on.
 */
module Elevation {
  import opened Common
  import opened Text

  const ELEVATION_TOOLS: seq<string> := ["pkexec", "sudo", "sudo-rs", "su", "doas"]

  const FLAGS_WITH_VALUE: seq<string> := [
    "--user", "-u", "--group", "-g", "--host", "-h", "--chdir", "-D", "--prompt", "-p",
    "--command-timeout", "-T", "--close-from", "-C", "--type", "-t", "--role", "-r",
    "--other-user", "-U", "--chroot", "-R"]

  const REMEMBER_INELIGIBLE: seq<string> := [
    "sh", "bash", "dash", "zsh", "fish", "ksh", "tcsh", "csh", "ash", "busybox",
    "python", "python2", "python3", "perl", "ruby", "node", "nodejs", "lua", "php", "gdb", "tclsh",
    "expect",
    "su", "sudo", "sudo-rs", "doas", "pkexec", "run0", "env",
    "vi", "vim", "nvim", "view", "emacs", "nano", "less", "more", "man", "ed", "awk", "find"]

  /** `process_basename(first).unwrap_or(first)`. */
  function Basename(word: string): string {
    match FileName(word) case Some(name) => name case None => word
  }

  predicate IsWrapper(cmdline: string) {
    var parts := Split(cmdline);
    parts != [] && Basename(parts[0]) in ELEVATION_TOOLS
  }

  predicate IsFlag(word: string) {
    word != "" && word[0] == '-'
  }

  /** The words left once the leading options, and the values of those that take one, are dropped. */
  function DropFlags(parts: seq<string>): (rest: seq<string>)
    ensures |rest| <= |parts| && rest == parts[|parts| - |rest|..]
    ensures rest != [] ==> !IsFlag(rest[0])
  {
    if parts == [] then []
    else if parts[0] in FLAGS_WITH_VALUE then
      if |parts| == 1 then []
      else
        var rest := DropFlags(parts[2..]);
        assert parts[2..][|parts| - 2 - |rest|..] == parts[|parts| - |rest|..];
        rest
    else if IsFlag(parts[0]) then
      var rest := DropFlags(parts[1..]);
      assert parts[1..][|parts| - 1 - |rest|..] == parts[|parts| - |rest|..];
      rest
    else parts
  }

  /** The command line with an elevation tool and its options removed. */
  function Strip(cmdline: string): string {
    if IsWrapper(cmdline) then Join(DropFlags(Split(cmdline)[1..]))
    else if Split(cmdline) == [] then ""
    else cmdline
  }

  function DroppedFrom(parts: seq<string>, i: nat): seq<string> {
    if i <= |parts| then DropFlags(parts[i..]) else []
  }

  lemma DropFlagsAt(parts: seq<string>, i: nat)
    requires i < |parts|
    ensures DroppedFrom(parts, i) ==
      if parts[i] in FLAGS_WITH_VALUE then DroppedFrom(parts, i + 2)
      else if IsFlag(parts[i]) then DroppedFrom(parts, i + 1)
      else parts[i..]
  {
    assert parts[i..][0] == parts[i];
    assert parts[i..][1..] == parts[i + 1..];
    if i + 2 <= |parts| {
      assert parts[i..][2..] == parts[i + 2..];
    }
  }

  method StripElevationPrefix(cmdline: string) returns (r: string)
    ensures r == Strip(cmdline)
  {
    var parts := Split(cmdline);
    if |parts| == 0 { return ""; }
    if Basename(parts[0]) !in ELEVATION_TOOLS { return cmdline; }
    var i := FirstPositional(parts);
    r := if i >= |parts| then "" else Join(parts[i..]);
  }

  /** The index loop over the options that follow the tool. */
  method FirstPositional(parts: seq<string>) returns (i: nat)
    requires parts != []
    ensures DroppedFrom(parts, 1) == if i >= |parts| then [] else parts[i..]
  {
    i := 1;
    while i < |parts|
      invariant DroppedFrom(parts, 1) == DroppedFrom(parts, i)
    {
      DropFlagsAt(parts, i);
      if parts[i] in FLAGS_WITH_VALUE {
        i := i + 2;
      } else if IsFlag(parts[i]) {
        i := i + 1;
      } else {
        return;
      }
    }
  }

  /** What is left of a wrapper: a proper suffix of its words, which splits back into exactly them. */
  lemma StripOfWrapper(cmdline: string)
    requires IsWrapper(cmdline)
    ensures var before, after := Split(cmdline), Split(Strip(cmdline));
      && |after| < |before|
      && after == before[|before| - |after|..]
      && (after != [] ==> !IsFlag(after[0]))
    ensures Trim(Strip(cmdline)) == Strip(cmdline)
  {
    var rest := DropFlags(Split(cmdline)[1..]);
    SplitJoin(rest);
    TrimJoin(rest);
  }

  /** Options that the loop reads to their end, each with the value it takes, if the loop knows that it takes one. */
  predicate AllOptions(opts: seq<string>) {
    opts == []
    || (opts[0] in FLAGS_WITH_VALUE && |opts| > 1 && AllOptions(opts[2..]))
    || (opts[0] !in FLAGS_WITH_VALUE && IsFlag(opts[0]) && AllOptions(opts[1..]))
  }

  lemma {:induction false} OptionsAreDropped(opts: seq<string>, rest: seq<string>)
    requires AllOptions(opts) && rest != [] && !IsFlag(rest[0])
    ensures DropFlags(opts + rest) == rest
    decreases |opts|
  {
    if opts == [] {
      assert opts + rest == rest;
      FlagsAreOptions(rest[0]);
    } else {
      assert (opts + rest)[0] == opts[0] && (opts + rest)[1..] == opts[1..] + rest;
      if opts[0] in FLAGS_WITH_VALUE {
        assert (opts + rest)[2..] == opts[2..] + rest;
        OptionsAreDropped(opts[2..], rest);
      } else {
        OptionsAreDropped(opts[1..], rest);
      }
    }
  }

  lemma FlagsAreOptions(word: string)
    requires !IsFlag(word)
    ensures word !in FLAGS_WITH_VALUE
  {
  }

  /** A wrapper line, word by word: what is left is the first word that is no option, with all that follows. */
  lemma StripOfWords(cmdline: string, opts: seq<string>, rest: seq<string>)
    requires Split(cmdline) != [] && Basename(Split(cmdline)[0]) in ELEVATION_TOOLS
    requires Split(cmdline)[1..] == opts + rest && AllOptions(opts) && rest != [] && !IsFlag(rest[0])
    ensures IsWrapper(cmdline) && Split(Strip(cmdline)) == rest && Strip(cmdline) != ""
  {
    OptionsAreDropped(opts, rest);
    SplitJoin(rest);
    JoinEnds(rest);
  }

  /** Stripping changes exactly the wrappers and the non-empty blank lines. */
  lemma StripChanges(cmdline: string)
    ensures Strip(cmdline) != cmdline <==> IsWrapper(cmdline) || (cmdline != "" && Blank(cmdline))
  {
    SplitIsEmpty(cmdline);
    if IsWrapper(cmdline) {
      StripOfWrapper(cmdline);
    }
  }

  /** `n` strips in a row. */
  function StripTimes(cmdline: string, n: nat): string
    decreases n
  {
    if n == 0 then cmdline else StripTimes(Strip(cmdline), n - 1)
  }

  /** As many strips as there are words (one for a blank line) reach a fixed point. */
  lemma {:induction false} StripReachesFixedPoint(cmdline: string, n: nat)
    requires n >= 1 && n >= |Split(cmdline)|
    ensures Strip(StripTimes(cmdline, n)) == StripTimes(cmdline, n)
    decreases n
  {
    if n > 1 && IsWrapper(cmdline) {
      FewerWords(cmdline);
      StripReachesFixedPoint(Strip(cmdline), n - 1);
    } else {
      LastStrips(cmdline, n);
    }
  }

  lemma LastStrips(cmdline: string, n: nat)
    requires n >= 1 && (IsWrapper(cmdline) ==> |Split(cmdline)| <= 1)
    ensures Strip(StripTimes(cmdline, n)) == StripTimes(cmdline, n)
  {
    LastStrip(cmdline);
    StripStable(Strip(cmdline), n - 1);
  }

  /** A command that stripping leaves alone is no wrapper. */
  lemma FixedPointIsNoWrapper(cmdline: string)
    requires Strip(cmdline) == cmdline
    ensures !IsWrapper(cmdline)
  {
    StripChanges(cmdline);
  }

  lemma FewerWords(cmdline: string)
    requires IsWrapper(cmdline)
    ensures |Split(Strip(cmdline))| < |Split(cmdline)|
  {
    StripOfWrapper(cmdline);
  }

  /** Stripping a single word, a blank line or a plain command is stable at once. */
  lemma LastStrip(cmdline: string)
    requires IsWrapper(cmdline) ==> |Split(cmdline)| <= 1
    ensures Strip(Strip(cmdline)) == Strip(cmdline) && !IsWrapper(Strip(cmdline))
  {
    if IsWrapper(cmdline) {
      assert Split(cmdline)[1..] == [];
      assert Strip(cmdline) == "";
    }
  }

  lemma {:induction false} StripStable(cmdline: string, n: nat)
    requires Strip(cmdline) == cmdline
    ensures StripTimes(cmdline, n) == cmdline
    decreases n
  {
    if n > 0 {
      StripStable(cmdline, n - 1);
    }
  }

  // ---- the remember window

  datatype RememberScope = Command | Program

  predicate Eligible(cmd: string) {
    var parts := Split(cmd);
    parts != [] && Basename(parts[0]) !in REMEMBER_INELIGIBLE
  }

  /** `remember_key_command`. */
  function KeyCommand(command: string, scope: RememberScope): string {
    match scope
    case Command => Trim(command)
    case Program => var parts := Split(command); if parts == [] then "" else parts[0]
  }

  /** An eligible command is never a wrapper, so stripping leaves it alone. */
  lemma EligibleIsStripped(cmd: string)
    requires Eligible(cmd)
    ensures !IsWrapper(cmd) && Strip(cmd) == cmd
  {
    assert forall t :: t in ELEVATION_TOOLS ==> t in REMEMBER_INELIGIBLE;
  }

  lemma SplitOfWord(w: string)
    requires IsWord(w)
    ensures Split(w) == [w]
  {
    SplitWord(w, "");
    assert w + "" == w;
  }

  /** Narrowing to the key keeps eligibility, under either scope. */
  lemma KeyKeepsEligibility(cmd: string, scope: RememberScope)
    ensures Eligible(KeyCommand(cmd, scope)) <==> Eligible(cmd)
    ensures scope == Command ==>
      && Split(KeyCommand(cmd, scope)) == Split(cmd)
      && exists before, after :: Blank(before) && Blank(after) && cmd == before + KeyCommand(cmd, scope) + after
    ensures scope == Program ==> Split(KeyCommand(cmd, scope)) == Split(cmd)[..Min(1, |Split(cmd)|)]
  {
    SplitTrim(cmd);
    TrimIs(cmd);
    if Split(cmd) != [] {
      SplitOfWord(Split(cmd)[0]);
    }
  }

  /** What a path says of a program is its name. */
  lemma BasenameOf(dir: string, name: string)
    requires name != "" && name != "." && name != ".." && '/' !in name && (dir == "" || dir[|dir| - 1] == '/')
    ensures Basename(dir + name) == name
  {
    FileNameOf(dir, name);
  }

  /** The five tools are wrappers under any directory, and no other plain program is. */
  lemma WrappersByName(cmdline: string, dir: string, name: string)
    requires name != "" && name != "." && name != ".." && '/' !in name && (dir == "" || dir[|dir| - 1] == '/')
    requires Split(cmdline) != [] && Split(cmdline)[0] == dir + name
    ensures IsWrapper(cmdline) <==>
      name == "pkexec" || name == "sudo" || name == "sudo-rs" || name == "su" || name == "doas"
  {
    hide Basename, Split;
    BasenameOf(dir, name);
  }

  /** What is never remembered is told by the program's name alone. */
  lemma IneligibleByName(cmdline: string, dir: string, name: string)
    requires name != "" && name != "." && name != ".." && '/' !in name && (dir == "" || dir[|dir| - 1] == '/')
    requires Split(cmdline) != [] && Split(cmdline)[0] == dir + name
    ensures Eligible(cmdline) <==> name !in REMEMBER_INELIGIBLE
  {
    hide Basename, Split;
    BasenameOf(dir, name);
  }

  lemma UserOption(user: string)
    ensures AllOptions(["-u", user])
  {
    assert ["-u", user][2..] == [];
  }

  /** `sudo -u alice pacman -Syu` is about `pacman -Syu`. */
  lemma UserIsNoTarget(cmdline: string, dir: string, user: string, rest: seq<string>)
    requires dir == "" || dir[|dir| - 1] == '/'
    requires rest != [] && !IsFlag(rest[0]) && Split(cmdline) == [dir + "sudo", "-u", user] + rest
    ensures Split(Strip(cmdline)) == rest
  {
    hide Basename, Split, Strip, AllOptions;
    BasenameOf(dir, "sudo");
    UserOption(user);
    assert Split(cmdline)[1..] == ["-u", user] + rest;
    StripOfWords(cmdline, ["-u", user], rest);
  }

  /** `sudo -i` and `sudo -s` have no target, and so has `sudo` with any one word that starts with a dash. */
  lemma LoneOptionHasNoTarget(cmdline: string, dir: string, word: string)
    requires dir == "" || dir[|dir| - 1] == '/'
    requires word != "" && word[0] == '-' && Split(cmdline) == [dir + "sudo", word]
    ensures IsWrapper(cmdline) && Strip(cmdline) == ""
  {
    hide Basename, Split;
    BasenameOf(dir, "sudo");
    assert Split(cmdline)[1..] == [word];
    assert [word][1..] == [];
  }

  /** Narrowing twice is narrowing by the coarser of the two scopes. */
  lemma KeyNarrowsOnce(cmd: string, first: RememberScope, second: RememberScope)
    ensures KeyCommand(KeyCommand(cmd, first), second)
         == KeyCommand(cmd, if first == Program then Program else second)
  {
    SplitTrim(cmd);
    TrimIdempotent(cmd);
    KeyKeepsEligibility(cmd, first);
    if Split(cmd) != [] {
      var w := Split(cmd)[0];
      SplitOfWord(w);
      TrimJoin([w]);
    }
  }
}
