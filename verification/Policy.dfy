/** The static `[policy]` lists, evaluated before any dialog. */
module Policy {
  import opened Common
  import opened Text

  datatype Decision = Allow | Deny | Ask

  /** Whether one list entry names this request. */
  predicate EntryMatches(entry: string, exe: Option<string>, action: Option<string>) {
    || action == Some(entry)
    || (exe.Some? && if '/' in entry then entry == exe.value else FileName(exe.value) == Some(entry))
  }

  predicate ListMatches(list: seq<string>, exe: Option<string>, action: Option<string>) {
    exists i :: 0 <= i < |list| && EntryMatches(list[i], exe, action)
  }

  datatype Policy = Policy(allow: seq<string>, deny: seq<string>) {
    function Decide(exe: Option<string>, action: Option<string>): Decision {
      if ListMatches(deny, exe, action) then Deny
      else if ListMatches(allow, exe, action) then Allow
      else Ask
    }
  }

  /** Nothing to match on means the dialog, whatever the lists hold. */
  lemma NothingMatchesNothing(p: Policy)
    ensures p.Decide(None, None) == Ask
  {
  }

  /** The entry is the action's id, the program's whole path or, if it has no slash, the program's file name. */
  predicate Names(entry: string, exe: Option<string>, action: Option<string>) {
    || (action.Some? && entry == action.value)
    || (exe.Some? && '/' in entry && entry == exe.value)
    || (exe.Some? && '/' !in entry && FileName(exe.value).Some? && entry == FileName(exe.value).value)
  }

  /** A deny entry that names the request denies it; only where there is none an allow entry that names it allows it. */
  lemma DecidedByNames(p: Policy, exe: Option<string>, action: Option<string>)
    ensures p.Decide(exe, action) == Deny <==> exists i :: 0 <= i < |p.deny| && Names(p.deny[i], exe, action)
    ensures p.Decide(exe, action) == Allow <==>
      && (forall i :: 0 <= i < |p.deny| ==> !Names(p.deny[i], exe, action))
      && (exists i :: 0 <= i < |p.allow| && Names(p.allow[i], exe, action))
  {
    forall entry ensures Names(entry, exe, action) <==> EntryMatches(entry, exe, action) {}
  }

  /** An entry that does not name the program matches exactly the action with this very id. */
  lemma ActionsMatchExactly(entry: string, exe: Option<string>, action: string)
    requires !EntryMatches(entry, exe, None)
    ensures EntryMatches(entry, exe, Some(action)) <==> entry == action
  {
  }

  /** Adding deny entries never turns a request into an allow; a deny entry always wins. */
  lemma DenyIsMonotone(p: Policy, more: seq<string>, exe: Option<string>, action: Option<string>)
    ensures var q := Policy.Policy(p.allow, p.deny + more);
      && (q.Decide(exe, action) == Allow ==> p.Decide(exe, action) == Allow)
      && (p.Decide(exe, action) == Deny || ListMatches(more, exe, action) ==> q.Decide(exe, action) == Deny)
  {
    var both := p.deny + more;
    assert forall i :: 0 <= i < |p.deny| ==> both[i] == p.deny[i];
    if i :| 0 <= i < |more| && EntryMatches(more[i], exe, action) {
      assert both[|p.deny| + i] == more[i];
    }
  }

  /** Adding allow entries only spares the dialog, and only for what they match: no denial moves. */
  lemma AllowIsMonotone(p: Policy, more: seq<string>, exe: Option<string>, action: Option<string>)
    ensures Policy.Policy(p.allow + more, p.deny).Decide(exe, action) ==
      if p.Decide(exe, action) == Ask && ListMatches(more, exe, action) then Allow else p.Decide(exe, action)
  {
    var both := p.allow + more;
    assert forall i :: 0 <= i < |p.allow| ==> both[i] == p.allow[i];
    if i :| 0 <= i < |more| && EntryMatches(more[i], exe, action) {
      assert both[|p.allow| + i] == more[i];
    }
  }

  /** A bare entry speaks about the program wherever it is installed, a path entry about that one file. */
  lemma BareNamesMatchByBasename(entry: string, dir: string)
    requires entry != "" && entry != "." && entry != ".." && '/' !in entry
    requires dir == "" || dir[|dir| - 1] == '/'
    ensures EntryMatches(entry, Some(dir + entry), None)
    ensures dir != "" ==> forall path :: EntryMatches(dir + entry, Some(path), None) <==> path == dir + entry
  {
    FileNameOf(dir, entry);
    assert dir != "" ==> (dir + entry)[|dir| - 1] == '/';
  }
}
