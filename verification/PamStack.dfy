/**
 Wiring Sentinel into a service's PAM stack: the text edit, its undoing, and what it
 does to the meaning of the stack under the control rules of pam.conf(5).
 */
module PamStack {
  import opened Common

  type Line = string

  // ---- the text

  /** `[[:space:]]` in the POSIX locale. */
  predicate IsBlankChar(c: char) {
    c == ' ' || '\t' <= c <= '\r'
  }

  predicate HasPrefix(s: string, p: string) {
    |p| <= |s| && s[..|p|] == p
  }

  predicate Contains(s: string, part: string) {
    HasPrefix(s, part) || (s != "" && Contains(s[1..], part))
  }

  function SkipBlanks(s: string): (t: string)
    ensures |t| <= |s| && (t == "" || !IsBlankChar(t[0]))
  {
    if s != "" && IsBlankChar(s[0]) then SkipBlanks(s[1..]) else s
  }

  const GAP := "       "
  const TAIL := "   # Sentinel-KDE: confirm instead of password"
  const SENTINEL_LINE: Line := "auth" + (GAP + ("sufficient" + (" " + ("pam_sentinel.so" + TAIL))))
  const HEADER: Line := "#%PAM-1.0"

  /** `grep 'pam_sentinel\.so'`. */
  predicate MentionsSentinel(l: Line) {
    Contains(l, "pam_sentinel.so")
  }

  /** The regular expression of `wire_pam_service`: an auth line that includes or substacks. */
  predicate IsAnchor(l: Line) {
    var t := SkipBlanks(l);
    && HasPrefix(t, "auth") && |t| > 4 && IsBlankChar(t[4])
    && (Contains(t[5..], "include") || Contains(t[5..], "substack"))
  }

  /** `^[[:space:]]*#%PAM-1\.0[[:space:]]*$`. */
  predicate IsHeader(l: Line) {
    var t := SkipBlanks(l);
    HasPrefix(t, HEADER) && SkipBlanks(t[|HEADER|..]) == ""
  }

  /** How many lines come before the first anchor. */
  function BeforeAnchor(lines: seq<Line>): (k: nat)
    ensures k <= |lines|
    ensures forall i :: 0 <= i < k ==> !IsAnchor(lines[i])
    ensures k < |lines| ==> IsAnchor(lines[k])
  {
    if lines == [] || IsAnchor(lines[0]) then 0 else 1 + BeforeAnchor(lines[1..])
  }

  /** `grep -v` with the header pattern. */
  function WithoutHeaders(lines: seq<Line>): (r: seq<Line>)
    ensures forall i :: 0 <= i < |r| ==> !IsHeader(r[i])
    ensures |r| <= |lines|
  {
    if lines == [] then []
    else (if IsHeader(lines[0]) then [] else [lines[0]]) + WithoutHeaders(lines[1..])
  }

  /** The rewritten stack; None when the fallback's `grep -v` selects nothing and its status ends the install. */
  function Wired(base: seq<Line>): Option<seq<Line>> {
    var k := BeforeAnchor(base);
    if k < |base| then Some(Inserted(base, k, SENTINEL_LINE))
    else if WithoutHeaders(base) == [] then None
    else Some(Fronted(HEADER, SENTINEL_LINE, WithoutHeaders(base)))
  }

  function Inserted(base: seq<Line>, k: nat, line: Line): seq<Line>
    requires k <= |base|
  {
    base[..k] + [line] + base[k..]
  }

  /** The fallback's two lines before the kept ones. */
  function Fronted(first: Line, second: Line, rest: seq<Line>): seq<Line> {
    [first, second] + rest
  }

  /** `sed '/pam_sentinel\.so/d'`. */
  function Stripped(lines: seq<Line>): seq<Line> {
    if lines == [] then []
    else (if MentionsSentinel(lines[0]) then [] else [lines[0]]) + Stripped(lines[1..])
  }

  predicate NoSentinel(lines: seq<Line>) {
    forall i :: 0 <= i < |lines| ==> !MentionsSentinel(lines[i])
  }

  /** The loop of `wire_pam_service` with its `inserted` flag. */
  method InsertBeforeAnchor(base: seq<Line>, line: Line) returns (tmp: seq<Line>, inserted: bool)
    ensures inserted <==> BeforeAnchor(base) < |base|
    ensures tmp == if inserted then Inserted(base, BeforeAnchor(base), line) else base
  {
    ghost var k := BeforeAnchor(base);
    tmp, inserted := [], false;
    for i := 0 to |base|
      invariant inserted <==> k < i
      invariant tmp == if inserted then base[..k] + [line] + base[k..i] else base[..i]
    {
      if !inserted && IsAnchor(base[i]) {
        tmp := tmp + [line];
        inserted := true;
      }
      tmp := tmp + [base[i]];
    }
    assert base[..|base|] == base && base[k..|base|] == base[k..];
  }

  method WireLines(base: seq<Line>) returns (r: Option<seq<Line>>)
    ensures r == Wired(base)
  {
    var tmp, inserted := InsertBeforeAnchor(base, SENTINEL_LINE);
    if inserted { return Some(tmp); }
    var kept := WithoutHeaders(base);
    if kept == [] { return None; }
    return Some(Fronted(HEADER, SENTINEL_LINE, kept));
  }

  /** Wiring a service whose current file is `target`, if it has one, from the stack `base` found for it. */
  function WireService(target: Option<seq<Line>>, base: seq<Line>): Option<seq<Line>> {
    if target.Some? && !NoSentinel(target.value) then target else Wired(base)
  }

  lemma {:induction false} ContainsMiddle(a: string, part: string, b: string)
    ensures Contains(a + (part + b), part)
  {
    var s := a + (part + b);
    if a == "" {
      assert s == part + b && s[..|part|] == part;
    } else {
      assert s[1..] == a[1..] + (part + b);
      ContainsMiddle(a[1..], part, b);
    }
  }

  lemma Regroup(a: string, b: string, c: string, d: string, e: string)
    ensures a + (b + (c + (d + e))) == (a + (b + (c + d))) + e
  {
  }

  lemma SentinelLineIsOurs()
    ensures MentionsSentinel(SENTINEL_LINE)
  {
    hide Contains;
    var a, part, b := "auth" + (GAP + ("sufficient" + " ")), "pam_sentinel.so", TAIL;
    ContainsMiddle(a, part, b);
    Regroup("auth", GAP, "sufficient", " ", part + b);
  }

  lemma {:induction false} StripConcat(a: seq<Line>, b: seq<Line>)
    ensures Stripped(a + b) == Stripped(a) + Stripped(b)
  {
    if a == [] {
      assert a + b == b;
    } else {
      assert (a + b)[1..] == a[1..] + b;
      StripConcat(a[1..], b);
    }
  }

  lemma {:induction false} StripNothing(a: seq<Line>)
    requires NoSentinel(a)
    ensures Stripped(a) == a
  {
    if a != [] {
      StripNothing(a[1..]);
    }
  }

  lemma StripOne(line: Line)
    requires MentionsSentinel(line)
    ensures Stripped([line]) == []
  {
    assert [line][1..] == [];
  }

  lemma StripBetween(a: seq<Line>, line: Line, b: seq<Line>)
    requires Stripped(a) == a && Stripped(b) == b && Stripped([line]) == []
    ensures Stripped(a + [line] + b) == a + b
  {
    StripConcat(a + [line], b);
    StripConcat(a, [line]);
  }

  lemma InsertionStrips(base: seq<Line>, k: nat, line: Line)
    requires k <= |base| && NoSentinel(base) && MentionsSentinel(line)
    ensures Stripped(Inserted(base, k, line)) == base
  {
    StripOne(line);
    StripNothing(base[..k]);
    StripNothing(base[k..]);
    StripBetween(base[..k], line, base[k..]);
    assert base[..k] + base[k..] == base;
  }

  lemma {:induction false} NothingKept(lines: seq<Line>)
    ensures WithoutHeaders(lines) == [] <==> forall i :: 0 <= i < |lines| ==> IsHeader(lines[i])
  {
    if lines != [] {
      NothingKept(lines[1..]);
      assert forall i :: 0 < i < |lines| ==> lines[i] == lines[1..][i - 1];
    }
  }

  lemma HeaderIsNoAnchor(l: Line)
    requires IsHeader(l)
    ensures !IsAnchor(l)
  {
    assert SkipBlanks(l)[0] == '#';
  }

  /** The rewrite ends the install exactly on a stack that has nothing but header lines. */
  lemma WiringFailsExactlyWhen(base: seq<Line>)
    ensures Wired(base).None? <==> forall i :: 0 <= i < |base| ==> IsHeader(base[i])
  {
    NothingKept(base);
    var k := BeforeAnchor(base);
    if k < |base| && IsHeader(base[k]) {
      HeaderIsNoAnchor(base[k]);
      assert false;
    }
  }

  /** However it was rewritten, the stack now has Sentinel's line. */
  lemma WiredMentionsSentinel(base: seq<Line>)
    ensures Wired(base).Some? ==> !NoSentinel(Wired(base).value)
  {
    var k := BeforeAnchor(base);
    SentinelLineIsOurs();
    if k < |base| {
      assert Inserted(base, k, SENTINEL_LINE)[k] == SENTINEL_LINE;
    } else {
      assert Fronted(HEADER, SENTINEL_LINE, WithoutHeaders(base))[1] == SENTINEL_LINE;
    }
  }

  /**
   On a stack with an anchor and without Sentinel, wiring inserts exactly one line,
   right before the first anchor; wiring again changes nothing; the uninstaller's
   strip gives the original lines back.
   */
  lemma WiringIsReversible(base: seq<Line>)
    requires BeforeAnchor(base) < |base| && NoSentinel(base)
    ensures var k := BeforeAnchor(base);
      var r := Inserted(base, k, SENTINEL_LINE);
      && Wired(base) == Some(r)
      && |r| == |base| + 1 && r[k] == SENTINEL_LINE && r[..k] == base[..k] && r[k + 1..] == base[k..]
      && IsAnchor(r[k + 1]) && (forall i :: 0 <= i < k ==> !IsAnchor(r[i]))
      && WireService(Some(r), r) == Some(r) && (forall other :: WireService(Some(r), other) == Some(r))
      && Stripped(r) == base
  {
    SentinelLineIsOurs();
    InsertionShape(base, BeforeAnchor(base), SENTINEL_LINE);
    InsertionStrips(base, BeforeAnchor(base), SENTINEL_LINE);
  }

  lemma InsertionShape(base: seq<Line>, k: nat, line: Line)
    requires k < |base| && MentionsSentinel(line)
    ensures var r := Inserted(base, k, line);
      && |r| == |base| + 1 && r[k] == line && r[..k] == base[..k] && r[k + 1..] == base[k..] && r[k + 1] == base[k]
      && (forall i :: 0 <= i < k ==> r[i] == base[i]) && !NoSentinel(r)
  {
    assert Inserted(base, k, line)[k] == line;
  }

  lemma FrontedStrips(first: Line, second: Line, rest: seq<Line>)
    requires !MentionsSentinel(first) && MentionsSentinel(second) && NoSentinel(rest)
    ensures Stripped(Fronted(first, second, rest)) == [first] + rest
  {
    StripOne(second);
    StripNothing([first]);
    StripNothing(rest);
    StripBetween([first], second, rest);
    assert [first] + [second] + rest == Fronted(first, second, rest);
  }

  /** Without an anchor the strip restores the file exactly when it was one plain header followed by no other. */
  lemma FallbackReversibleExactlyWhen(base: seq<Line>)
    requires BeforeAnchor(base) == |base| && NoSentinel(base) && Wired(base).Some?
    ensures Stripped(Wired(base).value) == base <==>
      base != [] && base[0] == HEADER && WithoutHeaders(base) == base[1..]
  {
    SentinelLineIsOurs();
    HeaderIsNotOurs();
    KeptNoSentinel(base);
    FrontedStrips(HEADER, SENTINEL_LINE, WithoutHeaders(base));
    HeadAndRest(base, HEADER, WithoutHeaders(base));
  }

  lemma HeadAndRest(base: seq<Line>, head: Line, rest: seq<Line>)
    ensures [head] + rest == base <==> base != [] && base[0] == head && rest == base[1..]
  {
    assert ([head] + rest)[1..] == rest;
    assert base != [] ==> base == [base[0]] + base[1..];
  }

  lemma HeaderIsNotOurs()
    ensures !MentionsSentinel(HEADER)
  {
    TooShort(HEADER, "pam_sentinel.so");
  }

  lemma {:induction false} TooShort(s: string, part: string)
    requires |s| < |part|
    ensures !Contains(s, part)
  {
    if s != "" {
      TooShort(s[1..], part);
    }
  }

  lemma {:induction false} KeptNoSentinel(base: seq<Line>)
    requires NoSentinel(base)
    ensures NoSentinel(WithoutHeaders(base))
  {
    if base != [] {
      KeptNoSentinel(base[1..]);
    }
  }

  // ---- the meaning

  /** What a module returns; `Failure` stands for every code that is neither of the others. */
  datatype Code = Success | NewAuthtokReqd | IgnoreCode | AuthErr | Failure

  datatype Control = Required | Requisite | Sufficient | Optional

  datatype Action = Ignore | Ok | Done | Bad | Die

  /** The keyword controls, as pam.conf(5) spells them out in values and actions. */
  function ActionOf(c: Control, r: Code): Action {
    match c
    case Required => (match r case Success => Ok case NewAuthtokReqd => Ok case IgnoreCode => Ignore case _ => Bad)
    case Requisite => (match r case Success => Ok case NewAuthtokReqd => Ok case IgnoreCode => Ignore case _ => Die)
    case Sufficient => (match r case Success => Done case NewAuthtokReqd => Done case _ => Ignore)
    case Optional => (match r case Success => Ok case NewAuthtokReqd => Ok case _ => Ignore)
  }

  /** The verdict so far: none, positive or negative, each of the latter with the code to return. */
  datatype Impression = Undecided | Positive(code: Code) | Negative(code: Code)

  /** Evaluation of a stack: the impression, and whether a `done` or `die` ended it. */
  datatype Eval = Eval(impression: Impression, over: bool)

  /** What one line of the auth stack does in an evaluation. */
  datatype Item =
    | Nothing
    | Module(control: Control, result: Code)
    | Include(items: seq<Item>)
    | Substack(items: seq<Item>)
    | Other(effect: Impression -> Eval)   // an included stack with jumps or other controls, whatever it does

  function Apply(i: Impression, a: Action, r: Code): Eval {
    match a
    case Ignore => Eval(i, false)
    case Ok => Eval(if i.Undecided? || i == Positive(Success) then Positive(r) else i, false)
    case Done =>
      var j := if i.Undecided? || i == Positive(Success) then Positive(r) else i;
      Eval(j, j.Positive?)
    case Bad => Eval(if i.Negative? then i else Negative(r), false)
    case Die => Eval(if i.Negative? then i else Negative(r), true)
  }

  /** A `done` or `die` inside a substack ends only the substack; inside an include it ends the stack. */
  function EvalItem(e: Eval, item: Item): Eval
    decreases item, 0
  {
    if e.over then e
    else match item
      case Nothing => e
      case Module(c, r) => Apply(e.impression, ActionOf(c, r), r)
      case Include(items) => EvalItems(e, items)
      case Substack(items) => Eval(EvalItems(e, items).impression, false)
      case Other(effect) => effect(e.impression)
  }

  function EvalItems(e: Eval, items: seq<Item>): Eval
    decreases items, |items|
  {
    if items == [] then e else EvalItems(EvalItem(e, items[0]), items[1..])
  }

  const START := Eval(Undecided, false)

  /** What the stack returns; a stack that reached no decision fails. */
  function Outcome(e: Eval): Code {
    match e.impression case Positive(c) => c case Negative(c) => c case Undecided => Failure
  }

  function Evaluate(items: seq<Item>): Code {
    Outcome(EvalItems(START, items))
  }

  // ---- from lines to items

  function WordEnd(s: string): (n: nat)
    ensures n <= |s|
  {
    if s == "" || IsBlankChar(s[0]) then 0 else 1 + WordEnd(s[1..])
  }

  function FirstWord(s: string): string {
    var t := SkipBlanks(s); t[..WordEnd(t)]
  }

  function AfterWord(s: string): string {
    var t := SkipBlanks(s); t[WordEnd(t)..]
  }

  function ControlWord(w: string): Option<Control> {
    match w
    case "required" => Some(Required)
    case "requisite" => Some(Requisite)
    case "sufficient" => Some(Sufficient)
    case "optional" => Some(Optional)
    case _ => None
  }

  /**
   Which items a line may stand for: an auth line acts by its control, `@include` pulls
   in a stack of all types, other types and comments do nothing. A line with a
   bracketed control stands for no item, so stacks that have one are not spoken of.
   */
  ghost predicate Denotes(l: Line, item: Item) {
    var control := FirstWord(AfterWord(l));
    if FirstWord(l) == "@include" then item.Include? || item.Other?
    else if FirstWord(l) != "auth" && FirstWord(l) != "-auth" then item.Nothing?
    else match item
      case Module(c, _) => ControlWord(control) == Some(c)
      case Include(_) => control == "include"
      case Substack(_) => control == "substack"
      case Other(_) => control == "include" || control == "substack"
      case Nothing => false
  }

  /** Items for every line of a stack: one way its modules and included stacks may come out. */
  ghost predicate DenotesAll(lines: seq<Line>, items: seq<Item>) {
    |items| == |lines| && forall i :: 0 <= i < |lines| ==> Denotes(lines[i], items[i])
  }

  lemma WordAt(w: string, rest: string)
    requires w != "" && forall i :: 0 <= i < |w| ==> !IsBlankChar(w[i])
    requires rest != "" && IsBlankChar(rest[0])
    ensures FirstWord(w + rest) == w && AfterWord(w + rest) == rest
  {
    assert (w + rest)[0] == w[0];
    WordEndAt(w, rest);
    assert (w + rest)[..|w|] == w && (w + rest)[|w|..] == rest;
  }

  lemma {:induction false} WordEndAt(w: string, rest: string)
    requires forall i :: 0 <= i < |w| ==> !IsBlankChar(w[i])
    requires rest != "" && IsBlankChar(rest[0])
    ensures WordEnd(w + rest) == |w|
  {
    if w == "" {
      assert w + rest == rest;
    } else {
      assert (w + rest)[1..] == w[1..] + rest;
      WordEndAt(w[1..], rest);
    }
  }

  lemma {:induction false} SkipMany(gap: string, rest: string)
    requires forall i :: 0 <= i < |gap| ==> IsBlankChar(gap[i])
    ensures SkipBlanks(gap + rest) == SkipBlanks(rest)
  {
    if gap == "" {
      assert gap + rest == rest;
    } else {
      assert (gap + rest)[1..] == gap[1..] + rest;
      SkipMany(gap[1..], rest);
    }
  }

  /** A line of type auth, a gap, a control word and more. */
  lemma AuthLine(word: string, gap: string, control: string, rest: string)
    requires IsToken(word) && IsToken(control) && IsBlank(gap) && gap != ""
    requires rest != "" && IsBlankChar(rest[0])
    ensures FirstWord(word + (gap + (control + rest))) == word
    ensures FirstWord(AfterWord(word + (gap + (control + rest)))) == control
  {
    WordAt(word, gap + (control + rest));
    SkipMany(gap, control + rest);
    WordAt(control, rest);
    SkipBlanksIdempotent(gap + (control + rest));
  }

  predicate IsToken(w: string) {
    w != "" && forall i :: 0 <= i < |w| ==> !IsBlankChar(w[i])
  }

  predicate IsBlank(gap: string) {
    forall i :: 0 <= i < |gap| ==> IsBlankChar(gap[i])
  }

  lemma SkipBlanksIdempotent(s: string)
    ensures SkipBlanks(SkipBlanks(s)) == SkipBlanks(s)
  {
  }

  /** The inserted line is a sufficient auth module. */
  lemma SentinelLineDenotes(r: Code)
    ensures Denotes(SENTINEL_LINE, Module(Sufficient, r))
  {
    AuthLine("auth", GAP, "sufficient", " " + ("pam_sentinel.so" + TAIL));
  }

  lemma {:induction false} EvalConcat(e: Eval, a: seq<Item>, b: seq<Item>)
    ensures EvalItems(e, a + b) == EvalItems(EvalItems(e, a), b)
    decreases |a|
  {
    if a == [] {
      assert a + b == b;
    } else {
      assert (a + b)[1..] == a[1..] + b;
      EvalConcat(EvalItem(e, a[0]), a[1..], b);
    }
  }

  lemma {:induction false} OverStays(e: Eval, items: seq<Item>)
    requires e.over
    ensures EvalItems(e, items) == e
  {
    if items != [] {
      OverStays(e, items[1..]);
    }
  }

  // ---- what the patterns of the scripts find

  /** `grep`: somewhere in the line. */
  lemma {:induction false} ContainsExactlyWhen(s: string, part: string)
    ensures Contains(s, part) <==> exists before, after :: s == before + (part + after)
  {
    if Contains(s, part) {
      var before, after := WhereContained(s, part);
    }
    if before, after :| s == before + (part + after) {
      ContainsMiddle(before, part, after);
    }
  }

  lemma {:induction false} WhereContained(s: string, part: string) returns (before: string, after: string)
    requires Contains(s, part)
    ensures s == before + (part + after)
  {
    if HasPrefix(s, part) {
      before, after := "", s[|part|..];
    } else {
      before, after := WhereContained(s[1..], part);
      before := [s[0]] + before;
    }
  }

  lemma {:induction false} LeadingBlanks(s: string) returns (gap: string)
    ensures IsBlank(gap) && s == gap + SkipBlanks(s)
  {
    gap := "";
    if s != "" && IsBlankChar(s[0]) {
      gap := LeadingBlanks(s[1..]);
      gap := [s[0]] + gap;
    }
  }

  /** A header line is the header between blanks, and nothing else. */
  lemma HeaderExactlyWhen(l: Line)
    ensures IsHeader(l) <==> exists a, b :: IsBlank(a) && IsBlank(b) && l == a + (HEADER + b)
  {
    if IsHeader(l) {
      var a := LeadingBlanks(l);
      var t := SkipBlanks(l);
      var b := LeadingBlanks(t[|HEADER|..]);
      assert l == a + (HEADER + b);
    }
    if a, b :| IsBlank(a) && IsBlank(b) && l == a + (HEADER + b) {
      var t := HEADER + b;
      SkipMany(a, t);
      assert t[0] == '#' && SkipBlanks(t) == t;
      assert t[|HEADER|..] == b && t[..|HEADER|] == HEADER;
      SkipMany(b, "");
      assert b + "" == b;
    }
  }

  lemma {:induction false} WordEndIs(s: string)
    ensures forall i :: 0 <= i < WordEnd(s) ==> !IsBlankChar(s[i])
    ensures WordEnd(s) < |s| ==> IsBlankChar(s[WordEnd(s)])
  {
    if s != "" && !IsBlankChar(s[0]) {
      WordEndIs(s[1..]);
    }
  }

  /** The first word behind a blank is somewhere behind it. */
  lemma FirstWordIsContained(s: string, word: string)
    requires s != "" && IsBlankChar(s[0]) && FirstWord(s) == word
    ensures Contains(s[1..], word)
  {
    hide Contains, WordEnd, IsBlankChar;
    var gap := LeadingBlanks(s[1..]);
    var u := SkipBlanks(s[1..]);
    assert SkipBlanks(s) == u by { SkipOne(s); }
    var after := u[WordEnd(u)..];
    assert u == word + after;
    ContainsMiddle(gap, word, after);
  }

  lemma SkipOne(s: string)
    requires s != "" && IsBlankChar(s[0])
    ensures SkipBlanks(s) == SkipBlanks(s[1..])
  {
  }

  /** Every auth line whose control is `include` or `substack` is an anchor. */
  lemma IncludesAreAnchors(l: Line)
    requires FirstWord(l) == "auth"
    requires FirstWord(AfterWord(l)) == "include" || FirstWord(AfterWord(l)) == "substack"
    ensures IsAnchor(l)
  {
    hide Contains;
    var t, rest := SkipBlanks(l), AfterWord(l);
    WordEndIs(t);
    assert WordEnd(t) == 4 && rest == t[4..] && t[..4] == "auth";
    assert t[5..] == rest[1..];
    FirstWordIsContained(rest, FirstWord(rest));
  }

  /** And every anchor is an auth line that holds one of the two words. */
  lemma AnchorsAreAuthLines(l: Line)
    requires IsAnchor(l)
    ensures FirstWord(l) == "auth"
    ensures exists before, after :: l == before + ("include" + after) || l == before + ("substack" + after)
  {
    var t := SkipBlanks(l);
    var gap := LeadingBlanks(l);
    assert t == "auth" + t[4..];
    WordAt("auth", t[4..]);
    SkipBlanksIdempotent(l);
    var word := if Contains(t[5..], "include") then "include" else "substack";
    var before, after := WhereContained(t[5..], word);
    var front := gap + t[..5] + before;
    assert t == t[..5] + t[5..];
    assert l == front + (word + after);
  }

  /** The items of the wired stack: Sentinel's among those of the base, at the place of its line. */
  function WithSentinel(items: seq<Item>, k: nat, sentinel: Code): seq<Item>
    requires k <= |items|
  {
    items[..k] + [Module(Sufficient, sentinel)] + items[k..]
  }

  /** How the stack comes out with Sentinel at place `k`, in terms of how it comes out without. */
  function WiredOutcome(items: seq<Item>, k: nat, sentinel: Code): Code
    requires k <= |items|
  {
    var before := EvalItems(START, items[..k]);
    if before.over || before.impression.Negative? || (sentinel != Success && sentinel != NewAuthtokReqd)
    then Evaluate(items)
    else if before.impression.Undecided? || before.impression == Positive(Success) then sentinel
    else Outcome(before)
  }

  /**
   For every base stack, every place and everything its modules may return: the wired
   stack comes out as the base does unless Sentinel succeeds and nothing before it has
   failed or ended the stack; then Sentinel's success is the stack's, except that an
   earlier module's demand for a new token is still returned.
   */
  lemma WiringMeans(items: seq<Item>, k: nat, sentinel: Code)
    requires k <= |items|
    ensures Evaluate(WithSentinel(items, k, sentinel)) == WiredOutcome(items, k, sentinel)
  {
    var before := EvalItems(START, items[..k]);
    var mine := Module(Sufficient, sentinel);
    assert items == items[..k] + items[k..];
    EvalConcat(START, items[..k], items[k..]);
    EvalConcat(START, items[..k] + [mine], items[k..]);
    EvalConcat(START, items[..k], [mine]);
    var after := EvalItem(before, mine);
    assert EvalItems(before, [mine]) == after by { assert [mine][1..] == []; }
    if after.over {
      OverStays(after, items[k..]);
      if before.over { OverStays(before, items[k..]); }
    }
  }

  /** Denied, timed out, disabled or headless: the stack is exactly the one the distribution shipped. */
  lemma FallsThrough(items: seq<Item>, k: nat, sentinel: Code)
    requires k <= |items| && (sentinel == AuthErr || sentinel == IgnoreCode)
    ensures Evaluate(WithSentinel(items, k, sentinel)) == Evaluate(items)
  {
    WiringMeans(items, k, sentinel);
  }

  /** Allowed, with nothing failed before: the stack succeeds without looking further. */
  lemma SuccessSuffices(items: seq<Item>, k: nat)
    requires k <= |items|
    requires var before := EvalItems(START, items[..k]);
      !before.over && (before.impression.Undecided? || before.impression == Positive(Success))
    ensures Evaluate(WithSentinel(items, k, Success)) == Success
  {
    WiringMeans(items, k, Success);
  }

  /** The wired file means the base with Sentinel's module at the place of its line, and nothing else. */
  lemma WiredFileMeans(base: seq<Line>, items: seq<Item>, sentinel: Code)
    requires DenotesAll(base, items) && BeforeAnchor(base) < |base|
    ensures var k := BeforeAnchor(base);
      && Wired(base) == Some(Inserted(base, k, SENTINEL_LINE))
      && DenotesAll(Inserted(base, k, SENTINEL_LINE), WithSentinel(items, k, sentinel))
      && Evaluate(WithSentinel(items, k, sentinel)) == WiredOutcome(items, k, sentinel)
  {
    var k := BeforeAnchor(base);
    SentinelLineDenotes(sentinel);
    WiringMeans(items, k, sentinel);
    InsertedDenotes(base, k, items, SENTINEL_LINE, Module(Sufficient, sentinel));
  }

  lemma InsertedDenotes(base: seq<Line>, k: nat, items: seq<Item>, line: Line, item: Item)
    requires DenotesAll(base, items) && k <= |base| && Denotes(line, item)
    ensures DenotesAll(Inserted(base, k, line), items[..k] + [item] + items[k..])
  {
  }

  // ---- the fallback's meaning

  /** The items that go with the lines `grep -v` keeps. */
  function KeptItems(base: seq<Line>, items: seq<Item>): seq<Item>
    requires |base| == |items|
  {
    if base == [] then []
    else (if IsHeader(base[0]) then [] else [items[0]]) + KeptItems(base[1..], items[1..])
  }

  lemma {:induction false} WordEndCovers(s: string, n: nat)
    requires n <= |s| && forall i :: 0 <= i < n ==> !IsBlankChar(s[i])
    ensures WordEnd(s) >= n
    decreases n
  {
    if n > 0 {
      assert s[1..][..n - 1] == s[1..n];
      WordEndCovers(s[1..], n - 1);
    }
  }

  /** A header line is a comment. */
  lemma HeaderDenotesNothing(l: Line, item: Item)
    requires IsHeader(l) && Denotes(l, item)
    ensures item == Nothing
  {
    var t := SkipBlanks(l);
    assert t[0] == '#';
    WordEndCovers(t, 1);
    assert FirstWord(l)[0] == '#';
  }

  lemma {:induction false} KeptMeansTheSame(e: Eval, base: seq<Line>, items: seq<Item>)
    requires DenotesAll(base, items)
    ensures DenotesAll(WithoutHeaders(base), KeptItems(base, items))
    ensures EvalItems(e, KeptItems(base, items)) == EvalItems(e, items)
    decreases |base|
  {
    if base != [] {
      var e' := EvalItem(e, items[0]);
      assert DenotesAll(base[1..], items[1..]);
      KeptMeansTheSame(e', base[1..], items[1..]);
      var kept := KeptItems(base[1..], items[1..]);
      if IsHeader(base[0]) {
        HeaderDenotesNothing(base[0], items[0]);
        assert KeptItems(base, items) == kept && WithoutHeaders(base) == WithoutHeaders(base[1..]);
      } else {
        assert ([items[0]] + kept)[1..] == kept;
      }
    }
  }

  /** Without an anchor Sentinel runs first, so its success is always the stack's; else the base decides as before. */
  lemma FallbackFileMeans(base: seq<Line>, items: seq<Item>, sentinel: Code)
    requires DenotesAll(base, items) && BeforeAnchor(base) == |base| && Wired(base).Some?
    ensures var all := WithSentinel([Nothing] + KeptItems(base, items), 1, sentinel);
      && DenotesAll(Wired(base).value, all)
      && Evaluate(all) == if sentinel == Success || sentinel == NewAuthtokReqd then sentinel else Evaluate(items)
  {
    var kept := KeptItems(base, items);
    SentinelLineDenotes(sentinel);
    HeaderLineDenotes();
    KeptMeansTheSame(START, base, items);
    FrontedDenotes(HEADER, SENTINEL_LINE, WithoutHeaders(base), Nothing, Module(Sufficient, sentinel), kept);
    assert ([Nothing] + kept)[..1] == [Nothing] && ([Nothing] + kept)[1..] == kept;
    assert [Nothing] + [Module(Sufficient, sentinel)] == [Nothing, Module(Sufficient, sentinel)];
    WiringMeans([Nothing] + kept, 1, sentinel);
    assert EvalItems(START, [Nothing]) == START by { assert [Nothing][1..] == []; }
    assert EvalItems(START, [Nothing] + kept) == EvalItems(START, kept);
  }

  lemma FrontedDenotes(first: Line, second: Line, rest: seq<Line>, item0: Item, item1: Item, items: seq<Item>)
    requires Denotes(first, item0) && Denotes(second, item1) && DenotesAll(rest, items)
    ensures DenotesAll(Fronted(first, second, rest), [item0, item1] + items)
  {
  }

  lemma HeaderLineDenotes()
    ensures Denotes(HEADER, Nothing)
  {
    WordEndCovers(HEADER, 1);
    assert FirstWord(HEADER)[0] == '#';
  }
}
