/** The one line the dialog helper writes and the PAM module reads back. */
module VerdictWire {
  import opened Common
  import opened Text

  datatype Outcome = Allow | Deny | Timeout

  datatype Verdict = Verdict(outcome: Outcome, remember: bool)

  const REMEMBER_TOKEN := "REMEMBER"
  const LF: byte := 10
  /** The size of the buffer `parent_wait` reads into. */
  const BUFFER: nat := 16

  function OutcomeWord(o: Outcome): string {
    match o case Allow => "ALLOW" case Deny => "DENY" case Timeout => "TIMEOUT"
  }

  /** `Display for Verdict`. */
  function Print(v: Verdict): string {
    if v.remember && v.outcome == Allow then OutcomeWord(v.outcome) + " " + REMEMBER_TOKEN
    else OutcomeWord(v.outcome)
  }

  function ParseOutcome(word: string): Option<Outcome> {
    match Trim(word)
    case "ALLOW" => Some(Allow)
    case "DENY" => Some(Deny)
    case "TIMEOUT" => Some(Timeout)
    case _ => None
  }

  /** `FromStr for Verdict`. */
  function Parse(s: string): Option<Verdict> {
    var tokens := Split(s);
    match ParseOutcome(if tokens == [] then "" else tokens[0])
    case None => None
    case Some(o) => Some(Verdict(o, REMEMBER_TOKEN in tokens[1..]))
  }

  /** The meaning of a verdict: only an Allow can carry the opt-in. */
  function Canonical(v: Verdict): Verdict {
    v.(remember := v.remember && v.outcome == Allow)
  }

  lemma TrimWord(w: string)
    requires IsWord(w)
    ensures Trim(w) == w
  {
    TrimJoin([w]);
  }

  lemma PrintedWords(v: Verdict)
    ensures Split(Print(v)) ==
      [OutcomeWord(v.outcome)] + if Canonical(v).remember then [REMEMBER_TOKEN] else []
  {
    var more := if Canonical(v).remember then [REMEMBER_TOKEN] else [];
    var ws := [OutcomeWord(v.outcome)] + more;
    SplitJoin(ws);
    assert ws[1..] == more;
  }

  lemma ParseOutcomeWord(o: Outcome)
    ensures ParseOutcome(OutcomeWord(o)) == Some(o)
  {
    var w := OutcomeWord(o);
    assert IsWord(w);
    TrimWord(w);
  }

  lemma ParseFrom(s: string, o: Outcome, more: seq<string>)
    requires Split(s) == [OutcomeWord(o)] + more
    ensures Parse(s) == Some(Verdict(o, REMEMBER_TOKEN in more))
  {
    ParseOutcomeWord(o);
    assert Split(s)[1..] == more;
  }

  /** Parsing what was printed gives the canonical verdict back. */
  lemma ParsePrint(v: Verdict)
    ensures Parse(Print(v)) == Some(Canonical(v))
  {
    PrintedWords(v);
    ParseFrom(Print(v), v.outcome, if Canonical(v).remember then [REMEMBER_TOKEN] else []);
  }

  /** Whatever parses has a stable canonical form. */
  lemma PrintParseStable(s: string)
    requires Parse(s).Some?
    ensures Parse(Print(Parse(s).value)) == Some(Canonical(Parse(s).value))
    ensures Print(Parse(Print(Parse(s).value)).value) == Print(Parse(s).value)
  {
    ParsePrint(Parse(s).value);
  }

  /** An Allow is read only from a line whose first word is exactly ALLOW, the opt-in only from a later word. */
  lemma AllowNeedsTheWord(s: string)
    ensures (exists r :: Parse(s) == Some(Verdict(Allow, r))) <==> Split(s) != [] && Split(s)[0] == "ALLOW"
    ensures Parse(s) == Some(Verdict(Allow, true)) <==>
      Split(s) != [] && Split(s)[0] == "ALLOW" && "REMEMBER" in Split(s)[1..]
    ensures Parse(s).Some? && Parse(s).value.outcome == Timeout <==> Split(s) != [] && Split(s)[0] == "TIMEOUT"
  {
    TrimWord("ALLOW");
    if Split(s) != [] {
      TrimWord(Split(s)[0]);
      if Split(s)[0] == "ALLOW" {
        assert Parse(s) == Some(Verdict(Allow, REMEMBER_TOKEN in Split(s)[1..]));
      }
    }
  }

  // ---- the pipe between the helper and `parent_wait`

  predicate IsAscii(s: string) {
    forall i :: 0 <= i < |s| ==> s[i] < '\U{80}'
  }

  function Bytes(s: string): (bs: seq<byte>)
    requires IsAscii(s)
    ensures |bs| == |s|
  {
    seq(|s|, i requires 0 <= i < |s| => s[i] as int as byte)
  }

  /** `str::from_utf8`, of which only its behaviour on ASCII matters here. */
  ghost predicate DecodesAscii(utf8: seq<byte> -> Option<string>) {
    forall s: string {:trigger Bytes(s)} | IsAscii(s) :: utf8(Bytes(s)) == Some(s)
  }

  function FirstLine(s: string): string {
    if s == "" || s[0] == '\n' || s[0] == '\r' then "" else [s[0]] + FirstLine(s[1..])
  }

  /** What `finish` writes. */
  function Line(v: Verdict): (l: seq<byte>)
    ensures 1 <= |l| <= BUFFER
  {
    Bytes(Print(v)) + [LF]
  }

  /** The text `parent_wait` hands to the parser. */
  function Seen(output: seq<byte>, utf8: seq<byte> -> Option<string>): string {
    var chunk := output[..Min(BUFFER, |output|)];
    FirstLine(match utf8(chunk) case Some(s) => s case None => "")
  }

  /** The read half of `parent_wait`: None when the helper wrote nothing. */
  function ReadVerdict(output: seq<byte>, utf8: seq<byte> -> Option<string>): Option<Verdict> {
    if output == [] then None
    else match Parse(Seen(output, utf8))
      case Some(v) => Some(v)
      case None => Some(Verdict(Deny, false))
  }

  lemma {:induction false} FirstLineOf(s: string, rest: string)
    requires forall i :: 0 <= i < |s| ==> s[i] != '\n' && s[i] != '\r'
    ensures FirstLine(s + "\n" + rest) == s
    ensures FirstLine(s) == s
  {
    if s == "" {
      assert s + "\n" + rest == "\n" + rest;
    } else {
      FirstLineOf(s[1..], rest);
      assert (s + "\n" + rest)[1..] == s[1..] + "\n" + rest;
    }
  }

  lemma PrintIsPlain(v: Verdict)
    ensures IsAscii(Print(v))
    ensures forall i :: 0 <= i < |Print(v)| ==> Print(v)[i] != '\n' && Print(v)[i] != '\r'
  {
  }

  /** A line is seen as it is, whatever ASCII text follows it. */
  lemma SeenLine(text: string, tail: string, utf8: seq<byte> -> Option<string>)
    requires IsAscii(text) && IsAscii(tail) && |text| < BUFFER && DecodesAscii(utf8)
    requires forall i :: 0 <= i < |text| ==> text[i] != '\n' && text[i] != '\r'
    ensures Seen(Bytes(text) + [LF] + Bytes(tail), utf8) == text
  {
    var line := text + "\n";
    var cut := tail[..Min(BUFFER - |line|, |tail|)];
    var output := Bytes(text) + [LF] + Bytes(tail);
    assert output == Bytes(line + tail);
    assert output[..Min(BUFFER, |output|)] == Bytes(line + cut);
    FirstLineOf(text, cut);
  }

  /** Every verdict survives the pipe, the opt-in exactly when it is an Allow, whatever ASCII text follows. */
  lemma VerdictSurvivesThePipe(v: Verdict, tail: string, utf8: seq<byte> -> Option<string>)
    requires IsAscii(tail) && DecodesAscii(utf8)
    ensures ReadVerdict(Line(v) + Bytes(tail), utf8) == Some(Canonical(v))
  {
    PrintIsPlain(v);
    SeenLine(Print(v), tail, utf8);
    ParsePrint(v);
  }

  /** But bytes behind it that are no text, within the buffer, turn it into a Deny. */
  lemma GarbageBehindDenies(v: Verdict, more: seq<byte>, utf8: seq<byte> -> Option<string>)
    requires utf8((Line(v) + more)[..Min(BUFFER, |Line(v) + more|)]) == None
    ensures ReadVerdict(Line(v) + more, utf8) == Some(Verdict(Deny, false))
  {
    assert Seen(Line(v) + more, utf8) == "";
    assert Split("") == [];
  }

  /** Exactly when any output at all reads as an Allow. */
  lemma ReadsAsAllow(output: seq<byte>, utf8: seq<byte> -> Option<string>)
    requires output != []
    ensures ReadVerdict(output, utf8).value.outcome == Allow <==>
      var words := Split(Seen(output, utf8)); words != [] && words[0] == "ALLOW"
  {
    var s := Seen(output, utf8);
    AllowNeedsTheWord(s);
    if Parse(s).Some? && Parse(s).value.outcome == Allow {
      assert Parse(s) == Some(Verdict(Allow, Parse(s).value.remember));
    }
  }

  lemma {:induction false} FirstLineKeeps(s: string, rest: string)
    requires forall i :: 0 <= i < |s| ==> s[i] != '\n' && s[i] != '\r'
    ensures FirstLine(s + rest) == s + FirstLine(rest)
  {
    if s == "" {
      assert s + rest == rest;
    } else {
      assert (s + rest)[1..] == s[1..] + rest;
      FirstLineKeeps(s[1..], rest);
    }
  }

  /** The words of a line that goes on after a first word: the cut and the line end spare that word. */
  lemma FirstWordIsSeen(word: string, tail: string, utf8: seq<byte> -> Option<string>)
    requires IsWord(word) && IsAscii(word) && IsAscii(tail) && |word| < BUFFER && DecodesAscii(utf8)
    ensures var words := Split(Seen(Bytes(word + " " + tail), utf8)); words != [] && words[0] == word
  {
    var head := word + " ";
    var text := head + tail;
    var cut := tail[..Min(BUFFER - |head|, |tail|)];
    assert Bytes(text)[..Min(BUFFER, |text|)] == Bytes(head + cut);
    FirstLineKeeps(word, " " + cut);
    assert head + cut == word + (" " + cut);
    var rest := FirstLine(" " + cut);
    assert rest[0] == ' ';
    SplitWord(word, rest);
  }

  /**
   The reader does not turn every over-long line into a Deny: a line of any length
   that starts with the word ALLOW reads as an Allow.
   */
  lemma LongLineReadsAsAllow(tail: string, utf8: seq<byte> -> Option<string>)
    requires IsAscii(tail) && DecodesAscii(utf8)
    ensures ReadVerdict(Bytes("ALLOW" + " " + tail), utf8).value.outcome == Allow
  {
    FirstWordIsSeen("ALLOW", tail, utf8);
    ReadsAsAllow(Bytes("ALLOW" + " " + tail), utf8);
  }

  lemma {:induction false} Indented(n: nat, w: string)
    requires IsWord(w)
    ensures Split(Spaces(n) + w) == [w]
  {
    var s := Spaces(n) + w;
    if n == 0 {
      assert s == w + "";
      SplitWord(w, "");
    } else {
      assert s[1..] == Spaces(n - 1) + w;
      Indented(n - 1, w);
    }
  }

  function Spaces(n: nat): (s: string)
    ensures |s| == n && forall i :: 0 <= i < n ==> s[i] == ' '
  {
    seq(n, _ => ' ')
  }

  /** A word that ends at the sixteenth byte is cut off from what belongs to it. */
  lemma CutWordIsSeen(word: string, more: string, utf8: seq<byte> -> Option<string>)
    requires IsWord(word) && IsWord(more) && IsAscii(word) && IsAscii(more) && |word| <= BUFFER && DecodesAscii(utf8)
    ensures var line := Spaces(BUFFER - |word|) + (word + more);
      Split(line) == [word + more] && Split(Seen(Bytes(line), utf8)) == [word]
  {
    var indent := Spaces(BUFFER - |word|);
    var line, cut := indent + (word + more), indent + word;
    assert line[..BUFFER] == cut;
    assert Bytes(line)[..BUFFER] == Bytes(cut);
    FirstLineOf(cut, "");
    Indented(|indent|, word);
    Indented(|indent|, word + more);
  }

  /**
   And the cut after the sixteenth byte can make an Allow out of a line that is
   none: eleven spaces, then a word that only starts with ALLOW.
   */
  lemma TruncationMakesAnAllow(more: string, utf8: seq<byte> -> Option<string>)
    requires IsWord(more) && IsAscii(more) && DecodesAscii(utf8)
    ensures var line := Spaces(11) + ("ALLOW" + more);
      && Parse(line) == None
      && ReadVerdict(Bytes(line), utf8).value.outcome == Allow
  {
    CutWordIsSeen("ALLOW", more, utf8);
    ReadsAsAllow(Bytes(Spaces(11) + ("ALLOW" + more)), utf8);
    TrimWord("ALLOW" + more);
    assert |"ALLOW" + more| > 5 && ("ALLOW" + more)[0] == 'A';
  }
}
