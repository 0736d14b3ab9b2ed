/**
 The string operations of the Rust standard library that the decision code is
 built on: `char::is_whitespace`, `str::split_whitespace`, `str::trim`,
 `[&str]::join(" ")` and `Path::file_name`.
 */
module Text {
  import opened Common

  /** The Unicode `White_Space` property, as `char::is_whitespace`. */
  predicate IsSpace(c: char) {
    || '\t' <= c <= '\r'
    || c in {' ', '\U{85}', '\U{A0}', '\U{1680}', '\U{2028}', '\U{2029}', '\U{202F}', '\U{205F}', '\U{3000}'}
    || '\U{2000}' <= c <= '\U{200A}'
  }

  predicate IsWord(w: string) {
    w != "" && forall i :: 0 <= i < |w| ==> !IsSpace(w[i])
  }

  predicate AllWords(ws: seq<string>) {
    forall i :: 0 <= i < |ws| ==> IsWord(ws[i])
  }

  predicate Blank(s: string) {
    forall i :: 0 <= i < |s| ==> IsSpace(s[i])
  }

  /** How many characters precede the first whitespace. */
  function WordLen(s: string): (n: nat)
    ensures n <= |s|
    ensures forall i :: 0 <= i < n ==> !IsSpace(s[i])
    ensures n < |s| ==> IsSpace(s[n])
  {
    if s == "" || IsSpace(s[0]) then 0 else 1 + WordLen(s[1..])
  }

  function Split(s: string): (ws: seq<string>)
    ensures AllWords(ws)
    decreases |s|
  {
    if s == "" then []
    else if IsSpace(s[0]) then Split(s[1..])
    else var n := WordLen(s); [s[..n]] + Split(s[n..])
  }

  function Join(ws: seq<string>): string {
    if ws == [] then "" else if |ws| == 1 then ws[0] else ws[0] + " " + Join(ws[1..])
  }

  function TrimStart(s: string): string {
    if s != "" && IsSpace(s[0]) then TrimStart(s[1..]) else s
  }

  function TrimEnd(s: string): (t: string)
    ensures t <= s
  {
    if s != "" && IsSpace(s[|s| - 1]) then TrimEnd(s[..|s| - 1]) else s
  }

  function Trim(s: string): string {
    TrimEnd(TrimStart(s))
  }

  lemma {:induction false} WordLenAt(w: string, rest: string)
    requires IsWord(w)
    requires rest == "" || IsSpace(rest[0])
    ensures WordLen(w + rest) == |w|
  {
    var s := w + rest;
    assert s[0] == w[0];
    if |w| == 1 {
      assert s[1..] == rest;
    } else {
      assert s[1..] == w[1..] + rest;
      WordLenAt(w[1..], rest);
    }
  }

  lemma SplitWord(w: string, rest: string)
    requires IsWord(w)
    requires rest == "" || IsSpace(rest[0])
    ensures Split(w + rest) == [w] + Split(rest)
  {
    WordLenAt(w, rest);
    assert (w + rest)[0] == w[0];
    assert (w + rest)[..|w|] == w && (w + rest)[|w|..] == rest;
  }

  /** Splitting undoes joining, for every list of words. */
  lemma {:induction false} SplitJoin(ws: seq<string>)
    requires AllWords(ws)
    ensures Split(Join(ws)) == ws
  {
    if |ws| == 1 {
      SplitWord(ws[0], "");
      assert ws[0] + "" == ws[0];
    } else if |ws| > 1 {
      var rest := " " + Join(ws[1..]);
      assert Join(ws) == ws[0] + rest;
      SplitWord(ws[0], rest);
      assert rest[1..] == Join(ws[1..]);
      SplitJoin(ws[1..]);
    }
  }

  lemma {:induction false} SplitIsEmpty(s: string)
    ensures Split(s) == [] <==> Blank(s)
    decreases |s|
  {
    if s != "" && IsSpace(s[0]) {
      SplitIsEmpty(s[1..]);
      assert Blank(s) <==> Blank(s[1..]) by {
        forall i | 0 <= i < |s| && Blank(s[1..]) ensures IsSpace(s[i]) {
          if i > 0 { assert s[i] == s[1..][i - 1]; }
        }
      }
    }
  }

  lemma {:induction false} SplitDropsTrailingSpace(s: string, c: char)
    requires IsSpace(c)
    ensures Split(s + [c]) == Split(s)
    decreases |s|
  {
    if s == "" {
      assert (s + [c])[1..] == "";
    } else if IsSpace(s[0]) {
      assert (s + [c])[1..] == s[1..] + [c];
      SplitDropsTrailingSpace(s[1..], c);
    } else {
      var n := WordLen(s);
      var w, rest := s[..n], s[n..];
      assert s + [c] == w + (rest + [c]) && s == w + rest;
      SplitWord(w, rest + [c]);
      SplitWord(w, rest);
      SplitDropsTrailingSpace(rest, c);
    }
  }

  lemma {:induction false} SplitTrimEnd(s: string)
    ensures Split(TrimEnd(s)) == Split(s)
    decreases |s|
  {
    if s != "" && IsSpace(s[|s| - 1]) {
      var t := s[..|s| - 1];
      SplitTrimEnd(t);
      SplitDropsTrailingSpace(t, s[|s| - 1]);
      assert t + [s[|s| - 1]] == s;
    }
  }

  /** Trimming never changes the words. */
  lemma {:induction false} SplitTrim(s: string)
    ensures Split(Trim(s)) == Split(s)
    decreases |s|
  {
    if s != "" && IsSpace(s[0]) {
      SplitTrim(s[1..]);
    } else {
      SplitTrimEnd(s);
    }
  }

  /** A joined list of words has nothing to trim. */
  lemma {:induction false} TrimJoin(ws: seq<string>)
    requires AllWords(ws)
    ensures Trim(Join(ws)) == Join(ws)
  {
    JoinEnds(ws);
  }

  lemma {:induction false} JoinEnds(ws: seq<string>)
    requires AllWords(ws)
    ensures ws == [] <==> Join(ws) == ""
    ensures ws != [] ==> !IsSpace(Join(ws)[0]) && !IsSpace(Join(ws)[|Join(ws)| - 1])
  {
    if |ws| > 1 {
      JoinEnds(ws[1..]);
      assert Join(ws)[0] == ws[0][0];
    }
  }

  lemma {:induction false} TrimEndClean(s: string)
    ensures TrimEnd(s) == "" || !IsSpace(TrimEnd(s)[|TrimEnd(s)| - 1])
    decreases |s|
  {
    if s != "" && IsSpace(s[|s| - 1]) {
      TrimEndClean(s[..|s| - 1]);
    }
  }

  lemma {:induction false} TrimStartClean(s: string)
    ensures TrimStart(s) == "" || !IsSpace(TrimStart(s)[0])
    decreases |s|
  {
    if s != "" && IsSpace(s[0]) {
      TrimStartClean(s[1..]);
    }
  }

  lemma {:induction false} TrimEndIs(s: string)
    ensures Blank(s[|TrimEnd(s)|..])
    decreases |s|
  {
    if s != "" && IsSpace(s[|s| - 1]) {
      var t := s[..|s| - 1];
      TrimEndIs(t);
      assert s[|TrimEnd(s)|..] == t[|TrimEnd(t)|..] + [s[|s| - 1]];
    }
  }

  lemma {:induction false} TrimStartIs(s: string) returns (before: string)
    ensures Blank(before) && s == before + TrimStart(s)
    decreases |s|
  {
    before := "";
    if s != "" && IsSpace(s[0]) {
      var more := TrimStartIs(s[1..]);
      before := [s[0]] + more;
    }
  }

  /** Trimming takes off whitespace at the two ends, and all of it there is. */
  lemma TrimIs(s: string)
    ensures exists before, after :: Blank(before) && Blank(after) && s == before + Trim(s) + after
    ensures Trim(s) == "" || (!IsSpace(Trim(s)[0]) && !IsSpace(Trim(s)[|Trim(s)| - 1]))
  {
    hide IsSpace, TrimStart, TrimEnd, Blank;
    var before := TrimStartIs(s);
    var t := TrimStart(s);
    TrimEndIs(t);
    TrimStartClean(s);
    TrimEndClean(t);
    var after := t[|Trim(s)|..];
    assert t == Trim(s) + after;
    assert s == before + Trim(s) + after;
  }

  /** Trimming twice is trimming once. */
  lemma TrimIdempotent(s: string)
    ensures Trim(Trim(s)) == Trim(s)
  {
    TrimStartClean(s);
    TrimEndClean(TrimStart(s));
  }

  // ---- Path::file_name

  /** The index just past the last '/', 0 if there is none. */
  function LastSegment(p: string): (k: nat)
    ensures k <= |p|
    ensures k > 0 ==> p[k - 1] == '/'
    ensures forall i :: k <= i < |p| ==> p[i] != '/'
  {
    if p == "" then 0
    else if p[|p| - 1] == '/' then |p|
    else LastSegment(p[..|p| - 1])
  }

  /**
   `Path::file_name` on Unix: trailing slashes and `.` components are skipped, a
   last component `..` has no file name, and neither has a path without any
   normal component (`""`, `"/"`, `"."`, `"./"`).
   */
  function FileName(p: string): (r: Option<string>)
    ensures r.Some? ==> r.value != "" && r.value != "." && r.value != ".." && '/' !in r.value
    decreases |p|
  {
    var k := LastSegment(p);
    var last := p[k..];
    if last == "" || last == "." then
      if k == 0 then None else FileName(p[..k - 1])
    else if last == ".." then None
    else Some(last)
  }

  lemma LastSegmentOf(dir: string, name: string)
    requires '/' !in name
    requires dir == "" || dir[|dir| - 1] == '/'
    ensures LastSegment(dir + name) == |dir|
  {
    assert forall i :: |dir| <= i < |dir + name| ==> (dir + name)[i] == name[i - |dir|];
    assert dir != "" ==> (dir + name)[|dir| - 1] == '/';
  }

  /** A plain name is its own file name, under any directory. */
  lemma FileNameOf(dir: string, name: string)
    requires name != "" && name != "." && name != ".." && '/' !in name
    requires dir == "" || dir[|dir| - 1] == '/'
    ensures FileName(dir + name) == Some(name)
  {
    LastSegmentOf(dir, name);
    assert (dir + name)[|dir|..] == name;
  }

  /** Trailing slashes and trailing `.` components are invisible. */
  lemma FileNameIgnoresTrail(p: string, trail: string)
    requires trail == "/" || trail == "/."
    ensures FileName(p + trail) == FileName(p)
  {
    var dir, name := p + "/", trail[1..];
    assert p + trail == dir + name;
    LastSegmentOf(dir, name);
    assert (dir + name)[|dir|..] == name;
    assert (dir + name)[..|p|] == p;
  }

  /** A path that ends in `..` names no file, and neither does the empty path. */
  lemma NoFileName(dir: string)
    requires dir == "" || dir[|dir| - 1] == '/'
    ensures FileName(dir + "..") == FileName("") == None
  {
    LastSegmentOf(dir, "..");
    assert (dir + "..")[|dir|..] == "..";
  }
}
