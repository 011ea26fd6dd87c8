/** Python string primitives the generators and converters are built from:
    `isspace`, `strip`/`lstrip`/`rstrip`, `startswith`/`endswith`, `split`
    on one separator character, `join`, substring search and `replace`.
    Strings are `seq<char>`. */
module Text {

  datatype Option<+T> = None | Some(value: T)

  /** Python's `str.isspace` for one character (the full Unicode set CPython uses). */
  predicate IsSpace(c: char) {
    ('\t' <= c <= '\r') || ('\U{1C}' <= c <= ' ') || c == '\U{85}' || c == '\U{A0}'
    || c == '\U{1680}' || ('\U{2000}' <= c <= '\U{200A}') || c == '\U{2028}' || c == '\U{2029}'
    || c == '\U{202F}' || c == '\U{205F}' || c == '\U{3000}'
  }

  /** True when every character is whitespace (so also for the empty string). */
  predicate IsBlank(s: string) {
    forall i :: 0 <= i < |s| ==> IsSpace(s[i])
  }

  function LeadingSpaces(s: string): (n: nat)
    ensures n <= |s|
  {
    if s == [] || !IsSpace(s[0]) then 0 else 1 + LeadingSpaces(s[1..])
  }

  /** `LeadingSpaces(s)` counts the longest all-whitespace prefix. */
  lemma {:induction false} LeadingSpacesLongest(s: string)
    ensures forall i :: 0 <= i < LeadingSpaces(s) ==> IsSpace(s[i])
    ensures LeadingSpaces(s) < |s| ==> !IsSpace(s[LeadingSpaces(s)])
    decreases |s|
  {
    if s != [] && IsSpace(s[0]) {
      LeadingSpacesLongest(s[1..]);
    }
  }

  function TrailingSpaces(s: string): (n: nat)
    ensures n <= |s|
  {
    if s == [] || !IsSpace(s[|s| - 1]) then 0 else 1 + TrailingSpaces(s[..|s| - 1])
  }

  /** `TrailingSpaces(s)` counts the longest all-whitespace suffix. */
  lemma {:induction false} TrailingSpacesLongest(s: string)
    ensures forall i :: |s| - TrailingSpaces(s) <= i < |s| ==> IsSpace(s[i])
    ensures TrailingSpaces(s) < |s| ==> !IsSpace(s[|s| - TrailingSpaces(s) - 1])
    decreases |s|
  {
    if s != [] && IsSpace(s[|s| - 1]) {
      TrailingSpacesLongest(s[..|s| - 1]);
    }
  }

  /** `s.lstrip()` */
  function LStrip(s: string): string {
    s[LeadingSpaces(s)..]
  }

  /** `s.rstrip()` */
  function RStrip(s: string): string {
    s[..|s| - TrailingSpaces(s)]
  }

  /** `s.strip()` */
  function Strip(s: string): string {
    RStrip(LStrip(s))
  }

  /** `s.rstrip(c)` for one character `c`. */
  function RStripChar(s: string, c: char): (r: string)
    ensures r <= s
    ensures r == [] || r[|r| - 1] != c
    ensures forall i :: |r| <= i < |s| ==> s[i] == c
  {
    if s != [] && s[|s| - 1] == c then RStripChar(s[..|s| - 1], c) else s
  }

  /** `s.startswith(p)` */
  predicate StartsWith(s: string, p: string) {
    p <= s
  }

  /** `s.endswith(p)` */
  predicate EndsWith(s: string, p: string) {
    |p| <= |s| && s[|s| - |p|..] == p
  }

  /** `pat` occurs in `s` at position `j`. */
  predicate OccursAt(s: string, pat: string, j: int) {
    0 <= j && j + |pat| <= |s| && s[j..j + |pat|] == pat
  }

  /** `pat in s` */
  predicate Contains(s: string, pat: string) {
    exists j :: 0 <= j <= |s| && OccursAt(s, pat, j)
  }

  /** `s.find(pat)`: the first position where `pat` occurs, if any. */
  function Find(s: string, pat: string): (r: Option<nat>)
    ensures r.Some? ==> OccursAt(s, pat, r.value)
    ensures r.Some? ==> forall j :: 0 <= j < r.value ==> !OccursAt(s, pat, j)
    ensures r.None? <==> !Contains(s, pat)
  {
    FindFrom(s, pat, 0)
  }

  function FindFrom(s: string, pat: string, k: nat): (r: Option<nat>)
    requires k <= |s|
    ensures r.Some? ==> k <= r.value && OccursAt(s, pat, r.value)
    ensures r.Some? ==> forall j :: k <= j < r.value ==> !OccursAt(s, pat, j)
    ensures r.None? ==> forall j :: k <= j <= |s| ==> !OccursAt(s, pat, j)
    decreases |s| - k
  {
    if OccursAt(s, pat, k) then Some(k)
    else if k == |s| then None
    else FindFrom(s, pat, k + 1)
  }

  /** Position of the first `c` in `s`, if any. */
  function IndexOf(s: string, c: char): (r: Option<nat>)
    ensures r.Some? ==> r.value < |s| && s[r.value] == c
    ensures r.Some? ==> forall j :: 0 <= j < r.value ==> s[j] != c
    ensures r.None? ==> c !in s
  {
    if s == [] then None
    else if s[0] == c then Some(0)
    else match IndexOf(s[1..], c)
      case None => None
      case Some(i) => Some(i + 1)
  }

  /** `s.split(sep)` for a one-character separator: never empty, and no part
      holds the separator. */
  function Split(s: string, sep: char): (parts: seq<string>)
    ensures |parts| >= 1
    ensures forall i :: 0 <= i < |parts| ==> sep !in parts[i]
    decreases |s|
  {
    match IndexOf(s, sep)
    case None => [s]
    case Some(i) => [s[..i]] + Split(s[i + 1..], sep)
  }

  /** A string without the separator splits into itself alone. */
  lemma SplitWithoutSep(s: string, sep: char)
    requires sep !in s
    ensures Split(s, sep) == [s]
  {
    assert IndexOf(s, sep) == None;
  }

  /** `sep.join(parts)` */
  function Join(parts: seq<string>, sep: string): string
  {
    if parts == [] then []
    else if |parts| == 1 then parts[0]
    else parts[0] + sep + Join(parts[1..], sep)
  }

  /** `s.split("\n")` */
  function Lines(s: string): seq<string> {
    Split(s, '\n')
  }

  /** `"\n".join(lines)` */
  function Unlines(lines: seq<string>): string {
    Join(lines, "\n")
  }

  /** `s.replace(pat, repl)` for a non-empty `pat`: every occurrence, left to right, without overlap. */
  function Replace(s: string, pat: string, repl: string): string
    requires pat != []
    decreases |s|
  {
    match Find(s, pat)
    case None => s
    case Some(i) => s[..i] + repl + Replace(s[i + |pat|..], pat, repl)
  }

  /** Joining the parts of a split with its separator gives back the string. */
  lemma {:induction false} JoinSplit(s: string, sep: char)
    ensures Join(Split(s, sep), [sep]) == s
    decreases |s|
  {
    var k := IndexOf(s, sep);
    if k.Some? {
      var i := k.value;
      var head, rest := s[..i], s[i + 1..];
      assert Split(s, sep) == [head] + Split(rest, sep);
      JoinSplit(rest, sep);
      JoinCons(head, Split(rest, sep), [sep]);
      CutAt(s, i);
    }
  }

  /** A string is its part before `i`, its `i`th character and the rest. */
  lemma CutAt(s: string, i: nat)
    requires i < |s|
    ensures s == s[..i] + [s[i]] + s[i + 1..]
  {
    assert s == s[..i] + s[i..];
  }

  lemma JoinCons(head: string, parts: seq<string>, sep: string)
    requires |parts| >= 1
    ensures Join([head] + parts, sep) == head + sep + Join(parts, sep)
  {
    assert ([head] + parts)[1..] == parts;
  }

  /** Splitting a join of separator-free parts gives back the parts. */
  lemma {:induction false} SplitJoin(parts: seq<string>, sep: char)
    requires |parts| >= 1
    requires forall i :: 0 <= i < |parts| ==> sep !in parts[i]
    ensures Split(Join(parts, [sep]), sep) == parts
    decreases |parts|
  {
    if |parts| == 1 {
      assert IndexOf(parts[0], sep).None?;
    } else {
      var head := parts[0];
      var tail := Join(parts[1..], [sep]);
      var s := head + [sep] + tail;
      assert Join(parts, [sep]) == s;
      IndexOfAfter(head, sep, tail);
      assert s[..|head|] == head;
      assert s[|head| + 1..] == tail;
      SplitJoin(parts[1..], sep);
      assert parts == [head] + parts[1..];
    }
  }

  lemma {:induction false} IndexOfAfter(head: string, sep: char, tail: string)
    requires sep !in head
    ensures IndexOf(head + [sep] + tail, sep) == Some(|head|)
    decreases |head|
  {
    var s := head + [sep] + tail;
    if head != [] {
      assert s[1..] == head[1..] + [sep] + tail;
      IndexOfAfter(head[1..], sep, tail);
    }
  }

  /** Stripping is idempotent and leaves no whitespace at either end. */
  lemma StripProperties(s: string)
    ensures Strip(Strip(s)) == Strip(s)
    ensures Strip(s) != [] ==> !IsSpace(Strip(s)[0]) && !IsSpace(Strip(s)[|Strip(s)| - 1])
  {
    var l := LStrip(s);
    var r := Strip(s);
    LeadingSpacesLongest(s);
    TrailingSpacesLongest(l);
    if r != [] {
      assert r[0] == l[0];
    }
    assert LeadingSpaces(r) == 0;
    assert TrailingSpaces(r) == 0;
  }

  /** `s.strip()` is empty exactly when `s` is all whitespace. */
  lemma StripEmptyIffBlank(s: string)
    ensures Strip(s) == [] <==> IsBlank(s)
  {
    var n := LeadingSpaces(s);
    var l := LStrip(s);
    LeadingSpacesLongest(s);
    TrailingSpacesLongest(l);
    if n < |s| {
      assert l[0] == s[n];
      assert !IsSpace(l[0]);
      assert TrailingSpaces(l) < |l|;
      assert !IsBlank(s);
    }
  }

  /** `s.lstrip()` is empty exactly when `s` is all whitespace. */
  lemma LStripEmptyIffBlank(s: string)
    ensures LStrip(s) == [] <==> IsBlank(s)
  {
    LeadingSpacesLongest(s);
  }

  /** Python's `str.isalnum` on one character, restricted to ASCII. */
  predicate IsAlnum(c: char) {
    ('a' <= c <= 'z') || ('A' <= c <= 'Z') || ('0' <= c <= '9')
  }

  /** Python's `str.lower` on one character, restricted to ASCII. */
  function LowerChar(c: char): char {
    if 'A' <= c <= 'Z' then (c as int + 32) as char else c
  }

  /** `s.lower()` (ASCII). */
  function Lower(s: string): (r: string)
    ensures |r| == |s|
    ensures forall i :: 0 <= i < |s| ==> r[i] == LowerChar(s[i])
  {
    seq(|s|, i requires 0 <= i < |s| => LowerChar(s[i]))
  }

  /** A string in which `pat` occurs first at `i` and not again after it
      gets `repl` in that one place. */
  lemma ReplaceOnce(s: string, pat: string, repl: string, i: nat)
    requires pat != [] && OccursAt(s, pat, i)
    requires forall j :: 0 <= j < i ==> !OccursAt(s, pat, j)
    requires !Contains(s[i + |pat|..], pat)
    ensures Replace(s, pat, repl) == s[..i] + repl + s[i + |pat|..]
  {
    assert Contains(s, pat);
    assert Find(s, pat) == Some(i);
    assert Find(s[i + |pat|..], pat).None?;
  }

  /** Whitespace in front of `s` adds to its leading whitespace. */
  lemma {:induction false} LeadingSpacesPrefix(pre: string, s: string)
    requires IsBlank(pre)
    ensures LeadingSpaces(pre + s) == |pre| + LeadingSpaces(s)
    decreases |pre|
  {
    if pre != [] {
      assert (pre + s)[0] == pre[0] && IsSpace(pre[0]);
      assert (pre + s)[1..] == pre[1..] + s;
      assert IsBlank(pre[1..]) by {
        assert forall i :: 0 <= i < |pre| - 1 ==> pre[1..][i] == pre[i + 1];
      }
      LeadingSpacesPrefix(pre[1..], s);
    } else {
      assert pre + s == s;
    }
  }

  /** The parts of a split all-whitespace string are all whitespace. */
  lemma {:induction false} SplitBlank(s: string, sep: char)
    requires IsBlank(s)
    ensures forall i :: 0 <= i < |Split(s, sep)| ==> IsBlank(Split(s, sep)[i])
    decreases |s|
  {
    match IndexOf(s, sep)
    case None =>
    case Some(k) =>
      SplitBlank(s[k + 1..], sep);
      assert Split(s, sep) == [s[..k]] + Split(s[k + 1..], sep);
  }

  /** A non-blank front part decides the leading whitespace on its own. */
  lemma {:induction false} LeadingSpacesNonBlank(a: string, b: string)
    requires !IsBlank(a)
    ensures LeadingSpaces(a + b) == LeadingSpaces(a)
    decreases |a|
  {
    assert (a + b)[0] == a[0];
    if IsSpace(a[0]) {
      assert (a + b)[1..] == a[1..] + b;
      assert !IsBlank(a[1..]) by {
        var i :| 0 <= i < |a| && !IsSpace(a[i]);
        assert a[1..][i - 1] == a[i];
      }
      LeadingSpacesNonBlank(a[1..], b);
    }
  }

  /** Whitespace behind `s` adds to its trailing whitespace. */
  lemma {:induction false} TrailingSpacesSuffix(s: string, suf: string)
    requires IsBlank(suf)
    ensures TrailingSpaces(s + suf) == TrailingSpaces(s) + |suf|
    decreases |suf|
  {
    if suf == [] {
      assert s + suf == s;
    } else {
      var t := s + suf;
      var init := suf[..|suf| - 1];
      assert t[|t| - 1] == suf[|suf| - 1];
      assert t[..|t| - 1] == s + init;
      assert IsBlank(init) by {
        assert forall i :: 0 <= i < |init| ==> init[i] == suf[i];
      }
      TrailingSpacesSuffix(s, init);
    }
  }

  /** A non-blank back part decides the trailing whitespace on its own. */
  lemma {:induction false} TrailingSpacesNonBlank(a: string, b: string)
    requires !IsBlank(b)
    ensures TrailingSpaces(a + b) == TrailingSpaces(b)
    decreases |b|
  {
    var t := a + b;
    var init := b[..|b| - 1];
    assert t[|t| - 1] == b[|b| - 1];
    if IsSpace(b[|b| - 1]) {
      assert t[..|t| - 1] == a + init;
      assert !IsBlank(init) by {
        var i :| 0 <= i < |b| && !IsSpace(b[i]);
        assert i < |b| - 1;
        assert init[i] == b[i];
      }
      TrailingSpacesNonBlank(a, init);
    }
  }

  /** `s.lstrip()` leaves nothing for a second `lstrip` to remove. */
  lemma LStripIdempotent(s: string)
    ensures LStrip(LStrip(s)) == LStrip(s)
  {
    LeadingSpacesLongest(s);
    if LStrip(s) != [] {
      assert LStrip(s)[0] == s[LeadingSpaces(s)];
    }
  }

  /** Stripping after an `rstrip` is the same as stripping. */
  lemma StripRStrip(s: string)
    ensures Strip(RStrip(s)) == Strip(s)
  {
    var y := RStrip(s);
    var t := s[|y|..];
    TrailingSpacesLongest(s);
    assert s == y + t;
    if TrailingSpaces(s) == |s| {
      assert IsBlank(s);
      StripEmptyIffBlank(s);
    } else {
      assert y[|y| - 1] == s[|s| - TrailingSpaces(s) - 1];
      assert IsBlank(t) by {
        forall i | 0 <= i < |t|
          ensures IsSpace(t[i])
        {
          assert t[i] == s[|y| + i];
        }
      }
      StripBlankSuffix(y, t);
    }
  }

  /** Whitespace behind a non-blank string does not survive stripping. */
  lemma StripBlankSuffix(y: string, t: string)
    requires !IsBlank(y) && IsBlank(t)
    ensures Strip(y + t) == Strip(y)
  {
    LeadingSpacesNonBlank(y, t);
    var ly := LStrip(y);
    assert LStrip(y + t) == ly + t;
    TrailingSpacesSuffix(ly, t);
  }

  /** Stripping after an `lstrip` is the same as stripping. */
  lemma StripLStrip(s: string)
    ensures Strip(LStrip(s)) == Strip(s)
  {
    LStripIdempotent(s);
  }

  /** The characters of `s` up to its last non-whitespace one survive `rstrip`. */
  lemma RStripKeeps(s: string, k: nat)
    requires k < |s| && !IsSpace(s[k])
    ensures s[..k + 1] <= RStrip(s)
  {
    TrailingSpacesLongest(s);
  }

  /** Joining with one more part at the back. */
  lemma {:induction false} JoinSnoc(parts: seq<string>, last: string, sep: string)
    requires |parts| >= 1
    ensures Join(parts + [last], sep) == Join(parts, sep) + sep + last
    decreases |parts|
  {
    var ps := parts + [last];
    assert ps[0] == parts[0];
    if |parts| == 1 {
      assert ps[1..] == [last];
    } else {
      assert ps[1..] == parts[1..] + [last];
      JoinSnoc(parts[1..], last, sep);
    }
  }

  /** What `lstrip` does to lines joined by newlines: blank lines in front go,
      and the first other line (or the last one) loses its leading whitespace. */
  function LStripLines(ls: seq<string>): (r: seq<string>)
    requires |ls| >= 1
    ensures 1 <= |r| <= |ls|
  {
    if |ls| == 1 then [LStrip(ls[0])]
    else if IsBlank(ls[0]) then LStripLines(ls[1..])
    else [LStrip(ls[0])] + ls[1..]
  }

  /** What `rstrip` does to lines joined by newlines: blank lines at the back go,
      and the last other line (or the first one) loses its trailing whitespace. */
  function RStripLines(ls: seq<string>): (r: seq<string>)
    requires |ls| >= 1
    ensures 1 <= |r| <= |ls|
  {
    if |ls| == 1 then [RStrip(ls[0])]
    else if IsBlank(ls[|ls| - 1]) then RStripLines(ls[..|ls| - 1])
    else ls[..|ls| - 1] + [RStrip(ls[|ls| - 1])]
  }

  lemma {:induction false} LStripUnlines(ls: seq<string>)
    requires |ls| >= 1
    ensures LStrip(Unlines(ls)) == Unlines(LStripLines(ls))
    decreases |ls|
  {
    if |ls| > 1 {
      var rest := Unlines(ls[1..]);
      assert Unlines(ls) == ls[0] + "\n" + rest;
      if IsBlank(ls[0]) {
        var pre := ls[0] + "\n";
        assert IsBlank(pre) by {
          assert forall i :: 0 <= i < |ls[0]| ==> pre[i] == ls[0][i];
        }
        assert Unlines(ls) == pre + rest;
        LeadingSpacesPrefix(pre, rest);
        assert LStrip(Unlines(ls)) == LStrip(rest);
        LStripUnlines(ls[1..]);
      } else {
        LeadingSpacesNonBlank(ls[0], "\n" + rest);
        assert Unlines(ls) == ls[0] + ("\n" + rest);
        assert LStrip(Unlines(ls)) == LStrip(ls[0]) + "\n" + rest;
        JoinCons(LStrip(ls[0]), ls[1..], "\n");
      }
    }
  }

  lemma {:induction false} RStripUnlines(ls: seq<string>)
    requires |ls| >= 1
    ensures RStrip(Unlines(ls)) == Unlines(RStripLines(ls))
    decreases |ls|
  {
    if |ls| > 1 {
      var init := ls[..|ls| - 1];
      var last := ls[|ls| - 1];
      var front := Unlines(init);
      JoinSnoc(init, last, "\n");
      assert init + [last] == ls;
      assert Unlines(ls) == front + "\n" + last;
      if IsBlank(last) {
        var suf := "\n" + last;
        assert IsBlank(suf) by {
          assert forall i :: 1 <= i < |suf| ==> suf[i] == last[i - 1];
        }
        assert Unlines(ls) == front + suf;
        TrailingSpacesSuffix(front, suf);
        assert RStrip(Unlines(ls)) == RStrip(front);
        RStripUnlines(init);
      } else {
        TrailingSpacesNonBlank(front + "\n", last);
        assert RStrip(Unlines(ls)) == front + "\n" + RStrip(last);
        JoinSnoc(init, RStrip(last), "\n");
      }
    }
  }
}
