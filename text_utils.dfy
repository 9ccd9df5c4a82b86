/**
 * src/utils.py: the text sanitiser `clean_text` and the sidebar renderer
 * `sidebar_markdown`, which cleans a company record's description in place
 * before embedding the record's fields in a fixed HTML layout.
 */
module TextUtils {
  import opened Strings

  // ---------------------------------------------------------------------------
  // Python's notion of whitespace
  // ---------------------------------------------------------------------------

  /** The characters for which Python's `str.isspace()` holds; `str.split()` with
      no argument and `str.strip()` with no argument use exactly this set. */
  predicate IsSpace(c: char) {
    || c == ' '
    || '\t' <= c <= '\r'                 // \t \n \v \f \r
    || '\U{1C}' <= c <= '\U{1F}'         // file, group, record and unit separators
    || c == '\U{85}' || c == '\U{A0}' || c == '\U{1680}'
    || '\U{2000}' <= c <= '\U{200A}'
    || c == '\U{2028}' || c == '\U{2029}' || c == '\U{202F}' || c == '\U{205F}' || c == '\U{3000}'
  }

  predicate AllSpace(s: string) {
    forall i :: 0 <= i < |s| ==> IsSpace(s[i])
  }

  lemma AllSpaceByChars(s: string)
    requires forall c :: c in s ==> IsSpace(c)
    ensures AllSpace(s)
  {
    forall i | 0 <= i < |s| ensures IsSpace(s[i]) {
      assert s[i] in s;
    }
  }

  /** An element of the list `str.split()` returns: non-empty, free of whitespace. */
  predicate IsWord(w: string) {
    w != [] && forall i :: 0 <= i < |w| ==> !IsSpace(w[i])
  }

  /** The shape of `" ".join(x.split())`: the only whitespace character is ' ',
      there is none at either end, and no two spaces are adjacent. */
  predicate IsCollapsed(t: string) {
    && (forall i :: 0 <= i < |t| && IsSpace(t[i]) ==> t[i] == ' ')
    && (t != [] ==> !IsSpace(t[0]) && !IsSpace(t[|t| - 1]))
    && (forall i :: 0 <= i < |t| - 1 ==> !(t[i] == ' ' && t[i + 1] == ' '))
  }

  // ---------------------------------------------------------------------------
  // str.replace
  // ---------------------------------------------------------------------------

  /** `s.replace(pat, rep)`: every occurrence of `pat`, found scanning left to
      right without overlap, is replaced by `rep`; text produced by a
      replacement is never scanned again. */
  function Replace(s: string, pat: string, rep: string): string
    requires pat != []
    decreases |s|
  {
    if |s| < |pat| then s
    else if s[..|pat|] == pat then rep + Replace(s[|pat|..], pat, rep)
    else [s[0]] + Replace(s[1..], pat, rep)
  }

  lemma {:induction false} ReplaceChars(s: string, pat: string, rep: string)
    requires pat != []
    ensures forall c :: c in Replace(s, pat, rep) ==> c in s || c in rep
    decreases |s|
  {
    if |s| < |pat| {
    } else if s[..|pat|] == pat {
      ReplaceChars(s[|pat|..], pat, rep);
      assert forall c :: c in s[|pat|..] ==> c in s;
    } else {
      ReplaceChars(s[1..], pat, rep);
      assert forall c :: c in s[1..] ==> c in s;
    }
  }

  lemma {:induction false} ReplaceNotLonger(s: string, pat: string, rep: string)
    requires pat != [] && |rep| <= |pat|
    ensures |Replace(s, pat, rep)| <= |s|
    decreases |s|
  {
    if |s| < |pat| {
    } else if s[..|pat|] == pat {
      ReplaceNotLonger(s[|pat|..], pat, rep);
    } else {
      ReplaceNotLonger(s[1..], pat, rep);
    }
  }

  /** Replacing a one-character pattern by text without that character removes it. */
  lemma {:induction false} ReplaceRemovesChar(s: string, x: char, rep: string)
    requires x !in rep
    ensures x !in Replace(s, [x], rep)
    decreases |s|
  {
    if |s| < 1 {
    } else if s[..1] == [x] {
      ReplaceRemovesChar(s[1..], x, rep);
    } else {
      assert s[0] != x by { assert s[..1] == [s[0]]; }
      ReplaceRemovesChar(s[1..], x, rep);
    }
  }

  // ---------------------------------------------------------------------------
  // str.strip
  // ---------------------------------------------------------------------------

  /** Drops the leading whitespace of `s`. */
  function TrimStart(s: string): (r: string)
    ensures |r| <= |s| && r == s[|s| - |r|..]
    ensures AllSpace(s[..|s| - |r|])
    ensures r != [] ==> !IsSpace(r[0])
    ensures r == [] <==> AllSpace(s)
    decreases |s|
  {
    if s != [] && IsSpace(s[0]) then
      var r := TrimStart(s[1..]);
      assert s[..|s| - |r|] == [s[0]] + s[1..][..|s| - 1 - |r|];
      AllSpaceConcat([s[0]], s[1..][..|s| - 1 - |r|]);
      r
    else s
  }

  /** Drops the trailing whitespace of `s`. */
  function TrimEnd(s: string): (r: string)
    ensures |r| <= |s| && r == s[..|r|]
    ensures AllSpace(s[|r|..])
    ensures r != [] ==> !IsSpace(r[|r| - 1])
    ensures r == [] <==> AllSpace(s)
    decreases |s|
  {
    if s != [] && IsSpace(s[|s| - 1]) then
      var r := TrimEnd(s[..|s| - 1]);
      assert s[|r|..] == s[..|s| - 1][|r|..] + [s[|s| - 1]];
      AllSpaceConcat(s[..|s| - 1][|r|..], [s[|s| - 1]]);
      r
    else s
  }

  lemma AllSpaceConcat(a: string, b: string)
    requires AllSpace(a) && AllSpace(b)
    ensures AllSpace(a + b)
  {
    forall i | 0 <= i < |a + b| ensures IsSpace((a + b)[i]) {
      if i >= |a| { assert (a + b)[i] == b[i - |a|]; }
    }
  }

  /** `s.strip()`. */
  function Strip(s: string): string {
    TrimEnd(TrimStart(s))
  }

  /** `r` is the slice of `s` that starts at `k` and is framed by whitespace:
      everything before it and after it is whitespace, and `r` neither starts
      nor ends with a whitespace character. */
  predicate IsTrimmedSlice(s: string, k: nat, r: string) {
    && k + |r| <= |s| && r == s[k..k + |r|]
    && AllSpace(s[..k]) && AllSpace(s[k + |r|..])
    && (r != [] ==> !IsSpace(r[0]) && !IsSpace(r[|r| - 1]))
  }

  /** `strip()` removes the whitespace at both ends and nothing else. */
  lemma StripSlice(s: string) returns (k: nat)
    ensures IsTrimmedSlice(s, k, Strip(s))
  {
    var a := TrimStart(s);
    var r := TrimEnd(a);
    k := |s| - |a|;
    TrimmedSlice(s, a, r);
  }

  /** A prefix of a suffix is a slice; used with the two halves of `strip`. */
  lemma TrimmedSlice(s: string, a: string, r: string)
    requires |a| <= |s| && a == s[|s| - |a|..] && AllSpace(s[..|s| - |a|])
    requires a != [] ==> !IsSpace(a[0])
    requires |r| <= |a| && r == a[..|r|] && AllSpace(a[|r|..])
    requires r != [] ==> !IsSpace(r[|r| - 1])
    ensures IsTrimmedSlice(s, |s| - |a|, r)
  {
    var k := |s| - |a|;
    assert a[|r|..] == s[k + |r|..];
    if r != [] {
      assert r[0] == a[0];
    }
  }

  /** `strip()` never lengthens the text, adds no character, empties exactly
      the all-whitespace texts and keeps the words. */
  lemma StripFacts(s: string)
    ensures |Strip(s)| <= |s|
    ensures forall c :: c in Strip(s) ==> c in s
    ensures Strip(s) == [] <==> AllSpace(s)
    ensures Split(Strip(s)) == Split(s)
  {
    var a := TrimStart(s);
    assert forall c :: c in a ==> c in s;
    assert forall c :: c in TrimEnd(a) ==> c in a;
    SplitTrimStart(s);
    SplitTrimEnd(a);
  }

  /** Leading whitespace does not change the words. */
  lemma {:induction false} SplitTrimStart(s: string)
    ensures Split(TrimStart(s)) == Split(s)
    decreases |s|
  {
    if s != [] && IsSpace(s[0]) {
      SplitTrimStart(s[1..]);
    }
  }

  /** A whitespace character at the end does not change the words. */
  lemma {:induction false} SplitAppendSpace(s: string, c: char)
    requires IsSpace(c)
    ensures Split(s + [c]) == Split(s)
    decreases |s|
  {
    var t := s + [c];
    if s == [] {
      assert t[1..] == [];
    } else if IsSpace(s[0]) {
      assert t[0] == s[0] && t[1..] == s[1..] + [c];
      SplitAppendSpace(s[1..], c);
    } else {
      var n := WordLength(s);
      WordLengthPrefix(s[..n], s[n..] + [c]);
      assert s[..n] + (s[n..] + [c]) == t;
      assert t[..n] == s[..n] && t[n..] == s[n..] + [c];
      SplitAppendSpace(s[n..], c);
    }
  }

  /** Whitespace at the end does not change the words. */
  lemma {:induction false} SplitAppendSpaces(s: string, t: string)
    requires AllSpace(t)
    ensures Split(s + t) == Split(s)
    decreases |t|
  {
    if t == [] {
      assert s + t == s;
    } else {
      assert s + t == (s + [t[0]]) + t[1..];
      assert IsSpace(t[0]) && AllSpace(t[1..]) by {
        forall i | 0 <= i < |t[1..]| ensures IsSpace(t[1..][i]) {
          assert t[1..][i] == t[i + 1];
        }
      }
      SplitAppendSpace(s, t[0]);
      SplitAppendSpaces(s + [t[0]], t[1..]);
    }
  }

  /** Trailing whitespace does not change the words. */
  lemma SplitTrimEnd(s: string)
    ensures Split(TrimEnd(s)) == Split(s)
  {
    var r := TrimEnd(s);
    assert r + s[|r|..] == s;
    SplitAppendSpaces(r, s[|r|..]);
  }

  // ---------------------------------------------------------------------------
  // str.split and str.join
  // ---------------------------------------------------------------------------

  /** Length of the run of non-whitespace characters that starts `s`. */
  function WordLength(s: string): (n: nat)
    ensures n <= |s|
    ensures forall i :: 0 <= i < n ==> !IsSpace(s[i])
    ensures n < |s| ==> IsSpace(s[n])
    ensures s != [] && !IsSpace(s[0]) ==> n > 0
    decreases |s|
  {
    if s == [] || IsSpace(s[0]) then 0 else 1 + WordLength(s[1..])
  }

  /** `gaps[0] + ws[0] + gaps[1] + ... + ws[k - 1] + gaps[k]`. */
  function Weave(gaps: seq<string>, ws: seq<string>): string
    requires |gaps| == |ws| + 1
    decreases |ws|
  {
    if ws == [] then gaps[0] else gaps[0] + ws[0] + Weave(gaps[1..], ws[1..])
  }

  /** Whitespace gaps, every one between two words non-empty. */
  predicate Separators(gaps: seq<string>) {
    && (forall i :: 0 <= i < |gaps| ==> AllSpace(gaps[i]))
    && (forall i :: 0 < i < |gaps| - 1 ==> gaps[i] != [])
  }

  /** `s` is the words `ws`, in order, with whitespace around and between them.
      When the elements of `ws` are words, they are then exactly the maximal
      runs of non-whitespace characters of `s`. */
  ghost predicate SplitsInto(s: string, ws: seq<string>) {
    exists gaps: seq<string> :: |gaps| == |ws| + 1 && Separators(gaps) && s == Weave(gaps, ws)
  }

  lemma SplitsIntoSpace(s: string, ws: seq<string>)
    requires s != [] && IsSpace(s[0]) && SplitsInto(s[1..], ws)
    ensures SplitsInto(s, ws)
  {
    var g :| |g| == |ws| + 1 && Separators(g) && s[1..] == Weave(g, ws);
    var h := [[s[0]] + g[0]] + g[1..];
    WeaveWidenFirst([s[0]], g, ws);
    SeparatorsWidenFirst([s[0]], g);
    assert [s[0]] + s[1..] == s;
    assert |h| == |ws| + 1 && Separators(h) && s == Weave(h, ws);
  }

  /** Widening the first gap of a weave adds to its start. */
  lemma WeaveWidenFirst(x: string, g: seq<string>, ws: seq<string>)
    requires |g| == |ws| + 1
    ensures Weave([x + g[0]] + g[1..], ws) == x + Weave(g, ws)
  {
    var h := [x + g[0]] + g[1..];
    assert h[0] == x + g[0] && h[1..] == g[1..];
    if ws != [] {
      assert x + g[0] + ws[0] + Weave(g[1..], ws[1..]) == x + (g[0] + ws[0] + Weave(g[1..], ws[1..]));
    }
  }

  lemma SeparatorsWidenFirst(x: string, g: seq<string>)
    requires g != [] && AllSpace(x) && Separators(g)
    ensures Separators([x + g[0]] + g[1..])
  {
    var h := [x + g[0]] + g[1..];
    AllSpaceConcat(x, g[0]);
    forall i | 0 < i < |h| ensures h[i] == g[i] { }
  }

  /** Without a leading gap, the weave starts with the first word. */
  lemma WeaveHead(gaps: seq<string>, ws: seq<string>)
    requires |gaps| == |ws| + 1 && ws != [] && ws[0] != []
    ensures Weave(gaps, ws) != []
    ensures gaps[0] == [] ==> Weave(gaps, ws)[0] == ws[0][0]
  {
    assert Weave(gaps, ws) == gaps[0] + ws[0] + Weave(gaps[1..], ws[1..]);
  }

  lemma SplitsIntoWord(s: string, n: nat, rest: seq<string>)
    requires 0 < n <= |s| && (n < |s| ==> IsSpace(s[n]))
    requires forall i :: 0 <= i < |rest| ==> IsWord(rest[i])
    requires SplitsInto(s[n..], rest)
    ensures SplitsInto(s, [s[..n]] + rest)
  {
    assert s[n..] != [] ==> s[n..][0] == s[n];
    SplitsIntoCons(s[..n], s[n..], rest);
    assert s[..n] + s[n..] == s;
  }

  /** A word in front of whitespace-led text adds a first word. */
  lemma SplitsIntoCons(w: string, t: string, rest: seq<string>)
    requires w != [] && (t != [] ==> IsSpace(t[0]))
    requires forall i :: 0 <= i < |rest| ==> IsWord(rest[i])
    requires SplitsInto(t, rest)
    ensures SplitsInto(w + t, [w] + rest)
  {
    var g :| |g| == |rest| + 1 && Separators(g) && t == Weave(g, rest);
    if rest != [] {
      FirstGapAfterWord(t, g, rest);
    }
    SeparatorsOpen(g);
    WeaveOpen(w, g, rest);
    SplitsIntoBy(w + t, [w] + rest, [[]] + g);
  }

  /** A weave of words that starts with whitespace has a non-empty first gap. */
  lemma FirstGapAfterWord(t: string, g: seq<string>, rest: seq<string>)
    requires |g| == |rest| + 1 && rest != [] && IsWord(rest[0])
    requires t == Weave(g, rest) && IsSpace(t[0])
    ensures g[0] != []
  {
    WeaveHead(g, rest);
  }

  lemma SplitsIntoBy(s: string, ws: seq<string>, gaps: seq<string>)
    requires |gaps| == |ws| + 1 && Separators(gaps) && s == Weave(gaps, ws)
    ensures SplitsInto(s, ws)
  {
  }

  /** A weave that starts with an empty gap starts with its first word. */
  lemma WeaveOpen(w: string, g: seq<string>, rest: seq<string>)
    requires |g| == |rest| + 1
    ensures Weave([[]] + g, [w] + rest) == w + Weave(g, rest)
  {
    var h, ws := [[]] + g, [w] + rest;
    assert h[0] == [] && ws[0] == w && h[1..] == g && ws[1..] == rest;
    calc {
      Weave(h, ws);
      h[0] + ws[0] + Weave(h[1..], ws[1..]);
      [] + w + Weave(g, rest);
      { assert [] + w == w; }
      w + Weave(g, rest);
    }
  }

  lemma SeparatorsOpen(g: seq<string>)
    requires Separators(g) && (|g| > 1 ==> g[0] != [])
    ensures Separators([[]] + g)
  {
    var h := [[]] + g;
    forall i | 0 < i < |h| ensures h[i] == g[i - 1] { }
    assert AllSpace(h[0]);
  }

  /** `s.split()`: the maximal runs of non-whitespace characters, in order. */
  function Split(s: string): (ws: seq<string>)
    ensures forall i :: 0 <= i < |ws| ==> IsWord(ws[i])
    ensures forall i :: 0 <= i < |ws| ==> forall c :: c in ws[i] ==> c in s
    ensures ws == [] <==> AllSpace(s)
    decreases |s|
  {
    if s == [] then []
    else if IsSpace(s[0]) then Split(s[1..])
    else
      var n := WordLength(s);
      assert forall c :: c in s[..n] ==> c in s;
      assert forall c :: c in s[n..] ==> c in s;
      [s[..n]] + Split(s[n..])
  }

  /** The words `split()` returns are exactly the maximal runs of
      non-whitespace characters of `s`, in order: `s` is those words with
      whitespace around them and at least one whitespace character between
      any two. */
  lemma {:induction false} SplitSeparates(s: string)
    ensures SplitsInto(s, Split(s))
    decreases |s|
  {
    if s == [] {
      assert Weave([[]], []) == [];
    } else if IsSpace(s[0]) {
      SplitSeparates(s[1..]);
      SplitsIntoSpace(s, Split(s[1..]));
    } else {
      var n := WordLength(s);
      SplitSeparates(s[n..]);
      SplitsIntoWord(s, n, Split(s[n..]));
    }
  }

  /** `" ".join(ws)`. */
  function Join(ws: seq<string>): string {
    if |ws| == 0 then ""
    else if |ws| == 1 then ws[0]
    else ws[0] + " " + Join(ws[1..])
  }

  /** `" ".join(s.split())`. */
  function Collapse(s: string): string {
    Join(Split(s))
  }

  lemma {:induction false} JoinCollapsed(ws: seq<string>)
    requires forall i :: 0 <= i < |ws| ==> IsWord(ws[i])
    ensures IsCollapsed(Join(ws))
    ensures Join(ws) == [] <==> ws == []
  {
    if |ws| >= 2 {
      var w, j := ws[0], Join(ws[1..]);
      JoinCollapsed(ws[1..]);
      assert IsWord(ws[1]);
      var t := w + " " + j;
      assert t[0] == w[0];
      assert t[|t| - 1] == j[|j| - 1];
      forall i | 0 <= i < |t| && IsSpace(t[i]) ensures t[i] == ' ' {
        if i > |w| { assert t[i] == j[i - |w| - 1]; }
      }
      forall i | 0 <= i < |t| - 1 ensures !(t[i] == ' ' && t[i + 1] == ' ') {
        if i < |w| - 1 {
          assert t[i] == w[i];
        } else if i == |w| - 1 {
          assert t[i] == w[|w| - 1];
        } else if i == |w| {
          assert t[i + 1] == j[0];
        } else {
          assert t[i] == j[i - |w| - 1] && t[i + 1] == j[i - |w|];
        }
      }
    }
  }

  /** A word followed by nothing or by whitespace: its length is the first run. */
  lemma {:induction false} WordLengthPrefix(w: string, rest: string)
    requires forall i :: 0 <= i < |w| ==> !IsSpace(w[i])
    requires rest != [] ==> IsSpace(rest[0])
    ensures WordLength(w + rest) == |w|
    decreases |w|
  {
    if w == [] {
      assert w + rest == rest;
    } else {
      assert (w + rest)[0] == w[0] && (w + rest)[1..] == w[1..] + rest;
      WordLengthPrefix(w[1..], rest);
    }
  }

  /** Splitting undoes joining: `" ".join(ws).split() == ws` for words. */
  lemma {:induction false} SplitJoin(ws: seq<string>)
    requires forall i :: 0 <= i < |ws| ==> IsWord(ws[i])
    ensures Split(Join(ws)) == ws
  {
    if |ws| == 1 {
      var w := ws[0];
      WordLengthPrefix(w, []);
      assert w + [] == w && w[..|w|] == w && w[|w|..] == [];
    } else if |ws| >= 2 {
      var w, j := ws[0], Join(ws[1..]);
      var t := w + " " + j;
      assert IsWord(w);
      WordLengthPrefix(w, " " + j);
      assert w + (" " + j) == t;
      SplitAfterWord(t);
      assert t[..|w|] == w && t[|w| + 1..] == j;
      SplitJoin(ws[1..]);
    }
  }

  /** Collapsing never lengthens the text and introduces no character but ' '. */
  lemma {:induction false} CollapseFacts(s: string)
    ensures |Collapse(s)| <= |s|
    ensures forall c :: c in Collapse(s) ==> c == ' ' || c in s
    ensures Split(Collapse(s)) == Split(s)
    decreases |s|
  {
    SplitJoin(Split(s));
    if s == [] {
    } else if IsSpace(s[0]) {
      CollapseFacts(s[1..]);
      assert forall c :: c in s[1..] ==> c in s;
    } else {
      var n := WordLength(s);
      var w, rest := s[..n], Split(s[n..]);
      assert Split(s) == [w] + rest;
      assert forall c :: c in w ==> c in s;
      if rest == [] {
        assert Collapse(s) == w;
      } else {
        assert n < |s|;
        assert Split(s[n..]) == Split(s[n + 1..]) by { assert s[n..][1..] == s[n + 1..]; }
        CollapseFacts(s[n + 1..]);
        assert ([w] + rest)[1..] == rest;
        assert Collapse(s) == w + " " + Collapse(s[n + 1..]);
        assert forall c :: c in s[n + 1..] ==> c in s;
      }
    }
  }

  /** A collapsed text of several words: its first word, one space, and a
      collapsed text that starts with a word. */
  lemma CollapsedStep(t: string)
    requires IsCollapsed(t) && t != [] && WordLength(t) < |t|
    ensures var n := WordLength(t);
      && n + 1 < |t| && t[n] == ' ' && !IsSpace(t[n + 1]) && IsCollapsed(t[n + 1..])
  {
    var n := WordLength(t);
    assert t[n] == ' ';
    assert n + 1 < |t|;
    assert t[n + 1] != ' ';
    CollapsedSuffix(t, n + 1);
  }

  /** A collapsed text stays collapsed from any non-blank position on. */
  lemma CollapsedSuffix(t: string, k: nat)
    requires IsCollapsed(t) && k < |t| && !IsSpace(t[k])
    ensures IsCollapsed(t[k..])
  {
    var u := t[k..];
    forall i | 0 <= i < |u| && IsSpace(u[i]) ensures u[i] == ' ' {
      assert u[i] == t[k + i];
    }
    forall i | 0 <= i < |u| - 1 ensures !(u[i] == ' ' && u[i + 1] == ' ') {
      assert u[i] == t[k + i] && u[i + 1] == t[k + i + 1];
    }
    assert u[0] == t[k] && u[|u| - 1] == t[|t| - 1];
  }

  /** A single word collapses to itself. */
  lemma OneWordCollapse(t: string)
    requires t != [] && !IsSpace(t[0]) && WordLength(t) == |t|
    ensures Collapse(t) == t
  {
    assert Split(t[|t|..]) == [];
    assert Split(t) == [t[..|t|]];
  }

  /** Splitting text that starts with a word and has one space after it. */
  lemma SplitAfterWord(t: string)
    requires t != [] && !IsSpace(t[0])
    requires WordLength(t) < |t|
    ensures Split(t) == [t[..WordLength(t)]] + Split(t[WordLength(t) + 1..])
  {
    var n := WordLength(t);
    assert t[n..][1..] == t[n + 1..];
  }

  lemma JoinCons(w: string, ws: seq<string>)
    requires ws != []
    ensures Join([w] + ws) == w + " " + Join(ws)
  {
    assert ([w] + ws)[1..] == ws;
  }

  /** Collapsing is the identity on collapsed text: the whitespace steps of
      `clean_text` are idempotent on their own. */
  lemma {:induction false} CollapseKeepsCollapsed(t: string)
    requires IsCollapsed(t)
    ensures Collapse(t) == t
    decreases |t|
  {
    if t != [] {
      var n := WordLength(t);
      if n == |t| {
        OneWordCollapse(t);
      } else {
        CollapsedStep(t);
        assert t == t[..n] + " " + t[n + 1..];
        var u := t[n + 1..];
        CollapseKeepsCollapsed(u);
        SplitAfterWord(t);
        JoinCons(t[..n], Split(u));
      }
    }
  }

  // ---------------------------------------------------------------------------
  // clean_text
  // ---------------------------------------------------------------------------

  /** The four replacements of `clean_text`, applied in order: line feeds and
      carriage returns become spaces, then every "x000D" and every '_' is deleted. */
  function Scrub(text: string): string {
    Replace(Replace(Replace(Replace(text, "\n", " "), "\r", " "), "x000D", ""), "_", "")
  }

  lemma ScrubFacts(text: string)
    ensures |Scrub(text)| <= |text|
    ensures forall c :: c in Scrub(text) ==> c in text || c == ' '
    ensures '_' !in Scrub(text)
  {
    var a := Replace(text, "\n", " ");
    var b := Replace(a, "\r", " ");
    var c := Replace(b, "x000D", "");
    ReplaceChars(text, "\n", " ");
    ReplaceChars(a, "\r", " ");
    ReplaceChars(b, "x000D", "");
    ReplaceChars(c, "_", "");
    ReplaceNotLonger(text, "\n", " ");
    ReplaceNotLonger(a, "\r", " ");
    ReplaceNotLonger(b, "x000D", "");
    ReplaceNotLonger(c, "_", "");
    ReplaceRemovesChar(c, '_', "");
  }

  /** `clean_text(text)` for a string argument. */
  function CleanText(text: string): (r: string)
    ensures IsCollapsed(r)
    ensures '\n' !in r && '\r' !in r && '_' !in r
    ensures |r| <= |text|
    ensures r == [] <==> AllSpace(Scrub(text))
  {
    var scrubbed := Scrub(text);
    var stripped := Strip(scrubbed);
    ScrubFacts(text);
    StripFacts(scrubbed);
    CollapseFacts(stripped);
    JoinCollapsed(Split(stripped));
    assert IsSpace('\n') && IsSpace('\r');
    Collapse(stripped)
  }

  /** `clean_text` keeps every word of the scrubbed text, in order: the
      result is those words joined by single spaces, and splitting it gives
      them back. */
  lemma CleanTextKeepsWords(text: string)
    ensures CleanText(text) == Join(Split(Scrub(text)))
    ensures Split(CleanText(text)) == Split(Scrub(text))
  {
    StripFacts(Scrub(text));
    SplitJoin(Split(Scrub(text)));
  }

  /** Empty or whitespace-only input is cleaned to the empty string. */
  lemma BlankCleansToEmpty(text: string)
    requires AllSpace(text)
    ensures CleanText(text) == []
  {
    var a := Replace(text, "\n", " ");
    var b := Replace(a, "\r", " ");
    var c := Replace(b, "x000D", "");
    ReplaceChars(text, "\n", " ");
    ReplaceChars(a, "\r", " ");
    ReplaceChars(b, "x000D", "");
    ReplaceChars(c, "_", "");
    assert forall c :: c in text ==> IsSpace(c);
    AllSpaceByChars(Scrub(text));
  }

  lemma {:induction false} ReplaceAbsent(s: string, pat: string, rep: string)
    requires pat != [] && pat[0] !in s
    ensures Replace(s, pat, rep) == s
    decreases |s|
  {
    if |s| >= |pat| {
      assert s[..|pat|] != pat by { assert s[..|pat|][0] == s[0]; }
      ReplaceAbsent(s[1..], pat, rep);
      assert [s[0]] + s[1..] == s;
    }
  }

  /** A single word is left as it is by the whitespace steps. */
  lemma WordSurvivesCollapse(w: string)
    requires IsWord(w)
    ensures Collapse(Strip(w)) == w
  {
    assert TrimStart(w) == w;
    assert TrimEnd(w) == w;
    CollapseKeepsCollapsed(w);
  }

  /** A '_' inside "x000D" survives the "x000D" pass and is deleted by the '_' pass. */
  lemma MarkerSplitSurvives()
    ensures Replace("x000_D", "x000D", "") == "x000_D"
  {
    var s := "x000_D";
    assert s[..5][4] == '_' && s[1..] == "000_D";
    assert "000_D"[..5][0] == '0' && "000_D"[1..] == "00_D";
  }

  lemma UnderscoreDeleted()
    ensures Replace("x000_D", "_", "") == "x000D"
  {
    var s := "x000_D";
    assert s[..1][0] == 'x' && s[1..] == "000_D";
    assert "000_D"[..1][0] == '0' && "000_D"[1..] == "00_D";
    assert "00_D"[..1][0] == '0' && "00_D"[1..] == "0_D";
    assert "0_D"[..1][0] == '0' && "0_D"[1..] == "_D";
    assert "_D"[..1] == "_" && "_D"[1..] == "D";
    ReplaceAbsent("D", "_", "");
  }

  lemma ScrubJoinsMarker()
    ensures Scrub("x000_D") == "x000D"
  {
    var s := "x000_D";
    ReplaceAbsent(s, "\n", " ");
    ReplaceAbsent(s, "\r", " ");
    MarkerSplitSurvives();
    UnderscoreDeleted();
  }

  lemma ScrubDeletesMarker()
    ensures Scrub("x000D") == ""
  {
    var t := "x000D";
    ReplaceAbsent(t, "\n", " ");
    ReplaceAbsent(t, "\r", " ");
    assert Replace(t, "x000D", "") == [] by {
      assert t[..5] == "x000D" && t[5..] == [];
    }
  }

  lemma MarkerDeletedOnce()
    ensures Replace("x000D000D", "x000D", "") == "000D"
  {
    var u := "x000D000D";
    assert u[..5] == "x000D" && u[5..] == "000D";
    assert Replace("000D", "x000D", "") == "000D";
  }

  lemma MarkerRejoined()
    ensures Replace("xx000D000D", "x000D", "") == "x000D"
  {
    var s := "xx000D000D";
    MarkerDeletedOnce();
    assert s[..5][1] == 'x' && s[1..] == "x000D000D";
    assert Replace(s, "x000D", "") == [s[0]] + Replace("x000D000D", "x000D", "");
  }

  /** Deleting "x000D" from "xx000D000D" joins the remains into another "x000D". */
  lemma ScrubSinglePass()
    ensures Scrub("xx000D000D") == "x000D"
  {
    var s := "xx000D000D";
    ReplaceAbsent(s, "\n", " ");
    ReplaceAbsent(s, "\r", " ");
    MarkerRejoined();
    ReplaceAbsent("x000D", "_", "");
  }

  /** `clean_text` is not idempotent: a second pass deletes what the first one left. */
  lemma CleanTextNotIdempotent()
    ensures CleanText("x000_D") == "x000D"
    ensures CleanText(CleanText("x000_D")) == ""
  {
    ScrubJoinsMarker();
    ScrubDeletesMarker();
    WordSurvivesCollapse("x000D");
  }

  /** Replacement does not rescan its own output. */
  lemma CleanTextSinglePass()
    ensures CleanText("xx000D000D") == "x000D"
  {
    ScrubSinglePass();
    WordSurvivesCollapse("x000D");
  }

  // ---------------------------------------------------------------------------
  // sidebar_markdown
  // ---------------------------------------------------------------------------

  /** A row of the company dataset, indexed by column name; `sidebar_markdown`
      updates it in place. */
  class CompanyDetails {
    var fields: map<string, string>

    constructor (fields: map<string, string>)
      ensures this.fields == fields
    {
      this.fields := fields;
    }
  }

  /** The dataset columns `sidebar_markdown` reads. */
  predicate HasSidebarKeys(fields: map<string, string>) {
    && "company_name" in fields && "country" in fields && "industry_category" in fields
    && "sector" in fields && "industry" in fields && "products_and_services" in fields
    && "description" in fields
  }

  const SidebarHead: string := "\n    <style>\n        .sidebar-container {\n            font-family: \'Arial\', sans-serif;\n            line-height: 1.6;\n            color: #fff;\n        }\n        .sidebar-header {\n            font-size: 18px;\n            font-weight: bold;\n            color: #4CAF50;\n            margin-bottom: 10px;\n        }\n        .sidebar-section {\n            margin-top: 20px;\n        }\n        .sidebar-section-title {\n            font-size: 16px;\n            font-weight: bold;\n            color: #2E86C1;\n            margin-bottom: 8px;\n        }\n        .sidebar-detail {\n            font-size: 14px;\n            margin-bottom: 6px;\n        }\n    </style>\n    \n    <div class=\"sidebar-container\">\n        <div class=\"sidebar-header\">\n            \U{1F3E2} "
  const AfterName: string := "\n        </div>\n        <div class=\"sidebar-section\">\n            <div class=\"sidebar-detail\"><b>\U{1F30D} Place:</b> "
  const AfterCountry: string := "</div>\n            <div class=\"sidebar-detail\"><b>\U{1F3E2} Industry Category:</b> "
  const AfterCategory: string := "</div>\n            <div class=\"sidebar-detail\"><b>\U{1F4CA} Sector:</b> "
  const AfterSector: string := "</div>\n            <div class=\"sidebar-detail\"><b>\U{1F3ED} Industry:</b> "
  const AfterIndustry: string := "</div>\n        </div>\n        <div class=\"sidebar-section\">\n            <div class=\"sidebar-section-title\">\U{1F6E0}\U{FE0F} Products and Services:</div>\n            <div class=\"sidebar-detail\">"
  const AfterProducts: string := "</div>\n        </div>\n        <div class=\"sidebar-section\">\n            <div class=\"sidebar-section-title\">\U{1F4C4} Description:</div>\n            <div class=\"sidebar-detail\">"
  const SidebarTail: string := "</div>\n        </div>\n    </div>\n    "

  /** The HTML text `sidebar_markdown` returns for the given field values:
      the f-string's literal parts with the values between them, as one list
      so that ConcatEmbeds locates each of the fifteen pieces. */
  function SidebarHtml(name: string, country: string, category: string, sector: string,
                       industry: string, products: string, description: string): string
  {
    Concat([SidebarHead, name, AfterName, country, AfterCountry, category, AfterCategory, sector,
            AfterSector, industry, AfterIndustry, products, AfterProducts, description, SidebarTail])
  }

  /** The sidebar shows the company name, country, industry category, sector,
      industry, products and description verbatim. */
  lemma SidebarEmbedsFields(name: string, country: string, category: string, sector: string,
                            industry: string, products: string, description: string)
    ensures var html := SidebarHtml(name, country, category, sector, industry, products, description);
      && Contains(html, name) && Contains(html, country) && Contains(html, category)
      && Contains(html, sector) && Contains(html, industry) && Contains(html, products)
      && Contains(html, description)
  {
    var xs := [SidebarHead, name, AfterName, country, AfterCountry, category, AfterCategory, sector,
               AfterSector, industry, AfterIndustry, products, AfterProducts, description, SidebarTail];
    forall k | 0 <= k < |xs| ensures Contains(Concat(xs), xs[k]) {
      ConcatEmbeds(xs, k);
    }
    assert xs[1] == name && xs[3] == country && xs[5] == category && xs[7] == sector;
    assert xs[9] == industry && xs[11] == products && xs[13] == description;
  }

  /** The record after `sidebar_markdown`'s first statement. */
  function CleanedDescription(fields: map<string, string>): map<string, string>
    requires "description" in fields
  {
    fields["description" := CleanText(fields["description"])]
  }

  /** Only the description changes: the keys stay the same, every other field
      keeps its value, and the new description is clean. */
  lemma CleanedDescriptionKeepsOthers(fields: map<string, string>)
    requires "description" in fields
    ensures CleanedDescription(fields).Keys == fields.Keys
    ensures forall k :: k in fields && k != "description" ==> CleanedDescription(fields)[k] == fields[k]
    ensures IsCollapsed(CleanedDescription(fields)["description"])
  {
  }

  /** `sidebar_markdown(company_details)`: replaces the record's description by
      its cleaned text, leaving every other field as it was, and returns the
      sidebar HTML built from the updated record. */
  method SidebarMarkdown(details: CompanyDetails) returns (html: string)
    requires HasSidebarKeys(details.fields)
    modifies details
    ensures details.fields == CleanedDescription(old(details.fields))
    ensures html == SidebarHtml(details.fields["company_name"], details.fields["country"],
                                details.fields["industry_category"], details.fields["sector"],
                                details.fields["industry"], details.fields["products_and_services"],
                                details.fields["description"])
  {
    details.fields := CleanedDescription(details.fields);
    var f := details.fields;
    html := SidebarHtml(f["company_name"], f["country"], f["industry_category"], f["sector"],
                        f["industry"], f["products_and_services"], f["description"]);
  }
}
