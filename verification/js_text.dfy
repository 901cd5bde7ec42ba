/**
 * The three ECMAScript string operations the dictation app relies on:
 * `String.prototype.trim`, the regular-expression class `\s`, and the
 * global replacement `replace(/\s+/g, ' ')`. A JavaScript string is taken
 * as a sequence of characters; every whitespace code point lies in the
 * Basic Multilingual Plane, so UTF-16 surrogates never matter here.
 *
 * Beside the operations this module holds an independent description of
 * a string as its list of words (maximal runs of non-whitespace), used to
 * state what the collapse does.
 */
module JsText {

  /** WhiteSpace (ECMA-262 section 12.2: TAB, VT, FF, ZWNBSP and every
      Unicode Zs code point) or LineTerminator (section 12.3: LF, CR, LS, PS).
      Both `trim()` and `\s` use exactly this set. */
  predicate IsWs(c: char) {
    c == '\t' || c == '\U{000B}' || c == '\U{000C}' || c == '\U{FEFF}'
    || c == ' ' || c == '\U{00A0}' || c == '\U{1680}'
    || ('\U{2000}' <= c <= '\U{200A}')
    || c == '\U{202F}' || c == '\U{205F}' || c == '\U{3000}'
    || c == '\n' || c == '\r' || c == '\U{2028}' || c == '\U{2029}'
  }

  /** Every whitespace character lies in the Basic Multilingual Plane, so
      it is a single UTF-16 code unit, and the common ones are in the set. */
  lemma WhitespaceIsOneCodeUnit(c: char)
    ensures IsWs(c) ==> c as int < 0x1_0000
    ensures IsWs(' ') && IsWs('\t') && IsWs('\n') && IsWs('\r') && IsWs('\U{00A0}')
  {
  }

  predicate AllWs(s: string) {
    forall i :: 0 <= i < |s| ==> IsWs(s[i])
  }

  predicate NoWs(s: string) {
    forall i :: 0 <= i < |s| ==> !IsWs(s[i])
  }

  /** Drops the leading whitespace: the first half of `trim()`. */
  function TrimStart(s: string): (r: string)
    ensures |r| <= |s| && r == s[|s| - |r|..]
    ensures AllWs(s[..|s| - |r|])
    ensures r == [] || !IsWs(r[0])
  {
    if s != [] && IsWs(s[0]) then
      var r := TrimStart(s[1..]);
      assert s[..|s| - |r|] == [s[0]] + s[1..][..|s| - 1 - |r|];
      r
    else s
  }

  /** Drops the trailing whitespace: the second half of `trim()`. */
  function TrimEnd(s: string): (r: string)
    ensures |r| <= |s| && r == s[..|r|]
    ensures AllWs(s[|r|..])
    ensures r == [] || !IsWs(r[|r| - 1])
  {
    if s != [] && IsWs(s[|s| - 1]) then
      var r := TrimEnd(s[..|s| - 1]);
      assert s[|r|..] == s[..|s| - 1][|r|..] + [s[|s| - 1]];
      r
    else s
  }

  /** `s.trim()`: no whitespace is left at either end. */
  function Trim(s: string): (r: string)
    ensures |r| <= |s|
    ensures r == [] || (!IsWs(r[0]) && !IsWs(r[|r| - 1]))
  {
    var t := TrimStart(s);
    assert TrimEnd(t) == [] || TrimEnd(t)[0] == t[0];
    TrimEnd(t)
  }

  /** `s.replace(/\s+/g, ' ')`: scanning left to right, every maximal run of
      whitespace is replaced by a single space. The result is never longer,
      and is empty only for the empty input. */
  function CollapseWs(s: string): (r: string)
    ensures |r| <= |s|
    ensures r == [] <==> s == []
    decreases |s|
  {
    if s == [] then []
    else if IsWs(s[0]) then [' '] + CollapseWs(TrimStart(s[1..]))
    else [s[0]] + CollapseWs(s[1..])
  }

  /** The longest prefix of `s` free of whitespace. */
  function LeadingWord(s: string): (w: string)
    ensures |w| <= |s| && w == s[..|w|] && NoWs(w)
    ensures |w| == |s| || IsWs(s[|w|])
    ensures s != [] && !IsWs(s[0]) ==> w != []
  {
    if s == [] || IsWs(s[0]) then [] else [s[0]] + LeadingWord(s[1..])
  }

  /** The words of `s`: its maximal whitespace-free runs, in order. */
  function Words(s: string): seq<string>
    decreases |s|
  {
    if s == [] then []
    else if IsWs(s[0]) then Words(s[1..])
    else
      var w := LeadingWord(s);
      [w] + Words(s[|w|..])
  }

  /** The words separated by single spaces. */
  function JoinWords(ws: seq<string>): string {
    if ws == [] then []
    else if |ws| == 1 then ws[0]
    else ws[0] + [' '] + JoinWords(ws[1..])
  }

  predicate ProperWords(ws: seq<string>) {
    forall i :: 0 <= i < |ws| ==> ws[i] != [] && NoWs(ws[i])
  }

  /** A string in normal form: no whitespace at either end, and every
      whitespace character is a lone space. */
  predicate IsNormalised(s: string) {
    (s == [] || (!IsWs(s[0]) && !IsWs(s[|s| - 1])))
    && (forall i :: 0 <= i < |s| && IsWs(s[i]) ==> s[i] == ' ')
    && (forall i :: 0 <= i < |s| - 1 && IsWs(s[i]) ==> !IsWs(s[i + 1]))
  }

  /** `s` with every whitespace character deleted. */
  function StripWs(s: string): (r: string)
    ensures NoWs(r)
  {
    if s == [] then []
    else (if IsWs(s[0]) then [] else [s[0]]) + StripWs(s[1..])
  }

  function Flatten(ws: seq<string>): string {
    if ws == [] then [] else ws[0] + Flatten(ws[1..])
  }

  // ---------------------------------------------------------------------
  // trim()

  /** `trim()` yields the empty string exactly on all-whitespace input. */
  lemma TrimEmptyIff(s: string)
    ensures Trim(s) == [] <==> AllWs(s)
  {
    var t := TrimStart(s);
    assert s == s[..|s| - |t|] + t;
    if t != [] {
      assert TrimEnd(t) != [] by {
        assert t[0..] == t;
      }
    }
  }

  /** `trim()` removes only whitespace, and only at the two ends, and it
      removes all of it there: the result is the contiguous slice of the
      input between the outer whitespace runs. */
  lemma TrimIsSlice(s: string) returns (i: nat, j: nat)
    ensures i <= j <= |s| && Trim(s) == s[i..j]
    ensures AllWs(s[..i]) && AllWs(s[j..])
    ensures i == j || (!IsWs(s[i]) && !IsWs(s[j - 1]))
  {
    var t := TrimStart(s);
    var e := TrimEnd(t);
    assert e == Trim(s);
    i, j := |s| - |t|, |s| - |t| + |e|;
    assert t == s[i..];
    assert s[i..j] == t[..|e|] == e;
    assert s[j..] == t[|e|..];
  }

  // ---------------------------------------------------------------------
  // Helper facts about the operations on concatenations

  lemma {:induction false} TrimEndWsSuffix(u: string, x: string)
    requires AllWs(x)
    ensures TrimEnd(u + x) == TrimEnd(u)
    decreases |x|
  {
    if x == [] {
      assert u + x == u;
    } else {
      var ux := u + x;
      assert ux[..|ux| - 1] == u + x[..|x| - 1];
      TrimEndWsSuffix(u, x[..|x| - 1]);
    }
  }

  lemma {:induction false} TrimEndKeepsPrefix(u: string, y: string)
    requires y != [] && !IsWs(y[0])
    ensures TrimEnd(u + y) == u + TrimEnd(y)
    decreases |y|
  {
    var uy := u + y;
    if IsWs(y[|y| - 1]) {
      assert uy[..|uy| - 1] == u + y[..|y| - 1];
      TrimEndKeepsPrefix(u, y[..|y| - 1]);
    }
  }

  lemma {:induction false} TrimStartWsPrefix(p: string, y: string)
    requires AllWs(p)
    requires y == [] || !IsWs(y[0])
    ensures TrimStart(p + y) == y
    decreases |p|
  {
    if p == [] {
      assert p + y == y;
    } else {
      assert (p + y)[1..] == p[1..] + y;
      TrimStartWsPrefix(p[1..], y);
    }
  }

  lemma {:induction false} CollapseWordPrefix(u: string, x: string)
    requires NoWs(u)
    ensures CollapseWs(u + x) == u + CollapseWs(x)
    decreases |u|
  {
    if u == [] {
      assert u + x == x;
    } else {
      assert (u + x)[1..] == u[1..] + x;
      CollapseWordPrefix(u[1..], x);
    }
  }

  lemma {:induction false} WordsTrimStart(s: string)
    ensures Words(TrimStart(s)) == Words(s)
    decreases |s|
  {
    if s != [] && IsWs(s[0]) {
      WordsTrimStart(s[1..]);
    }
  }

  lemma {:induction false} LeadingWordOf(w: string, x: string)
    requires NoWs(w)
    requires x == [] || IsWs(x[0])
    ensures LeadingWord(w + x) == w
    decreases |w|
  {
    if w == [] {
      assert w + x == x;
    } else {
      assert (w + x)[1..] == w[1..] + x;
      LeadingWordOf(w[1..], x);
    }
  }

  /** A word followed by whitespace (or nothing) is the first word. */
  lemma WordsCons(w: string, x: string)
    requires w != [] && NoWs(w)
    requires x == [] || IsWs(x[0])
    ensures Words(w + x) == [w] + Words(x)
  {
    LeadingWordOf(w, x);
    assert (w + x)[|w|..] == x;
  }

  // ---------------------------------------------------------------------
  // The collapse, described by words

  /** The last word: trailing whitespace goes, the word stays. */
  lemma CollapseTrimEndLastWord(w: string, x: string)
    requires NoWs(w) && AllWs(x)
    ensures CollapseWs(TrimEnd(w + x)) == w
  {
    TrimEndWsSuffix(w, x);
    assert TrimEnd(w) == w;
    CollapseWordPrefix(w, []);
    assert w + [] == w;
  }

  /** A string that starts with whitespace collapses to a space and the
      collapse of what follows the run. */
  lemma CollapseWsRun(x: string)
    requires x != [] && IsWs(x[0])
    ensures CollapseWs(x) == [' '] + CollapseWs(TrimStart(x[1..]))
  {
  }

  lemma Regroup3(a: string, b: string, c: string)
    ensures a + (b + c) == a + b + c
  {
  }

  /** A whitespace run in front of a word collapses to one space. */
  lemma CollapseRunThenWord(p: string, e: string)
    requires p != [] && AllWs(p)
    requires e != [] && !IsWs(e[0])
    ensures CollapseWs(p + e) == [' '] + CollapseWs(e)
  {
    assert (p + e)[1..] == p[1..] + e;
    CollapseWsRun(p + e);
    TrimStartWsPrefix(p[1..], e);
  }

  /** Trimming the end of a word, a whitespace run and more words only
      touches the end of the last part. */
  lemma TrimEndAfterRun(w: string, p: string, r: string)
    requires r != [] && !IsWs(r[0])
    ensures TrimEnd(w + p + r) == w + (p + TrimEnd(r))
  {
    var wp := w + p;
    TrimEndKeepsPrefix(wp, r);
    Regroup3(w, p, TrimEnd(r));
  }

  /** A word, a whitespace run and a word-led rest collapse to the word, one
      space, and the collapsed rest. */
  lemma CollapseWordRunRest(w: string, p: string, e: string)
    requires NoWs(w) && p != [] && AllWs(p)
    requires e != [] && !IsWs(e[0])
    ensures CollapseWs(w + (p + e)) == w + [' '] + CollapseWs(e)
  {
    CollapseWordPrefix(w, p + e);
    CollapseRunThenWord(p, e);
    Regroup3(w, [' '], CollapseWs(e));
  }

  /** A word, a whitespace run, then more words: the run becomes one space. */
  lemma CollapseTrimEndNextWord(w: string, p: string, r: string)
    requires NoWs(w) && p != [] && AllWs(p)
    requires r != [] && !IsWs(r[0])
    ensures CollapseWs(TrimEnd(w + p + r)) == w + [' '] + CollapseWs(TrimEnd(r))
  {
    var e := TrimEnd(r);
    assert e != [] && e[0] == r[0];
    TrimEndAfterRun(w, p, r);
    CollapseWordRunRest(w, p, e);
  }

  /** Splits a string into its leading whitespace and the rest. */
  lemma SplitLeadingWs(x: string) returns (p: string, r: string)
    ensures x == p + r && r == TrimStart(x)
    ensures AllWs(p) && (r == [] || !IsWs(r[0]))
    ensures x != [] && IsWs(x[0]) ==> p != []
  {
    r := TrimStart(x);
    p := x[..|x| - |r|];
    assert x == p + r;
  }

  /** Splits a string that starts with a word into that word and the rest. */
  lemma SplitFirstWord(t: string) returns (w: string, rest: string)
    requires t != [] && !IsWs(t[0])
    ensures t == w + rest && |rest| < |t|
    ensures w != [] && NoWs(w) && (rest == [] || IsWs(rest[0]))
    ensures Words(t) == [w] + Words(rest)
  {
    w := LeadingWord(t);
    rest := t[|w|..];
    assert t == w + rest;
  }

  lemma Regroup(t: string, w: string, rest: string, p: string, r: string)
    requires t == w + rest && rest == p + r
    ensures t == w + p + r
  {
    calc {
      w + p + r;
      w + (p + r);
      t;
    }
  }

  lemma JoinWordsCons(w: string, ws: seq<string>)
    requires ws != []
    ensures JoinWords([w] + ws) == w + [' '] + JoinWords(ws)
  {
    assert ([w] + ws)[1..] == ws;
  }

  lemma WordsOfWordStart(r: string)
    requires r != [] && !IsWs(r[0])
    ensures Words(r) != []
  {
  }

  /** The inductive step when only whitespace follows the first word. */
  lemma CollapseTrimEndOneWord(t: string, w: string, p: string)
    requires t == w + p && NoWs(w) && AllWs(p)
    requires Words(t) == [w] + Words(p)
    ensures CollapseWs(TrimEnd(t)) == JoinWords(Words(t))
  {
    CollapseTrimEndLastWord(w, p);
    WordsEmptyIff(p);
    assert Words(t) == [w];
  }

  /** The inductive step when more words follow the first one. */
  lemma CollapseTrimEndMoreWords(t: string, w: string, p: string, r: string)
    requires t == w + p + r && NoWs(w) && p != [] && AllWs(p)
    requires r != [] && !IsWs(r[0])
    requires Words(t) == [w] + Words(r)
    requires CollapseWs(TrimEnd(r)) == JoinWords(Words(r))
    ensures CollapseWs(TrimEnd(t)) == JoinWords(Words(t))
  {
    CollapseTrimEndNextWord(w, p, r);
    WordsOfWordStart(r);
    JoinWordsCons(w, Words(r));
  }

  /** On a string that starts with a word (or is empty), trimming the end
      and then collapsing gives the words joined by single spaces. */
  lemma {:induction false} CollapseTrimEndIsJoin(t: string)
    requires t == [] || !IsWs(t[0])
    ensures CollapseWs(TrimEnd(t)) == JoinWords(Words(t))
    decreases |t|
  {
    if t != [] {
      var w, rest := SplitFirstWord(t);
      var p, r := SplitLeadingWs(rest);
      WordsTrimStart(rest);
      if r == [] {
        assert rest == p;
        CollapseTrimEndOneWord(t, w, p);
      } else {
        Regroup(t, w, rest, p, r);
        CollapseTrimEndIsJoin(r);
        CollapseTrimEndMoreWords(t, w, p, r);
      }
    }
  }

  // ---------------------------------------------------------------------
  // Facts about words

  /** Every word is non-empty and free of whitespace. */
  lemma {:induction false} WordsAreProper(s: string)
    ensures ProperWords(Words(s))
    decreases |s|
  {
    if s != [] {
      if IsWs(s[0]) {
        WordsAreProper(s[1..]);
      } else {
        var w := LeadingWord(s);
        WordsAreProper(s[|w|..]);
      }
    }
  }

  /** A string has no words exactly when it is all whitespace. */
  lemma {:induction false} WordsEmptyIff(s: string)
    ensures Words(s) == [] <==> AllWs(s)
    decreases |s|
  {
    if s != [] {
      WordsEmptyIff(s[1..]);
    }
  }

  lemma {:induction false} JoinWordsEmptyIff(ws: seq<string>)
    requires ProperWords(ws)
    ensures JoinWords(ws) == [] <==> ws == []
  {
  }

  /** Joined words are in normal form. */
  lemma {:induction false} JoinWordsNormalised(ws: seq<string>)
    requires ProperWords(ws)
    ensures IsNormalised(JoinWords(ws))
    decreases |ws|
  {
    if |ws| > 1 {
      var w := ws[0];
      var j := JoinWords(ws[1..]);
      JoinWordsNormalised(ws[1..]);
      JoinWordsEmptyIff(ws[1..]);
      var s := w + [' '] + j;
      assert s == JoinWords(ws);
      forall i | 0 <= i < |s| && IsWs(s[i])
        ensures s[i] == ' '
      {
        if i > |w| { assert s[i] == j[i - |w| - 1]; }
      }
      forall i | 0 <= i < |s| - 1 && IsWs(s[i])
        ensures !IsWs(s[i + 1])
      {
        if i > |w| { assert s[i] == j[i - |w| - 1] && s[i + 1] == j[i - |w|]; }
      }
    }
  }

  /** Splitting joined words gives the words back. */
  lemma {:induction false} WordsOfJoin(ws: seq<string>)
    requires ProperWords(ws)
    ensures Words(JoinWords(ws)) == ws
    decreases |ws|
  {
    if |ws| == 1 {
      WordsCons(ws[0], []);
      assert ws[0] + [] == ws[0];
    } else if |ws| > 1 {
      var j := JoinWords(ws[1..]);
      WordsOfJoin(ws[1..]);
      WordsCons(ws[0], [' '] + j);
      assert ws[0] + [' '] + j == ws[0] + ([' '] + j);
      assert ([' '] + j)[1..] == j;
      assert ws == [ws[0]] + ws[1..];
    }
  }

  lemma {:induction false} StripWsAppend(a: string, b: string)
    ensures StripWs(a + b) == StripWs(a) + StripWs(b)
    decreases |a|
  {
    if a == [] {
      assert a + b == b;
    } else {
      assert (a + b)[1..] == a[1..] + b;
      StripWsAppend(a[1..], b);
    }
  }

  lemma {:induction false} StripWsOfWord(w: string)
    requires NoWs(w)
    ensures StripWs(w) == w
    decreases |w|
  {
    if w != [] {
      StripWsOfWord(w[1..]);
      assert w == [w[0]] + w[1..];
    }
  }

  /** Deleting whitespace leaves exactly the words, run together. */
  lemma {:induction false} StripWsIsFlattenedWords(s: string)
    ensures StripWs(s) == Flatten(Words(s))
    decreases |s|
  {
    if s != [] {
      if IsWs(s[0]) {
        StripWsIsFlattenedWords(s[1..]);
      } else {
        var w := LeadingWord(s);
        var rest := s[|w|..];
        assert s == w + rest;
        StripWsAppend(w, rest);
        StripWsOfWord(w);
        StripWsIsFlattenedWords(rest);
        assert ([w] + Words(rest))[1..] == Words(rest);
      }
    }
  }
}
