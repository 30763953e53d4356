/** The optional-value wrapper shared by the server and client models. */
module Wrappers {
  datatype Option<+T> = None | Some(value: T)
}

/**
 * The JavaScript string operations the two routines rely on:
 * `split` on one separator character, `trim`, `includes` and an ASCII
 * `toLowerCase`, together with the facts about them the proofs use.
 */
module Text {

  /** JavaScript's WhiteSpace and LineTerminator characters, which `trim` removes. */
  predicate IsWhitespace(c: char) {
    c == '\t' || c == '\n' || c == '\U{000B}' || c == '\U{000C}' || c == '\r' || c == ' ' ||
    c == '\U{00A0}' || c == '\U{1680}' || ('\U{2000}' <= c <= '\U{200A}') ||
    c == '\U{2028}' || c == '\U{2029}' || c == '\U{202F}' || c == '\U{205F}' ||
    c == '\U{3000}' || c == '\U{FEFF}'
  }

  /** `s.includes(w)`: `w` occurs in `s` at some position. */
  predicate Contains(s: string, w: string)
    decreases |s|
  {
    w <= s || (s != [] && Contains(s[1..], w))
  }

  /**
   * `s.split(sep)`: the pieces between occurrences of `sep`, left to right.
   * There is always at least one piece, and more than one exactly when `sep` occurs.
   */
  function Split(s: string, sep: char): (r: seq<string>)
    ensures |r| >= 1
    ensures |r| == 1 <==> sep !in s
    ensures |r| == 1 ==> r[0] == s
    decreases |s|
  {
    if s == [] then [""]
    else if s[0] == sep then [""] + Split(s[1..], sep)
    else
      var rest := Split(s[1..], sep);
      [[s[0]] + rest[0]] + rest[1..]
  }

  /** `s.trimStart()`: drops the leading whitespace. */
  function TrimStart(s: string): string
    decreases |s|
  {
    if s != [] && IsWhitespace(s[0]) then TrimStart(s[1..]) else s
  }

  /** `s.trimEnd()`: drops the trailing whitespace. */
  function TrimEnd(s: string): string
    decreases |s|
  {
    if s != [] && IsWhitespace(s[|s| - 1]) then TrimEnd(s[..|s| - 1]) else s
  }

  /** `s.trim()`: whitespace removed from both ends. */
  function Trim(s: string): string {
    TrimEnd(TrimStart(s))
  }

  /** `s.endsWith(w)`. */
  predicate EndsWith(s: string, w: string) {
    |w| <= |s| && s[|s| - |w|..] == w
  }

  /** A string `trim` leaves unchanged. */
  predicate IsTrimmed(s: string) {
    s == [] || (!IsWhitespace(s[0]) && !IsWhitespace(s[|s| - 1]))
  }

  /** `toLowerCase` restricted to ASCII: maps A-Z to a-z and keeps every other character. */
  function ToLower(s: string): (r: string)
    ensures |r| == |s|
    ensures forall i :: 0 <= i < |s| ==> r[i] == LowerChar(s[i])
  {
    seq(|s|, i requires 0 <= i < |s| => LowerChar(s[i]))
  }

  function LowerChar(c: char): char {
    if 'A' <= c <= 'Z' then (c as int + 32) as char else c
  }

  /** `parts.join(sep)`: the parts in order with `sep` between neighbours. */
  function Join(parts: seq<string>, sep: string): (r: string)
    ensures parts == [] ==> r == []
    ensures |parts| == 1 ==> r == parts[0]
  {
    if parts == [] then ""
    else if |parts| == 1 then parts[0]
    else parts[0] + (sep + Join(parts[1..], sep))
  }

  // ---------------------------------------------------------------------------
  // Facts about split
  // ---------------------------------------------------------------------------

  /** No piece of a split holds the separator. */
  lemma {:induction false} SplitPartsLackSep(s: string, sep: char)
    ensures forall i :: 0 <= i < |Split(s, sep)| ==> sep !in Split(s, sep)[i]
    decreases |s|
  {
    if s != [] {
      SplitPartsLackSep(s[1..], sep);
      if s[0] != sep {
        var rest := Split(s[1..], sep);
        var r := Split(s, sep);
        assert r == [[s[0]] + rest[0]] + rest[1..];
        forall i | 0 <= i < |r| ensures sep !in r[i] {
          if i > 0 { assert r[i] == rest[i]; }
        }
      }
    }
  }

  /** Splitting at one separator occurrence splits the two sides independently. */
  lemma {:induction false} SplitAppend(a: string, sep: char, b: string)
    ensures Split(a + [sep] + b, sep) == Split(a, sep) + Split(b, sep)
    decreases |a|
  {
    var s := a + [sep] + b;
    if a == [] {
      assert s == [sep] + b;
      assert s[1..] == b;
    } else {
      assert s[0] == a[0];
      assert s[1..] == a[1..] + [sep] + b;
      SplitAppend(a[1..], sep, b);
      if a[0] != sep {
        SplitAppendStep(a, sep, b);
      }
    }
  }

  lemma SplitAppendStep(a: string, sep: char, b: string)
    requires a != [] && a[0] != sep
    requires Split(a[1..] + [sep] + b, sep) == Split(a[1..], sep) + Split(b, sep)
    ensures Split(a + [sep] + b, sep) == Split(a, sep) + Split(b, sep)
  {
    var c, t := a[0], a[1..];
    assert a == [c] + t;
    assert a + [sep] + b == [c] + (t + [sep] + b);
    SplitCons(c, t + [sep] + b, sep);
    SplitCons(c, t, sep);
    ExtendFirst([c], Split(t + [sep] + b, sep), Split(t, sep), Split(b, sep));
  }

  /** A leading character other than the separator joins the first piece. */
  lemma SplitCons(c: char, t: string, sep: char)
    requires c != sep
    ensures Split([c] + t, sep) == [[c] + Split(t, sep)[0]] + Split(t, sep)[1..]
  {
    assert ([c] + t)[1..] == t;
  }

  lemma ExtendFirst(x: string, rest: seq<string>, r1: seq<string>, r2: seq<string>)
    requires rest == r1 + r2 && r1 != []
    ensures [x + rest[0]] + rest[1..] == ([x + r1[0]] + r1[1..]) + r2
  {
    assert rest[1..] == r1[1..] + r2;
  }

  // ---------------------------------------------------------------------------
  // Facts about trim
  // ---------------------------------------------------------------------------

  /** `trimStart` drops a whitespace prefix and stops at the first other character. */
  lemma {:induction false} TrimStartFacts(s: string)
    ensures |TrimStart(s)| <= |s| && TrimStart(s) == s[|s| - |TrimStart(s)|..]
    ensures forall i :: 0 <= i < |s| - |TrimStart(s)| ==> IsWhitespace(s[i])
    ensures TrimStart(s) != [] ==> !IsWhitespace(TrimStart(s)[0])
    decreases |s|
  {
    if s != [] && IsWhitespace(s[0]) {
      TrimStartFacts(s[1..]);
    }
  }

  /** `trimEnd` drops a whitespace suffix and stops at the last other character. */
  lemma {:induction false} TrimEndFacts(s: string)
    ensures |TrimEnd(s)| <= |s| && TrimEnd(s) == s[..|TrimEnd(s)|]
    ensures forall i :: |TrimEnd(s)| <= i < |s| ==> IsWhitespace(s[i])
    ensures TrimEnd(s) != [] ==> !IsWhitespace(TrimEnd(s)[|TrimEnd(s)| - 1])
    decreases |s|
  {
    if s != [] && IsWhitespace(s[|s| - 1]) {
      TrimEndFacts(s[..|s| - 1]);
    }
  }

  /**
   * `trim` keeps a contiguous middle of `s` that neither starts nor ends with
   * whitespace, and everything it drops on either side is whitespace.
   */
  lemma TrimIsMiddle(s: string)
    ensures exists i, j :: (0 <= i <= j <= |s| && Trim(s) == s[i..j] &&
                            (forall k :: 0 <= k < i ==> IsWhitespace(s[k])) &&
                            (forall k :: j <= k < |s| ==> IsWhitespace(s[k])))
    ensures IsTrimmed(Trim(s))
  {
    var t := TrimStart(s);
    TrimStartFacts(s);
    TrimEndFacts(t);
    var r := TrimEnd(t);
    var i := |s| - |t|;
    var j := i + |r|;
    assert r == s[i..j];
    forall k | j <= k < |s| ensures IsWhitespace(s[k]) {
      assert s[k] == t[k - i];
    }
    if r != [] {
      assert r[0] == t[0];
    }
  }

  lemma TrimOfTrimmed(s: string)
    requires IsTrimmed(s)
    ensures Trim(s) == s
  {
  }

  /** Trimming a trimmed value after one leading space gives back the value. */
  lemma TrimAfterSpace(v: string)
    requires IsTrimmed(v)
    ensures Trim([' '] + v) == v
  {
    assert ([' '] + v)[1..] == v;
    assert TrimStart([' '] + v) == TrimStart(v) == v;
    TrimOfTrimmed(v);
  }

  /** `trim` yields the empty string exactly when every character is whitespace. */
  lemma TrimEmpty(s: string)
    ensures Trim(s) == [] <==> forall i :: 0 <= i < |s| ==> IsWhitespace(s[i])
  {
    TrimStartFacts(s);
    TrimEndFacts(TrimStart(s));
    if forall i :: 0 <= i < |s| ==> IsWhitespace(s[i]) {
      AllWhitespaceTrimStart(s);
    }
  }

  lemma {:induction false} AllWhitespaceTrimStart(s: string)
    requires forall i :: 0 <= i < |s| ==> IsWhitespace(s[i])
    ensures TrimStart(s) == []
    decreases |s|
  {
    if s != [] { AllWhitespaceTrimStart(s[1..]); }
  }

  // ---------------------------------------------------------------------------
  // Facts about includes
  // ---------------------------------------------------------------------------

  /** An occurrence at position `k` makes `w` contained in `s`. */
  lemma {:induction false} ContainsAt(s: string, w: string, k: nat)
    requires k <= |s| && w <= s[k..]
    ensures Contains(s, w)
    decreases k
  {
    if k > 0 {
      assert s[1..][k - 1..] == s[k..];
      ContainsAt(s[1..], w, k - 1);
    }
  }

  /** A position at which a contained word occurs. */
  lemma {:induction false} OccurrenceOf(s: string, w: string) returns (k: nat)
    requires Contains(s, w)
    ensures k <= |s| && w <= s[k..]
    decreases |s|
  {
    if w <= s {
      k := 0;
    } else {
      var j := OccurrenceOf(s[1..], w);
      assert s[1..][j..] == s[j + 1..];
      k := j + 1;
    }
  }

  /** A word that occurs at no position is not contained. */
  lemma {:induction false} NotContainsNowhere(s: string, w: string)
    requires forall k :: 0 <= k <= |s| ==> !(w <= s[k..])
    ensures !Contains(s, w)
    decreases |s|
  {
    assert s[0..] == s;
    if s != [] {
      forall k | 0 <= k <= |s| - 1 ensures !(w <= s[1..][k..]) {
        assert s[1..][k..] == s[k + 1..];
      }
      NotContainsNowhere(s[1..], w);
    }
  }

  lemma ContainsSelf(s: string)
    ensures Contains(s, s)
  {
  }

  lemma ContainsEnd(a: string, w: string)
    ensures Contains(a + w, w)
  {
    assert (a + w)[|a|..] == w;
    ContainsAt(a + w, w, |a|);
  }

  lemma ContainsInSuffix(a: string, b: string, w: string)
    requires Contains(b, w)
    ensures Contains(a + b, w)
  {
    var k := OccurrenceOf(b, w);
    assert (a + b)[|a| + k..] == b[k..];
    ContainsAt(a + b, w, |a| + k);
  }

  lemma ContainsInPrefix(a: string, b: string, w: string)
    requires Contains(a, w)
    ensures Contains(a + b, w)
  {
    var k := OccurrenceOf(a, w);
    assert w <= (a + b)[k..];
    ContainsAt(a + b, w, k);
  }

  lemma ContainsTransitive(s: string, m: string, w: string)
    requires Contains(s, m) && Contains(m, w)
    ensures Contains(s, w)
  {
    var k := OccurrenceOf(s, m);
    var j := OccurrenceOf(m, w);
    assert w <= s[k + j..];
    ContainsAt(s, w, k + j);
  }

  /** A string without the character `c` contains no word that has `c`. */
  lemma NotContainsWithout(s: string, w: string, c: char)
    requires c in w && c !in s
    ensures !Contains(s, w)
  {
    var i :| 0 <= i < |w| && w[i] == c;
    forall k | 0 <= k <= |s| ensures !(w <= s[k..]) {
      if k + i < |s| { assert s[k..][i] != w[i]; }
    }
    NotContainsNowhere(s, w);
  }

  /** A word that does not occur in `s` starts at no position of it. */
  lemma {:induction false} NotContainsAt(s: string, w: string)
    requires !Contains(s, w)
    ensures forall k :: 0 <= k <= |s| ==> !(w <= s[k..])
    decreases |s|
  {
    if s != [] {
      NotContainsAt(s[1..], w);
      forall k | 1 <= k <= |s| ensures !(w <= s[k..]) {
        assert s[k..] == s[1..][k - 1..];
      }
    }
  }

  /**
   * A word that occurs neither in `x` nor in `y` does not occur in `x + y`
   * when the last character of `x` or the first of `y` is not in it.
   */
  lemma NotContainsJoin(x: string, y: string, w: string)
    requires !Contains(x, w) && !Contains(y, w)
    requires (x != [] && x[|x| - 1] !in w) || (y != [] && y[0] !in w)
    ensures !Contains(x + y, w)
  {
    var s := x + y;
    NotContainsAt(x, w);
    NotContainsAt(y, w);
    forall k | 0 <= k <= |s| ensures !(w <= s[k..]) {
      if k + |w| <= |x| {
        assert !(w <= x[k..]);
        assert s[k..k + |w|] == x[k..k + |w|];
      } else if k < |x| {
        if k + |w| <= |s| {
          if x != [] && x[|x| - 1] !in w {
            assert s[k..][|x| - 1 - k] == x[|x| - 1] != w[|x| - 1 - k];
          } else {
            assert s[k..][|x| - k] == y[0] != w[|x| - k];
          }
        }
      } else {
        assert s[k..] == y[k - |x|..];
      }
    }
    NotContainsNowhere(s, w);
  }

  /**
   * A word without the character `c` that occurs neither in `x` nor in `y`
   * does not occur in `x + [c] + y`: it cannot cover the `c` between them.
   */
  lemma NotContainsAcross(x: string, c: char, y: string, w: string)
    requires c !in w && !Contains(x, w) && !Contains(y, w)
    ensures !Contains(x + [c] + y, w)
  {
    var s := x + [c] + y;
    NotContainsAt(x, w);
    NotContainsAt(y, w);
    forall k | 0 <= k <= |s| ensures !(w <= s[k..]) {
      if k + |w| <= |x| {
        assert !(w <= x[k..]);
        assert s[k..k + |w|] == x[k..k + |w|];
      } else if k <= |x| {
        if k + |w| <= |s| { assert s[k..][|x| - k] == c != w[|x| - k]; }
      } else {
        assert s[k..] == y[k - |x| - 1..];
      }
    }
    NotContainsNowhere(s, w);
  }

  /**
   * In `p + ":" + t`, where only the middle character is a colon, a word
   * `w + ":"` with a single colon occurs exactly when `w` ends `p`.
   */
  lemma WordAtColon(p: string, w: string, t: string)
    requires ':' !in p && ':' !in w && ':' !in t
    ensures Contains(p + ":" + t, w + ":") <==> EndsWith(p, w)
  {
    var s := p + ":" + t;
    var word := w + ":";
    if EndsWith(p, w) {
      assert word <= s[|p| - |w|..];
      ContainsAt(s, word, |p| - |w|);
    } else {
      forall k | 0 <= k <= |s| ensures !(word <= s[k..]) {
        NoWordAt(p, w, t, k);
      }
      NotContainsNowhere(s, word);
    }
  }

  lemma NoWordAt(p: string, w: string, t: string, k: nat)
    requires ':' !in p && ':' !in w && ':' !in t
    requires !EndsWith(p, w)
    requires k <= |p| + 1 + |t|
    ensures !(w + ":" <= (p + ":" + t)[k..])
  {
    var s := p + ":" + t;
    var word := w + ":";
    if k + |w| < |s| {
      if k + |w| < |p| {
        assert s[k + |w|] == p[k + |w|];
        assert s[k..][|w|] != word[|w|];
      } else if k + |w| > |p| {
        assert s[k + |w|] == t[k + |w| - |p| - 1];
        assert s[k..][|w|] != word[|w|];
      } else {
        assert s[k..k + |w|] == p[|p| - |w|..];
        assert s[k..][..|w|] != word[..|w|];
      }
    }
  }

  // ---------------------------------------------------------------------------
  // Facts about join
  // ---------------------------------------------------------------------------

  /** Every part occurs in the joined string. */
  lemma {:induction false} JoinPartOccurs(parts: seq<string>, sep: string, k: nat)
    requires k < |parts|
    ensures Contains(Join(parts, sep), parts[k])
    decreases |parts|
  {
    if |parts| == 1 {
      ContainsSelf(parts[0]);
    } else {
      var rest := sep + Join(parts[1..], sep);
      if k == 0 {
        ContainsSelf(parts[0]);
        ContainsInPrefix(parts[0], rest, parts[0]);
      } else {
        JoinPartOccurs(parts[1..], sep, k - 1);
        ContainsInSuffix(sep, Join(parts[1..], sep), parts[k]);
        ContainsInSuffix(parts[0], rest, parts[k]);
      }
    }
  }

  lemma JoinCons(parts: seq<string>, sep: string)
    requires |parts| > 1
    ensures Join(parts, sep) == parts[0] + sep + Join(parts[1..], sep)
  {
  }

  /** Joining two non-empty runs of parts puts one separator between them. */
  lemma {:induction false} JoinConcat(a: seq<string>, b: seq<string>, sep: string)
    requires a != [] && b != []
    ensures Join(a + b, sep) == Join(a, sep) + sep + Join(b, sep)
    decreases |a|
  {
    assert (a + b)[0] == a[0];
    if |a| == 1 {
      assert (a + b)[1..] == b;
    } else {
      assert (a + b)[1..] == a[1..] + b;
      JoinConcat(a[1..], b, sep);
    }
  }

  /** An empty part between two runs of parts leaves two separators in a row. */
  lemma JoinAroundEmpty(a: seq<string>, b: seq<string>, sep: string)
    requires a != [] && b != []
    ensures Join(a + ([""] + b), sep) == Join(a, sep) + (sep + sep) + Join(b, sep)
  {
    var tail := [""] + b;
    JoinConcat(a, tail, sep);
    assert tail[1..] == b;
    assert Join(tail, sep) == "" + (sep + Join(b, sep));
  }

  /** Splitting lines joined with a newline gives the lines back, when none holds a newline. */
  lemma {:induction false} SplitJoinLines(lines: seq<string>)
    requires lines != []
    requires forall i :: 0 <= i < |lines| ==> '\n' !in lines[i]
    ensures Split(Join(lines, "\n"), '\n') == lines
    decreases |lines|
  {
    var first := lines[0];
    assert '\n' !in first;
    assert Split(first, '\n') == [first];
    if |lines| > 1 {
      var tail := lines[1..];
      var rest := Join(tail, "\n");
      assert Join(lines, "\n") == first + ['\n'] + rest;
      SplitAppend(first, '\n', rest);
      assert forall i :: 0 <= i < |tail| ==> '\n' !in tail[i];
      SplitJoinLines(tail);
      assert lines == [first] + tail;
    }
  }
}
