/** The string operations of Go's standard library that the controller relies on.
    Strings are sequences of characters. Case folding is the ASCII one. */
module Strings {

  datatype Option<+T> = None | Some(value: T)

  /** Unicode White_Space, as used by strings.TrimSpace. */
  predicate IsSpace(c: char) {
    || '\U{0009}' <= c <= '\U{000D}' || c == ' ' || c == '\U{0085}' || c == '\U{00A0}'
    || c == '\U{1680}' || '\U{2000}' <= c <= '\U{200A}' || c == '\U{2028}' || c == '\U{2029}'
    || c == '\U{202F}' || c == '\U{205F}' || c == '\U{3000}'
  }

  function TrimLeft(s: string): string {
    if s != "" && IsSpace(s[0]) then TrimLeft(s[1..]) else s
  }

  function TrimRight(s: string): string {
    if s != "" && IsSpace(s[|s| - 1]) then TrimRight(s[..|s| - 1]) else s
  }

  function TrimSpace(s: string): string {
    TrimRight(TrimLeft(s))
  }

  predicate Blank(s: string) {
    TrimSpace(s) == ""
  }

  lemma EmptyIsBlank()
    ensures TrimSpace("") == ""
  {}

  /** The text carries no space at either end. */
  predicate Tight(s: string) {
    s == "" || (!IsSpace(s[0]) && !IsSpace(s[|s| - 1]))
  }

  /** Trimming at the front leaves an end of the text that does not begin with space. */
  lemma {:induction false} TrimLeftFacts(s: string)
    ensures var t := TrimLeft(s); (t == "" || !IsSpace(t[0])) && |t| <= |s| && t == s[|s| - |t|..]
  {
    hide IsSpace;
    if s != "" && IsSpace(s[0]) { TrimLeftFacts(s[1..]); }
  }

  /** Trimming at the back leaves a front of the text that does not end with space. */
  lemma {:induction false} TrimRightFacts(s: string)
    ensures var t := TrimRight(s); (t == "" || !IsSpace(t[|t| - 1])) && t <= s
  {
    hide IsSpace;
    if s != "" && IsSpace(s[|s| - 1]) { TrimRightFacts(s[..|s| - 1]); }
  }

  lemma TrimIsTight(s: string)
    ensures Tight(TrimSpace(s))
  {
    var t := TrimLeft(s);
    var u := TrimRight(t);
    TrimLeftFacts(s);
    TrimRightFacts(t);
    if u != "" {
      assert u[0] == t[0];
    }
  }

  lemma TightIsFixed(s: string)
    requires Tight(s)
    ensures TrimSpace(s) == s
  {}

  lemma TrimTwice(s: string)
    ensures TrimSpace(TrimSpace(s)) == TrimSpace(s)
  {
    TrimIsTight(s);
    TightIsFixed(TrimSpace(s));
  }

  predicate AllSpace(s: string) {
    forall c | c in s :: IsSpace(c)
  }

  lemma {:induction false} LeftIsSpace(s: string)
    ensures |TrimLeft(s)| <= |s| && AllSpace(s[..|s| - |TrimLeft(s)|])
  {
    hide IsSpace;
    if s != "" && IsSpace(s[0]) {
      LeftIsSpace(s[1..]);
      var n := |s| - |TrimLeft(s)|;
      assert s[..n] == [s[0]] + s[1..][..n - 1];
    } else {
      assert s[..0] == [];
    }
  }

  lemma {:induction false} RightIsSpace(s: string)
    ensures |TrimRight(s)| <= |s| && AllSpace(s[|TrimRight(s)|..])
  {
    hide IsSpace;
    if s != "" && IsSpace(s[|s| - 1]) {
      var t := s[..|s| - 1];
      RightIsSpace(t);
      var n := |TrimRight(t)|;
      assert s[n..] == t[n..] + [s[|s| - 1]];
    } else {
      assert s[|s|..] == [];
    }
  }

  lemma TightCut(a: string, m: string, b: string)
    requires AllSpace(a) && AllSpace(b) && Tight(m)
    ensures TrimSpace(a + m + b) == m
  {
    hide IsSpace;
    TrimLeftSpace(a, m + b);
    assert a + m + b == a + (m + b);
    if m == "" {
      assert m + b == b + "";
      TrimLeftSpace(b, "");
    } else {
      assert (m + b)[0] == m[0];
      TrimRightSpace(m, b);
    }
  }

  lemma {:induction false} TrimLeftSpace(a: string, m: string)
    requires AllSpace(a)
    ensures TrimLeft(a + m) == TrimLeft(m)
  {
    hide IsSpace;
    if a == "" {
      assert a + m == m;
    } else {
      assert (a + m)[1..] == a[1..] + m;
      TrimLeftSpace(a[1..], m);
    }
  }

  lemma {:induction false} TrimRightSpace(m: string, b: string)
    requires AllSpace(b)
    ensures TrimRight(m + b) == TrimRight(m)
    decreases |b|
  {
    hide IsSpace;
    if b == "" {
      assert m + b == m;
    } else {
      var n := |b| - 1;
      assert b[n] in b && (m + b)[..|m + b| - 1] == m + b[..n];
      TrimRightSpace(m, b[..n]);
    }
  }

  /** Trimming, exactly: the text without space at either end that space on both sides makes the whole. */
  lemma TrimIff(s: string, t: string)
    ensures t == TrimSpace(s) <==> Tight(t) && exists a, b :: AllSpace(a) && AllSpace(b) && s == a + t + b
  {
    hide IsSpace, TrimLeft, TrimRight, Tight;
    var left := TrimLeft(s);
    LeftIsSpace(s);
    RightIsSpace(left);
    TrimLeftFacts(s);
    TrimRightFacts(left);
    TrimIsTight(s);
    var a, b := s[..|s| - |left|], left[|TrimSpace(s)|..];
    assert s == a + left && left == TrimSpace(s) + b;
    assert s == a + TrimSpace(s) + b;
    forall a, b | AllSpace(a) && AllSpace(b) && s == a + t + b && Tight(t)
      ensures t == TrimSpace(s)
    {
      TightCut(a, t, b);
    }
  }

  const CAPITALS := "ABCDEFGHIJKLMNOPQRSTUVWXYZ"
  const SMALL := "abcdefghijklmnopqrstuvwxyz"

  /** Two characters are the same letter in either case, or the same. */
  predicate SameLetter(a: char, b: char) {
    a == b || exists i | 0 <= i < 26 :: (a == CAPITALS[i] && b == SMALL[i]) || (a == SMALL[i] && b == CAPITALS[i])
  }

  function FoldChar(c: char): char {
    if 'A' <= c <= 'Z' then 'a' + (c - 'A') else c
  }

  predicate EqualFold(a: string, b: string) {
    |a| == |b| && forall i | 0 <= i < |a| :: FoldChar(a[i]) == FoldChar(b[i])
  }

  lemma SameLetterIff(a: char, b: char)
    ensures FoldChar(a) == FoldChar(b) <==> SameLetter(a, b)
  {
    assert forall i | 0 <= i < 26 :: CAPITALS[i] == 'A' + (i as char) && SMALL[i] == 'a' + (i as char);
    if 'A' <= a <= 'Z' && b == FoldChar(a) {
      var i := (a as int) - ('A' as int);
      assert a == CAPITALS[i] && b == SMALL[i];
    }
    if 'A' <= b <= 'Z' && a == FoldChar(b) {
      var i := (b as int) - ('A' as int);
      assert b == CAPITALS[i] && a == SMALL[i];
    }
  }

  /** Comparing without regard to case: letter by letter. */
  lemma EqualFoldIff(a: string, b: string)
    ensures EqualFold(a, b) <==> |a| == |b| && forall i | 0 <= i < |a| :: SameLetter(a[i], b[i])
  {
    hide FoldChar, SameLetter;
    forall i | 0 <= i < |a| && i < |b|
      ensures FoldChar(a[i]) == FoldChar(b[i]) <==> SameLetter(a[i], b[i])
    {
      SameLetterIff(a[i], b[i]);
    }
  }

  function TrimSlash(s: string): string {
    if s != "" && s[|s| - 1] == '/' then s[..|s| - 1] else s
  }

  function Split(s: string, sep: char): (parts: seq<string>)
    ensures |parts| > 0
  {
    if s == "" then [""]
    else
      var rest := Split(s[1..], sep);
      if s[0] == sep then [""] + rest else [[s[0]] + rest[0]] + rest[1..]
  }

  function Join(parts: seq<string>, sep: char): string {
    if parts == [] then ""
    else if |parts| == 1 then parts[0]
    else parts[0] + [sep] + Join(parts[1..], sep)
  }

  lemma SplitWithout(s: string, sep: char)
    requires sep !in s
    ensures Split(s, sep) == [s]
  {
    if s != "" {
      SplitWithout(s[1..], sep);
      assert s == [s[0]] + s[1..];
    }
  }

  lemma SplitAt(a: string, b: string, sep: char)
    requires sep !in a
    ensures Split(a + [sep] + b, sep) == [a] + Split(b, sep)
    decreases |a|
  {
    var s := a + [sep] + b;
    if a == "" {
      assert s[1..] == b;
    } else {
      assert s[1..] == a[1..] + [sep] + b;
      SplitAt(a[1..], b, sep);
      assert a == [a[0]] + a[1..];
    }
  }

  /** Splitting undoes joining when no part contains the separator. */
  lemma {:induction false} SplitJoin(parts: seq<string>, sep: char)
    requires parts != []
    requires forall p | p in parts :: sep !in p
    ensures Split(Join(parts, sep), sep) == parts
  {
    if |parts| == 1 {
      SplitWithout(parts[0], sep);
    } else {
      SplitAt(parts[0], Join(parts[1..], sep), sep);
      SplitJoin(parts[1..], sep);
    }
  }

  /** A text cut at the first occurrence of a character is cut in one way only. */
  lemma CutOnce(a: string, b: string, c: string, d: string, sep: char)
    requires sep !in a && sep !in c
    requires a + [sep] + b == c + [sep] + d
    ensures a == c && b == d
  {
    var s := a + [sep] + b;
    assert s[|a|] == sep && s[|c|] == sep;
    assert |a| == |c|;
    assert a == s[..|a|] && c == s[..|c|];
    assert b == s[|a| + 1..] && d == s[|c| + 1..];
  }

  /** The non-blank parts, trimmed. */
  function Words(parts: seq<string>): seq<string> {
    if parts == [] then []
    else
      var last := TrimSpace(parts[|parts| - 1]);
      Words(parts[..|parts| - 1]) + if last == "" then [] else [last]
  }

  lemma WordsSnoc(parts: seq<string>, i: nat)
    requires i < |parts|
    ensures Words(parts[..i + 1]) == Words(parts[..i]) + if Blank(parts[i]) then [] else [TrimSpace(parts[i])]
  {
    assert parts[..i + 1][..i] == parts[..i];
  }

  lemma {:induction false} WordsSplit(a: seq<string>, b: seq<string>)
    ensures Words(a + b) == Words(a) + Words(b)
    decreases |b|
  {
    if b == [] {
      assert a + b == a;
    } else {
      assert (a + b)[..|a + b| - 1] == a + b[..|b| - 1];
      WordsSplit(a, b[..|b| - 1]);
    }
  }

  /** The words are the parts that are not blank, trimmed. */
  lemma {:induction false} WordsIff(parts: seq<string>, w: string)
    ensures w in Words(parts) <==> exists i | 0 <= i < |parts| :: !Blank(parts[i]) && w == TrimSpace(parts[i])
  {
    hide TrimSpace;
    if parts != [] {
      var n := |parts| - 1;
      WordsIff(parts[..n], w);
      WordsSnoc(parts, n);
      assert parts[..n + 1] == parts;
      if w in Words(parts[..n]) {
        var i :| 0 <= i < n && !Blank(parts[..n][i]) && w == TrimSpace(parts[..n][i]);
        assert parts[i] == parts[..n][i];
      }
      if exists i | 0 <= i < n :: !Blank(parts[i]) && w == TrimSpace(parts[i]) {
        var i :| 0 <= i < n && !Blank(parts[i]) && w == TrimSpace(parts[i]);
        assert parts[i] == parts[..n][i];
      }
    }
  }

  lemma {:induction false} NoWordsIff(parts: seq<string>)
    ensures Words(parts) == [] <==> forall i | 0 <= i < |parts| :: Blank(parts[i])
  {
    hide TrimSpace;
    if parts != [] {
      var n := |parts| - 1;
      NoWordsIff(parts[..n]);
      assert forall i | 0 <= i < n :: parts[..n][i] == parts[i];
    }
  }
}
