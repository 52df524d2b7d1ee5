/** Parsing of token scopes (internal/wif/subject.go). The scope names known to the IAM
    client library are a parameter. */
module Scopes {
  import opened Strings

  const OPENID := "openid"

  datatype ScopeResult = Parsed(scopes: seq<string>) | Wildcard | Unsupported(word: string)

  /** What is asked of the known names: openid is one of them and none holds a comma or outer space. */
  ghost predicate ScopeNames(known: set<string>) {
    OPENID in known && forall s | s in known :: s != "" && s != "*" && Tight(s) && ',' !in s
  }

  /** Each element once, where it first occurs. */
  function FirstOccurrences(xs: seq<string>): seq<string> {
    if xs == [] then []
    else
      var r, last := FirstOccurrences(xs[..|xs| - 1]), xs[|xs| - 1];
      if last in r then r else r + [last]
  }

  predicate GoodWord(known: set<string>, w: string) {
    w != "*" && w in known
  }

  function WordError(w: string): ScopeResult {
    if w == "*" then Wildcard else Unsupported(w)
  }

  /** The outcome in terms of the words: the first bad one, or all of them once. */
  function Canonical(known: set<string>, words: seq<string>): ScopeResult {
    if words == [] then Parsed([OPENID])
    else
      match FirstBad(known, words)
      case Some(w) => WordError(w)
      case None => Parsed(FirstOccurrences(words))
  }

  function FirstBad(known: set<string>, words: seq<string>): Option<string> {
    if words == [] then None
    else if !GoodWord(known, words[0]) then Some(words[0])
    else FirstBad(known, words[1..])
  }

  lemma {:induction false} FirstBadSplit(known: set<string>, a: seq<string>, b: seq<string>)
    ensures FirstBad(known, a + b) == if FirstBad(known, a).Some? then FirstBad(known, a) else FirstBad(known, b)
    decreases |a|
  {
    if a == [] {
      assert a + b == b;
    } else {
      assert (a + b)[1..] == a[1..] + b;
      FirstBadSplit(known, a[1..], b);
    }
  }

  lemma {:induction false} FirstBadNone(known: set<string>, words: seq<string>)
    ensures FirstBad(known, words).None? <==> forall w | w in words :: GoodWord(known, w)
  {
    if words != [] {
      FirstBadNone(known, words[1..]);
      assert words == [words[0]] + words[1..];
    }
  }

  /** The word is not usable, and all before it are. */
  ghost predicate FirstWrong(known: set<string>, words: seq<string>, w: string) {
    exists i | 0 <= i < |words| ::
      words[i] == w && (w == "*" || w !in known) && forall j | 0 <= j < i :: words[j] in known - {"*"}
  }

  lemma {:induction false} FirstBadIs(known: set<string>, words: seq<string>, w: string)
    ensures FirstBad(known, words) == Some(w) <==> FirstWrong(known, words, w)
  {
    if words != [] {
      var rest := words[1..];
      FirstBadIs(known, rest, w);
      if i :| 0 <= i < |words| && words[i] == w && (w == "*" || w !in known)
              && forall j | 0 <= j < i :: words[j] in known - {"*"}
      {
        if i > 0 {
          assert words[0] in known - {"*"} && rest[i - 1] == w;
          assert forall j | 0 <= j < i - 1 :: rest[j] == words[j + 1] && words[j + 1] in known - {"*"};
        }
      }
      if i :| 0 <= i < |rest| && rest[i] == w && (w == "*" || w !in known)
              && (forall j | 0 <= j < i :: rest[j] in known - {"*"}) && words[0] in known - {"*"}
      {
        assert words[i + 1] == w;
        forall j | 0 <= j < i + 1
          ensures words[j] in known - {"*"}
        {
          if j > 0 { assert words[j] == rest[j - 1]; }
        }
      }
    }
  }

  /** A parse fails over the first word that stands for everything or is not known, and says which of the two. */
  lemma ParseFailsIff(known: set<string>, words: seq<string>, w: string)
    ensures Canonical(known, words) == Wildcard <==> FirstWrong(known, words, "*")
    ensures Canonical(known, words) == Unsupported(w) <==> w != "*" && FirstWrong(known, words, w)
  {
    hide FirstWrong;
    FirstBadIs(known, words, "*");
    FirstBadIs(known, words, w);
  }

  lemma Snoc(xs: seq<string>, x: string)
    ensures FirstOccurrences(xs + [x]) == FirstOccurrences(xs) + if x in FirstOccurrences(xs) then [] else [x]
  {
    assert (xs + [x])[..|xs|] == xs;
  }

  /** What one more part does to the words seen and to the outcome. */
  lemma OneMorePart(known: set<string>, parts: seq<string>, i: nat)
    requires i < |parts| && FirstBad(known, Words(parts[..i])).None?
    ensures Words(parts[..i + 1]) == Words(parts[..i]) + if Blank(parts[i]) then [] else [TrimSpace(parts[i])]
    ensures Blank(parts[i]) || GoodWord(known, TrimSpace(parts[i])) ==> FirstBad(known, Words(parts[..i + 1])).None?
    ensures !Blank(parts[i]) && !GoodWord(known, TrimSpace(parts[i])) ==>
              Words(parts) != [] && FirstBad(known, Words(parts)) == Some(TrimSpace(parts[i]))
    ensures var before, after := FirstOccurrences(Words(parts[..i])), FirstOccurrences(Words(parts[..i + 1]));
            var p := TrimSpace(parts[i]);
            after == if Blank(parts[i]) || p in before then before else before + [p]
  {
    hide TrimSpace;
    var p, before := TrimSpace(parts[i]), Words(parts[..i]);
    WordsSnoc(parts, i);
    var upto := Words(parts[..i + 1]);
    assert parts == parts[..i + 1] + parts[i + 1..];
    WordsSplit(parts[..i + 1], parts[i + 1..]);
    FirstBadSplit(known, upto, Words(parts[i + 1..]));
    if p != "" {
      FirstBadSplit(known, before, [p]);
      Snoc(before, p);
    } else {
      assert upto == before;
    }
  }

  /** The loop over the parts, with the set of words seen so far. */
  method ParseScopeList(known: set<string>, parts: seq<string>) returns (r: ScopeResult)
    ensures r == Canonical(known, Words(parts))
  {
    hide TrimSpace, Words, FirstOccurrences, FirstBad;
    var out: seq<string>, seen: set<string> := [], {};
    assert Words(parts[..0]) == [] && FirstOccurrences([]) == [] && FirstBad(known, []) == None by {
      Empty(known, parts[..0]);
    }
    for i := 0 to |parts|
      invariant out == FirstOccurrences(Words(parts[..i]))
      invariant seen == set s | s in out
      invariant FirstBad(known, Words(parts[..i])).None?
      invariant out == [] <==> Words(parts[..i]) == []
    {
      var p := TrimSpace(parts[i]);
      OneMorePart(known, parts, i);
      if p == "" {
        continue;
      }
      if p == "*" {
        return Wildcard;
      }
      if p !in known {
        return Unsupported(p);
      }
      if p in seen {
        continue;
      }
      seen := seen + {p};
      out := out + [p];
    }
    assert parts[..|parts|] == parts;
    if out == [] {
      return Parsed([OPENID]);
    }
    return Parsed(out);
  }

  lemma Empty(known: set<string>, none: seq<string>)
    requires none == []
    ensures Words(none) == [] && FirstOccurrences([]) == [] && FirstBad(known, []) == None
  {}

  /** Comma-separated form. */
  function ParseText(known: set<string>, raw: string): ScopeResult {
    var t := TrimSpace(raw);
    Canonical(known, Words(if t == "" then [] else Split(t, ',')))
  }

  method ParseScopes(known: set<string>, raw: string) returns (r: ScopeResult)
    ensures r == ParseText(known, raw)
  {
    var t := TrimSpace(raw);
    if t == "" {
      r := ParseScopeList(known, []);
    } else {
      r := ParseScopeList(known, Split(t, ','));
    }
  }

  // ---- what a successful parse looks like

  predicate NoDuplicates(xs: seq<string>) {
    forall i, j | 0 <= i < j < |xs| :: xs[i] != xs[j]
  }

  lemma {:induction false} FirstOccurrencesFacts(xs: seq<string>)
    ensures NoDuplicates(FirstOccurrences(xs))
    ensures forall x :: x in FirstOccurrences(xs) <==> x in xs
    ensures NoDuplicates(xs) ==> FirstOccurrences(xs) == xs
  {
    if xs != [] {
      var n := |xs| - 1;
      FirstOccurrencesFacts(xs[..n]);
      assert xs == xs[..n] + [xs[n]];
    }
  }

  /** Cutting the input shorter cuts the result shorter: elements stand in first-occurrence order. */
  lemma {:induction false} FirstOccurrenceOrder(xs: seq<string>, k: nat)
    requires k <= |xs|
    ensures FirstOccurrences(xs[..k]) <= FirstOccurrences(xs)
  {
    if k == |xs| {
      assert xs[..k] == xs;
    } else {
      var n := |xs| - 1;
      assert xs[..n][..k] == xs[..k];
      FirstOccurrenceOrder(xs[..n], k);
    }
  }

  predicate AllTight(words: seq<string>) {
    forall i | 0 <= i < |words| :: words[i] != "" && Tight(words[i])
  }

  lemma {:induction false} WordsOfTight(words: seq<string>)
    requires AllTight(words)
    ensures Words(words) == words
  {
    if words != [] {
      var n := |words| - 1;
      assert words == words[..n] + [words[n]];
      WordsOfTight(words[..n]);
      TightIsFixed(words[n]);
    }
  }

  /** A list of distinct known names. */
  ghost predicate CanonicalList(known: set<string>, xs: seq<string>) {
    xs != [] && NoDuplicates(xs) && forall x | x in xs :: GoodWord(known, x)
  }

  /** Parsing accepts exactly the lists whose words are all known; the result is their set, without repetition. */
  lemma ParseIsCanonical(known: set<string>, parts: seq<string>)
    requires ScopeNames(known)
    ensures Canonical(known, Words(parts)).Parsed? <==> forall w | w in Words(parts) :: GoodWord(known, w)
    ensures var r := Canonical(known, Words(parts));
            r.Parsed? ==>
              && CanonicalList(known, r.scopes)
              && (set x | x in r.scopes) == (if Words(parts) == [] then {OPENID} else set w | w in Words(parts))
  {
    FirstBadNone(known, Words(parts));
    FirstOccurrencesFacts(Words(parts));
    if Words(parts) != [] {
      assert Words(parts)[0] in Words(parts);
    }
  }

  lemma CanonicalIsFixed(known: set<string>, xs: seq<string>)
    requires ScopeNames(known) && CanonicalList(known, xs)
    ensures Canonical(known, Words(xs)) == Parsed(xs)
  {
    forall i | 0 <= i < |xs|
      ensures xs[i] != "" && Tight(xs[i])
    {
      assert xs[i] in xs;
    }
    WordsOfTight(xs);
    FirstBadNone(known, xs);
    FirstOccurrencesFacts(xs);
  }

  lemma {:induction false} JoinTight(xs: seq<string>)
    requires xs != [] && AllTight(xs)
    ensures Join(xs, ',') != "" && Tight(Join(xs, ','))
  {
    assert xs[0] in xs;
    if |xs| > 1 {
      assert xs == [xs[0]] + xs[1..];
      JoinTight(xs[1..]);
    }
  }

  lemma TextOfCanonical(known: set<string>, xs: seq<string>)
    requires ScopeNames(known) && CanonicalList(known, xs)
    ensures ParseText(known, Join(xs, ',')) == Canonical(known, Words(xs))
  {
    hide Words, FirstBad, FirstOccurrences, NoDuplicates;
    forall i | 0 <= i < |xs|
      ensures xs[i] != "" && Tight(xs[i]) && ',' !in xs[i]
    {
      assert xs[i] in xs;
    }
    JoinTight(xs);
    TightIsFixed(Join(xs, ','));
    SplitJoin(xs, ',');
  }

  /** A parsed result is a fixed point of parsing, and survives being joined with commas and parsed as text. */
  lemma ScopeRoundTrip(known: set<string>, parts: seq<string>)
    requires ScopeNames(known) && Canonical(known, Words(parts)).Parsed?
    ensures var out := Canonical(known, Words(parts)).scopes;
            && Canonical(known, Words(out)) == Parsed(out)
            && ParseText(known, Join(out, ',')) == Parsed(out)
  {
    var out := Canonical(known, Words(parts)).scopes;
    ParseIsCanonical(known, parts);
    CanonicalIsFixed(known, out);
    TextOfCanonical(known, out);
  }
}
