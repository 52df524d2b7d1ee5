/** The allowlist guard in front of every binding (internal/config/allowlist.go). */
module Allowlist {
  import opened Strings

  /** A non-blank entry equals a non-blank name, ignoring case and outer space. */
  predicate Listed(allowlist: seq<string>, names: seq<string>) {
    exists a | a in Words(allowlist) :: exists n | n in Words(names) :: EqualFold(a, n)
  }

  /** The rule the guard enforces. */
  predicate Permitted(allowlist: seq<string>, ref: string, resolved: seq<string>) {
    allowlist == [] || Listed(allowlist, [ref] + resolved)
  }

  lemma SingleWord(s: string)
    ensures Words([s]) == if Blank(s) then [] else [TrimSpace(s)]
  {
    assert [s][..0] == [];
  }

  /** The rule entry by entry: without a list everything passes; with one, some entry that is not blank must equal some
      name that is not blank, ignoring case and outer space. */
  predicate OnList(allowlist: seq<string>, names: seq<string>) {
    allowlist == [] ||
    exists i, j | 0 <= i < |allowlist| && 0 <= j < |names| ::
      !Blank(allowlist[i]) && !Blank(names[j]) && EqualFold(TrimSpace(allowlist[i]), TrimSpace(names[j]))
  }

  lemma PermittedIff(allowlist: seq<string>, ref: string, resolved: seq<string>)
    ensures Permitted(allowlist, ref, resolved) <==> OnList(allowlist, [ref] + resolved)
  {
    hide TrimSpace, EqualFold, Words;
    var names := [ref] + resolved;
    forall w
      ensures w in Words(allowlist) <==>
                exists i | 0 <= i < |allowlist| :: !Blank(allowlist[i]) && w == TrimSpace(allowlist[i])
      ensures w in Words(names) <==> exists j | 0 <= j < |names| :: !Blank(names[j]) && w == TrimSpace(names[j])
    {
      WordsIff(allowlist, w);
      WordsIff(names, w);
    }
    if Permitted(allowlist, ref, resolved) && allowlist != [] {
      var a :| a in Words(allowlist) && exists n | n in Words(names) :: EqualFold(a, n);
      var n :| n in Words(names) && EqualFold(a, n);
      var i :| 0 <= i < |allowlist| && !Blank(allowlist[i]) && a == TrimSpace(allowlist[i]);
      var j :| 0 <= j < |names| && !Blank(names[j]) && n == TrimSpace(names[j]);
      assert EqualFold(TrimSpace(allowlist[i]), TrimSpace(names[j]));
    }
    if OnList(allowlist, names) && allowlist != [] {
      var i, j :| 0 <= i < |allowlist| && 0 <= j < |names| && !Blank(allowlist[i]) && !Blank(names[j])
                  && EqualFold(TrimSpace(allowlist[i]), TrimSpace(names[j]));
      assert TrimSpace(allowlist[i]) in Words(allowlist) && TrimSpace(names[j]) in Words(names);
    }
  }

  /** The names that count, collected. */
  method Candidates(ref: string, resolved: seq<string>) returns (candidates: seq<string>)
    ensures candidates == Words([ref] + resolved)
  {
    hide TrimSpace, Words;
    candidates := [];
    var r := TrimSpace(ref);
    if r != "" {
      candidates := candidates + [r];
    }
    SingleWord(ref);
    NoWords(resolved[..0]);
    for i := 0 to |resolved|
      invariant candidates == Words([ref]) + Words(resolved[..i])
    {
      WordsSnoc(resolved, i);
      var t := TrimSpace(resolved[i]);
      if t != "" {
        candidates := candidates + [t];
      }
    }
    assert resolved[..|resolved|] == resolved;
    WordsSplit([ref], resolved);
  }

  lemma NoWords(none: seq<string>)
    requires none == []
    ensures Words(none) == []
  {}

  /** Words of the front of a list are words of the list. */
  lemma WordOf(parts: seq<string>, i: nat)
    requires i < |parts| && !Blank(parts[i])
    ensures TrimSpace(parts[i]) in Words(parts)
  {
    hide TrimSpace, Words;
    assert parts == parts[..i + 1] + parts[i + 1..];
    WordsSplit(parts[..i + 1], parts[i + 1..]);
    WordsSnoc(parts, i);
  }

  method RefAllowed(ref: string, allowlist: seq<string>, resolved: seq<string>) returns (ok: bool)
    ensures ok <==> Permitted(allowlist, ref, resolved)
  {
    hide TrimSpace, EqualFold, Words;
    if |allowlist| == 0 {
      return true;
    }
    var candidates := Candidates(ref, resolved);
    NoWords(allowlist[..0]);
    for i := 0 to |allowlist|
      invariant forall a, n | a in Words(allowlist[..i]) && n in candidates :: !EqualFold(a, n)
    {
      WordsSnoc(allowlist, i);
      var allowed := TrimSpace(allowlist[i]);
      if allowed == "" {
        continue;
      }
      WordOf(allowlist, i);
      for j := 0 to |candidates|
        invariant forall k | 0 <= k < j :: !EqualFold(allowed, candidates[k])
      {
        if EqualFold(allowed, candidates[j]) {
          return true;
        }
      }
    }
    assert allowlist[..|allowlist|] == allowlist;
    return false;
  }

  /** A reference that is blank, or an empty allowlist, passes without a look at the names. */
  method CheckRefAllowlist(ref: string, allowlist: seq<string>, resolved: seq<string>) returns (ok: bool)
    ensures ok <==> Blank(ref) || Permitted(allowlist, TrimSpace(ref), resolved)
  {
    var r := TrimSpace(ref);
    if r == "" || |allowlist| == 0 {
      return true;
    }
    ok := RefAllowed(r, allowlist, resolved);
  }
}
