/** Subjects, resource keys and ownership labels (internal/wif/subject.go). */
module Subject {
  import opened Strings

  type Labels = map<string, string>

  /** The digest behind the resource key: any function, collisions included. */
  type Digest = string -> string

  const MANAGED_BY := "thalassa.cloud/managed-by"
  const CONTROLLER := "workload-identity-controller"
  const WIF_KEY := "thalassa.cloud/wif-key"
  const WIF_VCS := "thalassa.cloud/wif-vcs"
  const KUBERNETES := "kubernetes"
  const K8S_NAMESPACE := "thalassa.cloud/k8s-namespace"
  const K8S_SERVICE_ACCOUNT := "thalassa.cloud/k8s-service-account"
  const CLUSTER_ID := "kubernetes_cluster_id"
  const SUBJECT_PREFIX := "system:serviceaccount:"

  /** Reading a Go map: a missing key gives the empty string. */
  function Get(m: map<string, string>, k: string): string {
    if k in m then m[k] else ""
  }

  function BuildSubject(namespace: string, name: string): Option<string> {
    var ns, n := TrimSpace(namespace), TrimSpace(name);
    if ns == "" || n == "" || '/' in ns || '/' in n then None
    else Some(SubjectText(ns, n))
  }

  function SubjectText(namespace: string, name: string): string {
    SUBJECT_PREFIX + namespace + [':'] + name
  }

  function Line(first: string, rest: string): string {
    first + ['\n'] + rest
  }

  function NormalizeIssuer(issuer: string): string {
    TrimSlash(TrimSpace(issuer))
  }

  /** An issuer is the same with and without space around it and one slash at its end. */
  lemma IssuerIsOne(issuer: string, before: string, after: string)
    requires AllSpace(before) && AllSpace(after) && Tight(issuer)
    ensures NormalizeIssuer(before + issuer + after) == NormalizeIssuer(issuer)
    ensures issuer != "" && issuer[|issuer| - 1] != '/' ==> NormalizeIssuer(issuer + ['/']) == NormalizeIssuer(issuer)
  {
    TightCut(before, issuer, after);
    TightIsFixed(issuer);
    if issuer != "" {
      var longer := issuer + ['/'];
      assert longer[0] == issuer[0] && longer[|longer| - 1] == '/';
      TightIsFixed(longer);
      assert longer[..|longer| - 1] == issuer;
    }
  }

  /** So under either issuer the key is one. */
  lemma KeyOfIssuer(digest: Digest, namespace: string, name: string, subject: string, issuer: string)
    requires issuer != "" && issuer[|issuer| - 1] != '/' && Tight(issuer)
    ensures ResourceKey(digest, namespace, name, subject, issuer + ['/'])
         == ResourceKey(digest, namespace, name, subject, issuer)
  {
    IssuerIsOne(issuer, "", "");
  }

  /** The lines of the hash input, where it has no others. */
  lemma KeyPreimageLines(namespace: string, name: string, subject: string, issuer: string)
    requires '\n' !in TrimSpace(namespace) && '\n' !in TrimSpace(name) && '\n' !in subject
             && '\n' !in NormalizeIssuer(issuer)
    ensures Split(KeyPreimage(namespace, name, subject, issuer), '\n')
         == ["kubernetes", TrimSpace(namespace) + "/" + TrimSpace(name), subject, NormalizeIssuer(issuer)]
  {
    hide TrimSpace, NormalizeIssuer, Split;
    var owner, url := TrimSpace(namespace) + ['/'] + TrimSpace(name), NormalizeIssuer(issuer);
    SplitAt(KUBERNETES, Line(owner, Line(subject, url)), '\n');
    SplitAt(owner, Line(subject, url), '\n');
    SplitAt(subject, url, '\n');
    SplitWithout(url, '\n');
  }

  /** The text whose digest names an owner's resources. */
  function KeyPreimage(namespace: string, name: string, subject: string, issuer: string): string {
    Line(KUBERNETES, Line(TrimSpace(namespace) + ['/'] + TrimSpace(name), Line(subject, NormalizeIssuer(issuer))))
  }

  /** The digest is a parameter: nothing about it is assumed, collisions included. */
  function ResourceKey(digest: Digest, namespace: string, name: string, subject: string, issuer: string): string {
    digest(KeyPreimage(namespace, name, subject, issuer))
  }

  function OwnershipLabels(key: string, namespace: string, name: string): Labels {
    map[MANAGED_BY := CONTROLLER, WIF_KEY := key, WIF_VCS := KUBERNETES,
        K8S_NAMESPACE := namespace, K8S_SERVICE_ACCOUNT := name]
  }

  predicate LabelsMatch(have: Labels, want: Labels) {
    want != map[] && forall k | k in want :: Get(have, k) == want[k]
  }

  predicate Managed(labels: Labels) {
    LabelsMatch(labels, map[MANAGED_BY := CONTROLLER])
  }

  /** What carrying an owner's labels means, one label at a time. */
  lemma OwnershipMatch(have: Labels, key: string, namespace: string, name: string)
    ensures LabelsMatch(have, OwnershipLabels(key, namespace, name)) <==>
            Get(have, MANAGED_BY) == CONTROLLER && Get(have, WIF_KEY) == key && Get(have, WIF_VCS) == KUBERNETES
            && Get(have, K8S_NAMESPACE) == namespace && Get(have, K8S_SERVICE_ACCOUNT) == name
    ensures LabelsMatch(have, OwnershipLabels(key, namespace, name)) ==> Managed(have)
    ensures LabelsMatch(OwnershipLabels(key, namespace, name), OwnershipLabels(key, namespace, name))
  {
    var want := OwnershipLabels(key, namespace, name);
    assert MANAGED_BY in want && WIF_KEY in want && WIF_VCS in want && K8S_NAMESPACE in want
           && K8S_SERVICE_ACCOUNT in want;
    if LabelsMatch(have, want) {
      assert Get(have, MANAGED_BY) == want[MANAGED_BY];
      assert Get(have, WIF_KEY) == want[WIF_KEY];
      assert Get(have, WIF_VCS) == want[WIF_VCS];
      assert Get(have, K8S_NAMESPACE) == want[K8S_NAMESPACE];
      assert Get(have, K8S_SERVICE_ACCOUNT) == want[K8S_SERVICE_ACCOUNT];
    }
  }

  /** One resource cannot carry the labels of two owners, whatever the keys are. */
  lemma OwnersAreSeparate(have: Labels, k1: string, ns1: string, n1: string, k2: string, ns2: string, n2: string)
    requires LabelsMatch(have, OwnershipLabels(k1, ns1, n1)) && LabelsMatch(have, OwnershipLabels(k2, ns2, n2))
    ensures k1 == k2 && ns1 == ns2 && n1 == n2
  {
    OwnershipMatch(have, k1, ns1, n1);
    OwnershipMatch(have, k2, ns2, n2);
  }

  /** Every wanted key is there with the wanted value. */
  predicate Includes(have: Labels, want: Labels) {
    forall k | k in want :: k in have && have[k] == want[k]
  }

  /** Matching is containment for exactly the wanted labels that are there and have no empty value: nothing matches when
      nothing is wanted, and a missing label reads as an empty one. */
  lemma LabelsMatchIsContainment(want: Labels)
    ensures (forall have: Labels :: LabelsMatch(have, want) <==> Includes(have, want))
            <==> want != map[] && forall k | k in want :: want[k] != ""
  {
    if want == map[] {
      assert Includes(map[], want) && !LabelsMatch(map[], want);
    } else if k :| k in want && want[k] == "" {
      EmptyLabelMatchesAbsent(want, k);
    } else {
      forall have: Labels
        ensures LabelsMatch(have, want) <==> Includes(have, want)
      {
        assert LabelsMatch(have, want) ==> forall k | k in want :: Get(have, k) == want[k] != "";
      }
    }
  }

  /** Wherever an empty value is wanted, labels without the key match. */
  lemma EmptyLabelMatchesAbsent(want: Labels, k: string)
    requires k in want && want[k] == ""
    ensures LabelsMatch(want - {k}, want) && !Includes(want - {k}, want)
  {
    assert k !in want - {k};
    forall j | j in want
      ensures Get(want - {k}, j) == want[j]
    {
      assert j != k ==> j in want - {k};
    }
  }

  // ---- the preimage determines the owner and the issuer

  lemma LineDrop(a: string, b: string, d: string)
    requires Line(a, b) == Line(a, d)
    ensures b == d
  {
    assert Line(a, b)[|a| + 1..] == b && Line(a, d)[|a| + 1..] == d;
  }

  lemma LineAssociative(a: string, b: string, c: string)
    ensures Line(Line(a, b), c) == Line(a, Line(b, c))
  {}

  /** Of two owners with one preimage, a longer name needs a line break in itself and in the other's issuer. */
  lemma LongerNameNeedsBreaks(p: string, b1: string, i1: string, b2: string, i2: string)
    requires Line(b1, Line(p + b1, i1)) == Line(b2, Line(p + b2, i2)) && |b1| < |b2|
    ensures '\n' in b2 && '\n' in i1
  {
    var s1, s2 := Line(b1, Line(p + b1, i1)), Line(b2, Line(p + b2, i2));
    assert s1[|b1|] == '\n' && s2[|b1|] == b2[|b1|];
    var k := |b2| + 1 + |p| + |b2|;
    assert s2[k] == '\n';
    var first := |b1| + 1 + |p| + |b1| + 1;
    assert s1[first..] == i1 && s1[k] == i1[k - first];
  }

  /** Names and issuers in which only what is allowed holds a line break. */
  predicate Within(nameBreaks: bool, issuerBreaks: bool, namespace: string, name: string, issuer: string) {
    && BuildSubject(namespace, name).Some?
    && (nameBreaks || '\n' !in TrimSpace(name)) && (issuerBreaks || '\n' !in NormalizeIssuer(issuer))
  }

  function PreimageOf(namespace: string, name: string, issuer: string): string
    requires BuildSubject(namespace, name).Some?
  {
    KeyPreimage(namespace, name, BuildSubject(namespace, name).value, issuer)
  }

  /** Equal preimages mean equal namespace, name and issuer, unless the name of one side and the issuer of the other
      both hold a line break. */
  lemma KeyPreimageInjective(ns1: string, n1: string, i1: string, ns2: string, n2: string, i2: string)
    requires BuildSubject(ns1, n1).Some? && BuildSubject(ns2, n2).Some?
    requires '\n' !in TrimSpace(n1) || '\n' !in NormalizeIssuer(i2)
    requires '\n' !in TrimSpace(n2) || '\n' !in NormalizeIssuer(i1)
    requires PreimageOf(ns1, n1, i1) == PreimageOf(ns2, n2, i2)
    ensures TrimSpace(ns1) == TrimSpace(ns2) && TrimSpace(n1) == TrimSpace(n2)
    ensures NormalizeIssuer(i1) == NormalizeIssuer(i2)
  {
    hide TrimSpace, NormalizeIssuer;
    var a1, b1, j1 := TrimSpace(ns1), TrimSpace(n1), NormalizeIssuer(i1);
    var a2, b2, j2 := TrimSpace(ns2), TrimSpace(n2), NormalizeIssuer(i2);
    var t1, t2 := Line(SubjectText(a1, b1), j1), Line(SubjectText(a2, b2), j2);
    LineDrop(KUBERNETES, Line(a1 + ['/'] + b1, t1), Line(a2 + ['/'] + b2, t2));
    AfterSlash(a1, b1, t1);
    AfterSlash(a2, b2, t2);
    CutOnce(a1, Line(b1, t1), a2, Line(b2, t2), '/');
    var p := SUBJECT_PREFIX + a1 + [':'];
    if |b1| < |b2| {
      LongerNameNeedsBreaks(p, b1, j1, b2, j2);
    } else if |b2| < |b1| {
      LongerNameNeedsBreaks(p, b2, j2, b1, j1);
    } else {
      SameStart(b1, t1, b2, t2);
      LineDrop(SubjectText(a1, b1), j1, j2);
    }
  }

  lemma AfterSlash(a: string, b: string, t: string)
    ensures Line(a + ['/'] + b, t) == a + ['/'] + Line(b, t)
  {}

  lemma SameStart(b1: string, t1: string, b2: string, t2: string)
    requires Line(b1, t1) == Line(b2, t2) && |b1| == |b2|
    ensures b1 == b2 && t1 == t2
  {
    assert b1 == Line(b1, t1)[..|b1|] && b2 == Line(b2, t2)[..|b2|];
    LineDrop(b1, t1, t2);
  }

  predicate PlainName(s: string) {
    s != "" && Tight(s) && '/' !in s
  }

  lemma PlainLine(x: string, y: string)
    requires PlainName(x) && PlainName(y)
    ensures PlainName(Line(x, y))
  {
    var l := Line(x, y);
    assert l[0] == x[0] && l[|l| - 1] == y[|y| - 1];
  }

  lemma PlainSubject(a: string, b: string)
    requires PlainName(a) && PlainName(b)
    ensures BuildSubject(a, b) == Some(SubjectText(a, b)) && PlainName(SubjectText(a, b))
  {
    TightIsFixed(a);
    TightIsFixed(b);
    var s := SubjectText(a, b);
    assert s[0] == SUBJECT_PREFIX[0] && s[|s| - 1] == b[|b| - 1];
  }

  lemma PlainColon(x: string, y: string)
    requires PlainName(x) && PlainName(y)
    ensures PlainName(x + [':'] + y)
  {
    var j := x + [':'] + y;
    assert j[0] == x[0] && j[|j| - 1] == y[|y| - 1];
  }

  lemma Regroup(p: string, x: string, y: string, z: string)
    ensures p + (x + [':'] + y) + [':'] + z == p + x + [':'] + (y + [':'] + z)
  {}

  /** The subject alone does not determine the owner: a colon can move between namespace and name. */
  lemma SubjectNotInjective(x: string, y: string, z: string)
    requires PlainName(x) && PlainName(y) && PlainName(z)
    ensures BuildSubject(x + [':'] + y, z).Some?
    ensures BuildSubject(x + [':'] + y, z) == BuildSubject(x, y + [':'] + z)
  {
    hide PlainName, BuildSubject;
    PlainColon(x, y);
    PlainColon(y, z);
    PlainSubject(x + [':'] + y, z);
    PlainSubject(x, y + [':'] + z);
    Regroup(SUBJECT_PREFIX, x, y, z);
  }

  /** What a namespace and a name make of themselves between prefix and end. */
  function Joined(a: string, b: string): string {
    a + [':'] + b
  }

  lemma SubjectIsJoined(a: string, b: string, c: string, d: string)
    ensures SubjectText(a, b) == SubjectText(c, d) <==> Joined(a, b) == Joined(c, d)
  {
    assert SubjectText(a, b) == SUBJECT_PREFIX + Joined(a, b) && SubjectText(c, d) == SUBJECT_PREFIX + Joined(c, d);
    assert SubjectText(a, b)[|SUBJECT_PREFIX|..] == Joined(a, b)
           && SubjectText(c, d)[|SUBJECT_PREFIX|..] == Joined(c, d);
  }

  /** A colon at which a text falls into two proper names. */
  predicate SplitsAt(t: string, i: nat) {
    0 < i < |t| - 1 && t[i] == ':' && !IsSpace(t[i - 1]) && !IsSpace(t[i + 1])
  }

  /** The colon between namespace and name is the only one at which the two together fall into two proper names. */
  predicate OneSplit(a: string, b: string) {
    forall i: nat | i < |Joined(a, b)| && SplitsAt(Joined(a, b), i) :: i == |a|
  }

  lemma SplitMakesOwner(a: string, b: string, i: nat)
    requires PlainName(a) && PlainName(b) && SplitsAt(Joined(a, b), i)
    ensures var t := Joined(a, b); PlainName(t[..i]) && PlainName(t[i + 1..]) && Joined(t[..i], t[i + 1..]) == t
  {
    var t := Joined(a, b);
    assert t[0] == a[0] && t[|t| - 1] == b[|b| - 1];
    assert '/' !in t;
    assert forall c | c in t[..i] :: c in t;
    assert forall c | c in t[i + 1..] :: c in t;
  }

  lemma OwnerMakesSplit(a: string, b: string)
    requires PlainName(a) && PlainName(b)
    ensures SplitsAt(Joined(a, b), |a|)
  {}

  lemma SubjectOfTrimmed(namespace: string, name: string)
    ensures BuildSubject(namespace, name).Some? <==> PlainName(TrimSpace(namespace)) && PlainName(TrimSpace(name))
  {
    hide TrimSpace;
    TrimIsTight(namespace);
    TrimIsTight(name);
  }

  /** A subject belongs to one owner exactly when its text falls into two proper names at one colon only. */
  lemma SubjectDeterminesOwnerIff(namespace: string, name: string)
    requires BuildSubject(namespace, name).Some?
    ensures (forall ns, n | BuildSubject(ns, n) == BuildSubject(namespace, name) ::
               TrimSpace(ns) == TrimSpace(namespace) && TrimSpace(n) == TrimSpace(name))
            <==> OneSplit(TrimSpace(namespace), TrimSpace(name))
  {
    hide TrimSpace, PlainName, SplitsAt;
    var a, b := TrimSpace(namespace), TrimSpace(name);
    var t := Joined(a, b);
    SubjectOfTrimmed(namespace, name);
    if OneSplit(a, b) {
      forall ns, n | BuildSubject(ns, n) == BuildSubject(namespace, name)
        ensures TrimSpace(ns) == a && TrimSpace(n) == b
      {
        var c, d := TrimSpace(ns), TrimSpace(n);
        SubjectOfTrimmed(ns, n);
        SubjectIsJoined(a, b, c, d);
        OwnerMakesSplit(c, d);
        assert |c| == |a| && c == t[..|c|] && d == t[|c| + 1..] && a == t[..|a|] && b == t[|a| + 1..];
      }
    } else {
      var i: nat :| i < |t| && SplitsAt(t, i) && i != |a|;
      SplitMakesOwner(a, b, i);
      SubjectIsJoined(a, b, t[..i], t[i + 1..]);
      PlainIsTight(t[..i]);
      PlainIsTight(t[i + 1..]);
      PlainSubject(t[..i], t[i + 1..]);
      assert |t[..i]| != |a|;
      assert BuildSubject(t[..i], t[i + 1..]) == BuildSubject(namespace, name);
    }
  }

  lemma PlainIsTight(s: string)
    requires PlainName(s)
    ensures TrimSpace(s) == s
  {
    TightIsFixed(s);
  }

  lemma NoColonOneSplit(a: string, b: string)
    requires ':' !in a && ':' !in b
    ensures OneSplit(a, b)
  {}

  /** Equal subjects mean equal owners where no namespace holds a colon, and where one of the owners holds none at
      all. */
  lemma SubjectInjective(ns1: string, n1: string, ns2: string, n2: string)
    requires BuildSubject(ns1, n1).Some? && BuildSubject(ns1, n1) == BuildSubject(ns2, n2)
    requires || (':' !in TrimSpace(ns1) && ':' !in TrimSpace(ns2))
             || (':' !in TrimSpace(ns1) && ':' !in TrimSpace(n1))
    ensures TrimSpace(ns1) == TrimSpace(ns2) && TrimSpace(n1) == TrimSpace(n2)
  {
    hide TrimSpace, OneSplit;
    var a, b, c, d := TrimSpace(ns1), TrimSpace(n1), TrimSpace(ns2), TrimSpace(n2);
    SubjectIsJoined(a, b, c, d);
    if ':' !in c {
      CutOnce(a, b, c, d, ':');
    } else {
      NoColonOneSplit(a, b);
      SubjectDeterminesOwnerIff(ns1, n1);
    }
  }

  lemma PlainIssuer(i: string)
    requires PlainName(i)
    ensures NormalizeIssuer(i) == i
  {
    TightIsFixed(i);
  }

  /** With line breaks in names and in issuers the preimage collides: two names, two issuers, one key. */
  lemma KeyPreimageNeedsOneLineNames(a: string, b: string, c: string, d: string) returns (b': string, i: string)
    requires PlainName(a) && PlainName(b) && PlainName(c) && PlainName(d)
    ensures PlainName(b') && b' != b && BuildSubject(a, b).Some? && BuildSubject(a, b').Some?
    ensures TrimSpace(b) == b && TrimSpace(b') == b'
    ensures PreimageOf(a, b, i) == PreimageOf(a, b', d)
  {
    var s := SubjectText(a, b);
    PlainSubject(a, b);
    PlainLine(s, c);
    PlainLine(b, Line(s, c));
    b' := Line(b, Line(s, c));
    var s' := SubjectText(a, b');
    PlainSubject(a, b');
    PlainLine(s', d);
    PlainLine(c, Line(s', d));
    i := Line(c, Line(s', d));
    PlainIssuer(d);
    PlainIssuer(i);
    assert |b'| > |b|;
    Collide(a, b, s, c, s', d);
    TightIsFixed(a);
    TightIsFixed(b);
    TightIsFixed(b');
  }

  /** Which line breaks may be allowed: the preimage determines owner and issuer, whatever they are, exactly when not
      both names and issuers may hold one. */
  lemma KeyPreimageInjectiveIff(nameBreaks: bool, issuerBreaks: bool)
    ensures (forall ns1, n1, i1, ns2, n2, i2 |
               Within(nameBreaks, issuerBreaks, ns1, n1, i1) && Within(nameBreaks, issuerBreaks, ns2, n2, i2)
               && PreimageOf(ns1, n1, i1) == PreimageOf(ns2, n2, i2) ::
               TrimSpace(ns1) == TrimSpace(ns2) && TrimSpace(n1) == TrimSpace(n2)
               && NormalizeIssuer(i1) == NormalizeIssuer(i2))
            <==> !(nameBreaks && issuerBreaks)
  {
    hide TrimSpace, NormalizeIssuer, PreimageOf, BuildSubject;
    if nameBreaks && issuerBreaks {
      PlainLetter();
      var b', i := KeyPreimageNeedsOneLineNames("a", "a", "a", "a");
      assert Within(true, true, "a", "a", i) && Within(true, true, "a", b', "a");
    } else {
      forall ns1, n1, i1, ns2, n2, i2 |
        Within(nameBreaks, issuerBreaks, ns1, n1, i1) && Within(nameBreaks, issuerBreaks, ns2, n2, i2)
        && PreimageOf(ns1, n1, i1) == PreimageOf(ns2, n2, i2)
        ensures TrimSpace(ns1) == TrimSpace(ns2) && TrimSpace(n1) == TrimSpace(n2)
                && NormalizeIssuer(i1) == NormalizeIssuer(i2)
      {
        KeyPreimageInjective(ns1, n1, i1, ns2, n2, i2);
      }
    }
  }

  lemma PlainLetter()
    ensures PlainName("a")
  {}

  lemma Collide(a: string, b: string, s: string, c: string, s': string, d: string)
    ensures Line(a + ['/'] + b, Line(s, Line(c, Line(s', d)))) == Line(a + ['/'] + Line(b, Line(s, c)), Line(s', d))
  {
    var o := a + ['/'] + b;
    assert a + ['/'] + Line(b, Line(s, c)) == Line(o, Line(s, c));
    LineAssociative(o, Line(s, c), Line(s', d));
    LineAssociative(s, c, Line(s', d));
  }

  // ---- display names

  function SanitizeName(s: string): string {
    var t := TrimSpace(s);
    if |t| > 200 then t[..200] else t
  }

  function ServiceAccountName(key: string, nameOverride: string): string {
    var o := TrimSpace(nameOverride);
    SanitizeName(if o != "" then o else "wif-k8s-" + key)
  }

  function FederatedIdentityName(key: string, nameOverride: string): string {
    var o := TrimSpace(nameOverride);
    SanitizeName(if o != "" then o + "-fi" else "wif-k8s-" + key + "-fi")
  }

  function BindingName(key: string): string {
    var n := "wif-k8s-" + key;
    if |n| > 63 then n[..63] else n
  }
}
