/** Views of the store by owner: what an owner's labels select, what they leave, and whom bindings grant to. */
module Ownership {
  import opened Strings
  import opened Subject
  import opened Store
  import opened Protocol

  /** The resources carrying the wanted labels, in order. */
  function Select<T>(xs: seq<Resource<T>>, want: Labels): seq<Resource<T>> {
    if xs == [] then []
    else if LabelsMatch(xs[0].labels, want) then [xs[0]] + Select(xs[1..], want) else Select(xs[1..], want)
  }

  /** The resources not carrying them, in order. */
  function Others<T>(xs: seq<Resource<T>>, want: Labels): seq<Resource<T>> {
    if xs == [] then []
    else if LabelsMatch(xs[0].labels, want) then Others(xs[1..], want) else [xs[0]] + Others(xs[1..], want)
  }

  /** The bindings that grant to one account (or to none), in order. */
  function GrantsOf(bs: seq<Binding>, account: Option<string>): seq<Binding> {
    if bs == [] then []
    else if bs[0].info.account == account then [bs[0]] + GrantsOf(bs[1..], account) else GrantsOf(bs[1..], account)
  }

  /** The bindings the controller did not label, in order. */
  function Unmanaged(bs: seq<Binding>): seq<Binding> {
    if bs == [] then []
    else if Managed(bs[0].labels) then Unmanaged(bs[1..]) else [bs[0]] + Unmanaged(bs[1..])
  }

  ghost predicate Has<T>(xs: seq<Resource<T>>, id: string, want: Labels) {
    exists x | x in xs :: x.id == id && LabelsMatch(x.labels, want)
  }

  ghost predicate DistinctIds<T>(xs: seq<Resource<T>>) {
    forall i, j | 0 <= i < j < |xs| :: xs[i].id != xs[j].id
  }

  /** Identities the service has given out so far: none of those still to come. */
  ghost predicate Issued(next: nat, id: string) {
    forall k: nat | k >= next :: id != FreshId(k)
  }

  // ---- the views of a list grow and shrink with it

  lemma {:induction false} SelectFacts<T>(xs: seq<Resource<T>>, want: Labels)
    ensures forall x :: x in Select(xs, want) <==> x in xs && LabelsMatch(x.labels, want)
    ensures Find(xs, want) == if Select(xs, want) == [] then None else Some(Select(xs, want)[0])
  {
    hide LabelsMatch;
    if xs != [] {
      SelectFacts(xs[1..], want);
      assert xs == [xs[0]] + xs[1..];
    }
  }

  lemma {:induction false} SelectSnoc<T>(xs: seq<Resource<T>>, x: Resource<T>, want: Labels)
    ensures Select(xs + [x], want) == if LabelsMatch(x.labels, want) then Select(xs, want) + [x] else Select(xs, want)
    ensures Others(xs + [x], want) == if LabelsMatch(x.labels, want) then Others(xs, want) else Others(xs, want) + [x]
  {
    hide LabelsMatch;
    if xs != [] {
      assert (xs + [x])[1..] == xs[1..] + [x];
      SelectSnoc(xs[1..], x, want);
    }
  }

  lemma {:induction false} SelectWithout<T>(xs: seq<Resource<T>>, id: string, want: Labels)
    ensures Select(Without(xs, id), want) == Without(Select(xs, want), id)
    ensures (forall x | x in xs && x.id == id :: LabelsMatch(x.labels, want)) ==>
              Others(Without(xs, id), want) == Others(xs, want)
    ensures |Without(xs, id)| <= |xs|
  {
    hide LabelsMatch;
    if xs != [] {
      SelectWithout(xs[1..], id, want);
      assert xs == [xs[0]] + xs[1..];
    }
  }

  lemma {:induction false} SelectReplace<T>(xs: seq<Resource<T>>, y: Resource<T>, want: Labels)
    requires forall x | x in xs && x.id == y.id :: LabelsMatch(x.labels, want) <==> LabelsMatch(y.labels, want)
    ensures Select(Replace(xs, y), want) == Replace(Select(xs, want), y)
    ensures LabelsMatch(y.labels, want) ==> Others(Replace(xs, y), want) == Others(xs, want)
  {
    hide LabelsMatch;
    if xs != [] {
      assert xs == [xs[0]] + xs[1..];
      SelectReplace(xs[1..], y, want);
    }
  }

  /** What one owner selects lies among the others of a different owner. */
  lemma {:induction false} SelectAmongOthers<T>(xs: seq<Resource<T>>, k1: string, ns1: string, n1: string,
                                                k2: string, ns2: string, n2: string)
    requires k1 != k2 || ns1 != ns2 || n1 != n2
    ensures Select(Others(xs, OwnershipLabels(k1, ns1, n1)), OwnershipLabels(k2, ns2, n2))
         == Select(xs, OwnershipLabels(k2, ns2, n2))
  {
    hide LabelsMatch, OwnershipLabels;
    if xs != [] {
      var own, want := OwnershipLabels(k1, ns1, n1), OwnershipLabels(k2, ns2, n2);
      SelectAmongOthers(xs[1..], k1, ns1, n1, k2, ns2, n2);
      assert !LabelsMatch(xs[0].labels, own) ==> Others(xs, own)[1..] == Others(xs[1..], own);
      if LabelsMatch(xs[0].labels, OwnershipLabels(k1, ns1, n1))
         && LabelsMatch(xs[0].labels, OwnershipLabels(k2, ns2, n2)) {
        OwnersAreSeparate(xs[0].labels, k1, ns1, n1, k2, ns2, n2);
      }
    }
  }

  lemma {:induction false} GrantsFacts(bs: seq<Binding>, account: Option<string>)
    ensures forall b :: b in GrantsOf(bs, account) <==> b in bs && b.info.account == account
  {
    if bs != [] {
      GrantsFacts(bs[1..], account);
      assert bs == [bs[0]] + bs[1..];
    }
  }

  lemma {:induction false} GrantsSnoc(bs: seq<Binding>, b: Binding, account: Option<string>)
    ensures GrantsOf(bs + [b], account)
              == if b.info.account == account then GrantsOf(bs, account) + [b] else GrantsOf(bs, account)
    ensures Unmanaged(bs + [b]) == if Managed(b.labels) then Unmanaged(bs) else Unmanaged(bs) + [b]
  {
    hide Managed;
    if bs != [] {
      assert (bs + [b])[1..] == bs[1..] + [b];
      GrantsSnoc(bs[1..], b, account);
    }
  }

  lemma {:induction false} GrantsWithout(bs: seq<Binding>, id: string, account: Option<string>)
    ensures GrantsOf(Without(bs, id), account) == Without(GrantsOf(bs, account), id)
    ensures |GrantsOf(Without(bs, id), account)| <= |GrantsOf(bs, account)|
    ensures (forall b | b in bs && b.id == id :: b.info.account != account) ==>
              GrantsOf(Without(bs, id), account) == GrantsOf(bs, account)
    ensures (forall b | b in bs && b.id == id :: Managed(b.labels)) ==> Unmanaged(Without(bs, id)) == Unmanaged(bs)
  {
    hide Managed;
    if bs != [] {
      GrantsWithout(bs[1..], id, account);
      assert bs == [bs[0]] + bs[1..];
    }
  }

  lemma {:induction false} UnmanagedFacts(bs: seq<Binding>)
    ensures forall b :: b in Unmanaged(bs) <==> b in bs && !Managed(b.labels)
  {
    hide Managed;
    if bs != [] {
      UnmanagedFacts(bs[1..]);
      assert bs == [bs[0]] + bs[1..];
    }
  }

  lemma {:induction false} RemovableFacts(bs: seq<Binding>, account: string)
    ensures forall b :: b in Removable(bs, account) <==> b in bs && GrantsTo(b, account) && Managed(b.labels)
  {
    hide Managed;
    if bs != [] {
      RemovableFacts(bs[1..], account);
      assert bs == [bs[0]] + bs[1..];
    }
  }

  // ---- identities

  lemma {:induction false} DistinctWithout<T>(xs: seq<Resource<T>>, id: string)
    requires DistinctIds(xs)
    ensures DistinctIds(Without(xs, id))
  {
    if xs != [] {
      var rest := Without(xs[1..], id);
      DistinctWithout(xs[1..], id);
      forall i | 0 <= i < |rest|
        ensures rest[i].id != xs[0].id
      {
        WithoutMember(xs[1..], id, rest[i]);
      }
    }
  }

  lemma DistinctSnoc<T>(xs: seq<Resource<T>>, x: Resource<T>)
    requires DistinctIds(xs) && forall y | y in xs :: y.id != x.id
    ensures DistinctIds(xs + [x])
  {}

  lemma SameIdSame<T>(xs: seq<Resource<T>>, x: Resource<T>, y: Resource<T>)
    requires DistinctIds(xs) && x in xs && y in xs && x.id == y.id
    ensures x == y
  {}

  lemma IssuedLater(m: nat, n: nat, id: string)
    requires Issued(m, id) && m <= n
    ensures Issued(n, id)
  {}

  lemma FreshIsIssued(n: nat)
    ensures Issued(n + 1, FreshId(n)) && !Issued(n, FreshId(n))
  {
    forall k: nat | k >= n + 1
      ensures FreshId(n) != FreshId(k)
    {
      if FreshId(n) == FreshId(k) { FreshIdInjective(n, k); }
    }
  }
}
