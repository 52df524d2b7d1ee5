/** The one provider of the cluster: what the selection means, entry by entry, and what happens without it. */
module Providers {
  import opened Strings
  import opened Subject
  import opened Store
  import opened Protocol

  /** The provider carries the cluster's label. */
  predicate Carries(p: Provider, cluster: string) {
    Get(p.labels, "kubernetes_cluster_id") == TrimSpace(cluster)
  }

  /** One entry carries the label, and it is this provider. */
  ghost predicate OnlyOne(ps: seq<Provider>, cluster: string, p: Provider) {
    exists i | 0 <= i < |ps| ::
      ps[i] == p && Carries(ps[i], cluster) && forall j | 0 <= j < |ps| && j != i :: !Carries(ps[j], cluster)
  }

  ghost predicate Two(ps: seq<Provider>, cluster: string) {
    exists i, j | 0 <= i < j < |ps| :: Carries(ps[i], cluster) && Carries(ps[j], cluster)
  }

  lemma CarriesIsMatch(p: Provider, cluster: string)
    ensures Carries(p, cluster) <==> LabelsMatch(p.labels, map[CLUSTER_ID := TrimSpace(cluster)])
  {
    hide TrimSpace;
    assert CLUSTER_ID in map[CLUSTER_ID := TrimSpace(cluster)];
  }

  lemma {:induction false} ForClusterCounts(ps: seq<Provider>, cluster: string)
    ensures ForCluster(ps, cluster) == [] <==> forall i | 0 <= i < |ps| :: !Carries(ps[i], cluster)
    ensures |ForCluster(ps, cluster)| == 1 ==> OnlyOne(ps, cluster, ForCluster(ps, cluster)[0])
    ensures |ForCluster(ps, cluster)| > 1 <==> Two(ps, cluster)
  {
    hide Carries, LabelsMatch, TrimSpace;
    if ps != [] {
      var n := |ps| - 1;
      var rest := ps[..n];
      ForClusterCounts(rest, cluster);
      CarriesIsMatch(ps[n], cluster);
      assert forall i | 0 <= i < n :: rest[i] == ps[i];
      var found := ForCluster(rest, cluster);
      if Carries(ps[n], cluster) && found != [] {
        var i :| 0 <= i < n && Carries(rest[i], cluster);
        assert Carries(ps[i], cluster) && Carries(ps[n], cluster);
      }
      if Two(rest, cluster) {
        var i, j :| 0 <= i < j < n && Carries(rest[i], cluster) && Carries(rest[j], cluster);
        assert Carries(ps[i], cluster) && Carries(ps[j], cluster);
      }
    }
  }

  lemma OnlyOneIsOne(ps: seq<Provider>, cluster: string, p: Provider, q: Provider)
    requires OnlyOne(ps, cluster, p)
    ensures !Two(ps, cluster) && (OnlyOne(ps, cluster, q) ==> q == p)
    ensures exists i | 0 <= i < |ps| :: Carries(ps[i], cluster)
  {
    hide Carries;
  }

  /** The selection, exactly: one provider if a single entry carries the cluster's label, none if no entry does, several
      if two do. */
  lemma SelectProviderIff(ps: seq<Provider>, cluster: string, p: Provider)
    ensures SelectProvider(ps, cluster) == OneProvider(p) <==> OnlyOne(ps, cluster, p)
    ensures SelectProvider(ps, cluster) == NoProvider <==> forall i | 0 <= i < |ps| :: !Carries(ps[i], cluster)
    ensures SelectProvider(ps, cluster) == SeveralProviders <==> Two(ps, cluster)
  {
    hide Carries, ForCluster;
    ForClusterCounts(ps, cluster);
    if OnlyOne(ps, cluster, p) {
      OnlyOneIsOne(ps, cluster, p, p);
      if |ForCluster(ps, cluster)| == 1 { OnlyOneIsOne(ps, cluster, p, ForCluster(ps, cluster)[0]); }
    }
  }

  /** Without exactly one provider an ensure makes no second call: none there is a reason to wait, two are an error. */
  lemma EnsureNeedsOneProvider(digest: Digest, want: EnsureInput, s: State, script: Script)
    requires || (forall i | 0 <= i < |s.providers| :: !Carries(s.providers[i], want.cluster))
             || Two(s.providers, want.cluster)
    ensures var (p, s', rest) := Exec(digest, StartEnsure(want), s, script);
            && p.Stopped? && s' == s && (want.Valid() ==> rest == Tail(script))
            && (want.Valid() && Head(script) == Ok ==>
                  p.error == if Two(s.providers, want.cluster) then ManyProviders else ProviderNotReady)
  {
    hide Carries, SelectProvider, TrimSpace;
    SelectProviderIff(s.providers, want.cluster, Provider("", "", map[]));
    if want.Valid() {
      ExecStep(digest, FindProvider(want), s, script);
    }
  }
}
