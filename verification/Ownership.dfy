/** `matchers`: what the series a caller may see have in their labels. */
module Ownership {
  import opened Regex
  import opened Prefixes
  import opened Labels

  const NAMESPACE := "cms"
  const NAMESPACE_LABELS := ["namespace", "exported_namespace", "claim_namespace", "service_namespace"]
  const IDENTITY_LABELS := ["username", "user"]
  const SHARED_IDENTITY := "fake"
  const OBJECT_LABELS := [
    "configmap", "created_by_name", "deployment", "endpoint", "exported_job", "exported_pod", "exported_service",
    "job", "job_name", "name", "networkpolicy", "owner", "owner_name", "persistentvolumeclaim", "pod",
    "ray_cluster", "replicaset", "secret", "service", "service_account", "volume", "workload"]
  const SHARED_PREFIX := "ray-train-gateway"

  const DIGITS := "0123456789"
  const HEX := "0123456789abcdef"

  function Each(stem: string, chars: string): (r: seq<string>)
    ensures |r| == |chars| && forall i :: 0 <= i < |r| ==> r[i] == stem + [chars[i]]
  {
    seq(|chars|, i requires 0 <= i < |chars| => stem + [chars[i]])
  }

  const FIXED_PREFIXES := ["dask-scheduler-", "dask-worker-", "ray-job-", "ray-train-", "claim-", "volume-"]

  /** Name prefixes of a person's objects. */
  function UserPrefixes(): seq<string> {
    FIXED_PREFIXES + Each("purdue-af-", DIGITS) + Each("dask-", HEX)
  }

  /** A caller, and the regular names and Dask clusters that are theirs, each listed once in any order. */
  datatype Owned = Owned(username: string, objects: seq<string>, clusters: seq<string>)

  const KINDS := ["scheduler-", "worker-", "credentials-", ""]

  function Literals(texts: seq<string>): (r: seq<Regex>)
    ensures |r| == |texts| && forall i :: 0 <= i < |r| ==> r[i] == Lit(texts[i])
  {
    seq(|texts|, i requires 0 <= i < |texts| => Lit(texts[i]))
  }

  /** `dask-(?:scheduler-|worker-|credentials-)?<cluster>(?:-.*)?` */
  function DaskObjects(cluster: string): Regex {
    Cat(Lit("dask-"), Cat(Alt(Literals(KINDS)), Cat(Lit(cluster), Alt([Cat(Lit("-"), AnyTail), Lit("")]))))
  }

  function ClusterObjects(clusters: seq<string>): (r: seq<Regex>)
    ensures |r| == |clusters| && forall i :: 0 <= i < |r| ==> r[i] == DaskObjects(clusters[i])
  {
    seq(|clusters|, i requires 0 <= i < |clusters| => DaskObjects(clusters[i]))
  }

  /** The value of every object label's matcher. */
  function AllowedObjects(owned: Owned): Regex {
    Alt([Walk(Build(UserPrefixes(), |UserPrefixes()|))] + ([Cat(Lit(SHARED_PREFIX), AnyTail)]
        + (Literals(owned.objects) + ClusterObjects(owned.clusters))))
  }

  function People(owned: Owned): Regex {
    Alt([Lit(""), Lit(SHARED_IDENTITY)] + if owned.username == "" then [] else [Lit(owned.username)])
  }

  function For(names: seq<string>, value: Regex): (r: seq<Matcher>)
    ensures |r| == |names| && forall i :: 0 <= i < |r| ==> r[i] == Matcher(names[i], Regexp, value)
  {
    seq(|names|, i requires 0 <= i < |names| => Matcher(names[i], Regexp, value))
  }

  function Matchers(owned: Owned): seq<Matcher> {
    For(NAMESPACE_LABELS, Alt([Lit(""), Lit(NAMESPACE)])) + For(IDENTITY_LABELS, People(owned))
    + For(OBJECT_LABELS, AllowedObjects(owned))
  }

  // ----- what the matchers let through -----

  predicate Persons(name: string) {
    StartsWithAny(UserPrefixes(), name)
  }

  /** A name of the Dask cluster's: `dask-`, a kind, the cluster, and anything after a hyphen. */
  predicate DaskName(cluster: string, kind: string, name: string) {
    var stem := "dask-" + kind + cluster;
    name == stem || stem + "-" <= name
  }

  predicate OfCluster(cluster: string, name: string) {
    exists i :: 0 <= i < |KINDS| && DaskName(cluster, KINDS[i], name)
  }

  predicate Own(owned: Owned, name: string) {
    name in owned.objects || exists i :: 0 <= i < |owned.clusters| && OfCluster(owned.clusters[i], name)
  }

  predicate AllowedObject(owned: Owned, name: string) {
    !Persons(name) || SHARED_PREFIX <= name || Own(owned, name)
  }

  lemma {:induction false} UserPrefixesProper()
    ensures Proper(UserPrefixes())
  {
    var ps := UserPrefixes();
    var fixed, sessions := |FIXED_PREFIXES|, |DIGITS|;
    forall i | 0 <= i < |ps| ensures ps[i] != "" {
      if i < fixed {
        assert ps[i] == FIXED_PREFIXES[i];
      } else if i < fixed + sessions {
        assert ps[i] == Each("purdue-af-", DIGITS)[i - fixed];
      } else {
        assert ps[i] == Each("dask-", HEX)[i - fixed - sessions];
      }
    }
  }

  lemma {:induction false} AltLiterals(texts: seq<string>, s: string)
    ensures Matches(Alt(Literals(texts)), s) <==> s in texts
  {
    if s in texts {
      var i :| 0 <= i < |texts| && texts[i] == s;
      assert Matches(Literals(texts)[i], s);
    }
  }

  lemma {:induction false} TailMatches(s: string)
    ensures Matches(Alt([Cat(Lit("-"), AnyTail), Lit("")]), s) <==> s == "" || s[0] == '-'
  {
    var parts := [Cat(Lit("-"), AnyTail), Lit("")];
    CatLit("-", AnyTail, s);
    assert "-" <= s <==> s != "" && s[0] == '-';
    if s == "" {
      assert Matches(parts[1], s);
    } else if s[0] == '-' {
      assert Matches(parts[0], s);
    }
  }

  /** The rest of a name after its kind: the cluster, then nothing or a hyphen. */
  lemma {:induction false} ClusterTail(cluster: string, s: string)
    ensures Matches(Cat(Lit(cluster), Alt([Cat(Lit("-"), AnyTail), Lit("")])), s) <==>
            s == cluster || cluster + "-" <= s
  {
    CatLit(cluster, Alt([Cat(Lit("-"), AnyTail), Lit("")]), s);
    if cluster <= s {
      TailMatches(s[|cluster|..]);
      assert s == cluster + s[|cluster|..];
    }
  }

  lemma {:induction false} CatLiterals(texts: seq<string>, right: Regex, s: string)
    ensures Matches(Cat(Alt(Literals(texts)), right), s) <==>
              exists i :: 0 <= i < |texts| && texts[i] <= s && Matches(right, s[|texts[i]|..])
  {
    var left := Alt(Literals(texts));
    if Matches(Cat(left, right), s) {
      var k :| 0 <= k <= |s| && Matches(left, s[..k]) && Matches(right, s[k..]);
      AltLiterals(texts, s[..k]);
      var i :| 0 <= i < |texts| && texts[i] == s[..k];
      assert texts[i] <= s && |texts[i]| == k;
    }
    if i :| 0 <= i < |texts| && texts[i] <= s && Matches(right, s[|texts[i]|..]) {
      var k := |texts[i]|;
      AltLiterals(texts, s[..k]);
      assert s[..k] == texts[i];
      assert Matches(left, s[..k]) && Matches(right, s[k..]);
    }
  }

  lemma {:induction false} PrefixOfCat(a: string, b: string, s: string)
    ensures a + b <= s <==> a <= s && b <= s[|a|..]
    ensures a + b == s <==> a <= s && b == s[|a|..]
  {
    if a <= s {
      assert s == a + s[|a|..];
    }
  }

  lemma {:induction false} DaskNameParts(cluster: string, kind: string, s: string)
    ensures DaskName(cluster, kind, s) <==>
              "dask-" <= s && kind <= s[5..] && (s[5..][|kind|..] == cluster || cluster + "-" <= s[5..][|kind|..])
  {
    var before := "dask-" + kind;
    assert "dask-" + kind + cluster == before + cluster;
    assert before + cluster + "-" == before + (cluster + "-");
    PrefixOfCat("dask-", kind, s);
    PrefixOfCat(before, cluster, s);
    PrefixOfCat(before, cluster + "-", s);
    if before <= s {
      assert s[|before|..] == s[5..][|kind|..];
    }
  }

  lemma {:induction false} DaskObjectsExact(cluster: string, s: string)
    ensures Matches(DaskObjects(cluster), s) <==> OfCluster(cluster, s)
  {
    var tail := Cat(Lit(cluster), Alt([Cat(Lit("-"), AnyTail), Lit("")]));
    CatLit("dask-", Cat(Alt(Literals(KINDS)), tail), s);
    if "dask-" <= s {
      CatLiterals(KINDS, tail, s[5..]);
    }
    forall i | 0 <= i < |KINDS|
      ensures DaskName(cluster, KINDS[i], s) <==>
                "dask-" <= s && KINDS[i] <= s[5..] && Matches(tail, s[5..][|KINDS[i]|..])
    {
      DaskNameParts(cluster, KINDS[i], s);
      if "dask-" <= s && KINDS[i] <= s[5..] {
        ClusterTail(cluster, s[5..][|KINDS[i]|..]);
      }
    }
  }

  /** An object label gets through iff it is no person's, a shared component's, or the caller's own. */
  lemma {:induction false} AllowedObjectsExact(owned: Owned, s: string)
    ensures Matches(AllowedObjects(owned), s) <==> AllowedObject(owned, s)
  {
    UserPrefixesProper();
    ExcludesExactly(UserPrefixes());
    var first := Walk(Build(UserPrefixes(), |UserPrefixes()|));
    var shared := Cat(Lit(SHARED_PREFIX), AnyTail);
    var own := Literals(owned.objects) + ClusterObjects(owned.clusters);
    AltCons(first, [shared] + own, s);
    AltCons(shared, own, s);
    CatLit(SHARED_PREFIX, AnyTail, s);
    AltAppend(Literals(owned.objects), ClusterObjects(owned.clusters), s);
    AltLiterals(owned.objects, s);
    forall i | 0 <= i < |owned.clusters| ensures Matches(ClusterObjects(owned.clusters)[i], s) <==>
        OfCluster(owned.clusters[i], s) {
      DaskObjectsExact(owned.clusters[i], s);
    }
    assert Matches(first, s) <==> !Persons(s);
  }

  predicate AllowedNamespace(name: string) {
    name == "" || name == NAMESPACE
  }

  predicate AllowedPerson(owned: Owned, name: string) {
    name == "" || name == SHARED_IDENTITY || name == owned.username
  }

  lemma {:induction false} ForAll(names: seq<string>, value: Regex, labels: LabelSet)
    ensures SatisfiesAll(For(names, value), labels) <==>
              forall i :: 0 <= i < |names| ==> Matches(value, Value(labels, names[i]))
  {
    var ms := For(names, value);
    if SatisfiesAll(ms, labels) {
      forall i | 0 <= i < |names| ensures Matches(value, Value(labels, names[i])) {
        assert Satisfies(ms[i], labels);
      }
    }
  }

  lemma {:induction false} SatisfiesAllAppend(a: seq<Matcher>, b: seq<Matcher>, labels: LabelSet)
    ensures SatisfiesAll(a + b, labels) <==> SatisfiesAll(a, labels) && SatisfiesAll(b, labels)
  {
    if SatisfiesAll(a + b, labels) {
      forall i | 0 <= i < |a| ensures Satisfies(a[i], labels) {
        assert (a + b)[i] == a[i];
      }
      forall i | 0 <= i < |b| ensures Satisfies(b[i], labels) {
        assert (a + b)[|a| + i] == b[i];
      }
    }
  }

  lemma {:induction false} PeopleExact(owned: Owned, s: string)
    ensures Matches(People(owned), s) <==> AllowedPerson(owned, s)
  {
    var known := [Lit(""), Lit(SHARED_IDENTITY)];
    var named := if owned.username == "" then [] else [Lit(owned.username)];
    AltAppend(known, named, s);
    assert Matches(Alt(known), s) <==> Matches(known[0], s) || Matches(known[1], s);
    if owned.username != "" {
      assert Matches(Alt(named), s) <==> Matches(named[0], s);
    }
  }

  lemma {:induction false} NamespaceExact(s: string)
    ensures Matches(Alt([Lit(""), Lit(NAMESPACE)]), s) <==> AllowedNamespace(s)
  {
    var parts := [Lit(""), Lit(NAMESPACE)];
    assert Matches(Alt(parts), s) <==> Matches(parts[0], s) || Matches(parts[1], s);
  }

  /** A series a caller may see: in cms or no namespace, of no other person, naming no other person's object. */
  predicate MaySee(owned: Owned, labels: LabelSet) {
    && (forall i :: 0 <= i < |NAMESPACE_LABELS| ==> AllowedNamespace(Value(labels, NAMESPACE_LABELS[i])))
    && (forall i :: 0 <= i < |IDENTITY_LABELS| ==> AllowedPerson(owned, Value(labels, IDENTITY_LABELS[i])))
    && (forall i :: 0 <= i < |OBJECT_LABELS| ==> AllowedObject(owned, Value(labels, OBJECT_LABELS[i])))
  }

  /** A series gets through iff each of its labels may: a label it lacks never stands in its way. */
  lemma {:induction false} VisibleExactly(owned: Owned, labels: LabelSet)
    ensures SatisfiesAll(Matchers(owned), labels) <==> MaySee(owned, labels)
  {
    var spaces := Alt([Lit(""), Lit(NAMESPACE)]);
    var a, b, c := For(NAMESPACE_LABELS, spaces), For(IDENTITY_LABELS, People(owned)),
        For(OBJECT_LABELS, AllowedObjects(owned));
    SatisfiesAllAppend(a + b, c, labels);
    SatisfiesAllAppend(a, b, labels);
    ForAll(NAMESPACE_LABELS, spaces, labels);
    ForAll(IDENTITY_LABELS, People(owned), labels);
    ForAll(OBJECT_LABELS, AllowedObjects(owned), labels);
    forall s ensures Matches(spaces, s) <==> AllowedNamespace(s) { NamespaceExact(s); }
    forall s ensures Matches(People(owned), s) <==> AllowedPerson(owned, s) { PeopleExact(owned, s); }
    forall s ensures Matches(AllowedObjects(owned), s) <==> AllowedObject(owned, s) { AllowedObjectsExact(owned, s); }
  }

  // ----- one person's clusters and another's -----

  /** A cluster's id, as the scheduler's pod name gives it. */
  predicate HexId(id: string) {
    id != "" && forall i :: 0 <= i < |id| ==> id[i] in HEX
  }

  /** Whether `rest` is the cluster's id, alone or with a hyphen after it. */
  predicate IdThen(id: string, rest: string) {
    rest == id || id + "-" <= rest
  }

  lemma {:induction false} IdDetermined(c: string, d: string, rest: string)
    requires HexId(c) && HexId(d) && IdThen(c, rest) && IdThen(d, rest)
    ensures |d| <= |c|
  {
    assert rest != c ==> rest[|c|] == (c + "-")[|c|];
    assert forall i :: 0 <= i < |d| ==> rest[i] == d[i];
  }

  /** The kind of object, read off the first two characters after `dask-`. */
  function KindOf(u: string): nat {
    if |u| > 0 && u[0] == 's' then 0 else if |u| > 0 && u[0] == 'w' then 1 else if |u| > 1 && u[1] == 'r' then 2 else 3
  }

  lemma {:induction false} KindDetermined(id: string, k: nat, u: string)
    requires HexId(id) && k < |KINDS| && KINDS[k] <= u && IdThen(id, u[|KINDS[k]|..])
    ensures KindOf(u) == k
  {
    if k == 3 {
      var rest := u[0..];
      assert rest == u && id <= u;
      assert u[0] == id[0];
      if |u| > 1 {
        if |id| > 1 {
          assert u[1] == id[1];
        } else {
          assert u[1] == (id + "-")[1];
        }
      }
    } else {
      assert u[0] == KINDS[k][0] && u[1] == KINDS[k][1];
    }
  }

  /** No name belongs to two clusters. */
  lemma {:induction false} ClustersApart(c: string, d: string, name: string)
    requires HexId(c) && HexId(d) && OfCluster(c, name) && OfCluster(d, name)
    ensures c == d
  {
    var i :| 0 <= i < |KINDS| && DaskName(c, KINDS[i], name);
    var j :| 0 <= j < |KINDS| && DaskName(d, KINDS[j], name);
    DaskNameParts(c, KINDS[i], name);
    DaskNameParts(d, KINDS[j], name);
    var u := name[5..];
    KindDetermined(c, i, u);
    KindDetermined(d, j, u);
    var rest := u[|KINDS[i]|..];
    IdDetermined(c, d, rest);
    IdDetermined(d, c, rest);
    assert c == rest[..|c|] == d;
  }

  lemma {:induction false} FixedIsPersons(k: nat, name: string)
    requires k < |FIXED_PREFIXES| && FIXED_PREFIXES[k] <= name
    ensures Persons(name)
  {
    assert UserPrefixes()[k] == FIXED_PREFIXES[k];
  }

  lemma {:induction false} HexIsPersons(name: string)
    requires "dask-" <= name && |name| > 5 && name[5] in HEX
    ensures Persons(name)
  {
    var h :| 0 <= h < |HEX| && HEX[h] == name[5];
    var before := FIXED_PREFIXES + Each("purdue-af-", DIGITS);
    assert UserPrefixes()[|before| + h] == Each("dask-", HEX)[h];
    PrefixOfCat("dask-", [name[5]], name);
  }

  lemma {:induction false} FixedAfterDask(d: string, k: nat, name: string)
    requires k < 2 && DaskName(d, KINDS[k], name)
    ensures FIXED_PREFIXES[k] <= name
  {
    DaskNameParts(d, KINDS[k], name);
    PrefixOfCat("dask-", KINDS[k], name);
    if k == 0 {
      assert FIXED_PREFIXES[0] == "dask-" + KINDS[0];
    } else {
      assert FIXED_PREFIXES[1] == "dask-" + KINDS[1];
    }
  }

  /** A cluster's other objects go on with a hexadecimal digit after `dask-`: its id's, or the c of credentials. */
  lemma {:induction false} DigitAfterDask(d: string, k: nat, name: string)
    requires HexId(d) && 2 <= k < |KINDS| && DaskName(d, KINDS[k], name)
    ensures "dask-" <= name && |name| > 5 && name[5] in HEX
  {
    DaskNameParts(d, KINDS[k], name);
    var u := name[5..];
    if k == 2 {
      assert u[0] == KINDS[2][0] == HEX[12];
    } else {
      assert u[|KINDS[3]|..] == u && d <= u;
      assert u[0] == d[0];
    }
  }

  /** Every object of a Dask cluster is some person's. */
  lemma {:induction false} ClusterIsPersons(d: string, name: string)
    requires HexId(d) && OfCluster(d, name)
    ensures Persons(name)
  {
    var k :| 0 <= k < |KINDS| && DaskName(d, KINDS[k], name);
    if k < 2 {
      FixedAfterDask(d, k, name);
      FixedIsPersons(k, name);
    } else {
      DigitAfterDask(d, k, name);
      HexIsPersons(name);
    }
  }

  /** A caller does not see the objects of a Dask cluster that is not theirs. */
  lemma {:induction false} OthersClusterHidden(owned: Owned, d: string, name: string)
    requires forall i :: 0 <= i < |owned.clusters| ==> HexId(owned.clusters[i])
    requires HexId(d) && d !in owned.clusters && OfCluster(d, name) && name !in owned.objects
    ensures !Matches(AllowedObjects(owned), name)
  {
    AllowedObjectsExact(owned, name);
    ClusterIsPersons(d, name);
    var k :| 0 <= k < |KINDS| && DaskName(d, KINDS[k], name);
    DaskNameParts(d, KINDS[k], name);
    assert name[0] == "dask-"[0] != SHARED_PREFIX[0];
    forall i | 0 <= i < |owned.clusters| ensures !OfCluster(owned.clusters[i], name) {
      if OfCluster(owned.clusters[i], name) {
        ClustersApart(owned.clusters[i], d, name);
      }
    }
  }

  /** A caller does not see another person's session, `purdue-af-` and a number. */
  lemma {:induction false} OthersSessionHidden(owned: Owned, digit: nat, rest: string)
    requires digit < |DIGITS| && "purdue-af-" + [DIGITS[digit]] + rest !in owned.objects
    ensures !Matches(AllowedObjects(owned), "purdue-af-" + [DIGITS[digit]] + rest)
  {
    var stem := "purdue-af-" + [DIGITS[digit]];
    var name := stem + rest;
    AllowedObjectsExact(owned, name);
    assert name[0] == "purdue-af-"[0] == 'p';
    assert stem <= name && UserPrefixes()[|FIXED_PREFIXES| + digit] == Each("purdue-af-", DIGITS)[digit];
    assert SHARED_PREFIX[0] == 'r';
    forall i | 0 <= i < |owned.clusters| ensures !OfCluster(owned.clusters[i], name) {
      NotOfCluster(owned.clusters[i], name);
    }
  }

  lemma {:induction false} NotOfCluster(c: string, name: string)
    requires name == "" || name[0] != 'd'
    ensures !OfCluster(c, name)
  {
    forall i | 0 <= i < |KINDS| ensures !DaskName(c, KINDS[i], name) {
      DaskNameParts(c, KINDS[i], name);
      assert "dask-"[0] == 'd';
    }
  }
}
