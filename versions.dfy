/** Major versions of the ERP application and the ladders of versions a
    migration walks through.  A version string "N.0" is modelled by its major
    number N, so every comparison of version strings by their float value
    (with a tolerance of 0.001, 0.01 or 0.999) becomes a comparison of
    naturals. */
module Versions {
  import opened PyStr

  /** Default lowest version at which the enterprise upgrade service may be
      entered ("15.0"). */
  const EnterpriseMinimumTarget: nat := 15

  /** The version string "N.0" of major version N. */
  function VersionName(v: nat): (r: string)
    ensures EndsWith(r, ".0")
  {
    NatToString(v) + ".0"
  }

  lemma VersionNameInjective(a: nat, b: nat)
    ensures VersionName(a) == VersionName(b) <==> a == b
  {
    if VersionName(a) == VersionName(b) {
      var sa, sb := NatToString(a), NatToString(b);
      assert sa == VersionName(a)[..|VersionName(a)| - 2];
      assert sb == VersionName(b)[..|VersionName(b)| - 2];
      NatToStringInjective(a, b);
    }
  }

  /** Every major version from `start` up to and including `final` (the
      installed ODOO_VERSION), ascending. */
  function AvailableBuildVersions(start: nat, final: nat): (r: seq<nat>)
    ensures |r| == if start <= final then final - start + 1 else 0
    ensures forall i :: 0 <= i < |r| ==> r[i] == start + i
    decreases final + 1 - start
  {
    if start > final then [] else [start] + AvailableBuildVersions(start + 1, final)
  }

  lemma InBuildVersions(start: nat, final: nat, v: nat)
    ensures v in AvailableBuildVersions(start, final) <==> start <= v <= final
  {
    var r := AvailableBuildVersions(start, final);
    if start <= v <= final {
      assert r[v - start] == v;
    }
  }

  /** Keeps the versions of the ladder that equal `start` or are at least the
      enterprise minimum target. */
  function KeepEnterprise(vs: seq<nat>, start: nat, minTarget: nat): (r: seq<nat>)
    ensures forall v :: v in r <==> v in vs && (v == start || v >= minTarget)
    ensures |r| <= |vs|
  {
    if vs == [] then []
    else if vs[0] == start || vs[0] >= minTarget then [vs[0]] + KeepEnterprise(vs[1..], start, minTarget)
    else KeepEnterprise(vs[1..], start, minTarget)
  }

  /** The versions that need a build when the enterprise service is used:
      the intermediate versions it jumps over are left out. */
  function AvailableEnterpriseBuildVersions(start: nat, minTarget: nat, final: nat): seq<nat> {
    KeepEnterprise(AvailableBuildVersions(start, final), start, minTarget)
  }

  lemma InEnterpriseBuildVersions(start: nat, minTarget: nat, final: nat, v: nat)
    ensures v in AvailableEnterpriseBuildVersions(start, minTarget, final)
            <==> start <= v <= final && (v == start || v >= minTarget)
  {
    InBuildVersions(start, final, v);
  }

  predicate StrictlyAscending(vs: seq<nat>) {
    forall i, j :: 0 <= i < j < |vs| ==> vs[i] < vs[j]
  }

  lemma {:induction false} KeepEnterpriseAscending(vs: seq<nat>, start: nat, minTarget: nat)
    requires StrictlyAscending(vs)
    ensures StrictlyAscending(KeepEnterprise(vs, start, minTarget))
  {
    if vs != [] {
      assert StrictlyAscending(vs[1..]);
      KeepEnterpriseAscending(vs[1..], start, minTarget);
      var rest := KeepEnterprise(vs[1..], start, minTarget);
      forall v | v in rest ensures vs[0] < v {
        var k :| 0 <= k < |vs[1..]| && vs[1..][k] == v;
        assert vs[k + 1] == v;
      }
      if vs[0] == start || vs[0] >= minTarget {
        var r := [vs[0]] + rest;
        forall i, j | 0 <= i < j < |r| ensures r[i] < r[j] {
          assert r[j] == rest[j - 1] && r[j] in rest;
          if i > 0 { assert r[i] == rest[i - 1]; }
        }
      }
    }
  }

  /** The enterprise ladder is strictly ascending, is never empty and starts
      with `start`; which later versions it holds is stated by
      InEnterpriseBuildVersions. */
  lemma EnterpriseLadderShape(start: nat, minTarget: nat, final: nat)
    requires start <= final
    ensures var r := AvailableEnterpriseBuildVersions(start, minTarget, final);
            StrictlyAscending(r) && r != [] && r[0] == start
  {
    var all := AvailableBuildVersions(start, final);
    KeepEnterpriseAscending(all, start, minTarget);
    assert all[0] == start;
  }
}
