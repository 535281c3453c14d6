/**
 The names the operator renders, the keys they make, and why two resources never share one.
 */
module Names {
  import opened Api

  predicate IsDigit(c: char) { '0' <= c <= '9' }

  predicate AllDigits(s: string) { forall i | 0 <= i < |s| :: IsDigit(s[i]) }

  function DigitValue(c: char): (n: nat)
    requires IsDigit(c)
    ensures n < 10
  {
    c as int - '0' as int
  }

  /** The decimal rendering of a natural number, as `%d` prints it. */
  function Decimal(n: nat): (s: string)
    ensures s != "" && AllDigits(s)
  {
    var last := [('0' as int + n % 10) as char];
    if n < 10 then last else Decimal(n / 10) + last
  }

  /** The number a string of digits denotes, leading zeros included. */
  function Value(s: string): nat
    requires AllDigits(s)
  {
    if s == "" then 0 else 10 * Value(s[..|s| - 1]) + DigitValue(s[|s| - 1])
  }

  lemma {:induction false} ValueOfDecimal(n: nat)
    ensures Value(Decimal(n)) == n
  {
    var s := Decimal(n);
    if n >= 10 {
      ValueOfDecimal(n / 10);
      assert s[..|s| - 1] == Decimal(n / 10);
    }
  }

  /** A numeral as people write it: no leading zero. */
  predicate Canonical(s: string) {
    s != "" && AllDigits(s) && (|s| > 1 ==> s[0] != '0')
  }

  lemma {:induction false} DecimalCanonical(n: nat)
    ensures Canonical(Decimal(n)) && (n > 0 ==> Decimal(n)[0] != '0')
  {
    if n >= 10 {
      DecimalCanonical(n / 10);
    }
  }

  lemma {:induction false} ValuePositive(s: string)
    requires AllDigits(s) && s != "" && s[0] != '0'
    ensures Value(s) > 0
    decreases |s|
  {
    if |s| > 1 {
      ValuePositive(s[..|s| - 1]);
    } else {
      assert s[..0] == "";
    }
  }

  /** Rendering and reading are inverse on canonical numerals, so the rendering of a number is the one without leading zeros. */
  lemma {:induction false} DecimalOfValue(s: string)
    requires Canonical(s)
    ensures Decimal(Value(s)) == s
    decreases |s|
  {
    var front, d := s[..|s| - 1], DigitValue(s[|s| - 1]);
    if |s| == 1 {
      assert front == "";
    } else {
      DecimalOfValue(front);
      ValuePositive(front);
      assert Value(s) / 10 == Value(front);
    }
    assert s == front + [s[|s| - 1]];
  }

  predicate IsAlphanumeric(c: char) { IsDigit(c) || 'a' <= c <= 'z' }

  const LONGEST_NAME := 253

  /** DNS-1123 subdomains: what the API server accepts as the name of a custom resource (section 2.1 of RFC 1123). */
  predicate DnsName(s: string) {
    && 0 < |s| <= LONGEST_NAME
    && IsAlphanumeric(s[0])
    && IsAlphanumeric(s[|s| - 1])
    && forall i | 0 < i < |s| - 1 ::
         || IsAlphanumeric(s[i])
         || s[i] == '-'
         || (s[i] == '.' && IsAlphanumeric(s[i - 1]) && IsAlphanumeric(s[i + 1]))
  }

  // ----- Keys of a SingleInstance -----

  function InstanceKey(id: Id): Key { Key(InstanceKind, id.ns, id.name) }

  function DeploymentKey(id: Id): Key { Key(DeploymentKind, id.ns, id.name) }

  function ServiceKey(id: Id): Key { Key(ServiceKind, id.ns, id.name) }

  function ConfigKey(id: Id): Key { Key(ConfigMapKind, id.ns, id.name + "-config") }

  function ClaimKey(id: Id): Key { Key(ClaimKind, id.ns, id.name + "db") }

  /** The claims and the ConfigMap that teardown names; the ConfigMap lacks the dash of `ConfigKey`. */
  function OldClaimKey(id: Id, ordinal: nat): Key { Key(ClaimKind, id.ns, id.name + "-db-" + Decimal(ordinal)) }

  function OldConfigKey(id: Id): Key { Key(ConfigMapKind, id.ns, id.name + "config") }

  /** Every key a pass for the SingleInstance `id` may name in a request. */
  ghost predicate InstanceOwns(id: Id, k: Key) {
    || k == InstanceKey(id)
    || k == DeploymentKey(id)
    || k == ServiceKey(id)
    || k == ConfigKey(id)
    || k == ClaimKey(id)
    || k == OldConfigKey(id)
    || exists i: nat :: k == OldClaimKey(id, i)
  }

  // ----- Keys of a GroupReplicationCluster -----

  function ClusterKey(id: Id): Key { Key(ClusterKind, id.ns, id.name) }

  function StatefulSetKey(id: Id): Key { Key(StatefulSetKind, id.ns, id.name) }

  function SecretKey(id: Id): Key { Key(SecretKind, id.ns, id.name + "-secret") }

  function MemberConfigKey(id: Id, ordinal: nat): Key {
    Key(ConfigMapKind, id.ns, id.name + "-config-" + Decimal(ordinal))
  }

  function MemberClaimKey(id: Id, ordinal: nat): Key {
    Key(ClaimKind, id.ns, id.name + "-db-" + Decimal(ordinal))
  }

  function HeadlessKey(id: Id): Key { Key(ServiceKind, id.ns, id.name + "-headless") }

  /** Every key a pass for the GroupReplicationCluster `id` may name in a request. */
  ghost predicate ClusterOwns(id: Id, k: Key) {
    || k == ClusterKey(id)
    || k == StatefulSetKey(id)
    || k == SecretKey(id)
    || k == HeadlessKey(id)
    || exists i: nat :: k == MemberConfigKey(id, i) || k == MemberClaimKey(id, i)
  }

  // ----- Renderings are injective -----

  lemma SameSuffix(a: string, b: string, suffix: string)
    requires a + suffix == b + suffix
    ensures a == b
  {
    assert |a| == |b|;
    assert a == (a + suffix)[..|a|];
    assert b == (b + suffix)[..|b|];
  }

  lemma LastDash(a: string, i: nat)
    ensures var s := a + "-" + Decimal(i); s[|a|] == '-' && forall k | |a| < k < |s| :: IsDigit(s[k])
  {
    var s := a + "-" + Decimal(i);
    forall k | |a| < k < |s| ensures IsDigit(s[k]) {
      assert s[k] == Decimal(i)[k - |a| - 1];
    }
  }

  /** The last dash splits a numbered name, because a numeral has none. */
  lemma NumberedNameInjective(a: string, i: nat, b: string, j: nat)
    requires a + "-" + Decimal(i) == b + "-" + Decimal(j)
    ensures a == b && i == j
  {
    var s := a + "-" + Decimal(i);
    LastDash(a, i);
    LastDash(b, j);
    assert |a| == |b|;
    assert a == s[..|a|] == b;
    assert Decimal(i) == s[|a| + 1..] == Decimal(j);
    ValueOfDecimal(i);
    ValueOfDecimal(j);
  }

  lemma OldConfigIsNoConfig(x: Id, y: Id)
    requires DnsName(x.name)
    ensures OldConfigKey(x) != ConfigKey(y)
  {
    var a, b := x.name + "config", y.name + "-config";
    if |a| == |b| {
      assert a[|x.name| - 1] == x.name[|x.name| - 1];
      assert b[|y.name|] == '-';
    }
  }

  lemma MemberConfigIsNumbered(y: Id, i: nat)
    ensures var s := MemberConfigKey(y, i).name; s != "" && IsDigit(s[|s| - 1])
    ensures var s := MemberClaimKey(y, i).name; s != "" && IsDigit(s[|s| - 1])
  {
    assert MemberConfigKey(y, i).name[|MemberConfigKey(y, i).name| - 1] == Decimal(i)[|Decimal(i)| - 1];
    assert MemberClaimKey(y, i).name[|MemberClaimKey(y, i).name| - 1] == Decimal(i)[|Decimal(i)| - 1];
  }

  lemma NumberedClaimInjective(x: Id, i: nat, y: Id, j: nat)
    requires OldClaimKey(x, i) == MemberClaimKey(y, j)
    ensures x == y && i == j
  {
    assert x.name + "-db-" + Decimal(i) == (x.name + "-db") + "-" + Decimal(i);
    assert y.name + "-db-" + Decimal(j) == (y.name + "-db") + "-" + Decimal(j);
    NumberedNameInjective(x.name + "-db", i, y.name + "-db", j);
    SameSuffix(x.name, y.name, "-db");
  }

  lemma NumberedConfigInjective(x: Id, i: nat, y: Id, j: nat)
    requires MemberConfigKey(x, i) == MemberConfigKey(y, j)
    ensures x == y && i == j
  {
    assert x.name + "-config-" + Decimal(i) == (x.name + "-config") + "-" + Decimal(i);
    assert y.name + "-config-" + Decimal(j) == (y.name + "-config") + "-" + Decimal(j);
    NumberedNameInjective(x.name + "-config", i, y.name + "-config", j);
    SameSuffix(x.name, y.name, "-config");
  }

  /** The names with a fixed suffix: injective, and they end in a letter. */
  lemma SuffixedInjective(x: Id, y: Id)
    ensures ConfigKey(x) == ConfigKey(y) ==> x == y
    ensures OldConfigKey(x) == OldConfigKey(y) ==> x == y
    ensures ClaimKey(x) == ClaimKey(y) ==> x == y
    ensures SecretKey(x) == SecretKey(y) ==> x == y
    ensures HeadlessKey(x) == HeadlessKey(y) ==> x == y
  {
    if ConfigKey(x) == ConfigKey(y) { SameSuffix(x.name, y.name, "-config"); }
    if OldConfigKey(x) == OldConfigKey(y) { SameSuffix(x.name, y.name, "config"); }
    if ClaimKey(x) == ClaimKey(y) { SameSuffix(x.name, y.name, "db"); }
    if SecretKey(x) == SecretKey(y) { SameSuffix(x.name, y.name, "-secret"); }
    if HeadlessKey(x) == HeadlessKey(y) { SameSuffix(x.name, y.name, "-headless"); }
  }

  lemma EndsInLetter(x: Id)
    ensures var s := ConfigKey(x).name; s != "" && !IsDigit(s[|s| - 1])
    ensures var s := OldConfigKey(x).name; s != "" && !IsDigit(s[|s| - 1])
    ensures var s := ClaimKey(x).name; s != "" && !IsDigit(s[|s| - 1])
  {
  }

  /** Two SingleInstances with valid names own a common key only if they are the same. */
  lemma InstancesOwnApart(x: Id, y: Id, k: Key)
    requires DnsName(x.name) && DnsName(y.name)
    requires InstanceOwns(x, k) && InstanceOwns(y, k)
    ensures x == y
  {
    SuffixedInjective(x, y);
    if k.kind == ConfigMapKind {
      OldConfigIsNoConfig(x, y);
      OldConfigIsNoConfig(y, x);
    } else if k.kind == ClaimKind {
      EndsInLetter(x);
      EndsInLetter(y);
      if i: nat, j: nat :| k == OldClaimKey(x, i) && k == OldClaimKey(y, j) {
        NumberedClaimInjective(x, i, y, j);
      } else if k != ClaimKey(x) {
        var i: nat :| k == OldClaimKey(x, i);
        MemberConfigIsNumbered(x, i);
      } else if k != ClaimKey(y) {
        var j: nat :| k == OldClaimKey(y, j);
        MemberConfigIsNumbered(y, j);
      }
    }
  }

  lemma ClustersOwnApart(x: Id, y: Id, k: Key)
    requires ClusterOwns(x, k) && ClusterOwns(y, k)
    ensures x == y
  {
    SuffixedInjective(x, y);
    if k.kind == ConfigMapKind {
      var i: nat :| k == MemberConfigKey(x, i);
      var j: nat :| k == MemberConfigKey(y, j);
      NumberedConfigInjective(x, i, y, j);
    } else if k.kind == ClaimKind {
      var i: nat :| k == MemberClaimKey(x, i);
      var j: nat :| k == MemberClaimKey(y, j);
      assert OldClaimKey(x, i) == k;
      NumberedClaimInjective(x, i, y, j);
    }
  }

  /** In a ConfigMap or a claim they meet only under the same name. */
  lemma VolumesMeet(x: Id, y: Id, k: Key)
    requires DnsName(x.name) && (k.kind == ConfigMapKind || k.kind == ClaimKind)
    requires InstanceOwns(x, k) && ClusterOwns(y, k)
    ensures x == y
  {
    var j: nat :| k == MemberConfigKey(y, j) || k == MemberClaimKey(y, j);
    MemberConfigIsNumbered(y, j);
    EndsInLetter(x);
    var i: nat :| k == OldClaimKey(x, i);
    NumberedClaimInjective(x, i, y, j);
  }

  /** The SingleInstance that is called like the headless Service of a cluster. */
  function HeadlessTwin(y: Id): Id { Id(y.ns, y.name + "-headless") }

  lemma ServicesMeet(x: Id, y: Id)
    ensures ServiceKey(x) == HeadlessKey(y) <==> x == HeadlessTwin(y)
  {
  }

  lemma OneOfTwo(x: Id, y: Id, k: Key)
    requires DnsName(x.name) && InstanceOwns(x, k) && ClusterOwns(y, k)
    ensures x == (if k.kind == ServiceKind then HeadlessTwin(y) else y)
  {
    if k.kind == ConfigMapKind || k.kind == ClaimKind {
      VolumesMeet(x, y, k);
    } else {
      ServicesMeet(x, y);
    }
  }

  /**
   A SingleInstance and a GroupReplicationCluster meet in some key exactly when they have the same name, or the instance
   is called like the cluster's headless Service. Then they meet in every numbered claim, and in that Service.
   */
  lemma InstanceAndClusterMeet(x: Id, y: Id)
    requires DnsName(x.name)
    ensures (exists k :: InstanceOwns(x, k) && ClusterOwns(y, k)) <==> x == y || x == HeadlessTwin(y)
    ensures (exists k: Key :: k.kind == ServiceKind && InstanceOwns(x, k) && ClusterOwns(y, k)) <==> x == HeadlessTwin(y)
    ensures (exists k: Key :: k.kind != ServiceKind && InstanceOwns(x, k) && ClusterOwns(y, k)) <==> x == y
    ensures x == y ==> forall i: nat :: InstanceOwns(x, MemberClaimKey(y, i))
  {
    forall k | InstanceOwns(x, k) && ClusterOwns(y, k)
      ensures x == (if k.kind == ServiceKind then HeadlessTwin(y) else y)
    {
      OneOfTwo(x, y, k);
    }
    if x == y {
      forall i: nat ensures InstanceOwns(x, MemberClaimKey(y, i)) { assert MemberClaimKey(y, i) == OldClaimKey(x, i); }
      assert ClusterOwns(y, MemberClaimKey(y, 1));
    }
    if x == HeadlessTwin(y) {
      assert InstanceOwns(x, HeadlessKey(y)) && ClusterOwns(y, HeadlessKey(y));
    }
  }

  /** Such an instance has a valid name exactly if the cluster's name is valid and leaves room for the suffix. */
  lemma TwinIsValid(y: Id)
    requires DnsName(y.name)
    ensures DnsName(HeadlessTwin(y).name) <==> |y.name| + 9 <= LONGEST_NAME
  {
    var x := y.name + "-headless";
    forall i | 0 < i < |x| - 1
      ensures IsAlphanumeric(x[i]) || x[i] == '-' || (x[i] == '.' && IsAlphanumeric(x[i - 1]) && IsAlphanumeric(x[i + 1]))
    {
      if i < |y.name| - 1 {
        assert x[i] == y.name[i] && x[i - 1] == y.name[i - 1] && x[i + 1] == y.name[i + 1];
      }
    }
  }
}
