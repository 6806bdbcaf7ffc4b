/**
 * Artifact names: a fixed prefix followed by the endpoint's name. The same
 * names serve for creating the ConfigMap and the Secret, for looking them up
 * and for the volumes and mounts that bind them into the proxy container.
 */
module Naming {
  import opened Kube
  import opened Transport

  function ConfigName(k: Constants, name: string): (r: string) {
    k.configPrefix + name
  }

  function SecretName(k: Constants, name: string): (r: string) {
    k.secretPrefix + name
  }

  /** Where the ConfigMap of an endpoint is created and looked up. */
  function ConfigKey(k: Constants, obj: NamespacedName): (r: Key) {
    Key(ConfigMapKind, obj.namespace, ConfigName(k, obj.name))
  }

  /** Where the Secret of an endpoint is created and looked up. */
  function SecretKey(k: Constants, obj: NamespacedName): (r: Key) {
    Key(SecretKind, obj.namespace, SecretName(k, obj.name))
  }

  lemma PrefixCancels(p: string, a: string, b: string)
    ensures p + a == p + b <==> a == b
  {
    if p + a == p + b {
      assert a == (p + a)[|p|..];
      assert b == (p + b)[|p|..];
    }
  }

  /** Distinct endpoint names give distinct artifact names. */
  lemma NamesInjective(k: Constants, n1: string, n2: string)
    ensures ConfigName(k, n1) == ConfigName(k, n2) <==> n1 == n2
    ensures SecretName(k, n1) == SecretName(k, n2) <==> n1 == n2
  {
    PrefixCancels(k.configPrefix, n1, n2);
    PrefixCancels(k.secretPrefix, n1, n2);
  }

  /** Distinct endpoint identities give distinct store keys; a ConfigMap key
      and a Secret key never coincide. */
  lemma KeysInjective(k: Constants, o1: NamespacedName, o2: NamespacedName)
    ensures ConfigKey(k, o1) == ConfigKey(k, o2) <==> o1 == o2
    ensures SecretKey(k, o1) == SecretKey(k, o2) <==> o1 == o2
    ensures ConfigKey(k, o1) != SecretKey(k, o2)
  {
    NamesInjective(k, o1.name, o2.name);
  }

  /** With distinct prefixes, one endpoint's ConfigMap and Secret names differ. */
  lemma ConfigAndSecretNamesDiffer(k: Constants, name: string)
    requires k.configPrefix != k.secretPrefix
    ensures ConfigName(k, name) != SecretName(k, name)
  {
    var c, s := ConfigName(k, name), SecretName(k, name);
    if |k.configPrefix| == |k.secretPrefix| {
      assert k.configPrefix == c[..|k.configPrefix|] && k.secretPrefix == s[..|k.secretPrefix|];
    } else {
      assert |c| != |s|;
    }
  }

  /** When neither prefix begins the other, no ConfigMap name equals any Secret name. */
  lemma NamesDisjointWhenPrefixFree(k: Constants, n1: string, n2: string)
    requires !(|k.configPrefix| <= |k.secretPrefix| && k.secretPrefix[..|k.configPrefix|] == k.configPrefix)
    requires !(|k.secretPrefix| <= |k.configPrefix| && k.configPrefix[..|k.secretPrefix|] == k.secretPrefix)
    ensures ConfigName(k, n1) != SecretName(k, n2)
  {
    var c, s := ConfigName(k, n1), SecretName(k, n2);
    if |k.configPrefix| <= |k.secretPrefix| {
      assert c[..|k.configPrefix|] == k.configPrefix;
      assert s[..|k.configPrefix|] == k.secretPrefix[..|k.configPrefix|];
    } else {
      assert s[..|k.secretPrefix|] == k.secretPrefix;
      assert c[..|k.secretPrefix|] == k.configPrefix[..|k.secretPrefix|];
    }
  }

  /** Distinct prefixes alone do not keep names of different endpoints apart:
      with prefixes "cfg-" and "cfg-s", the ConfigMap name of "sx" is the
      Secret name of "x". */
  lemma DistinctPrefixesMayOverlap()
    ensures var k := Constants(0, "cfg-", "cfg-s", "");
      k.configPrefix != k.secretPrefix && ConfigName(k, "sx") == SecretName(k, "x")
  {
  }
}
