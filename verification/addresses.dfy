/** Where the references of a resource lead, in plain terms. */
module Addresses {
  import opened Prelude
  import opened Minio
  import opened Kube

  /**
   The object called `name` on the tenant a resource in namespace `ns` refers to: the tenant of that
   name in the namespace given, or in the resource's own where none is given.
   */
  function Place(ref: ResourceRef, ns: string, name: string): RemoteId {
    RemoteId(ResourceRef(ref.name, if ref.namespace == "" then ns else ref.namespace), name)
  }

  /** The secret a reference leads to, in the same way. */
  function SecretPlace(ref: SecretKeyRef, ns: string): Key {
    Key(if ref.namespace == "" then ns else ref.namespace, ref.name)
  }

  /** What stands in that secret under the key referred to, if anything. */
  function Read(secrets: map<Key, Secret>, ref: SecretKeyRef, ns: string): Option<string> {
    var at := SecretPlace(ref, ns);
    if at in secrets && ref.key in secrets[at].data then Some(secrets[at].data[ref.key]) else None
  }

  /** The reference with its namespace written out. */
  function InFull(ref: SecretKeyRef, ns: string): SecretKeyRef {
    if ref.namespace == "" then SecretKeyRef(ref.key, ref.name, ns) else ref
  }

  /** Nothing is referred to. */
  predicate Unset(ref: SecretKeyRef) {
    ref.key == "" && ref.name == "" && ref.namespace == ""
  }

  /** Entry `i` of the configuration is the first that gives the search base. */
  predicate GivesBase(info: seq<(string, string)>, i: nat) {
    && i < |info| && info[i].0 == "user_dn_search_base_dn"
    && forall j | 0 <= j < i :: info[j].0 != "user_dn_search_base_dn"
  }

  /** The first entry that gives the search base gives this one, or none does and it is empty. */
  predicate IsBase(info: seq<(string, string)>, base: string) {
    if forall i | 0 <= i < |info| :: info[i].0 != "user_dn_search_base_dn" then base == ""
    else exists i | 0 <= i < |info| :: GivesBase(info, i) && info[i].1 == base
  }

  /** A name that is completed to a distinguished name where there is a search base. */
  predicate Short(name: string) {
    name != "" && !("cn=" <= name)
  }

  /** `dn` consists of the name and the search base; a name that is no short one stands for itself. */
  predicate IsDn(dn: string, name: string, base: string) {
    if Short(name) && base != "" then
      && |dn| == 4 + |name| + |base| && dn[..3] == "cn=" && dn[3..3 + |name|] == name
      && dn[3 + |name|] == ',' && dn[4 + |name|..] == base
    else
      dn == name
  }

  lemma {:induction false} SearchBaseIs(info: seq<(string, string)>)
    ensures IsBase(info, SearchBase(info))
  {
    if info != [] && info[0].0 != USER_DN_SEARCH_BASE {
      SearchBaseIs(info[1..]);
      if i :| 0 <= i < |info[1..]| && GivesBase(info[1..], i) && info[1..][i].1 == SearchBase(info[1..]) {
        assert GivesBase(info, i + 1) && info[i + 1].1 == SearchBase(info) by {
          forall j | 0 <= j < i + 1 ensures info[j].0 != "user_dn_search_base_dn" {
            if j > 0 { assert info[j] == info[1..][j - 1]; }
          }
        }
      } else {
        forall j | 0 <= j < |info| ensures info[j].0 != "user_dn_search_base_dn" {
          if j > 0 { assert info[j] == info[1..][j - 1]; }
        }
      }
    } else if info != [] {
      assert GivesBase(info, 0);
    }
  }

  /** There is only one search base. */
  lemma BaseUnique(info: seq<(string, string)>, a: string, b: string)
    requires IsBase(info, a) && IsBase(info, b)
    ensures a == b
  {
  }

  /** The rule for distinguished names, and nothing but the rule. */
  lemma UserDnIs(name: string, base: string, dn: string)
    ensures dn == UserDn(name, base) <==> IsDn(dn, name, base)
  {
    if Short(name) && base != "" && IsDn(dn, name, base) {
      assert dn == dn[..3] + dn[3..3 + |name|] + [dn[3 + |name|]] + dn[4 + |name|..];
    }
  }

  lemma DnNamed(name: string, base: string)
    ensures UserDn(name, base) == "" <==> name == ""
  {
  }

  /**
   For a short name without a comma the part before the first comma is "cn=" and the name, and the
   part after it the search base.
   */
  lemma DnParts(name: string, base: string)
    requires Short(name) && ',' !in name && base != ""
    ensures
      var dn, i := UserDn(name, base), 3 + |name|;
      && i < |dn| && dn[i] == ',' && ',' !in dn[..i] && dn[..i] == "cn=" + name && dn[i + 1..] == base
  {
    UserDnIs(name, base, UserDn(name, base));
    var dn, i := UserDn(name, base), 3 + |name|;
    assert dn[..i] == dn[..3] + dn[3..i];
  }

  /** Different short names never share a distinguished name. */
  lemma DnInjective(a: string, b: string, base: string)
    requires Short(a) && Short(b) && UserDn(a, base) == UserDn(b, base)
    ensures a == b
  {
    UserDnIs(a, base, UserDn(a, base));
    UserDnIs(b, base, UserDn(b, base));
  }

  /** Nor do they across search bases, if they are free of commas. */
  lemma DnDetermines(a: string, b: string, base: string, other: string)
    requires Short(a) && Short(b) && ',' !in a && ',' !in b && base != "" && other != ""
    requires UserDn(a, base) == UserDn(b, other)
    ensures a == b && base == other
  {
    DnParts(a, base);
    DnParts(b, other);
    var dn := UserDn(a, base);
    assert a == dn[..3 + |a|][3..] && b == dn[..3 + |b|][3..];
  }
}
