/**
 * Storage key derivation: the namespace and the caller's key, or the
 * elements of the caller's key array, joined with '/'.
 */
module StateCacheKey {

  /** The caller's key: one string, or an array of strings. */
  datatype KeyDescriptor = Single(name: string) | Path(parts: seq<string>)

  const Separator: char := '/'

  /** The key's elements, in order. */
  function Parts(key: KeyDescriptor): (r: seq<string>)
  {
    match key
    case Single(name) => [name]
    case Path(parts) => parts
  }

  /** `Array.prototype.join('/')` on an array of strings. */
  function Join(parts: seq<string>): (r: string)
  {
    if |parts| == 0 then ""
    else if |parts| == 1 then parts[0]
    else parts[0] + [Separator] + Join(parts[1..])
  }

  /**
   * The join puts exactly one separator between neighbours: the last of two
   * or more elements follows the join of the others after one separator.
   */
  lemma {:induction false} JoinLast(parts: seq<string>)
    requires |parts| >= 2
    ensures Join(parts) == Join(parts[..|parts| - 1]) + [Separator] + parts[|parts| - 1]
  {
    var n := |parts|;
    if n == 2 {
      assert parts[..1] == [parts[0]] && parts[1..] == [parts[1]];
    } else {
      var init := parts[..n - 1];
      JoinLast(parts[1..]);
      assert parts[1..][..n - 2] == init[1..];
      assert parts[1..][n - 2] == parts[n - 1];
    }
  }

  /** `String.prototype.split('/')`: the pieces between separators, at least one. */
  function Split(s: string): (r: seq<string>)
    ensures |r| >= 1
  {
    if |s| == 0 then [""]
    else if s[0] == Separator then [""] + Split(s[1..])
    else
      var rest := Split(s[1..]);
      [[s[0]] + rest[0]] + rest[1..]
  }

  /** The derived storage key: `[namespace, ...key].join('/')` or `[namespace, key].join('/')`. */
  function DeriveKey(namespace: string, key: KeyDescriptor): (r: string)
    ensures key.Single? ==> r == namespace + [Separator] + key.name
    ensures key.Path? && key.parts != [] ==> r == namespace + [Separator] + Join(key.parts)
    ensures key.Path? && key.parts == [] ==> r == namespace
  {
    var all := [namespace] + Parts(key);
    assert all[0] == namespace && all[1..] == Parts(key);
    assert key.Single? ==> Join(all[1..]) == key.name;
    Join(all)
  }

  /** True when none of the strings contains the separator. */
  predicate SeparatorFree(parts: seq<string>)
  {
    forall i :: 0 <= i < |parts| ==> Separator !in parts[i]
  }

  /** A string without a separator splits into itself. */
  lemma {:induction false} SplitPlain(p: string)
    requires Separator !in p
    ensures Split(p) == [p]
  {
    if |p| > 0 {
      SplitPlain(p[1..]);
      assert [p[0]] + p[1..] == p;
    }
  }

  /** A separator-free prefix followed by a separator splits off as the first piece. */
  lemma {:induction false} SplitPrefix(p: string, t: string)
    requires Separator !in p
    ensures Split(p + [Separator] + t) == [p] + Split(t)
  {
    if |p| == 0 {
      assert p + [Separator] + t == [Separator] + t;
      assert ([Separator] + t)[1..] == t;
    } else {
      var s := p + [Separator] + t;
      assert s[0] == p[0];
      assert s[1..] == p[1..] + [Separator] + t;
      SplitPrefix(p[1..], t);
      assert [p[0]] + p[1..] == p;
    }
  }

  /** Splitting undoes joining when no element contains the separator. */
  lemma {:induction false} SplitJoin(parts: seq<string>)
    requires |parts| >= 1
    requires SeparatorFree(parts)
    ensures Split(Join(parts)) == parts
  {
    if |parts| == 1 {
      SplitPlain(parts[0]);
    } else {
      assert Separator !in parts[0];
      SplitPrefix(parts[0], Join(parts[1..]));
      SplitJoin(parts[1..]);
      assert [parts[0]] + parts[1..] == parts;
    }
  }

  /**
   * The derived key splits back into the namespace followed by the key's
   * elements, when none of them contains the separator.
   */
  lemma DeriveKeySplit(namespace: string, key: KeyDescriptor)
    requires Separator !in namespace
    requires SeparatorFree(Parts(key))
    ensures Split(DeriveKey(namespace, key)) == [namespace] + Parts(key)
  {
    var all := [namespace] + Parts(key);
    assert all[1..] == Parts(key);
    assert DeriveKey(namespace, key) == Join(all);
    SplitJoin(all);
  }

  /**
   * Two slots whose namespaces and key elements are free of the separator
   * share a storage key only if they have the same namespace and the same
   * key elements.
   */
  lemma DeriveKeyInjective(ns1: string, key1: KeyDescriptor, ns2: string, key2: KeyDescriptor)
    requires Separator !in ns1 && SeparatorFree(Parts(key1))
    requires Separator !in ns2 && SeparatorFree(Parts(key2))
    requires DeriveKey(ns1, key1) == DeriveKey(ns2, key2)
    ensures ns1 == ns2 && Parts(key1) == Parts(key2)
  {
    DeriveKeySplit(ns1, key1);
    DeriveKeySplit(ns2, key2);
    var a := [ns1] + Parts(key1);
    var b := [ns2] + Parts(key2);
    assert a == b;
    assert a[0] == ns1 && b[0] == ns2;
    assert a[1..] == Parts(key1) && b[1..] == Parts(key2);
  }
}
