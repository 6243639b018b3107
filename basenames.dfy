/**
 * Derivation of message-bundle basenames from the names of `.properties`
 * resources: `messages_de.properties` and `messages.properties` both belong
 * to the bundle `messages`, which is listed once, in order of first sight.
 */
module Basenames {

  /**
   * Java's `indexOf`: the position of the first occurrence of `x` in `s`,
   * or -1 when there is none.
   */
  function IndexOf<T(==)>(s: seq<T>, x: T): (r: int)
    ensures -1 <= r < |s|
    ensures r == -1 <==> x !in s
    ensures r >= 0 ==> s[r] == x && x !in s[..r]
  {
    if s == [] then -1
    else if s[0] == x then 0
    else
      var k := IndexOf(s[1..], x);
      assert k >= 0 ==> s[1..][..k] == s[1..k + 1];
      if k == -1 then -1 else k + 1
  }

  /** A position holding `x` with no `x` before it is the one `IndexOf` finds. */
  lemma IndexOfUnique<T>(s: seq<T>, x: T, i: int)
    requires 0 <= i < |s| && s[i] == x && x !in s[..i]
    ensures IndexOf(s, x) == i
  {
  }

  /** Appending to a sequence does not move the first occurrence of an element it already holds. */
  lemma IndexOfAppend<T>(s: seq<T>, y: T, x: T)
    requires x in s
    ensures IndexOf(s + [y], x) == IndexOf(s, x)
  {
    var q := IndexOf(s, x);
    assert (s + [y])[..q] == s[..q];
    IndexOfUnique(s + [y], x, q);
  }

  /**
   * The bundle name carried by a file basename: everything before the first
   * `'_'` (which starts the locale suffix), or the whole name when it has no
   * underscore.
   */
  function TruncateAtUnderscore(baseName: string): (r: string)
    ensures '_' !in r
    ensures r <= baseName
    ensures '_' !in baseName ==> r == baseName
    ensures '_' in baseName ==> |r| < |baseName| && baseName[|r|] == '_'
  {
    var i := IndexOf(baseName, '_');
    if i > -1 then baseName[..i] else baseName
  }

  /**
   * The bundle basename of one resource; `fileBasename` stands for the
   * extension-stripping library call, whose rule is not part of this model.
   */
  function BundleBasename(filename: string, fileBasename: string -> string): (r: string)
    ensures '_' !in r
    ensures r <= fileBasename(filename)
  {
    TruncateAtUnderscore(fileBasename(filename))
  }

  /** The bundle basename of every resource, in resource order, repeats included. */
  function Derived(filenames: seq<string>, fileBasename: string -> string): (r: seq<string>)
    ensures |r| == |filenames|
  {
    if filenames == [] then []
    else Derived(filenames[..|filenames| - 1], fileBasename) + [BundleBasename(filenames[|filenames| - 1], fileBasename)]
  }

  /** Entry `i` of the derived list is the bundle basename of resource `i`. */
  lemma {:induction false} DerivedAt(filenames: seq<string>, fileBasename: string -> string, i: int)
    requires 0 <= i < |filenames|
    ensures Derived(filenames, fileBasename)[i] == BundleBasename(filenames[i], fileBasename)
  {
    if i < |filenames| - 1 {
      DerivedAt(filenames[..|filenames| - 1], fileBasename, i);
    }
  }

  /** Java's `if (!list.contains(x)) list.add(x)`. */
  function AddIfAbsent<T(==)>(list: seq<T>, x: T): (r: seq<T>)
    ensures list <= r && x in r
    ensures |r| <= |list| + 1
  {
    if x in list then list else list + [x]
  }

  /** `s` with every element after its first occurrence dropped. */
  function Distinct<T(==)>(s: seq<T>): (r: seq<T>)
    ensures |r| <= |s|
  {
    if s == [] then [] else AddIfAbsent(Distinct(s[..|s| - 1]), s[|s| - 1])
  }

  /** One more resource adds its bundle basename unless the list already has it. */
  lemma DistinctDerivedStep(filenames: seq<string>, n: int, fileBasename: string -> string)
    requires 0 <= n < |filenames|
    ensures Distinct(Derived(filenames[..n + 1], fileBasename)) ==
      AddIfAbsent(Distinct(Derived(filenames[..n], fileBasename)), BundleBasename(filenames[n], fileBasename))
  {
    assert filenames[..n + 1][..n] == filenames[..n];
    var d := Derived(filenames[..n + 1], fileBasename);
    assert d[..|d| - 1] == Derived(filenames[..n], fileBasename);
  }

  ghost predicate NoDuplicates<T>(s: seq<T>)
  {
    forall i, j :: 0 <= i < j < |s| ==> s[i] != s[j]
  }

  /** `Distinct` keeps exactly the elements of its input. */
  lemma {:induction false} DistinctSameElements<T>(s: seq<T>)
    ensures forall x :: x in Distinct(s) <==> x in s
  {
    if s != [] {
      var init := s[..|s| - 1];
      DistinctSameElements(init);
      assert s == init + [s[|s| - 1]];
    }
  }

  /** `Distinct` lists no element twice. */
  lemma {:induction false} DistinctNoDuplicates<T>(s: seq<T>)
    ensures NoDuplicates(Distinct(s))
  {
    if s != [] {
      DistinctNoDuplicates(s[..|s| - 1]);
    }
  }

  /** `Distinct` lists its elements in the order of their first occurrence in the input. */
  lemma {:induction false} DistinctFirstOccurrenceOrder<T>(s: seq<T>)
    ensures forall i, j :: 0 <= i < j < |Distinct(s)| ==> IndexOf(s, Distinct(s)[i]) < IndexOf(s, Distinct(s)[j])
  {
    if s != [] {
      var init, last := s[..|s| - 1], s[|s| - 1];
      assert s == init + [last];
      var r0, r := Distinct(init), Distinct(s);
      assert r == AddIfAbsent(r0, last);
      DistinctFirstOccurrenceOrder(init);
      DistinctSameElements(init);
      forall i, j | 0 <= i < j < |r|
        ensures IndexOf(s, r[i]) < IndexOf(s, r[j])
      {
        assert r[i] == r0[i] && r0[i] in r0;
        IndexOfAppend(init, last, r[i]);
        if j < |r0| {
          assert r[j] == r0[j] && r0[j] in r0;
          IndexOfAppend(init, last, r[j]);
        } else {
          assert r[j] == last && last !in init;
          IndexOfUnique(s, last, |init|);
        }
      }
    }
  }

  /**
   * The list of bundle basenames for a list of resources: every entry lacks
   * `'_'`, no entry repeats, the entries are exactly the resources' bundle
   * basenames, and they appear in the order in which they were first derived.
   */
  lemma BasenamesCharacterised(filenames: seq<string>, fileBasename: string -> string)
    ensures var r := Distinct(Derived(filenames, fileBasename));
      && (forall k :: 0 <= k < |r| ==> '_' !in r[k])
      && NoDuplicates(r)
      && (forall i :: 0 <= i < |filenames| ==> BundleBasename(filenames[i], fileBasename) in r)
      && (forall k :: 0 <= k < |r| ==> exists i :: 0 <= i < |filenames| && BundleBasename(filenames[i], fileBasename) == r[k])
      && (forall k1, k2 :: 0 <= k1 < k2 < |r| ==>
            IndexOf(Derived(filenames, fileBasename), r[k1]) < IndexOf(Derived(filenames, fileBasename), r[k2]))
  {
    var d := Derived(filenames, fileBasename);
    var r := Distinct(d);
    DistinctSameElements(d);
    DistinctNoDuplicates(d);
    DistinctFirstOccurrenceOrder(d);
    forall k | 0 <= k < |r|
      ensures '_' !in r[k]
      ensures exists i :: 0 <= i < |filenames| && BundleBasename(filenames[i], fileBasename) == r[k]
    {
      assert r[k] in d;
      var i :| 0 <= i < |d| && d[i] == r[k];
      DerivedAt(filenames, fileBasename, i);
    }
    forall i | 0 <= i < |filenames|
      ensures BundleBasename(filenames[i], fileBasename) in r
    {
      DerivedAt(filenames, fileBasename, i);
      assert d[i] in d;
    }
  }
}
