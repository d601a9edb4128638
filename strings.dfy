/**
 * The two pieces of Swift/Foundation string behaviour the app relies on:
 * the `<` comparison on `String` (used to sort prospects by name) and
 * `components(separatedBy:)` (used to split a scanned QR payload).
 * Strings are sequences of characters.
 */
module Strings {

  /** Strict lexicographic order on character sequences: Swift's `a < b` on names. */
  predicate Less(a: string, b: string)
    decreases |a|
  {
    if |a| == 0 then |b| > 0
    else if |b| == 0 then false
    else if a[0] != b[0] then a[0] < b[0]
    else Less(a[1..], b[1..])
  }

  lemma {:induction false} LessIrreflexive(a: string)
    ensures !Less(a, a)
    decreases |a|
  {
    if |a| > 0 {
      LessIrreflexive(a[1..]);
    }
  }

  lemma {:induction false} LessTransitive(a: string, b: string, c: string)
    ensures Less(a, b) && Less(b, c) ==> Less(a, c)
    decreases |a|
  {
    if |a| > 0 && |b| > 0 && |c| > 0 && a[0] == b[0] && b[0] == c[0] {
      LessTransitive(a[1..], b[1..], c[1..]);
    }
  }

  /** Any two names are ordered one way or the other, or are equal. */
  lemma {:induction false} LessTotal(a: string, b: string)
    ensures Less(a, b) || a == b || Less(b, a)
    decreases |a|
  {
    if |a| > 0 && |b| > 0 && a[0] == b[0] {
      LessTotal(a[1..], b[1..]);
      if a[1..] == b[1..] {
        assert a == [a[0]] + a[1..];
        assert b == [b[0]] + b[1..];
      }
    }
  }

  lemma LessAsymmetric(a: string, b: string)
    ensures !(Less(a, b) && Less(b, a))
  {
    LessTransitive(a, b, a);
    LessIrreflexive(a);
  }

  /** "Not greater than" is transitive: the order used by a sorted list of names. */
  lemma NotLessTransitive(a: string, b: string, c: string)
    requires !Less(b, a) && !Less(c, b)
    ensures !Less(c, a)
  {
    LessTotal(a, b);
    LessTransitive(c, a, b);
  }

  /** Joins the pieces with the separator between consecutive pieces. */
  function Join(parts: seq<string>, separator: char): string
  {
    if |parts| == 0 then []
    else if |parts| == 1 then parts[0]
    else parts[0] + [separator] + Join(parts[1..], separator)
  }

  /**
   * Foundation's `s.components(separatedBy: String(separator))`: the maximal
   * separator-free pieces of `s`, empty pieces kept, so there is always one more
   * piece than there are separators, and joining them back gives `s`.
   */
  function Components(s: string, separator: char): (r: seq<string>)
    ensures |r| == multiset(s)[separator] + 1
    ensures forall i :: 0 <= i < |r| ==> separator !in r[i]
    ensures Join(r, separator) == s
    decreases |s|
  {
    if s == [] then [[]]
    else
      assert s == [s[0]] + s[1..];
      var rest := Components(s[1..], separator);
      if s[0] == separator then
        [[]] + rest
      else
        var r := [[s[0]] + rest[0]] + rest[1..];
        assert r[1..] == rest[1..];
        r
  }

  /** A separator-free string is a single component. */
  lemma ComponentsOfFree(s: string, separator: char)
    requires separator !in s
    ensures Components(s, separator) == [s]
  {
  }

  /** Splitting at the first separator: the piece before it comes first. */
  lemma {:induction false} ComponentsAfterFirst(a: string, b: string, separator: char)
    requires separator !in a
    ensures Components(a + [separator] + b, separator) == [a] + Components(b, separator)
    decreases |a|
  {
    var s := a + [separator] + b;
    if a != [] {
      assert s[1..] == a[1..] + [separator] + b;
      ComponentsAfterFirst(a[1..], b, separator);
      assert [a[0]] + a[1..] == a;
    } else {
      assert s[1..] == b;
    }
  }

  /** Components undoes Join on separator-free pieces. */
  lemma {:induction false} ComponentsOfJoin(parts: seq<string>, separator: char)
    requires |parts| > 0
    requires forall i :: 0 <= i < |parts| ==> separator !in parts[i]
    ensures Components(Join(parts, separator), separator) == parts
    decreases |parts|
  {
    if |parts| == 1 {
      ComponentsOfFree(parts[0], separator);
    } else {
      ComponentsOfJoin(parts[1..], separator);
      ComponentsAfterFirst(parts[0], Join(parts[1..], separator), separator);
      assert [parts[0]] + parts[1..] == parts;
    }
  }
}
