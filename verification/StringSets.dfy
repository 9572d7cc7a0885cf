/**
 String lists compared as sets: sort a copy of each side, then compare position
 by position. Both the `sameSet` helpers and the `normalize` and
 `stringSlicesEqual` pair decide multiset equality.
 */
module StringSets {

  /** Go's `<=` on strings: lexicographic. */
  predicate AtMost(a: string, b: string) {
    a == [] || (b != [] && (a[0] < b[0] || (a[0] == b[0] && AtMost(a[1..], b[1..]))))
  }

  predicate Sorted(s: seq<string>) {
    forall i, j :: 0 <= i < j < |s| ==> AtMost(s[i], s[j])
  }

  lemma {:induction false} AtMostTotal(a: string, b: string)
    ensures AtMost(a, b) || AtMost(b, a)
  {
    if a != [] && b != [] {
      AtMostTotal(a[1..], b[1..]);
    }
  }

  lemma {:induction false} AtMostAntisymmetric(a: string, b: string)
    requires AtMost(a, b) && AtMost(b, a)
    ensures a == b
  {
    if a != [] && b != [] {
      AtMostAntisymmetric(a[1..], b[1..]);
      assert a == [a[0]] + a[1..] && b == [b[0]] + b[1..];
    }
  }

  lemma {:induction false} AtMostTransitive(a: string, b: string, c: string)
    requires AtMost(a, b) && AtMost(b, c)
    ensures AtMost(a, c)
  {
    if a != [] && a[0] == b[0] == c[0] {
      AtMostTransitive(a[1..], b[1..], c[1..]);
    }
  }

  /** The order of the characters at the first difference decides, and a prefix comes first. */
  lemma {:induction false} AtMostExactlyWhen(a: string, b: string)
    ensures AtMost(a, b) <==> a <= b || exists i :: 0 <= i < |a| && i < |b| && a[..i] == b[..i] && a[i] < b[i]
  {
    if a != [] && b != [] {
      AtMostExactlyWhen(a[1..], b[1..]);
      if a[0] == b[0] {
        assert a <= b <==> a[1..] <= b[1..] by {
          assert a == [a[0]] + a[1..] && b == [b[0]] + b[1..];
        }
        if i :| 0 <= i < |a[1..]| && i < |b[1..]| && a[1..][..i] == b[1..][..i] && a[1..][i] < b[1..][i] {
          assert a[..i + 1] == [a[0]] + a[1..][..i] && b[..i + 1] == [b[0]] + b[1..][..i];
          assert a[i + 1] < b[i + 1];
        }
        if i :| 0 <= i < |a| && i < |b| && a[..i] == b[..i] && a[i] < b[i] {
          assert i > 0;
          assert a[1..][..i - 1] == a[..i][1..] && b[1..][..i - 1] == b[..i][1..];
          assert a[1..][i - 1] < b[1..][i - 1];
        }
      } else if a[0] < b[0] {
        assert a[..0] == b[..0] && a[0] < b[0];
      } else {
        assert forall i :: 0 < i <= |a| && i <= |b| ==> a[..i][0] == a[0] && b[..i][0] == b[0];
      }
    }
  }

  lemma TailOf(a: seq<string>)
    requires a != []
    ensures a == [a[0]] + a[1..] && multiset(a[1..]) == multiset(a) - multiset{a[0]}
  {
    assert a == [a[0]] + a[1..];
  }

  /** A list has only one sorted arrangement, so comparing sorted copies compares multisets. */
  lemma {:induction false} SortedUnique(a: seq<string>, b: seq<string>)
    requires Sorted(a) && Sorted(b) && multiset(a) == multiset(b)
    ensures a == b
  {
    assert |a| == |multiset(a)| == |multiset(b)| == |b|;
    if a != [] {
      SameMembers(a, b);
      assert a[0] in b && b[0] in a;
      if a[0] != b[0] {
        AtMostAntisymmetric(a[0], b[0]);
      }
      TailOf(a);
      TailOf(b);
      SortedUnique(a[1..], b[1..]);
    }
  }

  /** `sort.Strings`: the library's contract, kept by an in-place insertion sort. */
  method SortStrings(a: array<string>)
    modifies a
    ensures Sorted(a[..])
    ensures multiset(a[..]) == multiset(old(a[..]))
  {
    var i := 0;
    while i < a.Length
      invariant 0 <= i <= a.Length
      invariant Sorted(a[..i])
      invariant multiset(a[..]) == multiset(old(a[..]))
    {
      Insert(a, i);
      i := i + 1;
    }
    assert a[..] == a[..a.Length];
  }

  /** The first n elements are sorted but for the one at j, which is at most every later one. */
  predicate SortedAround(s: seq<string>, n: nat, j: nat)
    requires j < n <= |s|
  {
    && (forall p, q :: 0 <= p < q < n && p != j && q != j ==> AtMost(s[p], s[q]))
    && (forall q :: j < q < n ==> AtMost(s[j], s[q]))
  }

  function Swapped(s: seq<string>, j: nat): (r: seq<string>)
    requires 0 < j < |s|
    ensures multiset(r) == multiset(s)
  {
    s[j - 1 := s[j]][j := s[j - 1]]
  }

  lemma SwapKeepsAround(s: seq<string>, n: nat, j: nat)
    requires 0 < j < n <= |s| && SortedAround(s, n, j) && !AtMost(s[j - 1], s[j])
    ensures SortedAround(Swapped(s, j), n, j - 1)
  {
    AtMostTotal(s[j - 1], s[j]);
  }

  /** An element at least its predecessor completes the order. */
  lemma CompletesOrder(s: seq<string>, n: nat, j: nat)
    requires j < n <= |s| && SortedAround(s, n, j)
    requires j > 0 ==> AtMost(s[j - 1], s[j])
    ensures Sorted(s[..n])
  {
    forall p | 0 <= p < j ensures AtMost(s[p], s[j]) {
      if p < j - 1 {
        AtMostTransitive(s[p], s[j - 1], s[j]);
      }
    }
  }

  lemma StartsAround(s: seq<string>, i: nat)
    requires i < |s| && Sorted(s[..i])
    ensures SortedAround(s, i + 1, i)
  {
    forall p, q | 0 <= p < q < i ensures AtMost(s[p], s[q]) {
      assert s[..i][p] == s[p] && s[..i][q] == s[q];
    }
  }

  method Insert(a: array<string>, i: nat)
    requires i < a.Length && Sorted(a[..i])
    modifies a
    ensures Sorted(a[..i + 1])
    ensures multiset(a[..]) == multiset(old(a[..]))
  {
    var j := i;
    ghost var s := a[..];
    assert s[..i] == a[..i];
    StartsAround(s, i);
    while 0 < j && !AtMost(a[j - 1], a[j])
      invariant 0 <= j <= i
      invariant s == a[..] && SortedAround(s, i + 1, j)
      invariant multiset(s) == multiset(old(a[..]))
    {
      SwapKeepsAround(s, i + 1, j);
      a[j - 1], a[j] := a[j], a[j - 1];
      s := Swapped(s, j);
      j := j - 1;
    }
    CompletesOrder(s, i + 1, j);
    assert s[..i + 1] == a[..i + 1];
  }

  method StringSlicesEqual(a: array<string>, b: array<string>) returns (r: bool)
    ensures r <==> a[..] == b[..]
  {
    if a.Length != b.Length {
      return false;
    }
    for i := 0 to a.Length
      invariant a[..i] == b[..i]
    {
      if a[i] != b[i] {
        assert a[..][i] != b[..][i];
        return false;
      }
      assert a[..i + 1] == a[..i] + [a[i]] && b[..i + 1] == b[..i] + [b[i]];
    }
    assert a[..] == a[..a.Length] && b[..] == b[..b.Length];
    return true;
  }

  /** `append([]string(nil), s...)`: a copy the caller may sort in place. */
  method CopyOf(s: array<string>) returns (copy: array<string>)
    ensures fresh(copy) && copy[..] == s[..]
  {
    copy := new string[s.Length](i requires 0 <= i < s.Length reads s => s[i]);
    assert copy[..] == s[..];
  }

  /** Sorts a copy: the array passed in, which belongs to the spec or to the API's answer, stays as it was. */
  method Normalize(s: array<string>) returns (out: array<string>)
    ensures fresh(out) && s[..] == old(s[..])
    ensures Sorted(out[..]) && multiset(out[..]) == multiset(s[..])
  {
    out := CopyOf(s);
    SortStrings(out);
  }

  method SameSet(a: array<string>, b: array<string>) returns (r: bool)
    ensures r <==> multiset(a[..]) == multiset(b[..])
    ensures a[..] == old(a[..]) && b[..] == old(b[..])
  {
    if a.Length != b.Length {
      assert |multiset(a[..])| != |multiset(b[..])|;
      return false;
    }
    var as' := CopyOf(a);
    var bs := CopyOf(b);
    SortStrings(as');
    SortStrings(bs);
    assert |multiset(as'[..])| == a.Length && |multiset(bs[..])| == b.Length;
    for i := 0 to as'.Length
      invariant as'[..i] == bs[..i]
    {
      if as'[i] != bs[i] {
        assert as'[..][i] != bs[..][i];
        if multiset(a[..]) == multiset(b[..]) {
          SortedUnique(as'[..], bs[..]);
          assert false;
        }
        return false;
      }
      assert as'[..i + 1] == as'[..i] + [as'[i]] && bs[..i + 1] == bs[..i] + [bs[i]];
    }
    assert as'[..] == as'[..as'.Length] && bs[..] == bs[..bs.Length];
    return true;
  }

  /** The backing array of a list held in a spec or an answer. */
  method Backing(s: seq<string>) returns (a: array<string>)
    ensures fresh(a) && a[..] == s
  {
    a := new string[|s|](i requires 0 <= i < |s| => s[i]);
  }

  /** `SameSet` on the lists of a spec and an answer. */
  method SameLists(a: seq<string>, b: seq<string>) returns (r: bool)
    ensures r <==> multiset(a) == multiset(b)
  {
    var x := Backing(a);
    var y := Backing(b);
    r := SameSet(x, y);
  }

  /** Equal sets have the same members, whatever their order. */
  lemma SameMembers<T>(a: seq<T>, b: seq<T>)
    requires multiset(a) == multiset(b)
    ensures |a| == |b|
    ensures forall x :: x in a <==> x in b
  {
    assert |a| == |multiset(a)| == |multiset(b)| == |b|;
    forall x ensures x in a <==> x in b {
      assert x in a <==> x in multiset(a);
      assert x in b <==> x in multiset(b);
    }
  }
}
