/** The two list operations the opponent uses on its candidate lists:
    `List.Remove` (drop the first occurrence) and the guarded
    `if (!Contains(x)) Add(x)`. */
module Lists {

  import opened Tiles

  predicate Distinct(s: seq<Coord>) {
    forall i, j :: 0 <= i < j < |s| ==> s[i] != s[j]
  }

  /** List.Remove: drops the first element equal to x, if there is one. */
  function RemoveFirst(s: seq<Coord>, x: Coord): (r: seq<Coord>)
    ensures x !in s ==> r == s
    ensures x in s ==> |r| == |s| - 1
  {
    if s == [] then []
    else if s[0] == x then
      assert s == [s[0]] + s[1..];
      s[1..]
    else
      assert s == [s[0]] + s[1..];
      [s[0]] + RemoveFirst(s[1..], x)
  }

  /** Removing takes away exactly one copy of x, when there is one, and
      nothing else. */
  lemma {:induction false} RemoveFirstMultiset(s: seq<Coord>, x: Coord)
    ensures multiset(RemoveFirst(s, x)) == multiset(s) - multiset{x}
  {
    if s != [] {
      assert s == [s[0]] + s[1..];
      if s[0] != x {
        RemoveFirstMultiset(s[1..], x);
      }
    }
  }

  /** Removing never introduces an element. */
  lemma RemoveFirstSubset(s: seq<Coord>, x: Coord)
    ensures forall y :: y in RemoveFirst(s, x) ==> y in s
  {
    RemoveFirstMultiset(s, x);
    forall y | y in RemoveFirst(s, x) ensures y in s {
      assert y in multiset(RemoveFirst(s, x));
    }
  }

  /** Removing the first occurrence, when it sits at index i, cuts out index i. */
  lemma {:induction false} RemoveFirstAt(s: seq<Coord>, i: nat)
    requires i < |s|
    requires s[i] !in s[..i]
    ensures RemoveFirst(s, s[i]) == s[..i] + s[i + 1..]
  {
    if i > 0 {
      assert s[0] in s[..i];
      assert s[1..][i - 1] == s[i];
      assert s[1..][..i - 1] == s[1..i];
      assert forall y :: y in s[1..i] ==> y in s[..i];
      RemoveFirstAt(s[1..], i - 1);
      assert s[1..][..i - 1] + s[1..][i..] == s[1..i] + s[i + 1..];
      assert [s[0]] + (s[1..i] + s[i + 1..]) == s[..i] + s[i + 1..];
    }
  }

  lemma DistinctTail(s: seq<Coord>)
    requires Distinct(s) && s != []
    ensures Distinct(s[1..]) && s[0] !in s[1..]
  {
    forall j | 0 <= j < |s[1..]| ensures s[1..][j] != s[0] {
      assert s[1..][j] == s[j + 1];
    }
  }

  lemma DistinctCons(a: Coord, r: seq<Coord>)
    requires Distinct(r) && a !in r
    ensures Distinct([a] + r)
  {
    forall i, j | 0 <= i < j < |[a] + r| ensures ([a] + r)[i] != ([a] + r)[j] {
      assert ([a] + r)[j] == r[j - 1];
    }
  }

  lemma DistinctInit(s: seq<Coord>)
    requires Distinct(s) && s != []
    ensures Distinct(s[..|s| - 1]) && s[|s| - 1] !in s[..|s| - 1]
  {
  }

  lemma DistinctSnoc(r: seq<Coord>, a: Coord)
    requires Distinct(r) && a !in r
    ensures Distinct(r + [a])
  {
  }

  /** On a duplicate-free list, removing x removes every occurrence and keeps
      the list duplicate-free. */
  lemma {:induction false} RemoveFirstDistinct(s: seq<Coord>, x: Coord)
    requires Distinct(s)
    ensures Distinct(RemoveFirst(s, x))
    ensures forall y :: y in RemoveFirst(s, x) <==> y in s && y != x
  {
    if s != [] {
      assert s == [s[0]] + s[1..];
      DistinctTail(s);
      if s[0] != x {
        RemoveFirstDistinct(s[1..], x);
        var r := RemoveFirst(s[1..], x);
        assert RemoveFirst(s, x) == [s[0]] + r;
        DistinctCons(s[0], r);
      }
    }
  }

  /** The guarded add `if (!list.Contains(x)) list.Add(x)`. */
  function AddNew(s: seq<Coord>, x: Coord): (r: seq<Coord>)
    ensures x in r
    ensures s <= r && |r| <= |s| + 1
    ensures forall y :: y in r <==> y in s || y == x
  {
    if x in s then s else s + [x]
  }

  /** A guarded add never creates a duplicate. */
  lemma AddNewDistinct(s: seq<Coord>, x: Coord)
    requires Distinct(s)
    ensures Distinct(AddNew(s, x))
  {
  }
}
