/**
 * Python list operations used on the job queue: `list.index`,
 * `list.remove` (first occurrence), `list.insert` and list filtering.
 */
module Lists {
  predicate NoDup<T(==)>(s: seq<T>) {
    forall i, j | 0 <= i < j < |s| :: s[i] != s[j]
  }

  /** `s.index(x)`: the first position holding `x`. */
  function IndexOf<T(==)>(s: seq<T>, x: T): (i: nat)
    requires x in s
    ensures i < |s| && s[i] == x && x !in s[..i]
  {
    if s[0] == x then 0 else 1 + IndexOf(s[1..], x)
  }

  /** `s.remove(x)`: drops the first occurrence of `x`, or leaves `s` as it is when there is none. */
  function RemoveFirst<T(==)>(s: seq<T>, x: T): (r: seq<T>)
    ensures x !in s ==> r == s
    ensures x in s ==> |r| == |s| - 1 && multiset(r) == multiset(s) - multiset{x}
  {
    if s == [] then []
    else
      assert s == [s[0]] + s[1..];
      if s[0] == x then s[1..]
      else [s[0]] + RemoveFirst(s[1..], x)
  }

  /** `s.insert(i, x)` for `0 <= i <= len(s)`. */
  function InsertAt<T>(s: seq<T>, i: nat, x: T): (r: seq<T>)
    requires i <= |s|
    ensures |r| == |s| + 1 && r[i] == x
    ensures r[..i] == s[..i] && r[i + 1..] == s[i..]
    ensures multiset(r) == multiset(s) + multiset{x}
  {
    assert s == s[..i] + s[i..];
    s[..i] + [x] + s[i..]
  }

  /** The elements of `s` that are not in `drop`, in their original order. */
  function Without<T(==)>(s: seq<T>, drop: set<T>): (r: seq<T>)
    ensures forall i | 0 <= i < |r| :: r[i] in s && r[i] !in drop
    ensures forall i | 0 <= i < |s| :: s[i] !in drop ==> s[i] in r
  {
    if s == [] then []
    else if s[0] in drop then Without(s[1..], drop)
    else [s[0]] + Without(s[1..], drop)
  }

  function Elems<T>(s: seq<T>): set<T> {
    set x | x in s
  }

  lemma NoDupTail<T>(s: seq<T>)
    requires NoDup(s) && s != []
    ensures NoDup(s[1..]) && s[0] !in s[1..]
  {
    forall i, j | 0 <= i < j < |s[1..]| ensures s[1..][i] != s[1..][j] {
      assert s[i + 1] != s[j + 1];
    }
    forall k | 1 <= k < |s| ensures s[k] != s[0] { assert s[0] != s[k]; }
  }

  /** Removing an element of a list without repeats removes it entirely and keeps the rest. */
  lemma {:induction false} RemoveFirstUnique<T>(s: seq<T>, x: T)
    requires NoDup(s)
    ensures NoDup(RemoveFirst(s, x))
    ensures forall y :: y in RemoveFirst(s, x) <==> y in s && y != x
    decreases |s|
  {
    if s != [] {
      NoDupTail(s);
      if s[0] != x {
        RemoveFirstUnique(s[1..], x);
        var t := RemoveFirst(s[1..], x);
        forall i, j | 0 <= i < j < |[s[0]] + t| ensures ([s[0]] + t)[i] != ([s[0]] + t)[j] {
          if i == 0 { assert t[j - 1] in t; }
        }
      }
    }
  }

  /** In a list without duplicates, entry `j` is new to the prefix before it. */
  lemma ElemsSnoc<T>(s: seq<T>, j: nat)
    requires NoDup(s) && j < |s|
    ensures s[j] !in Elems(s[..j])
    ensures Elems(s[..j + 1]) == Elems(s[..j]) + {s[j]}
  {
    assert s[..j + 1] == s[..j] + [s[j]];
    forall k | 0 <= k < j ensures s[..j][k] != s[j] {
      assert s[..j][k] == s[k];
    }
  }

  /** Removing a unique element from a filtered list is filtering it out as well. */
  lemma {:induction false} WithoutStep<T>(s: seq<T>, drop: set<T>, x: T)
    requires NoDup(s) && x in s && x !in drop
    ensures RemoveFirst(Without(s, drop), x) == Without(s, drop + {x})
    decreases |s|
  {
    NoDupTail(s);
    if s[0] == x {
      WithoutIgnores(s[1..], drop, x);
    } else {
      WithoutStep(s[1..], drop, x);
    }
  }

  lemma {:induction false} WithoutNothing<T>(s: seq<T>)
    ensures Without(s, {}) == s
  {
    if s != [] {
      WithoutNothing(s[1..]);
      assert s == [s[0]] + s[1..];
    }
  }

  /** Adding an absent element to the dropped set changes nothing. */
  lemma {:induction false} WithoutIgnores<T>(s: seq<T>, drop: set<T>, x: T)
    requires x !in s
    ensures Without(s, drop) == Without(s, drop + {x})
    decreases |s|
  {
    if s != [] {
      assert x !in s[1..];
      WithoutIgnores(s[1..], drop, x);
    }
  }

  /** A list without repeats has as many distinct elements as entries. */
  lemma {:induction false} ElemsSize<T>(s: seq<T>)
    requires NoDup(s)
    ensures |Elems(s)| == |s|
  {
    if s != [] {
      var last := s[|s| - 1];
      var front := s[..|s| - 1];
      assert NoDup(front);
      ElemsSize(front);
      assert Elems(s) == Elems(front) + {last};
      assert last !in Elems(front) by {
        forall k | 0 <= k < |front| ensures front[k] != last { assert s[k] != s[|s| - 1]; }
      }
    }
  }

  lemma InsertAtUnique<T>(s: seq<T>, i: nat, x: T)
    requires NoDup(s) && x !in s && i <= |s|
    ensures NoDup(InsertAt(s, i, x))
    ensures forall y :: y in InsertAt(s, i, x) <==> y in s || y == x
  {
    var r := InsertAt(s, i, x);
    InsertAtIndex(s, i, x);
    forall y | y in s ensures y in r {
      var k :| 0 <= k < |s| && s[k] == y;
      if k < i { assert r[k] == y; } else { assert r[k + 1] == y; }
    }
    forall a, b | 0 <= a < b < |r| ensures r[a] != r[b] {
      if a < i && b < i {
      } else if a < i && b == i {
        assert r[a] == s[a];
      } else if a < i {
        assert r[a] == s[a] && r[b] == s[b - 1];
      } else if a == i {
        assert r[b] == s[b - 1];
      } else {
        assert r[a] == s[a - 1] && r[b] == s[b - 1];
      }
    }
  }

  lemma InsertAtIndex<T>(s: seq<T>, i: nat, x: T)
    requires i <= |s|
    ensures forall k | 0 <= k < i :: InsertAt(s, i, x)[k] == s[k]
    ensures forall k | i <= k < |s| :: InsertAt(s, i, x)[k + 1] == s[k]
  {
    var r := InsertAt(s, i, x);
    forall k | 0 <= k < i ensures r[k] == s[k] { assert r[..i][k] == s[..i][k]; }
    forall k | i <= k < |s| ensures r[k + 1] == s[k] { assert r[i + 1..][k - i] == s[i..][k - i]; }
  }

  lemma {:induction false} WithoutUnique<T>(s: seq<T>, drop: set<T>)
    requires NoDup(s)
    ensures NoDup(Without(s, drop))
    decreases |s|
  {
    if s != [] {
      NoDupTail(s);
      WithoutUnique(s[1..], drop);
      if s[0] !in drop {
        var w := Without(s[1..], drop);
        forall a, b | 0 <= a < b < |[s[0]] + w| ensures ([s[0]] + w)[a] != ([s[0]] + w)[b] {
          if a == 0 { assert w[b - 1] in w; }
        }
      }
    }
  }
}
