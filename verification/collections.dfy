/**
 * Small value-level building blocks shared by the hooks: an optional value, and the
 * insertion-ordered sets that JavaScript's `Set` and the `includes`/`push`/`filter`
 * idiom on arrays provide. A JavaScript `Set` iterates in insertion order, and the
 * hooks observe that order (`Array.from(set)[0]`, `set.forEach`), so a set is kept
 * here as a duplicate-free sequence.
 */
module Collections {

  datatype Option<T> = None | Some(value: T)

  /** No element occurs twice. */
  ghost predicate Distinct<T>(s: seq<T>) {
    forall i, j :: 0 <= i < j < |s| ==> s[i] != s[j]
  }

  /** Non-decreasing order. */
  predicate Ascending(s: seq<real>) {
    forall i, j :: 0 <= i < j < |s| ==> s[i] <= s[j]
  }

  /** `Set.prototype.add`, and `if (!a.includes(x)) a.push(x)`: appends x unless present. */
  function Insert<T(==,!new)>(s: seq<T>, x: T): (r: seq<T>)
    ensures x in r
    ensures forall y :: y in r <==> y in s || y == x
    ensures x in s ==> r == s
    ensures x !in s ==> |r| == |s| + 1 && r[..|s|] == s && r[|s|] == x
    ensures Distinct(s) ==> Distinct(r)
  {
    if x in s then s else s + [x]
  }

  /** `a.filter((e) => e !== x)`, and `Set.prototype.delete` on an ordered set. */
  function Remove<T(==,!new)>(s: seq<T>, x: T): (r: seq<T>)
    ensures x !in r
    ensures forall y :: y in r <==> y in s && y != x
    ensures |r| <= |s|
    ensures x !in s ==> r == s
    ensures x in s ==> |r| < |s|
  {
    if s == [] then []
    else if s[0] == x then Remove(s[1..], x)
    else [s[0]] + Remove(s[1..], x)
  }

  /** Removing from a duplicate-free sequence keeps it duplicate-free and drops exactly one element when present. */
  lemma {:induction false} RemoveDistinct<T(!new)>(s: seq<T>, x: T)
    requires Distinct(s)
    ensures Distinct(Remove(s, x))
    ensures |Remove(s, x)| == if x in s then |s| - 1 else |s|
  {
    if s != [] {
      assert Distinct(s[1..]) by {
        forall i, j | 0 <= i < j < |s[1..]| ensures s[1..][i] != s[1..][j] {
          assert s[1..][i] == s[i + 1] && s[1..][j] == s[j + 1];
        }
      }
      RemoveDistinct(s[1..], x);
      if s[0] == x {
        assert x !in s[1..] by {
          forall k | 0 <= k < |s[1..]| ensures s[1..][k] != x {
            assert s[1..][k] == s[k + 1];
          }
        }
      } else {
        var t := Remove(s[1..], x);
        assert s[0] !in s[1..] by {
          forall k | 0 <= k < |s[1..]| ensures s[1..][k] != s[0] {
            assert s[1..][k] == s[k + 1];
          }
        }
        assert s[0] !in t;
        assert x in s <==> x in s[1..];
        forall i, j | 0 <= i < j < |[s[0]] + t| ensures ([s[0]] + t)[i] != ([s[0]] + t)[j] {
          if i == 0 {
            assert ([s[0]] + t)[j] == t[j - 1];
          } else {
            assert ([s[0]] + t)[i] == t[i - 1] && ([s[0]] + t)[j] == t[j - 1];
          }
        }
      }
    }
  }

  /** Removing the first element of a duplicate-free sequence leaves the rest. */
  lemma RemoveFirst<T(!new)>(s: seq<T>)
    requires Distinct(s) && s != []
    ensures Remove(s, s[0]) == s[1..]
  {
  }

  /** Removing a value that was just added restores the sequence. */
  lemma RemoveInsert<T(!new)>(s: seq<T>, x: T)
    requires x !in s
    ensures Remove(Insert(s, x), x) == s
  {
    RemoveAppend(s, [x], x);
  }

  /** Removal keeps the relative order of the surviving elements: it is the identity on a sequence that lacks x, and
      commutes with appending. */
  lemma {:induction false} RemoveAppend<T(!new)>(s: seq<T>, t: seq<T>, x: T)
    ensures Remove(s + t, x) == Remove(s, x) + Remove(t, x)
  {
    if s == [] {
      assert s + t == t;
    } else {
      assert (s + t)[0] == s[0];
      assert (s + t)[1..] == s[1..] + t;
      RemoveAppend(s[1..], t, x);
    }
  }
}
