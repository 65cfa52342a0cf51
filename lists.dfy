/** The two Python list facts the game relies on: lists without repeats,
    and `list.remove(x)`, which drops the first element equal to `x`. */
module Lists {

  /** No element occurs twice. */
  predicate NoDup<T(==)>(s: seq<T>)
  {
    forall i, j :: 0 <= i < j < |s| ==> s[i] != s[j]
  }

  /** `list.remove(x)`: the list without the first occurrence of `x`
      (Python raises ValueError when `x` is absent, hence the precondition). */
  function RemoveFirst<T(==)>(s: seq<T>, x: T): (r: seq<T>)
    requires x in s
    ensures |r| == |s| - 1
  {
    if s[0] == x then s[1..] else [s[0]] + RemoveFirst(s[1..], x)
  }

  /** `remove(x)` takes away one `x` and nothing else. */
  lemma {:induction false} RemoveFirstMultiset<T>(s: seq<T>, x: T)
    requires x in s
    ensures multiset(RemoveFirst(s, x)) == multiset(s) - multiset{x}
    ensures forall y :: y in RemoveFirst(s, x) ==> y in s
  {
    assert s == [s[0]] + s[1..];
    if s[0] != x {
      RemoveFirstMultiset(s[1..], x);
    }
    forall y | y in RemoveFirst(s, x) ensures y in s {
      assert multiset(RemoveFirst(s, x))[y] > 0;
    }
  }

  /** Removing `x` from a list whose first `x` sits right after `a` cuts out exactly that element. */
  lemma {:induction false} RemoveFirstAt<T>(a: seq<T>, x: T, b: seq<T>)
    requires x !in a
    ensures x in a + [x] + b
    ensures RemoveFirst(a + [x] + b, x) == a + b
  {
    var s := a + [x] + b;
    assert s[|a|] == x;
    if a == [] {
      assert s == [x] + b;
      assert s[1..] == b;
    } else {
      var s' := a[1..] + [x] + b;
      assert s[0] == a[0] != x;
      assert s[1..] == s';
      RemoveFirstAt(a[1..], x, b);
      calc {
        RemoveFirst(s, x);
        [s[0]] + RemoveFirst(s[1..], x);
        [a[0]] + RemoveFirst(s', x);
        [a[0]] + (a[1..] + b);
        { assert a == [a[0]] + a[1..]; }
        a + b;
      }
    }
  }

  /** In a list without repeats, `remove(x)` keeps it without repeats and leaves no `x` behind. */
  lemma {:induction false} RemoveFirstNoDup<T>(s: seq<T>, x: T)
    requires x in s
    ensures NoDup(s) ==> NoDup(RemoveFirst(s, x)) && x !in RemoveFirst(s, x)
  {
    if NoDup(s) {
      RemoveFirstNoDupCase(s, x);
    }
  }

  lemma {:induction false} RemoveFirstNoDupCase<T>(s: seq<T>, x: T)
    requires NoDup(s) && x in s
    ensures NoDup(RemoveFirst(s, x))
    ensures x !in RemoveFirst(s, x)
  {
    assert s == [s[0]] + s[1..];
    assert NoDup(s[1..]) by {
      forall i, j | 0 <= i < j < |s[1..]| ensures s[1..][i] != s[1..][j] {
        assert s[1..][i] == s[i + 1] && s[1..][j] == s[j + 1];
      }
    }
    if s[0] == x {
      forall k | 0 <= k < |s[1..]| ensures s[1..][k] != x {
        assert s[1..][k] == s[k + 1];
      }
    } else {
      RemoveFirstNoDupCase(s[1..], x);
      RemoveFirstMultiset(s[1..], x);
      var tail := RemoveFirst(s[1..], x);
      assert s[0] !in s[1..] by {
        forall k | 0 <= k < |s[1..]| ensures s[1..][k] != s[0] {
          assert s[1..][k] == s[k + 1];
        }
      }
      var r := [s[0]] + tail;
      forall i, j | 0 <= i < j < |r| ensures r[i] != r[j] {
        if i == 0 {
          assert r[j] == tail[j - 1];
        } else {
          assert r[i] == tail[i - 1] && r[j] == tail[j - 1];
        }
      }
    }
  }
}
