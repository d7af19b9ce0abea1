/** The array operations MongoDB and Mongoose documents offer, over sequences:
    `pull` (remove every occurrence), `$addToSet` (append unless present),
    `indexOf`, and the `filter((v, i, a) => a.indexOf(v) === i)` idiom that
    keeps the first occurrence of every value. */
module MongoArrays {

  /** `array.pull(x)`: every occurrence of `x` removed, the rest in order. */
  function Pull<T(==,!new)>(s: seq<T>, x: T): (r: seq<T>)
    ensures x !in r
    ensures forall y :: y != x ==> (y in r <==> y in s)
    ensures |r| <= |s|
  {
    if s == [] then [] else (if s[0] == x then [] else [s[0]]) + Pull(s[1..], x)
  }

  /** `$addToSet`: `x` appended at the end unless it is already present. */
  function AddToSet<T(==,!new)>(s: seq<T>, x: T): (r: seq<T>)
    ensures forall y :: y in r <==> y in s || y == x
    ensures |r| <= |s| + 1
  {
    if x in s then s else s + [x]
  }

  /** Pulling a value that is absent changes nothing. */
  lemma {:induction false} PullAbsent<T(!new)>(s: seq<T>, x: T)
    requires x !in s
    ensures Pull(s, x) == s
  {
    if s != [] {
      PullAbsent(s[1..], x);
    }
  }

  /** Pulling `x` after appending `x` is the same as pulling it before. */
  lemma {:induction false} PullAppended<T(!new)>(s: seq<T>, x: T)
    ensures Pull(s + [x], x) == Pull(s, x)
  {
    if s == [] {
      assert [x][1..] == [];
    } else {
      assert (s + [x])[1..] == s[1..] + [x];
      PullAppended(s[1..], x);
    }
  }

  /** Adding to a set twice is adding once. */
  lemma AddToSetIdempotent<T(!new)>(s: seq<T>, x: T)
    ensures AddToSet(AddToSet(s, x), x) == AddToSet(s, x)
  {
  }

  /** Pulling a value that `$addToSet` appended restores the array. */
  lemma PullUndoesAddToSet<T(!new)>(s: seq<T>, x: T)
    requires x !in s
    ensures Pull(AddToSet(s, x), x) == s
  {
    PullAppended(s, x);
    PullAbsent(s, x);
  }

  /** `array.indexOf(v)`: the first index holding `v`, or -1. */
  function IndexOf<T(==,!new)>(s: seq<T>, v: T): (r: int)
    ensures -1 <= r < |s|
    ensures r == -1 <==> v !in s
    ensures 0 <= r ==> s[r] == v && v !in s[..r]
  {
    if s == [] then -1
    else if s[0] == v then 0
    else
      var k := IndexOf(s[1..], v);
      assert k >= 0 ==> s[..k + 1] == [s[0]] + s[1..][..k];
      if k < 0 then -1 else k + 1
  }

  ghost predicate NoDuplicates<T>(r: seq<T>) {
    forall i, j :: 0 <= i < j < |r| ==> r[i] != r[j]
  }

  /** `pull` never introduces a duplicate. */
  lemma {:induction false} PullKeepsNoDuplicates<T(!new)>(s: seq<T>, x: T)
    requires NoDuplicates(s)
    ensures NoDuplicates(Pull(s, x))
  {
    if s != [] {
      assert NoDuplicates(s[1..]) by {
        forall i, j | 0 <= i < j < |s[1..]|
          ensures s[1..][i] != s[1..][j]
        {
          assert s[1..][i] == s[i + 1] && s[1..][j] == s[j + 1];
        }
      }
      PullKeepsNoDuplicates(s[1..], x);
      var rest := Pull(s[1..], x);
      if s[0] != x {
        assert s[0] !in s[1..] by {
          forall k | 0 <= k < |s[1..]|
            ensures s[1..][k] != s[0]
          {
            assert s[1..][k] == s[k + 1];
          }
        }
        assert s[0] !in rest;
        var r := [s[0]] + rest;
        forall i, j | 0 <= i < j < |r|
          ensures r[i] != r[j]
        {
          assert r[j] == rest[j - 1];
          if i > 0 {
            assert r[i] == rest[i - 1];
          }
        }
      } else {
        assert [] + rest == rest;
      }
    }
  }

  /** `$addToSet` never introduces a duplicate. */
  lemma AddToSetKeepsNoDuplicates<T(!new)>(s: seq<T>, x: T)
    requires NoDuplicates(s)
    ensures NoDuplicates(AddToSet(s, x))
  {
  }

  /** The elements of `r` appear in the order of their first occurrence in `s`. */
  ghost predicate InFirstOccurrenceOrder<T(!new)>(s: seq<T>, r: seq<T>) {
    forall i, j :: 0 <= i < j < |r| ==> IndexOf(s, r[i]) < IndexOf(s, r[j])
  }

  /** The elements `s[i]`, `i < n`, that sit at their own first occurrence. */
  function KeepFirst<T(==,!new)>(s: seq<T>, n: nat): seq<T>
    requires n <= |s|
  {
    if n == 0 then []
    else KeepFirst(s, n - 1) + (if IndexOf(s, s[n - 1]) == n - 1 then [s[n - 1]] else [])
  }

  /** `KeepFirst(s, n)` holds exactly the values of `s[..n]`, each first
      occurring before `n`. */
  lemma {:induction false} KeepFirstMembers<T(!new)>(s: seq<T>, n: nat)
    requires n <= |s|
    ensures forall x :: x in KeepFirst(s, n) <==> x in s[..n]
    ensures forall x :: x in KeepFirst(s, n) ==> 0 <= IndexOf(s, x) < n
  {
    if n > 0 {
      KeepFirstMembers(s, n - 1);
      var v := s[n - 1];
      assert s[..n] == s[..n - 1] + [v];
      forall x | x in s[..n]
        ensures x in KeepFirst(s, n)
      {
        if x !in s[..n - 1] {
          assert x == v;
          var i := IndexOf(s, x);
          assert s[..n] == s[..i] + s[i..n];
          assert i == n - 1;
        }
      }
    }
  }

  /** `KeepFirst(s, n)` lists its values once each, in first-occurrence
      order. */
  lemma {:induction false} KeepFirstOrdered<T(!new)>(s: seq<T>, n: nat)
    requires n <= |s|
    ensures NoDuplicates(KeepFirst(s, n))
    ensures InFirstOccurrenceOrder(s, KeepFirst(s, n))
  {
    if n > 0 {
      KeepFirstOrdered(s, n - 1);
      KeepFirstMembers(s, n - 1);
      var prev := KeepFirst(s, n - 1);
      var v := s[n - 1];
      if IndexOf(s, v) == n - 1 {
        forall i | 0 <= i < |prev|
          ensures IndexOf(s, prev[i]) < IndexOf(s, v)
        {
          assert prev[i] in prev;
        }
        AppendLaterKeepsOrder(s, prev, v);
        assert KeepFirst(s, n) == prev + [v];
      } else {
        assert KeepFirst(s, n) == prev;
      }
    }
  }

  /** Appending a value that first occurs after every listed one keeps the
      list duplicate-free and in first-occurrence order. */
  lemma AppendLaterKeepsOrder<T(!new)>(s: seq<T>, prev: seq<T>, v: T)
    requires NoDuplicates(prev) && InFirstOccurrenceOrder(s, prev)
    requires forall i :: 0 <= i < |prev| ==> IndexOf(s, prev[i]) < IndexOf(s, v)
    ensures NoDuplicates(prev + [v])
    ensures InFirstOccurrenceOrder(s, prev + [v])
  {
    var r := prev + [v];
    forall i, j | 0 <= i < j < |r|
      ensures IndexOf(s, r[i]) < IndexOf(s, r[j]) && r[i] != r[j]
    {
      assert r[i] == prev[i];
      if j < |prev| {
        assert r[j] == prev[j];
      }
    }
  }

  /** `a.filter((v, i, a) => a.indexOf(v) === i)`: the distinct values of `s`,
      each once, in the order in which they first occur. */
  function Distinct<T(==,!new)>(s: seq<T>): (r: seq<T>)
    ensures forall x :: x in r <==> x in s
    ensures NoDuplicates(r)
    ensures InFirstOccurrenceOrder(s, r)
  {
    KeepFirstMembers(s, |s|);
    KeepFirstOrdered(s, |s|);
    assert s[..|s|] == s;
    KeepFirst(s, |s|)
  }
}
