/** The abstract value of a queue: a sequence in which no element occurs twice. */
module Sequences {

  ghost predicate NoDuplicates<T>(s: seq<T>) {
    forall i, j :: 0 <= i < j < |s| ==> s[i] != s[j]
  }

  /** Append-if-absent, the meaning of a push. */
  function PushUnique<T(==,!new)>(s: seq<T>, x: T): (r: seq<T>)
    ensures forall y :: y in r <==> y in s || y == x
    ensures NoDuplicates(s) ==> NoDuplicates(r)
    ensures s <= r
  {
    if x in s then s else s + [x]
  }

  /** Order-preserving deletion of every occurrence of `x`. */
  function Without<T(==,!new)>(s: seq<T>, x: T): (r: seq<T>)
    ensures forall y :: y in r <==> y in s && y != x
    ensures |r| <= |s| && (x in s ==> |r| < |s|)
    ensures NoDuplicates(s) ==> NoDuplicates(r)
  {
    if s == [] then []
    else
      var rest := Without(s[1..], x);
      assert s == [s[0]] + s[1..];
      var kept := if s[0] == x then rest else [s[0]] + rest;
      assert NoDuplicates(s) ==> NoDuplicates(kept) by {
        if NoDuplicates(s) {
          assert NoDuplicates(s[1..]);
          assert s[0] !in s[1..];
          assert s[0] !in rest;
        }
      }
      kept
  }

  lemma {:induction false} WithoutSnoc<T(!new)>(s: seq<T>, y: T, x: T)
    ensures Without(s + [y], x) == Without(s, x) + if y == x then [] else [y]
  {
    if s == [] {
      assert s + [y] == [y];
    } else {
      assert (s + [y])[1..] == s[1..] + [y];
      WithoutSnoc(s[1..], y, x);
    }
  }

  lemma {:induction false} WithoutAbsent<T(!new)>(s: seq<T>, x: T)
    requires x !in s
    ensures Without(s, x) == s
  {
    if s != [] {
      WithoutAbsent(s[1..], x);
      assert s == [s[0]] + s[1..];
    }
  }

  /** `Without` deletes and does nothing else: what is left is the old sequence with a hole at `x`. */
  lemma {:induction false} WithoutSplits<T(!new)>(before: seq<T>, x: T, after: seq<T>)
    requires NoDuplicates(before + [x] + after)
    ensures Without(before + [x] + after, x) == before + after
    decreases |after|
  {
    var s := before + [x] + after;
    if after == [] {
      forall y | y in before ensures y != x {
        var i :| 0 <= i < |before| && before[i] == y;
        assert s[i] == y && s[|before|] == x;
      }
      WithoutAbsent(before, x);
      assert s == before + [x];
      WithoutSnoc(before, x, x);
      assert before + after == before;
    } else {
      var last := after[|after| - 1];
      var init := after[..|after| - 1];
      assert s == (before + [x] + init) + [last];
      assert s[|before|] == x && s[|s| - 1] == last;
      assert NoDuplicates(before + [x] + init) by {
        forall i, j | 0 <= i < j < |before + [x] + init|
          ensures (before + [x] + init)[i] != (before + [x] + init)[j]
        {
          assert s[i] != s[j];
        }
      }
      WithoutSplits(before, x, init);
      WithoutSnoc(before + [x] + init, last, x);
      assert before + after == before + init + [last];
    }
  }

  ghost predicate IsSuffix<T>(t: seq<T>, s: seq<T>) {
    |t| <= |s| && s[|s| - |t|..] == t
  }

  lemma SuffixIn<T>(t: seq<T>, s: seq<T>)
    requires IsSuffix(t, s)
    ensures |t| <= |s| && forall x :: x in t ==> x in s
  {
    var k := |s| - |t|;
    forall x | x in t ensures x in s {
      var i :| 0 <= i < |t| && t[i] == x;
      assert s[k + i] == s[k..][i];
    }
  }

  lemma SuffixUnique<T>(t: seq<T>, s: seq<T>)
    requires IsSuffix(t, s) && NoDuplicates(s)
    ensures NoDuplicates(t)
  {
    var k := |s| - |t|;
    forall i, j | 0 <= i < j < |t| ensures t[i] != t[j] {
      assert t[i] == s[k..][i] == s[k + i] && t[j] == s[k..][j] == s[k + j];
    }
  }

  lemma SuffixSnoc<T>(t: seq<T>, s: seq<T>, x: T)
    requires IsSuffix(t, s)
    ensures IsSuffix(t + [x], s + [x])
  {
    var k := |s| - |t|;
    assert (s + [x])[k..] == s[k..] + [x];
  }

  lemma SuffixRest<T>(t: seq<T>, s: seq<T>)
    requires IsSuffix(t, s) && |t| < |s|
    ensures IsSuffix(t, s[1..]) && s[1..][..|s| - 1 - |t|] == s[..|s| - |t|][1..]
  {
    assert s[1..][|s| - 1 - |t|..] == s[|s| - |t|..];
  }

  lemma Associative<T>(a: seq<T>, b: seq<T>, c: seq<T>)
    ensures a + (b + c) == a + b + c
  {
  }

  lemma SnocUnique<T>(s: seq<T>, x: T)
    requires NoDuplicates(s) && x !in s
    ensures NoDuplicates(s + [x])
  {
  }
}
