/** Generic sequence helpers shared by the class-token, document and controller models. */
module Seqs {

  /** Number of occurrences of `x` in `s`. */
  function Count<T(==,!new)>(s: seq<T>, x: T): (n: nat)
    ensures n == 0 <==> x !in s
    ensures n <= |s|
  {
    if s == [] then 0 else (if s[0] == x then 1 else 0) + Count(s[1..], x)
  }

  /** No element occurs twice. */
  predicate NoDup<T(==,!new)>(s: seq<T>)
  {
    forall i, j :: 0 <= i < j < |s| ==> s[i] != s[j]
  }

  /** `s` with every occurrence of `x` removed, the rest in order. */
  function Without<T(==,!new)>(s: seq<T>, x: T): (r: seq<T>)
    ensures forall y :: y in r <==> y in s && y != x
    ensures NoDup(s) ==> NoDup(r)
    ensures x !in s ==> r == s
  {
    if s == [] then []
    else if s[0] == x then Without(s[1..], x)
    else NoDupCons(s); NoDupCons([s[0]] + Without(s[1..], x)); [s[0]] + Without(s[1..], x)
  }

  /** `s` with every element of `drop` removed, the rest in order. */
  function FilterOut<T(==,!new)>(s: seq<T>, drop: seq<T>): (r: seq<T>)
    ensures forall y :: y in r <==> y in s && y !in drop
  {
    if s == [] then []
    else if s[0] in drop then FilterOut(s[1..], drop)
    else [s[0]] + FilterOut(s[1..], drop)
  }

  /** `s` back to front. */
  function Reverse<T>(s: seq<T>): (r: seq<T>)
    ensures |r| == |s|
    ensures forall i :: 0 <= i < |s| ==> r[i] == s[|s| - 1 - i]
  {
    if s == [] then [] else Reverse(s[1..]) + [s[0]]
  }

  /** `s` with only the first occurrence of each element kept (an ordered set). */
  function Dedup<T(==,!new)>(s: seq<T>): (r: seq<T>)
    ensures NoDup(r)
    ensures forall y :: y in r <==> y in s
  {
    if s == [] then []
    else
      var r := [s[0]] + Without(Dedup(s[1..]), s[0]);
      NoDupCons(r);
      r
  }

  /** A non-empty sequence is duplicate-free iff its head is not in its tail and its tail is duplicate-free. */
  lemma NoDupCons<T(!new)>(s: seq<T>)
    requires s != []
    ensures NoDup(s) <==> s[0] !in s[1..] && NoDup(s[1..])
  {
    if NoDup(s) {
      forall k | 0 <= k < |s[1..]| ensures s[1..][k] != s[0] {
        assert s[1..][k] == s[k + 1];
      }
      forall i, j | 0 <= i < j < |s[1..]| ensures s[1..][i] != s[1..][j] {
        assert s[1..][i] == s[i + 1] && s[1..][j] == s[j + 1];
      }
    }
    if s[0] !in s[1..] && NoDup(s[1..]) {
      forall i, j | 0 <= i < j < |s| ensures s[i] != s[j] {
        if i == 0 {
          assert s[j] == s[1..][j - 1];
        } else {
          assert s[i] == s[1..][i - 1] && s[j] == s[1..][j - 1];
        }
      }
    }
  }

  /** `s` with its first occurrence of `x` removed. */
  function RemoveFirst<T(==,!new)>(s: seq<T>, x: T): (r: seq<T>)
    ensures Count(r, x) == if x in s then Count(s, x) - 1 else 0
    ensures forall y :: y != x ==> (y in r <==> y in s)
  {
    if s == [] then []
    else if s[0] == x then s[1..]
    else [s[0]] + RemoveFirst(s[1..], x)
  }

  lemma {:induction false} CountAppend<T(!new)>(s: seq<T>, x: T, y: T)
    ensures Count(s + [y], x) == Count(s, x) + (if x == y then 1 else 0)
  {
    if s != [] {
      assert (s + [y])[1..] == s[1..] + [y];
      CountAppend(s[1..], x, y);
    }
  }

  /** An element of a duplicate-free sequence occurs exactly once. */
  lemma {:induction false} CountNoDup<T(!new)>(s: seq<T>, x: T)
    requires NoDup(s)
    ensures Count(s, x) == if x in s then 1 else 0
  {
    if s != [] {
      NoDupCons(s);
      CountNoDup(s[1..], x);
    }
  }

  /** Deduplicating a duplicate-free sequence changes nothing. */
  lemma {:induction false} DedupNoDup<T(!new)>(s: seq<T>)
    ensures NoDup(s) ==> Dedup(s) == s
  {
    if s != [] && NoDup(s) {
      NoDupCons(s);
      DedupNoDup(s[1..]);
      assert s == [s[0]] + s[1..];
    }
  }

  /** Removing the only occurrence of `x` is the same as removing all of them. */
  lemma {:induction false} RemoveFirstSingle<T(!new)>(s: seq<T>, x: T)
    requires Count(s, x) == 1
    ensures RemoveFirst(s, x) == Without(s, x)
  {
    if s[0] == x {
      assert Without(s[1..], x) == s[1..];
    } else {
      RemoveFirstSingle(s[1..], x);
    }
  }

  /** Appending an element absent from `s` keeps `s` duplicate-free. */
  lemma AppendNoDup<T(!new)>(s: seq<T>, x: T)
    requires NoDup(s) && x !in s
    ensures NoDup(s + [x])
  {
  }

  /** Removing an element that was just appended to a sequence that lacked it undoes the append. */
  lemma {:induction false} WithoutAppended<T(!new)>(s: seq<T>, x: T)
    requires x !in s
    ensures Without(s + [x], x) == s
  {
    if s != [] {
      assert (s + [x])[1..] == s[1..] + [x];
      WithoutAppended(s[1..], x);
    }
  }

  /** Removing no elements changes nothing. */
  lemma {:induction false} FilterOutNone<T(!new)>(s: seq<T>)
    ensures FilterOut(s, []) == s
  {
    if s != [] {
      FilterOutNone(s[1..]);
    }
  }

  /** Removing the elements of `ms + [x]` is the same set of removals in another order. */
  lemma {:induction false} FilterOutSnoc<T(!new)>(s: seq<T>, ms: seq<T>, x: T)
    ensures Without(FilterOut(s, ms), x) == FilterOut(s, ms + [x])
  {
    if s != [] {
      FilterOutSnoc(s[1..], ms, x);
    }
  }

  /** Removing `x` from a concatenation removes it from each part. */
  lemma {:induction false} WithoutConcat<T(!new)>(a: seq<T>, b: seq<T>, x: T)
    ensures Without(a + b, x) == Without(a, x) + Without(b, x)
  {
    if a == [] {
      assert a + b == b;
    } else {
      assert (a + b)[1..] == a[1..] + b;
      WithoutConcat(a[1..], b, x);
    }
  }

  /** Reversing keeps the elements. */
  lemma ReverseHas<T>(s: seq<T>, x: T)
    ensures x in Reverse(s) <==> x in s
  {
    var r := Reverse(s);
    if x in s {
      var i :| 0 <= i < |s| && s[i] == x;
      assert r[|s| - 1 - i] == x;
    }
  }

  /** Moving `x` to the front of `r + f`, where `r` lacks it, takes it out of `f` only. */
  lemma FrontWithout<T(!new)>(r: seq<T>, f: seq<T>, x: T)
    requires x !in r
    ensures [x] + Without(r + f, x) == [x] + r + Without(f, x)
  {
    WithoutConcat(r, f, x);
    assert [x] + (r + Without(f, x)) == [x] + r + Without(f, x);
  }

  /** Reversing `init + [x]` puts `x` first. */
  lemma ReverseSnoc<T>(init: seq<T>, x: T)
    ensures Reverse(init + [x]) == [x] + Reverse(init)
  {
    var r, l := Reverse(init + [x]), [x] + Reverse(init);
    assert |r| == |l|;
    forall i | 0 <= i < |r| ensures r[i] == l[i] {
      if i > 0 {
        assert l[i] == Reverse(init)[i - 1] == init[|init| - i];
      }
    }
  }

  /** The last element of a duplicate-free sequence is not among the earlier ones, which are duplicate-free too. */
  lemma NoDupSnoc<T(!new)>(s: seq<T>)
    requires s != [] && NoDup(s)
    ensures NoDup(s[..|s| - 1]) && s[|s| - 1] !in s[..|s| - 1]
  {
  }

}
