/** Small shared vocabulary: optional values, results, and totals over sequences. */
module Basics {

  datatype Option<+T> = None | Some(value: T)

  datatype Result<+T, +E> = Ok(value: T) | Err(error: E)

  /** The exact total of `f` over `s`, accumulated from the left as the source's loops do. */
  function Total<T>(f: T -> real, s: seq<T>): real {
    if s == [] then 0.0 else Total(f, s[..|s| - 1]) + f(s[|s| - 1])
  }

  /** A number itself, as an amount to be totalled. */
  function Same(x: real): real {
    x
  }

  /** How many elements of `s` satisfy `p`. */
  function Count<T>(p: T -> bool, s: seq<T>): nat {
    if s == [] then 0 else Count(p, s[..|s| - 1]) + (if p(s[|s| - 1]) then 1 else 0)
  }

  lemma {:induction false} TotalAppend<T>(f: T -> real, s: seq<T>, x: T)
    ensures Total(f, s + [x]) == Total(f, s) + f(x)
  {
    assert (s + [x])[..|s|] == s;
  }

  /** Replacing the last element changes a total only by that element. */
  lemma TotalReplaceLast<T>(f: T -> real, s: seq<T>, x: T)
    requires s != []
    ensures Total(f, s[|s| - 1 := x]) == Total(f, s) - f(s[|s| - 1]) + f(x)
  {
    assert s[|s| - 1 := x][..|s| - 1] == s[..|s| - 1];
  }

  lemma {:induction false} TotalSame<S, T>(f: S -> real, s: seq<S>, g: T -> real, t: seq<T>)
    requires |s| == |t|
    requires forall i :: 0 <= i < |s| ==> f(s[i]) == g(t[i])
    ensures Total(f, s) == Total(g, t)
  {
    if s != [] {
      TotalSame(f, s[..|s| - 1], g, t[..|t| - 1]);
    }
  }

  lemma {:induction false} TotalAtMost<S, T>(f: S -> real, s: seq<S>, g: T -> real, t: seq<T>)
    requires |s| == |t|
    requires forall i :: 0 <= i < |s| ==> f(s[i]) <= g(t[i])
    ensures Total(f, s) <= Total(g, t)
  {
    if s != [] {
      TotalAtMost(f, s[..|s| - 1], g, t[..|t| - 1]);
    }
  }

  lemma {:induction false} TotalConcat<T>(f: T -> real, s: seq<T>, t: seq<T>)
    ensures Total(f, s + t) == Total(f, s) + Total(f, t)
  {
    if t == [] {
      assert s + t == s;
    } else {
      TotalConcat(f, s, t[..|t| - 1]);
      assert (s + t)[..|s + t| - 1] == s + t[..|t| - 1];
    }
  }

  lemma {:induction false} TotalNonNegative<T>(f: T -> real, s: seq<T>)
    requires forall i :: 0 <= i < |s| ==> f(s[i]) >= 0.0
    ensures Total(f, s) >= 0.0
  {
    if s != [] {
      TotalNonNegative(f, s[..|s| - 1]);
    }
  }

  lemma {:induction false} CountAppend<T>(p: T -> bool, s: seq<T>, x: T)
    ensures Count(p, s + [x]) == Count(p, s) + (if p(x) then 1 else 0)
  {
    assert (s + [x])[..|s|] == s;
  }

  lemma CountReplaceLast<T>(p: T -> bool, s: seq<T>, x: T)
    requires s != []
    ensures Count(p, s[|s| - 1 := x]) == Count(p, s[..|s| - 1]) + (if p(x) then 1 else 0)
  {
    assert s[|s| - 1 := x][..|s| - 1] == s[..|s| - 1];
  }

  lemma {:induction false} CountSame<S, T>(p: S -> bool, s: seq<S>, q: T -> bool, t: seq<T>)
    requires |s| == |t|
    requires forall i :: 0 <= i < |s| ==> p(s[i]) == q(t[i])
    ensures Count(p, s) == Count(q, t)
  {
    if s != [] {
      CountSame(p, s[..|s| - 1], q, t[..|t| - 1]);
    }
  }

  lemma {:induction false} CountAll<T>(p: T -> bool, s: seq<T>)
    requires forall i :: 0 <= i < |s| ==> p(s[i])
    ensures Count(p, s) == |s|
  {
    if s != [] {
      CountAll(p, s[..|s| - 1]);
    }
  }

  lemma {:induction false} CountBounded<T>(p: T -> bool, s: seq<T>)
    ensures Count(p, s) <= |s|
  {
    if s != [] {
      CountBounded(p, s[..|s| - 1]);
    }
  }

  lemma {:induction false} CountConcat<T>(p: T -> bool, s: seq<T>, t: seq<T>)
    ensures Count(p, s + t) == Count(p, s) + Count(p, t)
  {
    if t == [] {
      assert s + t == s;
    } else {
      CountConcat(p, s, t[..|t| - 1]);
      assert (s + t)[..|s + t| - 1] == s + t[..|t| - 1];
    }
  }

  /** The texts of all elements, one after the other. */
  function Joined<T>(f: T -> string, s: seq<T>): string {
    if s == [] then "" else Joined(f, s[..|s| - 1]) + f(s[|s| - 1])
  }

  lemma {:induction false} JoinedConcat<T>(f: T -> string, s: seq<T>, t: seq<T>)
    ensures Joined(f, s + t) == Joined(f, s) + Joined(f, t)
  {
    if t == [] {
      assert s + t == s;
    } else {
      JoinedConcat(f, s, t[..|t| - 1]);
      assert (s + t)[..|s + t| - 1] == s + t[..|t| - 1];
    }
  }

  lemma MiddlePart<T>(before: seq<T>, middle: seq<T>, after: seq<T>)
    ensures (before + middle + after)[|before|..|before| + |middle|] == middle
  {
  }

  lemma SliceOfSlice<T>(s: seq<T>, a: nat, b: nat, i: nat, j: nat)
    requires a <= b <= |s| && i <= j <= b - a
    ensures s[a..b][i..j] == s[a + i..a + j]
  {
    forall k | 0 <= k < j - i ensures s[a..b][i..j][k] == s[a + i..a + j][k] {
      assert s[a..b][i..j][k] == s[a..b][i + k] == s[a + i + k];
    }
  }

  lemma JoinedOne<T>(f: T -> string, s: seq<T>, i: nat)
    requires i < |s|
    ensures Joined(f, s[i..i + 1]) == f(s[i])
  {
    var one := s[i..i + 1];
    var none := one[..|one| - 1];
    assert |none| == 0 && |Joined(f, none)| == 0;
  }

  lemma ThreeParts<T>(s: seq<T>, a: nat, b: nat, c: nat, d: nat)
    requires a <= b <= c <= d <= |s|
    ensures s[a..d] == s[a..b] + s[b..c] + s[c..d]
  {
  }

  lemma {:induction false} JoinedCut<T>(f: T -> string, s: seq<T>, i: nat)
    requires i <= |s|
    ensures Joined(f, s) == Joined(f, s[..i]) + Joined(f, s[i..])
  {
    assert s == s[..i] + s[i..];
    JoinedConcat(f, s[..i], s[i..]);
  }

  /** The texts of the elements before `right`, with that of one of them by itself. */
  lemma JoinedAround<T>(f: T -> string, s: seq<T>, left: nat, right: nat)
    requires left < right <= |s|
    ensures Joined(f, s[..right]) == Joined(f, s[..left]) + f(s[left]) + Joined(f, s[left + 1..right])
  {
    JoinedCut(f, s[..right], left + 1);
    assert s[..right][..left + 1] == s[..left + 1] && s[..right][left + 1..] == s[left + 1..right];
    JoinedCut(f, s[..left + 1], left);
    assert s[..left + 1][..left] == s[..left] && s[..left + 1][left..] == s[left..left + 1];
    JoinedOne(f, s, left);
  }

  lemma CutInside(before: string, x: string, y: string, z: string, after: string, skip: nat, extra: nat, a: nat, d: nat)
    requires skip <= |x| && extra <= |z| && a == |before| + skip && d == |before| + |x| + |y| + extra
    ensures a <= d <= |before + (x + y + z) + after|
    ensures (before + (x + y + z) + after)[a..d] == x[skip..] + y + z[..extra]
  {
    var w := before + (x + y + z) + after;
    assert w == before + x[..skip] + (x[skip..] + y + z[..extra]) + (z[extra..] + after);
    MiddlePart(before + x[..skip], x[skip..] + y + z[..extra], z[extra..] + after);
  }
}
