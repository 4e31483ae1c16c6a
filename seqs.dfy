/** Small sequence helpers shared by the game and inference models. */
module Seqs {

  datatype Option<+T> = None | Some(value: T)

  /** Number of occurrences of `x` in `s`. */
  function Count<T(==)>(s: seq<T>, x: T): (n: nat)
    ensures n <= |s|
    ensures n == 0 <==> x !in s
  {
    if s == [] then 0
    else Count(s[..|s| - 1], x) + (if s[|s| - 1] == x then 1 else 0)
  }

  lemma {:induction false} CountAppend<T>(a: seq<T>, b: seq<T>, x: T)
    ensures Count(a + b, x) == Count(a, x) + Count(b, x)
  {
    if b == [] {
      assert a + b == a;
    } else {
      assert (a + b)[..|a + b| - 1] == a + b[..|b| - 1];
      CountAppend(a, b[..|b| - 1], x);
    }
  }

  lemma CountMultiset<T>(s: seq<T>, x: T)
    ensures Count(s, x) == multiset(s)[x]
  {
    if s != [] {
      assert s == s[..|s| - 1] + [s[|s| - 1]];
      CountMultiset(s[..|s| - 1], x);
    }
  }

  /** No element occurs twice. */
  predicate Distinct<T(==)>(s: seq<T>)
  {
    forall i, j :: 0 <= i < j < |s| ==> s[i] != s[j]
  }

  /** A distinct sequence holds each of its elements exactly once. */
  lemma DistinctCountOne<T>(s: seq<T>, x: T)
    requires Distinct(s) && x in s
    ensures Count(s, x) == 1
  {
    var i :| 0 <= i < |s| && s[i] == x;
    assert s == s[..i] + [x] + s[i + 1..];
    CountAppend(s[..i] + [x], s[i + 1..], x);
    CountAppend(s[..i], [x], x);
    assert x !in s[..i];
    assert x !in s[i + 1..];
  }

  /** Reordering a distinct sequence keeps it distinct. */
  lemma DistinctPermutation<T>(s: seq<T>, t: seq<T>)
    requires Distinct(s) && multiset(s) == multiset(t)
    ensures Distinct(t)
  {
    forall i, j | 0 <= i < j < |t| ensures t[i] != t[j] {
      if t[i] == t[j] {
        assert t == t[..i] + [t[i]] + t[i + 1..];
        assert t[i + 1..] == t[i + 1..j] + [t[j]] + t[j + 1..];
        assert multiset(t)[t[i]] >= 2;
        assert t[i] in multiset(s);
        assert t[i] in s;
        DistinctCountOne(s, t[i]);
        CountMultiset(s, t[i]);
        assert false;
      }
    }
  }

  /** Sum of a sequence of integers. */
  function Sum(s: seq<int>): int
  {
    if s == [] then 0 else Sum(s[..|s| - 1]) + s[|s| - 1]
  }

  lemma {:induction false} SumAppend(a: seq<int>, b: seq<int>)
    ensures Sum(a + b) == Sum(a) + Sum(b)
  {
    if b == [] {
      assert a + b == a;
    } else {
      assert (a + b)[..|a + b| - 1] == a + b[..|b| - 1];
      SumAppend(a, b[..|b| - 1]);
    }
  }

  /** `s` repeated `n` times, as Python's `s * n` (empty for n <= 0). */
  function Repeat<T>(s: seq<T>, n: int): seq<T>
    decreases n
  {
    if n <= 0 then [] else s + Repeat(s, n - 1)
  }

  lemma {:induction false} RepeatLength<T>(s: seq<T>, n: nat)
    ensures |Repeat(s, n)| == n * |s|
  {
    if n > 0 {
      RepeatLength(s, n - 1);
      assert |Repeat(s, n)| == |s| + (n - 1) * |s|;
    }
  }

  /** The decimal digits of `n`, as Python's `str(n)`. */
  function Decimal(n: nat): (s: string)
    ensures |s| > 0
  {
    if n < 10 then [Digit(n)] else Decimal(n / 10) + [Digit(n % 10)]
  }

  function Digit(d: nat): char
    requires d < 10
  {
    ('0' as int + d) as char
  }

  /** The number a string of decimal digits denotes, as Python's `int(s)` on digits. */
  function DecimalValue(s: string): int
  {
    if s == [] then 0 else DecimalValue(s[..|s| - 1]) * 10 + (s[|s| - 1] as int - '0' as int)
  }

  /** Reading back the digits of `n` gives `n`, so different numbers print differently. */
  lemma {:induction false} DecimalRoundTrip(n: nat)
    ensures DecimalValue(Decimal(n)) == n
    ensures forall i :: 0 <= i < |Decimal(n)| ==> '0' <= Decimal(n)[i] <= '9'
  {
    if n >= 10 {
      var p := Decimal(n / 10);
      DecimalRoundTrip(n / 10);
      assert (p + [Digit(n % 10)])[..|p|] == p;
    }
  }

  /** Python's `" ".join(words)`. */
  function JoinSpace(words: seq<string>): string
  {
    if words == [] then ""
    else if |words| == 1 then words[0]
    else JoinSpace(words[..|words| - 1]) + " " + words[|words| - 1]
  }
  /** Writing `v` over a different element adds one occurrence of `v`. */
  lemma {:induction false} CountUpdate<T>(s: seq<T>, i: nat, v: T)
    requires i < |s| && s[i] != v
    ensures Count(s[i := v], v) == Count(s, v) + 1
  {
    var n := |s| - 1;
    if i < n {
      assert s[i := v][..n] == s[..n][i := v];
      CountUpdate(s[..n], i, v);
    } else {
      assert s[i := v][..n] == s[..n];
    }
  }

  /** Every listed position holding `x` is an occurrence of `x`. */
  lemma {:induction false} CountPositions<T>(s: seq<T>, x: T, ps: set<nat>)
    requires forall i :: i in ps ==> i < |s| && s[i] == x
    ensures Count(s, x) >= |ps|
  {
    if s != [] {
      var n := |s| - 1;
      var rest := ps - {n};
      CountPositions(s[..n], x, rest);
      if n in ps {
        assert ps == rest + {n};
      } else {
        assert ps == rest;
      }
    } else {
      assert ps == {};
    }
  }

  /** A value occurring at least twice has an occurrence other than a given one. */
  lemma OtherOccurrence<T>(s: seq<T>, x: T, a: nat) returns (b: nat)
    requires a < |s| && s[a] == x && Count(s, x) >= 2
    ensures b < |s| && b != a && s[b] == x
  {
    if forall i :: 0 <= i < |s| && i != a ==> s[i] != x {
      OnlyOccurrence(s, x, a);
      assert false;
    }
    b :| 0 <= b < |s| && b != a && s[b] == x;
  }

  lemma {:induction false} OnlyOccurrence<T>(s: seq<T>, x: T, a: nat)
    requires a < |s| && forall i :: 0 <= i < |s| && i != a ==> s[i] != x
    ensures Count(s, x) <= 1
  {
    if s != [] {
      var n := |s| - 1;
      if a < n {
        OnlyOccurrence(s[..n], x, a);
      } else {
        assert x !in s[..n];
      }
    }
  }

  /** The occurrences of `x` in `s` repeated `n` times. */
  lemma {:induction false} CountRepeat<T>(s: seq<T>, n: nat, x: T)
    ensures Count(Repeat(s, n), x) == n * Count(s, x)
  {
    if n > 0 {
      var c := Count(s, x);
      CountRepeat(s, n - 1, x);
      CountAppend(s, Repeat(s, n - 1), x);
      assert Count(Repeat(s, n), x) == c + (n - 1) * c;
      assert c + (n - 1) * c == n * c;
    }
  }

  /** Booleans split into the true ones and the false ones. */
  lemma {:induction false} CountBools(s: seq<bool>)
    ensures Count(s, true) + Count(s, false) == |s|
  {
    if s != [] {
      var p := s[..|s| - 1];
      CountBools(p);
      assert Count(s, true) == Count(p, true) + (if s[|s| - 1] then 1 else 0);
      assert Count(s, false) == Count(p, false) + (if s[|s| - 1] then 0 else 1);
    }
  }
}
