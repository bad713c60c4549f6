/** Shared vocabulary of the traffic and weather engines: optional values, the
    four-step severity scale, JavaScript's number helpers (Math.round, Math.min,
    Math.max, the `a || b` fallback), the string helpers the engines use
    (substring test, ASCII lower-casing, Array.join) and the stable descending
    sort that `Array.prototype.sort((a, b) => key(b) - key(a))` performs. */
module Common {

  datatype Option<+T> = None | Some(value: T)

  /** The 'low' | 'medium' | 'high' | 'critical' scale shared by most records. */
  datatype Severity = Low | Medium | High | Critical

  /** The position of a severity on its scale, from 0 (low) to 3 (critical). */
  function Rank(s: Severity): nat
  {
    match s
    case Low => 0
    case Medium => 1
    case High => 2
    case Critical => 3
  }

  function Min(a: real, b: real): (r: real)
    ensures r <= a && r <= b && (r == a || r == b)
  {
    if a <= b then a else b
  }

  function Max(a: real, b: real): (r: real)
    ensures r >= a && r >= b && (r == a || r == b)
  {
    if a >= b then a else b
  }

  /** Math.round: the nearest integer, halves rounded towards +infinity. */
  function Round(x: real): (r: int)
    ensures x - 0.5 < r as real <= x + 0.5
  {
    (x + 0.5).Floor
  }

  /** Math.round(x * 10) / 10: rounding to one decimal place. */
  function Round1(x: real): (r: real)
    ensures x - 0.05 < r <= x + 0.05
  {
    Round(x * 10.0) as real / 10.0
  }

  /** Math.round(x * 100) / 100: rounding to two decimal places. */
  function Round2(x: real): (r: real)
    ensures x - 0.005 < r <= x + 0.005
  {
    Round(x * 100.0) as real / 100.0
  }

  lemma RoundMonotone(x: real, y: real)
    requires x <= y
    ensures Round(x) <= Round(y)
  {
    assert (x + 0.5).Floor <= (y + 0.5).Floor by {
      assert ((x + 0.5).Floor as real) <= x + 0.5 <= y + 0.5 < (y + 0.5).Floor as real + 1.0;
    }
  }

  lemma Round1Monotone(x: real, y: real)
    requires x <= y
    ensures Round1(x) <= Round1(y)
  {
    RoundMonotone(x * 10.0, y * 10.0);
  }

  /** Rounding an integer-valued number gives that integer back. */
  lemma RoundOfInt(n: int)
    ensures Round(n as real) == n
  {
    assert (n as real + 0.5).Floor == n by {
      assert n as real <= n as real + 0.5 < n as real + 1.0;
    }
  }

  /** Rounding keeps a number within integer bounds. */
  lemma RoundWithin(x: real, lo: int, hi: int)
    requires lo as real <= x <= hi as real
    ensures lo <= Round(x) <= hi
  {
    RoundMonotone(lo as real, x);
    RoundMonotone(x, hi as real);
    RoundOfInt(lo);
    RoundOfInt(hi);
  }

  /** Rounding to one decimal never exceeds a bound that is a multiple of 0.1. */
  lemma Round1AtMost(x: real, hi10: int)
    requires x <= hi10 as real / 10.0
    ensures Round1(x) <= hi10 as real / 10.0
  {
    RoundMonotone(x * 10.0, hi10 as real);
    RoundOfInt(hi10);
  }

  /** Rounding to one decimal never falls below a bound that is a multiple of 0.1. */
  lemma Round1AtLeast(x: real, lo10: int)
    requires lo10 as real / 10.0 <= x
    ensures lo10 as real / 10.0 <= Round1(x)
  {
    RoundMonotone(lo10 as real, x * 10.0);
    RoundOfInt(lo10);
  }

  /** A value already rounded to one decimal is left alone by rounding again. */
  lemma Round1Idempotent(x: real)
    ensures Round1(Round1(x)) == Round1(x)
  {
    var k := Round(x * 10.0);
    assert Round1(x) * 10.0 == k as real;
    RoundOfInt(k);
  }

  /** Rounding to one decimal keeps a number within [lo, hi] when both bounds
      are multiples of 0.1 (given as tenths). */
  lemma Round1Within(x: real, lo10: int, hi10: int)
    requires lo10 as real / 10.0 <= x <= hi10 as real / 10.0
    ensures lo10 as real / 10.0 <= Round1(x) <= hi10 as real / 10.0
  {
    RoundMonotone(lo10 as real, x * 10.0);
    RoundMonotone(x * 10.0, hi10 as real);
    RoundOfInt(lo10);
    RoundOfInt(hi10);
  }

  /** A positive factor can be cancelled from both sides of `<=`. */
  lemma MulCancel(n: real, x: real, y: real)
    requires n > 0.0 && n * x <= n * y
    ensures x <= y
  {
    assert n * y - n * x == n * (y - x);
  }

  /** A mean `m` of `n` values summing to `sum` lies within any bounds that hold
      every value. */
  lemma MeanBounds(sum: real, n: real, m: real, lo: real, hi: real)
    requires n > 0.0 && m * n == sum && n * lo <= sum <= n * hi
    ensures lo <= m <= hi
  {
    assert n * m == sum;
    MulCancel(n, lo, m);
    MulCancel(n, m, hi);
  }

  /** The mean of `k` integers within [lo, hi], given by their sum, lies in [lo, hi]. */
  lemma IntMeanBounds(sum: int, k: int, lo: int, hi: int)
    requires k > 0 && k * lo <= sum <= k * hi
    ensures lo as real <= sum as real / k as real <= hi as real
  {
    var m := sum as real / k as real;
    IntMulAsReal(k, lo);
    IntMulAsReal(k, hi);
    MeanBounds(sum as real, k as real, m, lo as real, hi as real);
  }

  /** A quotient by a positive number exceeds c exactly when the dividend exceeds c times it. */
  lemma DivAbove(a: real, b: real, c: real)
    requires b > 0.0
    ensures a / b > c <==> a > c * b
  {
    var q := a / b;
    assert q * b == a;
    if q > c {
      assert (q - c) * b > 0.0;
    } else {
      assert (c - q) * b >= 0.0;
    }
  }

  lemma IntMulAsReal(a: int, b: int)
    ensures (a * b) as real == a as real * b as real
  {
  }

  /** `x || fallback` for a number that may be absent: absent and 0 (the falsy
      number) both give the fallback. */
  function OrElse(x: Option<real>, fallback: real): (r: real)
    ensures x.Some? && x.value != 0.0 ==> r == x.value
    ensures x.None? || x.value == 0.0 ==> r == fallback
  {
    match x
    case Some(v) => if v != 0.0 then v else fallback
    case None => fallback
  }

  /** String.prototype.includes. */
  predicate Contains(s: string, sub: string)
    decreases |s|
  {
    sub <= s || (|s| > 0 && Contains(s[1..], sub))
  }

  /** A weather condition naming dust or sand. */
  predicate MentionsDustOrSand(condition: string)
  {
    Contains(condition, "dust") || Contains(condition, "sand")
  }

  lemma {:induction false} ContainsAt(s: string, sub: string, i: nat)
    requires i + |sub| <= |s| && s[i..i + |sub|] == sub
    ensures Contains(s, sub)
    decreases i
  {
    if i > 0 {
      assert s[1..][i - 1..i - 1 + |sub|] == s[i..i + |sub|];
      ContainsAt(s[1..], sub, i - 1);
    }
  }

  lemma {:induction false} ContainsWitness(s: string, sub: string) returns (i: nat)
    requires Contains(s, sub)
    ensures i + |sub| <= |s| && s[i..i + |sub|] == sub
    decreases |s|
  {
    if sub <= s {
      i := 0;
    } else {
      var j := ContainsWitness(s[1..], sub);
      assert s[1..][j..j + |sub|] == s[j + 1..j + 1 + |sub|];
      i := j + 1;
    }
  }

  function LowerChar(c: char): (r: char)
    ensures 'A' <= c <= 'Z' ==> 'a' <= r <= 'z'
    ensures !('A' <= c <= 'Z') ==> r == c
  {
    if 'A' <= c <= 'Z' then (c as int + 32) as char else c
  }

  /** String.prototype.toLowerCase, restricted to the ASCII letters. */
  function ToLower(s: string): (r: string)
    ensures |r| == |s|
    ensures forall i :: 0 <= i < |s| ==> r[i] == LowerChar(s[i])
  {
    if s == [] then [] else [LowerChar(s[0])] + ToLower(s[1..])
  }

  /** Lower-casing twice is lower-casing once. */
  lemma ToLowerIdempotent(s: string)
    ensures ToLower(ToLower(s)) == ToLower(s)
  {
    assert forall i :: 0 <= i < |s| ==> LowerChar(LowerChar(s[i])) == LowerChar(s[i]);
  }

  /** Array.prototype.join(sep). */
  function Join(parts: seq<string>, sep: string): string
  {
    if |parts| == 0 then ""
    else if |parts| == 1 then parts[0]
    else parts[0] + sep + Join(parts[1..], sep)
  }

  lemma JoinTwo(a: string, b: string, sep: string)
    ensures Join([a, b], sep) == a + sep + b
  {
    assert [a, b][1..] == [b];
  }

  /** A string contained in a suffix is contained in the whole. */
  lemma ContainsInSuffix(a: string, b: string, sub: string)
    requires Contains(b, sub)
    ensures Contains(a + b, sub)
  {
    var i := ContainsWitness(b, sub);
    assert (a + b)[|a| + i..|a| + i + |sub|] == b[i..i + |sub|];
    ContainsAt(a + b, sub, |a| + i);
  }

  /** A string contained in a prefix is contained in the whole. */
  lemma ContainsInPrefix(a: string, b: string, sub: string)
    requires Contains(a, sub)
    ensures Contains(a + b, sub)
  {
    var i := ContainsWitness(a, sub);
    assert (a + b)[i..i + |sub|] == a[i..i + |sub|];
    ContainsAt(a + b, sub, i);
  }

  /** Every part of a join occurs in it. */
  lemma {:induction false} JoinContainsParts(parts: seq<string>, sep: string, i: nat)
    requires i < |parts|
    ensures Contains(Join(parts, sep), parts[i])
    decreases |parts|
  {
    if |parts| == 1 {
      ContainsAt(parts[0], parts[0], 0);
    } else if i == 0 {
      ContainsAt(parts[0], parts[0], 0);
      ContainsInPrefix(parts[0], sep + Join(parts[1..], sep), parts[0]);
      assert parts[0] + sep + Join(parts[1..], sep) == parts[0] + (sep + Join(parts[1..], sep));
    } else {
      JoinContainsParts(parts[1..], sep, i - 1);
      ContainsInSuffix(parts[0] + sep, Join(parts[1..], sep), parts[i]);
    }
  }

  /** The decimal digits of a natural number, as String(n) writes them. */
  function NatToString(n: nat): (r: string)
    ensures |r| >= 1
    ensures forall k :: 0 <= k < |r| ==> '0' <= r[k] <= '9'
  {
    var digit := ['0' + (n % 10) as char];
    if n < 10 then digit else NatToString(n / 10) + digit
  }

  /** Array.prototype.filter. */
  function Filter<T>(s: seq<T>, p: T -> bool): (r: seq<T>)
    ensures |r| <= |s|
    ensures forall k :: 0 <= k < |r| ==> r[k] in s && p(r[k])
    ensures forall k :: 0 <= k < |s| && p(s[k]) ==> s[k] in r
  {
    if s == [] then []
    else (if p(s[0]) then [s[0]] else []) + Filter(s[1..], p)
  }

  /** A filter keeps something exactly when some position matches. */
  lemma FilterNonEmpty<T>(s: seq<T>, p: T -> bool)
    ensures |Filter(s, p)| > 0 <==> exists i :: 0 <= i < |s| && p(s[i])
  {
    var r := Filter(s, p);
    if |r| > 0 {
      var i :| 0 <= i < |s| && s[i] == r[0];
    }
  }

  /** A filter keeps at least two elements exactly when two positions match. */
  lemma FilterAtLeastTwo<T>(s: seq<T>, p: T -> bool)
    ensures |Filter(s, p)| >= 2 <==> exists i, j :: 0 <= i < j < |s| && p(s[i]) && p(s[j])
  {
    if exists i, j :: 0 <= i < j < |s| && p(s[i]) && p(s[j]) {
      var i, j :| 0 <= i < j < |s| && p(s[i]) && p(s[j]);
      TwoMatchesKept(s, p, i, j);
    }
    if |Filter(s, p)| >= 2 {
      KeptTwoMatches(s, p);
    }
  }

  lemma {:induction false} TwoMatchesKept<T>(s: seq<T>, p: T -> bool, i: int, j: int)
    requires 0 <= i < j < |s| && p(s[i]) && p(s[j])
    ensures |Filter(s, p)| >= 2
  {
    assert s[1..][j - 1] == s[j];
    if i > 0 {
      assert s[1..][i - 1] == s[i];
      TwoMatchesKept(s[1..], p, i - 1, j - 1);
    } else {
      assert s[j] in Filter(s[1..], p);
    }
  }

  lemma {:induction false} KeptTwoMatches<T>(s: seq<T>, p: T -> bool)
    requires |Filter(s, p)| >= 2
    ensures exists i, j :: 0 <= i < j < |s| && p(s[i]) && p(s[j])
  {
    var rest := Filter(s[1..], p);
    if p(s[0]) {
      var j :| 0 <= j < |s[1..]| && s[1..][j] == rest[0];
      assert p(s[0]) && p(s[j + 1]);
    } else {
      KeptTwoMatches(s[1..], p);
      var i, j :| 0 <= i < j < |s[1..]| && p(s[1..][i]) && p(s[1..][j]);
      assert s[i + 1] == s[1..][i] && s[j + 1] == s[1..][j];
    }
  }

  /** Array.prototype.find: the first element satisfying `p`, if any. */
  function FindFirst<T>(s: seq<T>, p: T -> bool): (r: Option<T>)
    ensures r.None? <==> forall i :: 0 <= i < |s| ==> !p(s[i])
    ensures r.Some? ==> exists i :: 0 <= i < |s| && s[i] == r.value && p(s[i]) &&
                                    forall j :: 0 <= j < i ==> !p(s[j])
  {
    if s == [] then None
    else if p(s[0]) then Some(s[0])
    else
      var r := FindFirst(s[1..], p);
      if r.Some? then FirstMatchShifts(s, p, r.value); r else r
  }

  lemma FirstMatchShifts<T>(s: seq<T>, p: T -> bool, x: T)
    requires |s| > 0 && !p(s[0])
    requires exists i :: 0 <= i < |s[1..]| && s[1..][i] == x && p(s[1..][i]) &&
                         forall j :: 0 <= j < i ==> !p(s[1..][j])
    ensures exists i :: 0 <= i < |s| && s[i] == x && p(s[i]) && forall j :: 0 <= j < i ==> !p(s[j])
  {
    var i :| 0 <= i < |s[1..]| && s[1..][i] == x && p(s[1..][i]) && forall j :: 0 <= j < i ==> !p(s[1..][j]);
    assert s[i + 1] == x;
    forall j | 0 <= j < i + 1 ensures !p(s[j]) {
      if j > 0 {
        assert s[j] == s[1..][j - 1];
      }
    }
  }

  /** The first element matching `p` at a known position is what the search
      finds, and the position is where that element first occurs. */
  lemma FirstMatchAt<T>(s: seq<T>, p: T -> bool, k: int)
    requires 0 <= k < |s| && p(s[k])
    requires forall j :: 0 <= j < k ==> !p(s[j]) && s[j] != s[k]
    ensures FindFirst(s, p) == Some(s[k])
    ensures IndexOf(s, s[k]) == k
  {
    var r := FindFirst(s, p);
    var i :| 0 <= i < |s| && s[i] == r.value && p(s[i]) && forall j :: 0 <= j < i ==> !p(s[j]);
    assert i == k;
  }

  /** Array.prototype.indexOf: the first position of `x`, or -1. */
  function IndexOf<T(==)>(s: seq<T>, x: T): (i: int)
    ensures -1 <= i < |s|
    ensures i == -1 <==> x !in s
    ensures 0 <= i ==> i < |s| && s[i] == x && forall j :: 0 <= j < i ==> s[j] != x
  {
    if s == [] then -1
    else if s[0] == x then 0
    else
      var i := IndexOf(s[1..], x);
      assert s == [s[0]] + s[1..];
      if i == -1 then -1
      else
        assert forall j :: 0 <= j < i + 1 ==> s[j] != x by {
          forall j | 0 <= j < i + 1 ensures s[j] != x {
            if j > 0 {
              assert s[j] == s[1..][j - 1];
            }
          }
        }
        i + 1
  }

  /** The values present in a sequence of optional values, in order. */
  function Somes<T>(s: seq<Option<T>>): (r: seq<T>)
    ensures |r| <= |s|
  {
    if s == [] then []
    else Somes(s[..|s| - 1]) + (if s[|s| - 1].Some? then [s[|s| - 1].value] else [])
  }

  lemma {:induction false} SomesMember<T>(s: seq<Option<T>>, x: T)
    ensures x in Somes(s) <==> exists p :: 0 <= p < |s| && s[p] == Some(x)
  {
    if s != [] {
      var init := s[..|s| - 1];
      SomesMember(init, x);
      if exists p :: 0 <= p < |init| && init[p] == Some(x) {
        var p :| 0 <= p < |init| && init[p] == Some(x);
        assert s[p] == Some(x);
      }
      if exists p :: 0 <= p < |s| && s[p] == Some(x) {
        var p :| 0 <= p < |s| && s[p] == Some(x);
        if p < |init| {
          assert init[p] == Some(x);
        }
      }
    }
  }

  lemma {:induction false} SomesAppend<T>(a: seq<Option<T>>, b: seq<Option<T>>)
    ensures Somes(a + b) == Somes(a) + Somes(b)
    decreases |b|
  {
    if b != [] {
      var init := b[..|b| - 1];
      assert (a + b)[..|a + b| - 1] == a + init;
      SomesAppend(a, init);
    } else {
      assert a + b == a;
    }
  }

  /** When the present values of a sequence rise strictly in `f` by position,
      so do the values Somes keeps. */
  lemma {:induction false} SomesIncreasing<T>(s: seq<Option<T>>, f: T -> int)
    requires forall p, q :: 0 <= p < q < |s| && s[p].Some? && s[q].Some? ==> f(s[p].value) < f(s[q].value)
    ensures forall i, j :: 0 <= i < j < |Somes(s)| ==> f(Somes(s)[i]) < f(Somes(s)[j])
  {
    if s != [] {
      var init := s[..|s| - 1];
      var last := s[|s| - 1];
      SomesIncreasing(init, f);
      if last.Some? {
        forall i | 0 <= i < |Somes(init)| ensures f(Somes(init)[i]) < f(last.value) {
          SomesMember(init, Somes(init)[i]);
          var p :| 0 <= p < |init| && init[p] == Some(Somes(init)[i]);
          assert s[p] == init[p];
        }
      }
    }
  }

  /** Elements in strictly increasing `rank`, every rank in [lo, hi). */
  ghost predicate RankedWithin<T>(r: seq<T>, rank: T -> int, lo: int, hi: int)
  {
    (forall i, j :: 0 <= i < j < |r| ==> rank(r[i]) < rank(r[j])) &&
    (forall i :: 0 <= i < |r| ==> lo <= rank(r[i]) < hi)
  }

  /** Two ranked runs over adjacent ranges append to one ranked run. */
  lemma RankedAppend<T>(a: seq<T>, b: seq<T>, rank: T -> int, lo: int, mid: int, hi: int)
    requires lo <= mid <= hi && RankedWithin(a, rank, lo, mid) && RankedWithin(b, rank, mid, hi)
    ensures RankedWithin(a + b, rank, lo, hi)
  {
    forall i, j | 0 <= i < j < |a + b| ensures rank((a + b)[i]) < rank((a + b)[j]) {
      if j < |a| {
        assert (a + b)[i] == a[i] && (a + b)[j] == a[j];
      } else if i < |a| {
        assert (a + b)[i] == a[i] && (a + b)[j] == b[j - |a|];
      } else {
        assert (a + b)[i] == b[i - |a|] && (a + b)[j] == b[j - |a|];
      }
    }
    forall i | 0 <= i < |a + b| ensures lo <= rank((a + b)[i]) < hi {
      if i < |a| {
        assert (a + b)[i] == a[i];
      } else {
        assert (a + b)[i] == b[i - |a|];
      }
    }
  }

  /** Four ranked runs over adjacent ranges append to one ranked run. */
  lemma RankedAppend4<T>(a: seq<T>, b: seq<T>, c: seq<T>, d: seq<T>, rank: T -> int,
                         k0: int, k1: int, k2: int, k3: int, k4: int)
    requires k0 <= k1 <= k2 <= k3 <= k4
    requires RankedWithin(a, rank, k0, k1) && RankedWithin(b, rank, k1, k2)
    requires RankedWithin(c, rank, k2, k3) && RankedWithin(d, rank, k3, k4)
    ensures RankedWithin(a + b + c + d, rank, k0, k4)
  {
    RankedAppend(a, b, rank, k0, k1, k2);
    RankedAppend(a + b, c, rank, k0, k2, k3);
    RankedAppend(a + b + c, d, rank, k0, k3, k4);
  }

  lemma AppendAssoc<T>(a: seq<T>, b: seq<T>, c: seq<T>)
    ensures (a + b) + c == a + (b + c)
  {
  }

  /** The set of the elements of a sequence. */
  function Elements<T(!new)>(s: seq<T>): (r: set<T>)
    ensures forall x :: x in r <==> x in s
  {
    set x | x in s
  }

  /** Descending order by `key`. */
  ghost predicate SortedDesc<T>(s: seq<T>, key: T -> real)
  {
    forall i, j :: 0 <= i < j < |s| ==> key(s[i]) >= key(s[j])
  }

  /** Inserts `x` in front of the first element whose key is not larger than its
      own; the step of a stable descending insertion sort. */
  function InsertDesc<T>(x: T, t: seq<T>, key: T -> real): (r: seq<T>)
    requires SortedDesc(t, key)
    ensures |r| == |t| + 1
    ensures multiset(r) == multiset(t) + multiset{x}
    ensures SortedDesc(r, key)
  {
    if t == [] then [x]
    else if key(x) >= key(t[0]) then
      PrependLargest(x, t, key);
      [x] + t
    else
      var rest := InsertDesc(x, t[1..], key);
      assert t == [t[0]] + t[1..];
      HeadDominates(t[0], x, t[1..], rest, key);
      [t[0]] + rest
  }

  lemma PrependLargest<T>(x: T, t: seq<T>, key: T -> real)
    requires SortedDesc(t, key) && |t| > 0 && key(x) >= key(t[0])
    ensures SortedDesc([x] + t, key)
  {
    forall i, j | 0 <= i < j < |[x] + t| ensures key(([x] + t)[i]) >= key(([x] + t)[j]) {
      assert ([x] + t)[j] == t[j - 1];
      if i > 0 {
        assert ([x] + t)[i] == t[i - 1];
      }
    }
  }

  lemma HeadDominates<T>(h: T, x: T, tail: seq<T>, rest: seq<T>, key: T -> real)
    requires SortedDesc([h] + tail, key) && SortedDesc(rest, key)
    requires key(x) < key(h)
    requires multiset(rest) == multiset(tail) + multiset{x}
    ensures SortedDesc([h] + rest, key)
  {
    forall k | 0 <= k < |rest| ensures key(h) >= key(rest[k]) {
      assert rest[k] in multiset(rest);
      if rest[k] != x {
        assert rest[k] in multiset(tail);
        var j :| 0 <= j < |tail| && tail[j] == rest[k];
        assert ([h] + tail)[0] == h && ([h] + tail)[j + 1] == tail[j];
      }
    }
    forall i, j | 0 <= i < j < |[h] + rest| ensures key(([h] + rest)[i]) >= key(([h] + rest)[j]) {
      if i > 0 {
        assert ([h] + rest)[i] == rest[i - 1] && ([h] + rest)[j] == rest[j - 1];
      } else {
        assert ([h] + rest)[j] == rest[j - 1];
      }
    }
  }

  /** The result of a stable sort by decreasing key: sorted, and a permutation. */
  function SortDesc<T>(s: seq<T>, key: T -> real): (r: seq<T>)
    ensures multiset(r) == multiset(s)
    ensures SortedDesc(r, key)
  {
    if s == [] then []
    else
      assert s == [s[0]] + s[1..];
      InsertDesc(s[0], SortDesc(s[1..], key), key)
  }

  /** The head of a descending sequence has the largest key. */
  lemma SortedHeadIsMax<T>(s: seq<T>, key: T -> real)
    requires SortedDesc(s, key) && |s| > 0
    ensures forall x :: x in s ==> key(x) <= key(s[0])
  {
    forall x | x in s ensures key(x) <= key(s[0]) {
      var k :| 0 <= k < |s| && s[k] == x;
      if k > 0 {
        assert key(s[0]) >= key(s[k]);
      }
    }
  }

  /** Two sequences that are permutations of each other have the same elements. */
  lemma SameElements<T>(a: seq<T>, b: seq<T>)
    requires multiset(a) == multiset(b)
    ensures forall x :: x in a <==> x in b
  {
    forall x ensures x in a <==> x in b {
      assert x in a <==> x in multiset(a);
      assert x in b <==> x in multiset(b);
    }
  }

  lemma SortDescLength<T>(s: seq<T>, key: T -> real)
    ensures |SortDesc(s, key)| == |s|
  {
    assert |multiset(SortDesc(s, key))| == |multiset(s)|;
  }
}
