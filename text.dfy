/**
 Character counting, JavaScript's `Array.prototype.join` and substring
 occurrence, as needed to state facts about generated SQL text.
 */
module Text {

  /** Number of positions of `s` that hold `ch`. */
  function Count(s: string, ch: char): (n: nat)
    ensures n == 0 <==> ch !in s
  {
    if s == [] then 0 else (if s[0] == ch then 1 else 0) + Count(s[1..], ch)
  }

  lemma {:induction false} CountAppend(a: string, b: string, ch: char)
    ensures Count(a + b, ch) == Count(a, ch) + Count(b, ch)
  {
    if a == [] {
      assert a + b == b;
    } else {
      assert (a + b)[1..] == a[1..] + b;
      CountAppend(a[1..], b, ch);
    }
  }

  lemma CountAppend4(a: string, b: string, c: string, d: string, ch: char)
    ensures Count(a + b + c + d, ch) == Count(a, ch) + Count(b, ch) + Count(c, ch) + Count(d, ch)
  {
    CountAppend(a, b, ch);
    CountAppend(a + b, c, ch);
    CountAppend(a + b + c, d, ch);
  }

  lemma CountAppend5(a: string, b: string, c: string, d: string, e: string, ch: char)
    ensures Count(a + b + c + d + e, ch) == Count(a, ch) + Count(b, ch) + Count(c, ch) + Count(d, ch) + Count(e, ch)
  {
    CountAppend4(a, b, c, d, ch);
    CountAppend(a + b + c + d, e, ch);
  }

  /** Two distinct positions holding `ch` make `Count` at least two. */
  lemma {:induction false} CountTwoPositions(s: string, ch: char, i: nat, j: nat)
    requires i < j < |s| && s[i] == ch && s[j] == ch
    ensures Count(s, ch) >= 2
  {
    if i == 0 {
      assert s[1..][j - 1] == ch;
      assert ch in s[1..];
    } else {
      CountTwoPositions(s[1..], ch, i - 1, j - 1);
    }
  }

  /** `parts.join(sep)`: the parts separated by `sep`; `[].join(sep)` is "". */
  function Join(parts: seq<string>, sep: string): (r: string)
  {
    if |parts| == 0 then ""
    else if |parts| == 1 then parts[0]
    else parts[0] + sep + Join(parts[1..], sep)
  }

  /** Sum of `Count(p, ch)` over the parts. */
  function CountAll(parts: seq<string>, ch: char): nat
  {
    if parts == [] then 0 else Count(parts[0], ch) + CountAll(parts[1..], ch)
  }

  lemma {:induction false} CountAllSnoc(parts: seq<string>, p: string, ch: char)
    ensures CountAll(parts + [p], ch) == CountAll(parts, ch) + Count(p, ch)
  {
    if parts == [] {
      assert [] + [p] == [p];
    } else {
      assert (parts + [p])[1..] == parts[1..] + [p];
      CountAllSnoc(parts[1..], p, ch);
    }
  }

  /** A separator that lacks `ch` adds no `ch` to a join. */
  lemma {:induction false} CountJoin(parts: seq<string>, sep: string, ch: char)
    requires ch !in sep
    ensures Count(Join(parts, sep), ch) == CountAll(parts, ch)
  {
    if |parts| == 1 {
      assert parts[1..] == [];
    } else if |parts| > 1 {
      CountJoin(parts[1..], sep, ch);
      CountAppend(parts[0], sep, ch);
      CountAppend(parts[0] + sep, Join(parts[1..], sep), ch);
    }
  }

  /** Parts that each hold `ch` exactly `k` times hold it `k * |parts|` times in all. */
  lemma {:induction false} CountAllUniform(parts: seq<string>, ch: char, k: nat)
    requires forall i | 0 <= i < |parts| :: Count(parts[i], ch) == k
    ensures CountAll(parts, ch) == k * |parts|
  {
    if parts != [] {
      CountAllUniform(parts[1..], ch, k);
      MulSucc(k, |parts[1..]|);
    }
  }

  lemma MulSucc(k: nat, n: nat)
    ensures k * (n + 1) == k * n + k
  {
  }

  /** A single part is joined to itself, with no separator. */
  lemma JoinSingle(p: string, sep: string)
    ensures Join([p], sep) == p
  {
  }

  /** `w` occurs in `s` starting at position `i`. */
  predicate OccursAt(w: string, s: string, i: int)
  {
    0 <= i && i + |w| <= |s| && s[i..i + |w|] == w
  }

  /** An occurrence of `w` puts its first character into `s`. */
  lemma OccurrenceHasFirstChar(w: string, s: string, i: int)
    requires w != [] && OccursAt(w, s, i)
    ensures s[i] == w[0] && w[0] in s
  {
    assert s[i..i + |w|][0] == s[i];
  }

  /** A string without the first character of `w` holds no occurrence of `w`. */
  lemma NoOccurrence(w: string, s: string)
    requires w != [] && w[0] !in s
    ensures forall i :: !OccursAt(w, s, i)
  {
    forall i | OccursAt(w, s, i)
      ensures false
    {
      OccurrenceHasFirstChar(w, s, i);
    }
  }

  /** With the first character of `w` at most once in `s`, `w` occurs at most once. */
  lemma UniqueOccurrence(w: string, s: string)
    requires w != [] && Count(s, w[0]) <= 1
    ensures forall i, j | OccursAt(w, s, i) && OccursAt(w, s, j) :: i == j
  {
    forall i, j | OccursAt(w, s, i) && OccursAt(w, s, j)
      ensures i == j
    {
      OccurrenceHasFirstChar(w, s, i);
      OccurrenceHasFirstChar(w, s, j);
      if i < j {
        CountTwoPositions(s, w[0], i, j);
      } else if j < i {
        CountTwoPositions(s, w[0], j, i);
      }
    }
  }

  /** The second of four pieces occurs right after the first. */
  lemma OccursAfter(a: string, w: string, o: string, l: string)
    ensures OccursAt(w, a + w + o + l, |a|)
  {
    var s := a + w + o + l;
    assert s[|a|..|a| + |w|] == w;
  }

  /** Decimal rendering of a natural number, as JavaScript's `String(n)`. */
  function Decimal(n: nat): (r: string)
    ensures |r| > 0
    ensures forall k | 0 <= k < |r| :: '0' <= r[k] <= '9'
    ensures n < 10 <==> |r| == 1
  {
    if n < 10 then [Digit(n)] else Decimal(n / 10) + [Digit(n % 10)]
  }

  function Digit(d: nat): (c: char)
    requires d < 10
    ensures '0' <= c <= '9'
  {
    ('0' as int + d) as char
  }
}
