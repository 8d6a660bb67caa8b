/** Small value types and sequence helpers shared by both scoring engines and the URL builder. */
module Common {

  datatype Option<T> = None | Some(value: T)

  /** What one scoring rule contributes: a signed point delta and at most one factor label. */
  datatype RuleOutcome = RuleOutcome(delta: int, factor: Option<string>)

  /** The labels a rule outcome pushes onto the factor list: none or exactly one. */
  function Labels(o: RuleOutcome): (r: seq<string>)
    ensures |r| <= 1
    ensures r == [] <==> o.factor.None?
  {
    match o.factor
    case None => []
    case Some(l) => [l]
  }

  /** One `if` tier of a scorer: add its points to the running score and push its label, if any. */
  method ApplyRule(score: int, labels: seq<string>, o: RuleOutcome) returns (score': int, labels': seq<string>)
    ensures score' == score + o.delta
    ensures labels' == labels + Labels(o)
  {
    score' := score + o.delta;
    labels' := labels;
    if o.factor.Some? {
      labels' := labels' + [o.factor.value];
    }
  }

  /** `Array.prototype.join(sep)` on a list of strings. */
  function Join(items: seq<string>, sep: string): (r: string)
    ensures items != [] ==> items[0] <= r
  {
    if |items| == 0 then ""
    else if |items| == 1 then items[0]
    else items[0] + sep + Join(items[1..], sep)
  }

  /** `Array.prototype.slice(0, n)`: the first `n` items, or all of them when there are fewer. */
  function Take<T>(s: seq<T>, n: nat): (r: seq<T>)
    ensures |r| == if n < |s| then n else |s|
    ensures r <= s
  {
    if n < |s| then s[..n] else s
  }

  lemma PrefixOfConcat<T>(a: seq<T>, b: seq<T>)
    ensures a <= a + b
  {
  }

  /** `x` occurs in `s` starting at index `k`. */
  predicate OccursAt<T(==)>(x: seq<T>, s: seq<T>, k: int)
  {
    0 <= k <= |s| - |x| && s[k..k + |x|] == x
  }

  /** `s.includes(x)`: `x` occurs as a contiguous piece of `s`. */
  predicate IsInfix<T(==)>(x: seq<T>, s: seq<T>)
    ensures IsInfix(x, s) ==> |x| <= |s|
    ensures x <= s ==> IsInfix(x, s)
  {
    assert x <= s ==> OccursAt(x, s, 0);
    exists k | 0 <= k <= |s| - |x| :: OccursAt(x, s, k)
  }

  /** What is included in `s` starts with a character of `s`. */
  lemma InfixHead<T>(x: seq<T>, s: seq<T>)
    requires IsInfix(x, s) && x != []
    ensures x[0] in s
  {
    var k :| 0 <= k <= |s| - |x| && OccursAt(x, s, k);
    assert s[k..k + |x|][0] == s[k];
  }

  /** An occurrence of `x` in `s` is still an occurrence once text is added on both sides. */
  lemma InfixWithin<T>(x: seq<T>, a: seq<T>, s: seq<T>, b: seq<T>)
    requires IsInfix(x, s)
    ensures IsInfix(x, a + s + b)
  {
    var k: int :| 0 <= k <= |s| - |x| && OccursAt(x, s, k);
    assert (a + s + b)[|a| + k..|a| + k + |x|] == s[k..k + |x|];
    assert OccursAt(x, a + s + b, |a| + k);
  }

  /** Every item of a joined list occurs in the joined string. */
  lemma {:induction false} JoinContainsItem(items: seq<string>, sep: string, i: nat)
    requires i < |items|
    ensures IsInfix(items[i], Join(items, sep))
  {
    if |items| == 1 || i == 0 {
      assert OccursAt(items[0], Join(items, sep), 0);
    } else {
      JoinContainsItem(items[1..], sep, i - 1);
      InfixWithin(items[i], items[0] + sep, Join(items[1..], sep), []);
      assert items[0] + sep + Join(items[1..], sep) + [] == Join(items, sep);
    }
  }

  /** Joining one more item appends the separator and that item to the join of the others. */
  lemma {:induction false} JoinSnoc(items: seq<string>, x: string, sep: string)
    requires items != []
    ensures Join(items + [x], sep) == Join(items, sep) + sep + x
    decreases |items|
  {
    assert (items + [x])[0] == items[0];
    assert (items + [x])[1..] == items[1..] + [x];
    if |items| > 1 {
      JoinSnoc(items[1..], x, sep);
    }
  }

  /** Neighbouring items appear in the join next to each other, in list order, with the separator between. */
  lemma {:induction false} JoinAdjacent(items: seq<string>, sep: string, i: nat)
    requires i + 1 < |items|
    ensures IsInfix(items[i] + sep + items[i + 1], Join(items, sep))
    decreases i
  {
    var rest := Join(items[1..], sep);
    if i == 0 {
      assert items[1] <= rest;
      assert items[0] + sep + items[1] <= items[0] + sep + rest;
    } else {
      JoinAdjacent(items[1..], sep, i - 1);
      assert items[1..][i - 1] == items[i] && items[1..][i] == items[i + 1];
      InfixWithin(items[i] + sep + items[i + 1], items[0] + sep, rest, []);
      assert items[0] + sep + rest + [] == Join(items, sep);
    }
  }

  /** `a` can be obtained from `b` by deleting elements; so `a` keeps `b`'s order. */
  predicate IsSubsequence<T(==)>(a: seq<T>, b: seq<T>)
    decreases |b|
  {
    a == [] || (b != [] && ((a[0] == b[0] && IsSubsequence(a[1..], b[1..])) || IsSubsequence(a, b[1..])))
  }

  lemma {:induction false} SubsequenceOfLonger<T>(a: seq<T>, pre: seq<T>, b: seq<T>)
    requires IsSubsequence(a, b)
    ensures IsSubsequence(a, pre + b)
    decreases |pre|
  {
    if pre == [] {
      assert pre + b == b;
    } else if a != [] {
      SubsequenceOfLonger(a, pre[1..], b);
      assert (pre + b)[1..] == pre[1..] + b;
    }
  }

  /** Everything in a subsequence is in the sequence it was taken from. */
  lemma {:induction false} SubsequenceMembers<T>(a: seq<T>, b: seq<T>)
    requires IsSubsequence(a, b)
    ensures forall x :: x in a ==> x in b
    decreases |b|
  {
    if a != [] {
      if a[0] == b[0] && IsSubsequence(a[1..], b[1..]) {
        SubsequenceMembers(a[1..], b[1..]);
        assert forall x :: x in a ==> x == a[0] || x in a[1..];
      } else {
        SubsequenceMembers(a, b[1..]);
      }
      assert forall x :: x in b[1..] ==> x in b;
    }
  }

  /** No element occurs twice. */
  predicate Distinct<T(==)>(s: seq<T>)
  {
    forall i, j | 0 <= i < j < |s| :: s[i] != s[j]
  }

  /** A subsequence of a list without repetitions has none either. */
  lemma {:induction false} SubsequenceDistinct<T>(a: seq<T>, b: seq<T>)
    requires IsSubsequence(a, b) && Distinct(b)
    ensures Distinct(a)
    decreases |b|
  {
    if a != [] {
      assert Distinct(b[1..]) by {
        forall i, j | 0 <= i < j < |b[1..]| ensures b[1..][i] != b[1..][j] {
          assert b[1..][i] == b[i + 1] && b[1..][j] == b[j + 1];
        }
      }
      if a[0] == b[0] && IsSubsequence(a[1..], b[1..]) {
        SubsequenceDistinct(a[1..], b[1..]);
        SubsequenceMembers(a[1..], b[1..]);
        forall i, j | 0 <= i < j < |a| ensures a[i] != a[j] {
          if i == 0 {
            assert a[j] == a[1..][j - 1];
            assert a[j] in a[1..];
          } else {
            assert a[i] == a[1..][i - 1] && a[j] == a[1..][j - 1];
          }
        }
      } else {
        SubsequenceDistinct(a, b[1..]);
      }
    }
  }

  /** Subsequences of consecutive pieces concatenate to a subsequence of the concatenation. */
  lemma {:induction false} SubsequenceConcat<T>(a1: seq<T>, b1: seq<T>, a2: seq<T>, b2: seq<T>)
    requires IsSubsequence(a1, b1) && IsSubsequence(a2, b2)
    ensures IsSubsequence(a1 + a2, b1 + b2)
    decreases |b1|
  {
    if a1 == [] {
      assert a1 + a2 == a2;
      SubsequenceOfLonger(a2, b1, b2);
    } else {
      assert (b1 + b2)[1..] == b1[1..] + b2;
      if a1[0] == b1[0] && IsSubsequence(a1[1..], b1[1..]) {
        SubsequenceConcat(a1[1..], b1[1..], a2, b2);
        assert (a1 + a2)[1..] == a1[1..] + a2;
      } else {
        SubsequenceConcat(a1, b1[1..], a2, b2);
      }
    }
  }

  /** The labels of an outcome are a subsequence of any list that holds its factor label. */
  lemma LabelsSubsequence(o: RuleOutcome, tier: seq<string>)
    requires o.factor.Some? ==> o.factor.value in tier
    ensures IsSubsequence(Labels(o), tier)
  {
    if o.factor.Some? {
      var l := o.factor.value;
      var i :| 0 <= i < |tier| && tier[i] == l;
      SubsequenceOfLonger([l], tier[..i], tier[i..]);
      assert tier[..i] + tier[i..] == tier;
    }
  }

  /** How many elements of `s` belong to `group`. */
  function CountIn<T(==)>(s: seq<T>, group: set<T>): (n: nat)
    ensures n <= |s|
  {
    if s == [] then 0 else (if s[0] in group then 1 else 0) + CountIn(s[1..], group)
  }

  lemma {:induction false} CountInConcat<T>(a: seq<T>, b: seq<T>, group: set<T>)
    ensures CountIn(a + b, group) == CountIn(a, group) + CountIn(b, group)
  {
    if a != [] {
      assert (a + b)[1..] == a[1..] + b;
      CountInConcat(a[1..], b, group);
    } else {
      assert a + b == b;
    }
  }

  function DigitChar(d: nat): (c: char)
    requires d < 10
    ensures '0' <= c <= '9'
    ensures c as int - '0' as int == d
  {
    (d + '0' as int) as char
  }

  /** Decimal text of a natural number, as `String(n)` renders it: digits only, no leading zero. */
  function NatText(n: nat): (r: string)
    ensures |r| >= 1
    ensures forall i :: 0 <= i < |r| ==> '0' <= r[i] <= '9'
    ensures |r| > 1 ==> r[0] != '0'
    decreases n
  {
    if n < 10 then [DigitChar(n)] else NatText(n / 10) + [DigitChar(n % 10)]
  }

  /** The number a string of decimal digits denotes, read from the left. */
  function DigitsValue(s: string): nat
    requires forall i :: 0 <= i < |s| ==> '0' <= s[i] <= '9'
  {
    if s == [] then 0 else 10 * DigitsValue(s[..|s| - 1]) + (s[|s| - 1] as int - '0' as int)
  }

  /** Reading the digits of `NatText(n)` back gives `n`: the rendering loses nothing. */
  lemma {:induction false} NatTextValue(n: nat)
    ensures DigitsValue(NatText(n)) == n
    decreases n
  {
    var r := NatText(n);
    if n >= 10 {
      NatTextValue(n / 10);
      assert r[..|r| - 1] == NatText(n / 10);
    }
  }

  lemma NatTextInjective(m: nat, n: nat)
    requires NatText(m) == NatText(n)
    ensures m == n
  {
    NatTextValue(m);
    NatTextValue(n);
  }
}
