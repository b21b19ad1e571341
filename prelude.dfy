/** Small sequence and string utilities that the TypeScript code gets from the
    language: optional values, `Array.prototype.join`, `filter`, `map`,
    `flatMap`, `[...new Set(xs)]`, `startsWith` and number-to-string
    conversion. */
module Prelude {

  datatype Option<+T> = None | Some(value: T)

  /** The elements of a sequence, as a set. */
  function Elems<T>(s: seq<T>): set<T> {
    set x | x in s
  }

  /** No element occurs twice. */
  predicate Distinct<T(==)>(s: seq<T>) {
    forall i, j :: 0 <= i < j < |s| ==> s[i] != s[j]
  }

  /** A sequence has at most as many distinct elements as entries, and exactly
      as many when it is duplicate-free. */
  lemma {:induction false} DistinctIffCard<T>(s: seq<T>)
    ensures |Elems(s)| <= |s|
    ensures Distinct(s) <==> |Elems(s)| == |s|
  {
    if |s| > 0 {
      var init, last := s[..|s| - 1], s[|s| - 1];
      DistinctIffCard(init);
      assert s == init + [last];
      assert Elems(s) == Elems(init) + {last};
      if last in init {
        assert Elems(s) == Elems(init);
        var k :| 0 <= k < |init| && init[k] == last;
        assert s[k] == s[|s| - 1];
      } else if Distinct(init) {
        assert Distinct(s);
      } else {
        var i, j :| 0 <= i < j < |init| && init[i] == init[j];
        assert s[i] == s[j];
      }
    }
  }

  /** In a duplicate-free sequence every element occurs once. */
  lemma {:induction false} DistinctMultiplicity<T>(s: seq<T>, x: T)
    requires Distinct(s)
    ensures multiset(s)[x] == if x in s then 1 else 0
  {
    if |s| > 0 {
      var init, last := s[..|s| - 1], s[|s| - 1];
      assert s == init + [last];
      assert Distinct(init);
      DistinctMultiplicity(init, x);
      assert last !in init;
    }
  }

  /** Rearranging the entries keeps a duplicate-free sequence duplicate-free. */
  lemma DistinctPermutation<T>(a: seq<T>, b: seq<T>)
    requires multiset(a) == multiset(b) && Distinct(a)
    ensures Distinct(b)
  {
    assert |a| == |multiset(a)| == |b|;
    assert Elems(a) == Elems(b) by {
      forall x ensures x in a <==> x in b {
        assert x in a <==> x in multiset(a);
        assert x in b <==> x in multiset(b);
      }
    }
    DistinctIffCard(a);
    DistinctIffCard(b);
  }

  /** `xs.join(sep)`. */
  function Join(xs: seq<string>, sep: string): (r: string)
    ensures |xs| == 1 ==> r == xs[0]
  {
    if |xs| == 0 then ""
    else if |xs| == 1 then xs[0]
    else xs[0] + sep + Join(xs[1..], sep)
  }

  lemma JoinTwo(a: string, b: string, sep: string)
    ensures Join([a, b], sep) == a + sep + b
  {
    assert [a, b][1..] == [b];
  }

  lemma JoinThree(a: string, b: string, c: string, sep: string)
    ensures Join([a, b, c], sep) == a + sep + b + sep + c
  {
    assert [a, b, c][1..] == [b, c];
    JoinTwo(b, c, sep);
  }

  /** `s.startsWith(prefix)`. */
  predicate StartsWith(s: string, prefix: string) {
    |prefix| <= |s| && s[..|prefix|] == prefix
  }

  /** `xs.filter(keep)`: the elements that pass, in their original order. */
  function Filter<T(==)>(s: seq<T>, keep: T -> bool): (r: seq<T>)
    ensures |r| <= |s|
  {
    if |s| == 0 then []
    else if keep(s[|s| - 1]) then Filter(s[..|s| - 1], keep) + [s[|s| - 1]]
    else Filter(s[..|s| - 1], keep)
  }

  /** What `filter` keeps: exactly the elements of `s` that pass. */
  lemma {:induction false} FilterMembers<T>(s: seq<T>, keep: T -> bool)
    ensures forall x :: x in Filter(s, keep) <==> x in s && keep(x)
  {
    if |s| > 0 {
      FilterMembers(s[..|s| - 1], keep);
      assert s == s[..|s| - 1] + [s[|s| - 1]];
    }
  }

  /** Filtering one more element of a prefix. */
  lemma FilterPrefixStep<T>(s: seq<T>, k: nat, keep: T -> bool)
    requires k < |s|
    ensures Filter(s[..k + 1], keep) == Filter(s[..k], keep) + (if keep(s[k]) then [s[k]] else [])
  {
    assert s[..k + 1][..k] == s[..k];
  }

  /** `filter` distributes over concatenation. */
  lemma {:induction false} FilterAppend<T>(a: seq<T>, b: seq<T>, keep: T -> bool)
    ensures Filter(a + b, keep) == Filter(a, keep) + Filter(b, keep)
    decreases |b|
  {
    if |b| > 0 {
      var init := b[..|b| - 1];
      assert (a + b)[..|a + b| - 1] == a + init;
      FilterAppend(a, init, keep);
    } else {
      assert a + b == a;
    }
  }

  /** `filter` keeps everything when every element passes, and nothing when none does. */
  lemma {:induction false} FilterAllOrNothing<T>(s: seq<T>, keep: T -> bool)
    ensures (forall k :: 0 <= k < |s| ==> keep(s[k])) ==> Filter(s, keep) == s
    ensures (forall k :: 0 <= k < |s| ==> !keep(s[k])) ==> Filter(s, keep) == []
  {
    if |s| > 0 {
      FilterAllOrNothing(s[..|s| - 1], keep);
      assert s == s[..|s| - 1] + [s[|s| - 1]];
    }
  }

  /** `xs.map(f)`. */
  function Map<A, B>(s: seq<A>, f: A -> B): (r: seq<B>)
    ensures |r| == |s|
    ensures forall k :: 0 <= k < |s| ==> r[k] == f(s[k])
  {
    seq(|s|, k requires 0 <= k < |s| => f(s[k]))
  }

  /** `xss.flat()`, the second half of `flatMap`. */
  function Flatten<T(==)>(ss: seq<seq<T>>): (r: seq<T>)
    ensures forall i, k :: 0 <= i < |ss| && 0 <= k < |ss[i]| ==> ss[i][k] in r
  {
    if |ss| == 0 then [] else ss[0] + Flatten(ss[1..])
  }

  /** Every element of `xs.map(f)` is the image of an element of `xs`. */
  lemma MapWitness<A, B>(s: seq<A>, f: A -> B, x: B) returns (k: nat)
    requires x in Map(s, f)
    ensures k < |s| && f(s[k]) == x
  {
    k :| 0 <= k < |Map(s, f)| && Map(s, f)[k] == x;
  }

  /** The image of every element of `xs` is in `xs.map(f)`. */
  lemma MapImage<A, B>(s: seq<A>, f: A -> B, x: A)
    requires x in s
    ensures f(x) in Map(s, f)
  {
    var k :| 0 <= k < |s| && s[k] == x;
    assert Map(s, f)[k] == f(x);
  }

  /** Every element of `xss.flat()` comes from one of the inner lists. */
  lemma {:induction false} FlattenWitness<T>(ss: seq<seq<T>>, x: T) returns (i: nat, k: nat)
    requires x in Flatten(ss)
    ensures i < |ss| && k < |ss[i]| && ss[i][k] == x
  {
    if x in ss[0] {
      i := 0;
      k :| 0 <= k < |ss[0]| && ss[0][k] == x;
    } else {
      var i', k' := FlattenWitness(ss[1..], x);
      i, k := i' + 1, k';
    }
  }

  /** `[...new Set(xs)]`: the first occurrence of every element, in order. */
  function Dedupe<T(==)>(s: seq<T>): (r: seq<T>)
    ensures Distinct(r)
    ensures Elems(r) == Elems(s)
    ensures |r| <= |s|
    ensures Distinct(s) ==> r == s
  {
    if |s| == 0 then []
    else
      var init := Dedupe(s[..|s| - 1]);
      assert Elems(s) == Elems(s[..|s| - 1]) + {s[|s| - 1]};
      if s[|s| - 1] in init then init else init + [s[|s| - 1]]
  }

  /** Deduplicating keeps exactly the elements there were. */
  lemma DedupeMembers<T>(s: seq<T>)
    ensures forall x :: x in Dedupe(s) <==> x in s
  {
    forall x ensures x in Dedupe(s) <==> x in s {
      assert x in Elems(Dedupe(s)) <==> x in Dedupe(s);
      assert x in Elems(s) <==> x in s;
    }
  }

  /** The character of a decimal digit. */
  function DigitChar(d: nat): char
    requires d < 10
  {
    "0123456789"[d]
  }

  /** The value of a decimal digit character ('0' .. '9'), 0 for anything else. */
  function DigitValue(c: char): (d: nat)
    ensures d < 10
  {
    if '0' <= c <= '9' then (c as int - '0' as int) else 0
  }

  /** `${n}` for a natural number: its shortest decimal representation. */
  function NatToString(n: nat): (s: string)
    ensures |s| > 0
    decreases n
  {
    if n < 10 then [DigitChar(n)] else NatToString(n / 10) + [DigitChar(n % 10)]
  }

  /** A decimal representation starts with a digit. */
  lemma {:induction false} NatToStringLeadingDigit(n: nat)
    ensures '0' <= NatToString(n)[0] <= '9'
    decreases n
  {
    if n >= 10 {
      NatToStringLeadingDigit(n / 10);
    }
  }

  /** Reads a string of decimal digits back as a number. */
  function ParseDecimal(s: string): nat {
    if |s| == 0 then 0 else ParseDecimal(s[..|s| - 1]) * 10 + DigitValue(s[|s| - 1])
  }

  /** Decimal printing is undone by parsing, so distinct numbers print differently. */
  lemma {:induction false} ParseNatToString(n: nat)
    ensures ParseDecimal(NatToString(n)) == n
    decreases n
  {
    var s := NatToString(n);
    if n < 10 {
      assert s[..|s| - 1] == [];
    } else {
      ParseNatToString(n / 10);
      assert s[..|s| - 1] == NatToString(n / 10);
    }
  }

  lemma NatToStringInjective(a: nat, b: nat)
    requires NatToString(a) == NatToString(b)
    ensures a == b
  {
    ParseNatToString(a);
    ParseNatToString(b);
  }

  /** `${n}` for an integer: a minus sign before the digits of a negative number. */
  function IntToString(n: int): (s: string)
    ensures n >= 0 ==> s == NatToString(n)
    ensures n < 0 ==> s == "-" + NatToString(-n)
  {
    if n < 0 then "-" + NatToString(-n) else NatToString(n)
  }

  /** Prefixing the same string to two different strings keeps them different. */
  lemma PrefixCancel(p: string, x: string, y: string)
    requires p + x == p + y
    ensures x == y
  {
    assert x == (p + x)[|p|..];
    assert y == (p + y)[|p|..];
  }
}
