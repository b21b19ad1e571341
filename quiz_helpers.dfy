/** The helpers every question generator uses: the Fisher-Yates shuffle, first
    letter capitalisation, the answer-option synthesiser and ordinal suffixes.

    `Math.random()` is modelled as a tape of draws read from a cursor: the
    draw at cursor `p` that chooses among `n` alternatives is `tape(p) % n`.
    Every helper returns the advanced cursor, so the same tape and cursor
    always give the same result, and nothing is said about how the draws are
    distributed. */
module QuizHelpers {
  import opened Prelude

  /** An unbounded sequence of random draws. */
  type Tape = nat -> nat

  /** The pick `Math.floor(Math.random() * n)` made by the draw at `p`. */
  function Pick(tape: Tape, p: nat, n: nat): (k: nat)
    requires n > 0
    ensures k < n
  {
    tape(p) % n
  }

  /** How many draws shuffling `n` items consumes: one per position above 0. */
  function ShuffleDraws(n: nat): nat {
    if n == 0 then 0 else n - 1
  }

  /** `shuffleArray`: copy the input, then for `i` from the last index down to 1
      swap entry `i` with an entry at or below it. The result is a
      rearrangement of the input, which itself is a value and stays as it was. */
  method Shuffle<T>(s: seq<T>, tape: Tape, pos: nat) returns (r: seq<T>, pos': nat)
    ensures |r| == |s| && multiset(r) == multiset(s)
    ensures pos' == pos + ShuffleDraws(|s|)
  {
    var a := new T[|s|](k requires 0 <= k < |s| => s[k]);
    assert a[..] == s;
    var i: int := |s| - 1;
    pos' := pos;
    while i > 0
      invariant i < |s|
      invariant |s| > 0 ==> 0 <= i && pos' == pos + (|s| - 1 - i)
      invariant |s| == 0 ==> pos' == pos
      invariant multiset(a[..]) == multiset(s)
    {
      var j := Pick(tape, pos', i + 1);
      pos' := pos' + 1;
      a[i], a[j] := a[j], a[i];
      i := i - 1;
    }
    r := a[..];
  }

  /** `toUpperCase` on one character; only the ASCII letters a-z change. */
  function UpperCase(c: char): (u: char)
    ensures 'a' <= c <= 'z' ==> 'A' <= u <= 'Z' && u as int - c as int == 'A' as int - 'a' as int
    ensures !('a' <= c <= 'z') ==> u == c
  {
    if 'a' <= c <= 'z' then (c as int - 'a' as int + 'A' as int) as char else c
  }

  /** `capitalizeFirstLetter`: the empty string is returned as it is; otherwise
      only the first character is upper-cased. */
  function Capitalize(text: string): (r: string)
    ensures |r| == |text|
    ensures |text| == 0 ==> r == text
    ensures |text| > 0 ==> r[0] == UpperCase(text[0]) && r[1..] == text[1..]
  {
    if |text| == 0 then text else [UpperCase(text[0])] + text[1..]
  }

  /** Capitalising twice is capitalising once. */
  lemma CapitalizeIdempotent(text: string)
    ensures Capitalize(Capitalize(text)) == Capitalize(text)
  {
    if |text| > 0 {
      var once := Capitalize(text);
      assert once[1..] == text[1..];
      assert Capitalize(once) == [UpperCase(once[0])] + once[1..];
    }
  }

  /** The filler `Option n` used when there are too few distinct candidates. */
  function OptionFiller(n: nat): string {
    "Option " + NatToString(n)
  }

  /** The filler `Additional Option n` used when deduplication lost entries. */
  function AdditionalFiller(n: nat): string {
    "Additional Option " + NatToString(n)
  }

  /** The `Option n` fillers an option set of `count` distractors can contain. */
  function OptionFillers(count: nat): (fs: set<string>)
    ensures forall n :: 1 <= n <= count ==> OptionFiller(n) in fs
  {
    set n | 1 <= n <= count :: OptionFiller(n)
  }

  /** The `Additional Option n` fillers an option set of `count` distractors can contain. */
  function AdditionalFillers(count: nat): (fs: set<string>)
    ensures forall n :: 1 <= n <= count ==> AdditionalFiller(n) in fs
  {
    set n | 1 <= n <= count :: AdditionalFiller(n)
  }

  /** What `getUniqueOptions(correct, pool, count)` guarantees of its result. */
  predicate IsOptionSet(correct: string, pool: seq<string>, count: nat, r: seq<string>) {
    // exactly count + 1 options, the correct answer among them
    |r| == count + 1
    && correct in r
    // every other option is a candidate or a filler
    && (forall k :: 0 <= k < |r| && r[k] != correct ==>
          r[k] in pool || r[k] in OptionFillers(count) || r[k] in AdditionalFillers(count))
    // fillers are used only when there are fewer than count distinct candidates
    && (|Elems(pool) - {correct}| >= count ==> forall k :: 0 <= k < |r| && r[k] != correct ==> r[k] in pool)
    // the correct answer occurs once unless it is itself an `Additional Option` filler
    && (correct !in AdditionalFillers(count) ==> multiset(r)[correct] == 1)
    // no duplicates unless some input looks like an `Option n` filler
    && (correct !in OptionFillers(count) && Elems(pool) !! OptionFillers(count) ==> Distinct(r))
  }

  /** The greedy pass of `getUniqueOptions`: walk the candidates in order and
      keep each one not yet kept, stopping once `count` are kept. */
  method TakeDistinct(candidates: seq<string>, count: nat) returns (unique: seq<string>)
    ensures |unique| <= count && Distinct(unique)
    ensures Elems(unique) <= Elems(candidates)
    ensures |unique| < count ==> Elems(unique) == Elems(candidates)
  {
    unique := [];
    var i := 0;
    while i < |candidates|
      invariant 0 <= i <= |candidates|
      invariant |unique| <= count && Distinct(unique)
      invariant forall x :: x in unique ==> x in candidates
      invariant |unique| < count ==> Elems(candidates[..i]) <= Elems(unique)
    {
      assert candidates[..i + 1] == candidates[..i] + [candidates[i]];
      assert Elems(candidates[..i + 1]) == Elems(candidates[..i]) + {candidates[i]};
      if candidates[i] !in unique && |unique| < count {
        unique := unique + [candidates[i]];
      }
      if |unique| == count {
        return;
      }
      i := i + 1;
    }
    assert candidates[..i] == candidates;
  }

  /** With at least `count` distinct candidates the greedy pass fills up. */
  lemma EnoughCandidates(candidates: seq<string>, count: nat, unique: seq<string>)
    requires Distinct(unique) && |unique| <= count
    requires |unique| < count ==> Elems(unique) == Elems(candidates)
    ensures |Elems(candidates)| >= count ==> |unique| == count
  {
    DistinctIffCard(unique);
  }

  /** The first padding loop: `Option n` for each missing distractor, numbered
      from one past the distractors already found. */
  method PadWithOptions(unique: seq<string>, count: nat) returns (distractors: seq<string>)
    requires |unique| <= count
    ensures |distractors| == count && distractors[..|unique|] == unique
    ensures forall k :: |unique| <= k < count ==> distractors[k] == OptionFiller(k + 1)
  {
    distractors := unique;
    while |distractors| < count
      invariant |unique| <= |distractors| <= count
      invariant distractors[..|unique|] == unique
      invariant forall k :: |unique| <= k < |distractors| ==> distractors[k] == OptionFiller(k + 1)
    {
      distractors := distractors + [OptionFiller(|distractors| + 1)];
    }
  }

  /** The second padding loop: `Additional Option n`, where `n` is the number of
      options so far, until there are `count + 1`. */
  method PadWithAdditional(deduped: seq<string>, count: nat) returns (options: seq<string>)
    requires |deduped| <= count + 1
    ensures |options| == count + 1 && options[..|deduped|] == deduped
    ensures forall k :: |deduped| <= k < count + 1 ==> options[k] == AdditionalFiller(k)
  {
    options := deduped;
    while |options| < count + 1
      invariant |deduped| <= |options| <= count + 1
      invariant options[..|deduped|] == deduped
      invariant forall k :: |deduped| <= k < |options| ==> options[k] == AdditionalFiller(k)
    {
      options := options + [AdditionalFiller(|options|)];
    }
  }

  /** `getUniqueOptions`: `count` distinct distractors drawn from `pool`, padded
      with fillers when the pool runs short, mixed with the correct answer. */
  method GetUniqueOptions(correct: string, pool: seq<string>, count: nat, tape: Tape, pos: nat)
    returns (r: seq<string>, pos': nat)
    ensures IsOptionSet(correct, pool, count, r)
    ensures pos' >= pos
  {
    var filtered := Filter(pool, (x: string) => x != correct);
    var shuffled, p1 := Shuffle(filtered, tape, pos);
    var unique := TakeDistinct(shuffled, count);
    var distractors := PadWithOptions(unique, count);
    var mixed, p2 := Shuffle([correct] + distractors, tape, p1);
    var deduped := Dedupe(mixed);
    DistinctIffCard(mixed);
    var options := PadWithAdditional(deduped, count);
    var final, p3 := Shuffle(options, tape, p2);
    r := final[..count + 1];
    pos' := p3;
    assert r == final;
    OptionSetHolds(correct, pool, count, filtered, shuffled, unique, distractors, mixed, deduped, options, r);
  }

  /** The stages of `getUniqueOptions` put together. */
  lemma OptionSetHolds(correct: string, pool: seq<string>, count: nat, filtered: seq<string>,
                       shuffled: seq<string>, unique: seq<string>, distractors: seq<string>,
                       mixed: seq<string>, deduped: seq<string>, options: seq<string>, r: seq<string>)
    requires filtered == Filter(pool, (x: string) => x != correct)
    requires multiset(shuffled) == multiset(filtered)
    requires |unique| <= count && Distinct(unique) && Elems(unique) <= Elems(shuffled)
    requires |unique| < count ==> Elems(unique) == Elems(shuffled)
    requires |distractors| == count && distractors[..|unique|] == unique
    requires forall k :: |unique| <= k < count ==> distractors[k] == OptionFiller(k + 1)
    requires multiset(mixed) == multiset([correct] + distractors)
    requires deduped == Dedupe(mixed)
    requires |deduped| <= |options| == count + 1 && options[..|deduped|] == deduped
    requires forall k :: |deduped| <= k < count + 1 ==> options[k] == AdditionalFiller(k)
    requires multiset(r) == multiset(options)
    ensures IsOptionSet(correct, pool, count, r)
  {
    assert Elems(shuffled) == Elems(pool) - {correct} by {
      CandidatesOfPool(correct, pool, filtered, shuffled);
    }
    assert forall x :: x in unique ==> x in pool && x != correct by {
      forall x | x in unique ensures x in pool && x != correct {
        assert x in Elems(unique);
      }
    }
    assert |Elems(pool) - {correct}| >= count ==> |unique| == count by {
      EnoughCandidates(shuffled, count, unique);
    }
    assert correct in deduped by {
      SameElems(mixed, [correct] + distractors);
      assert correct in Elems(deduped);
    }
    OptionSetMembers(correct, pool, count, unique, distractors, mixed, deduped, options, r);
    OptionSetMultiplicity(correct, pool, count, unique, distractors, mixed, deduped, options, r);
  }

  /** The size of the option set and where its entries come from. */
  lemma OptionSetMembers(correct: string, pool: seq<string>, count: nat, unique: seq<string>,
                         distractors: seq<string>, mixed: seq<string>, deduped: seq<string>,
                         options: seq<string>, r: seq<string>)
    requires Distinct(unique) && forall x :: x in unique ==> x in pool && x != correct
    requires |Elems(pool) - {correct}| >= count ==> |unique| == count
    requires |unique| <= count == |distractors| && distractors[..|unique|] == unique
    requires forall k :: |unique| <= k < count ==> distractors[k] == OptionFiller(k + 1)
    requires multiset(mixed) == multiset([correct] + distractors)
    requires deduped == Dedupe(mixed) && correct in deduped
    requires |deduped| <= |options| == count + 1 && options[..|deduped|] == deduped
    requires forall k :: |deduped| <= k < count + 1 ==> options[k] == AdditionalFiller(k)
    requires multiset(r) == multiset(options)
    ensures |r| == count + 1 && correct in r
    ensures forall k :: 0 <= k < |r| && r[k] != correct ==>
      r[k] in pool || r[k] in OptionFillers(count) || r[k] in AdditionalFillers(count)
    ensures |Elems(pool) - {correct}| >= count ==> forall k :: 0 <= k < |r| && r[k] != correct ==> r[k] in pool
  {
    var all := [correct] + distractors;
    assert |r| == count + 1 by {
      assert |multiset(r)| == |multiset(options)|;
    }
    assert correct in r && forall x :: x in r ==> x in all || x in AdditionalFillers(count) by {
      SameElems(mixed, all);
      SameElems(r, options);
      OptionsFrom(correct, count, all, mixed, deduped, options);
    }
    assert forall x :: x in all && x != correct ==> x in pool || x in OptionFillers(count) by {
      DistractorsFrom(unique, count, distractors);
    }
    assert |Elems(pool) - {correct}| >= count ==> forall x :: x in r && x != correct ==> x in pool by {
      if |Elems(pool) - {correct}| >= count {
        assert distractors == unique by { assert distractors[..|unique|] == distractors; }
        DistinctWithCorrect(correct, unique, all);
        NoPaddingWhenDistinct(all, mixed, deduped, options);
        SameElems(mixed, all);
        SameElems(r, options);
      }
    }
  }

  /** How often the entries of the option set occur. */
  lemma OptionSetMultiplicity(correct: string, pool: seq<string>, count: nat, unique: seq<string>,
                              distractors: seq<string>, mixed: seq<string>, deduped: seq<string>,
                              options: seq<string>, r: seq<string>)
    requires Distinct(unique) && forall x :: x in unique ==> x in pool && x != correct
    requires |unique| <= count == |distractors| && distractors[..|unique|] == unique
    requires forall k :: |unique| <= k < count ==> distractors[k] == OptionFiller(k + 1)
    requires multiset(mixed) == multiset([correct] + distractors)
    requires deduped == Dedupe(mixed) && correct in deduped
    requires |deduped| <= |options| == count + 1 && options[..|deduped|] == deduped
    requires forall k :: |deduped| <= k < count + 1 ==> options[k] == AdditionalFiller(k)
    requires multiset(r) == multiset(options)
    ensures correct !in AdditionalFillers(count) ==> multiset(r)[correct] == 1
    ensures correct !in OptionFillers(count) && Elems(pool) !! OptionFillers(count) ==> Distinct(r)
  {
    if correct !in OptionFillers(count) && Elems(pool) !! OptionFillers(count) {
      var all := [correct] + distractors;
      FillersDistinct(correct, pool, count, unique, distractors, all);
      NoPaddingWhenDistinct(all, mixed, deduped, options);
      DistinctPermutation(options, r);
    }
    if correct !in AdditionalFillers(count) {
      CorrectOnce(correct, count, deduped, options, r);
    }
  }

  /** The correct answer, once in the deduplicated options, stays once after padding and shuffling. */
  lemma CorrectOnce(correct: string, count: nat, deduped: seq<string>, options: seq<string>, r: seq<string>)
    requires Distinct(deduped) && correct in deduped && correct !in AdditionalFillers(count)
    requires |deduped| <= |options| == count + 1 && options[..|deduped|] == deduped
    requires forall k :: |deduped| <= k < count + 1 ==> options[k] == AdditionalFiller(k)
    requires multiset(r) == multiset(options)
    ensures multiset(r)[correct] == 1
  {
    DistinctMultiplicity(deduped, correct);
    OnceInPadded(correct, count, deduped, options);
  }

  /** Sequences with the same multiset have the same elements. */
  lemma SameElems<T>(a: seq<T>, b: seq<T>)
    requires multiset(a) == multiset(b)
    ensures forall x :: x in a <==> x in b
  {
    forall x ensures x in a <==> x in b {
      assert x in a <==> x in multiset(a);
      assert x in b <==> x in multiset(b);
    }
  }

  /** The shuffled candidates are the pool without the correct answer. */
  lemma CandidatesOfPool(correct: string, pool: seq<string>, filtered: seq<string>, shuffled: seq<string>)
    requires filtered == Filter(pool, (x: string) => x != correct)
    requires multiset(shuffled) == multiset(filtered)
    ensures Elems(shuffled) == Elems(pool) - {correct}
  {
    FilterMembers(pool, (x: string) => x != correct);
    SameElems(shuffled, filtered);
  }

  /** Every distractor is a kept candidate or an `Option n` filler. */
  lemma DistractorsFrom(unique: seq<string>, count: nat, distractors: seq<string>)
    requires |unique| <= count == |distractors| && distractors[..|unique|] == unique
    requires forall k :: |unique| <= k < count ==> distractors[k] == OptionFiller(k + 1)
    ensures forall x :: x in distractors ==> x in unique || x in OptionFillers(count)
  {
    forall x | x in distractors ensures x in unique || x in OptionFillers(count) {
      var k :| 0 <= k < |distractors| && distractors[k] == x;
      if k < |unique| {
        assert distractors[..|unique|][k] == x;
      }
    }
  }

  /** Every option is the correct answer, a distractor or an `Additional Option n` filler. */
  lemma OptionsFrom(correct: string, count: nat, all: seq<string>, mixed: seq<string>,
                    deduped: seq<string>, options: seq<string>)
    requires forall x :: x in mixed <==> x in all
    requires deduped == Dedupe(mixed)
    requires |deduped| <= |options| == count + 1 && options[..|deduped|] == deduped
    requires forall k :: |deduped| <= k < count + 1 ==> options[k] == AdditionalFiller(k)
    requires correct in deduped
    ensures correct in options
    ensures forall x :: x in options ==> x in all || x in AdditionalFillers(count)
  {
    var d := |deduped|;
    assert Elems(deduped) == Elems(mixed);
    forall x | x in options ensures x in all || x in AdditionalFillers(count) {
      var k :| 0 <= k < |options| && options[k] == x;
      if k < d {
        assert options[..d][k] == x;
        assert x in Elems(deduped);
      } else {
        assert d >= 1 by { assert deduped != []; }
        assert x == AdditionalFiller(k) && 1 <= k <= count;
      }
    }
    var j :| 0 <= j < d && deduped[j] == correct;
    assert options[..d][j] == correct;
  }

  /** With a duplicate-free `[correct] + distractors` deduplication loses nothing
      and no `Additional Option` filler is padded. */
  lemma NoPaddingWhenDistinct(all: seq<string>, mixed: seq<string>, deduped: seq<string>, options: seq<string>)
    requires Distinct(all)
    requires multiset(mixed) == multiset(all)
    requires deduped == Dedupe(mixed)
    requires |deduped| <= |options| == |all| && options[..|deduped|] == deduped
    ensures options == mixed && Distinct(options)
  {
    DistinctPermutation(all, mixed);
    assert |mixed| == |all| by { assert |multiset(mixed)| == |multiset(all)|; }
    assert options[..|deduped|] == options;
  }

  /** Distinct candidates other than the correct answer, with it in front, are duplicate-free. */
  lemma DistinctWithCorrect(correct: string, unique: seq<string>, all: seq<string>)
    requires Distinct(unique) && correct !in unique
    requires all == [correct] + unique
    ensures Distinct(all)
  {
    forall i, j | 0 <= i < j < |all| ensures all[i] != all[j] {
      if i == 0 {
        assert all[j] in unique;
      } else {
        assert all[i] == unique[i - 1] && all[j] == unique[j - 1];
      }
    }
  }

  /** `[correct] + distractors` is duplicate-free when no input looks like an `Option n` filler. */
  lemma FillersDistinct(correct: string, pool: seq<string>, count: nat, unique: seq<string>,
                        distractors: seq<string>, all: seq<string>)
    requires Distinct(unique) && forall x :: x in unique ==> x in pool && x != correct
    requires |unique| <= |distractors| == count
    requires distractors[..|unique|] == unique
    requires forall k :: |unique| <= k < count ==> distractors[k] == OptionFiller(k + 1)
    requires all == [correct] + distractors
    requires correct !in OptionFillers(count) && Elems(pool) !! OptionFillers(count)
    ensures Distinct(all)
  {
    forall i, j | 0 <= i < j < |all| ensures all[i] != all[j] {
      DistinctFillersStep(correct, pool, count, unique, distractors, all, i, j);
    }
  }

  /** Two positions of `[correct] + distractors` differ when no input looks like an `Option n` filler. */
  lemma DistinctFillersStep(correct: string, pool: seq<string>, count: nat, unique: seq<string>,
                            distractors: seq<string>, all: seq<string>, i: nat, j: nat)
    requires Distinct(unique) && forall x :: x in unique ==> x in pool && x != correct
    requires |unique| <= |distractors| == count
    requires distractors[..|unique|] == unique
    requires forall k :: |unique| <= k < count ==> distractors[k] == OptionFiller(k + 1)
    requires all == [correct] + distractors
    requires correct !in OptionFillers(count) && Elems(pool) !! OptionFillers(count)
    requires i < j < |all|
    ensures all[i] != all[j]
  {
    var u := |unique|;
    if i == 0 {
      if j - 1 < u {
        assert all[j] == unique[j - 1] by { assert distractors[..u][j - 1] == distractors[j - 1]; }
        assert unique[j - 1] in unique;
      } else {
        assert all[j] == OptionFiller(j) && 1 <= j <= count;
      }
    } else if j - 1 < u {
      assert all[i] == unique[i - 1] by { assert distractors[..u][i - 1] == distractors[i - 1]; }
      assert all[j] == unique[j - 1] by { assert distractors[..u][j - 1] == distractors[j - 1]; }
    } else if i - 1 < u {
      assert all[i] == unique[i - 1] by { assert distractors[..u][i - 1] == distractors[i - 1]; }
      assert all[i] in Elems(pool);
      assert all[j] == OptionFiller(j) && 1 <= j <= count;
    } else {
      assert all[i] == OptionFiller(i) && all[j] == OptionFiller(j);
      if all[i] == all[j] {
        PrefixCancel("Option ", NatToString(i), NatToString(j));
        NatToStringInjective(i, j);
      }
    }
  }

  /** Appending `Additional Option n` fillers leaves the correct answer's multiplicity alone. */
  lemma {:induction false} OnceInPadded(correct: string, count: nat, deduped: seq<string>, options: seq<string>)
    requires correct !in AdditionalFillers(count)
    requires multiset(deduped)[correct] == 1
    requires 1 <= |deduped| <= |options| <= count + 1
    requires options[..|deduped|] == deduped
    requires forall k :: |deduped| <= k < |options| ==> options[k] == AdditionalFiller(k)
    ensures multiset(options)[correct] == 1
    decreases |options|
  {
    if |options| > |deduped| {
      var init := options[..|options| - 1];
      assert init[..|deduped|] == deduped;
      OnceInPadded(correct, count, deduped, init);
      assert options == init + [AdditionalFiller(|options| - 1)];
      assert AdditionalFiller(|options| - 1) in AdditionalFillers(count);
    } else {
      assert options == deduped;
    }
  }

  /** The remainder `a % b` of JavaScript numbers: it takes the sign of `a`. */
  function JsRem(a: int, b: int): (r: int)
    requires b > 0
    ensures a >= 0 ==> r == a % b
    ensures a < 0 ==> r == -((-a) % b)
  {
    if a >= 0 then a % b else -((-a) % b)
  }

  /** `getOrdinalSuffix`. */
  function OrdinalSuffix(num: int): (suffix: string)
    ensures suffix in ["st", "nd", "rd", "th"]
  {
    var j := JsRem(num, 10);
    var k := JsRem(num, 100);
    if j == 1 && k != 11 then "st"
    else if j == 2 && k != 12 then "nd"
    else if j == 3 && k != 13 then "rd"
    else "th"
  }

  /** For a non-negative number: "st", "nd" or "rd" exactly when the last digit
      is 1, 2 or 3 and the tens digit is not 1; "th" otherwise. Negative numbers
      always get "th". */
  lemma OrdinalSuffixByDigits(num: int)
    ensures num >= 0 ==>
      var last, tens := num % 10, (num / 10) % 10;
      OrdinalSuffix(num) == (if tens == 1 then "th"
                             else if last == 1 then "st" else if last == 2 then "nd"
                             else if last == 3 then "rd" else "th")
    ensures num < 0 ==> OrdinalSuffix(num) == "th"
  {
    if num >= 0 {
      assert num % 100 == (num / 10) % 10 * 10 + num % 10;
    }
  }

  /** The twelve house numbers read 1st, 2nd, 3rd, 4th ... 11th, 12th. */
  lemma HouseOrdinals()
    ensures OrdinalSuffix(1) == "st" && OrdinalSuffix(2) == "nd" && OrdinalSuffix(3) == "rd"
    ensures forall n :: 4 <= n <= 12 ==> OrdinalSuffix(n) == "th"
  {
  }
}
