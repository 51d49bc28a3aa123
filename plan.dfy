/**
 * The trial plan of a session: `repeats` correctly answered trials of every
 * test kind, kind after kind ("kind-major" order). Trial `i` has the kind
 * `kinds[i / repeats]`.
 */
module TrialPlan {

  /** Number of correct answers that completes a session; no trials when `repeats` is not positive. */
  function Total(kinds: nat, repeats: int): nat
  {
    if repeats <= 0 then 0 else kinds * repeats
  }

  /** Index arithmetic of the plan: trial `i` of the plan falls in block `i / repeats`. */
  lemma BlockInRange(i: nat, kinds: nat, repeats: int)
    requires i < Total(kinds, repeats)
    ensures repeats > 0 && i / repeats < kinds
  {
  }

  /** The guard `count >= len(kinds) * repeats` of the session is the same test as `count >= Total`. */
  lemma GuardIsTotal(count: nat, kinds: nat, repeats: int)
    ensures count >= kinds * repeats <==> count >= Total(kinds, repeats)
  {
  }

  /** The kind of trial `i`, taken from the block that `i` falls into. */
  function PlanKind(kinds: seq<string>, repeats: int, i: nat): (k: string)
    requires i < Total(|kinds|, repeats)
    ensures k in kinds
  {
    BlockInRange(i, |kinds|, repeats);
    kinds[i / repeats]
  }

  /** The whole plan, one kind per trial, in the order the session asks for them. */
  function Plan(kinds: seq<string>, repeats: int): (p: seq<string>)
    ensures |p| == Total(|kinds|, repeats)
    ensures forall i :: 0 <= i < |p| ==> p[i] in kinds
  {
    seq(Total(|kinds|, repeats), i requires 0 <= i < Total(|kinds|, repeats) => PlanKind(kinds, repeats, i))
  }

  /** Number of occurrences of `x` in `s`. */
  function Count(s: seq<string>, x: string): nat
  {
    if s == [] then 0 else (if s[0] == x then 1 else 0) + Count(s[1..], x)
  }

  lemma {:induction false} CountConcat(a: seq<string>, b: seq<string>, x: string)
    ensures Count(a + b, x) == Count(a, x) + Count(b, x)
  {
    if a == [] {
      assert a + b == b;
    } else {
      assert (a + b)[1..] == a[1..] + b;
      CountConcat(a[1..], b, x);
    }
  }

  lemma {:induction false} CountBlock(n: nat, k: string, x: string)
    ensures Count(seq(n, _ => k), x) == if k == x then n else 0
  {
    if n > 0 {
      assert seq(n, _ => k)[1..] == seq(n - 1, _ => k);
      CountBlock(n - 1, k, x);
    }
  }

  /** Kind-major order: the plan is a block of the first kind followed by the plan of the rest. */
  lemma PlanUnfolds(kinds: seq<string>, repeats: int)
    requires kinds != [] && repeats > 0
    ensures Plan(kinds, repeats) == seq(repeats, _ => kinds[0]) + Plan(kinds[1..], repeats)
  {
    var p, rest := Plan(kinds, repeats), Plan(kinds[1..], repeats);
    var block := seq(repeats, _ => kinds[0]);
    assert |p| == repeats + |rest| by {
      assert |kinds| * repeats == repeats + (|kinds| - 1) * repeats;
    }
    forall i | 0 <= i < |p|
      ensures p[i] == (block + rest)[i]
    {
      if i < repeats {
        assert i / repeats == 0;
      } else {
        NextBlock(i - repeats, repeats);
        assert rest[i - repeats] == kinds[1..][(i - repeats) / repeats];
      }
    }
  }

  lemma NextBlock(j: nat, repeats: int)
    requires repeats > 0
    ensures (j + repeats) / repeats == j / repeats + 1
  {
    var q, m := j / repeats, j % repeats;
    var q', m' := (j + repeats) / repeats, (j + repeats) % repeats;
    var d := q' - q - 1;
    assert d * repeats == m - m' by {
      assert j == q * repeats + m;
      assert j + repeats == q' * repeats + m';
      assert q' * repeats == (q + 1) * repeats + d * repeats;
    }
  }

  /** Every kind is planned `repeats` times for each time it is listed. */
  lemma {:induction false} PlanCount(kinds: seq<string>, repeats: int, x: string)
    requires repeats > 0
    ensures Count(Plan(kinds, repeats), x) == repeats * Count(kinds, x)
  {
    if kinds == [] {
      assert Plan(kinds, repeats) == [];
    } else {
      var head := if kinds[0] == x then 1 else 0;
      PlanUnfolds(kinds, repeats);
      CountConcat(seq(repeats, _ => kinds[0]), Plan(kinds[1..], repeats), x);
      CountBlock(repeats, kinds[0], x);
      PlanCount(kinds[1..], repeats, x);
      assert Count(kinds, x) == head + Count(kinds[1..], x);
      assert repeats * (head + Count(kinds[1..], x)) == repeats * head + repeats * Count(kinds[1..], x);
    }
  }

  /** All kinds listed are different. */
  predicate Distinct(kinds: seq<string>)
  {
    forall i, j :: 0 <= i < j < |kinds| ==> kinds[i] != kinds[j]
  }

  lemma {:induction false} CountDistinct(kinds: seq<string>, j: nat)
    requires Distinct(kinds) && j < |kinds|
    ensures Count(kinds, kinds[j]) == 1
  {
    if j == 0 {
      CountAbsent(kinds[1..], kinds[0]);
    } else {
      CountDistinct(kinds[1..], j - 1);
    }
  }

  lemma {:induction false} CountAbsent(s: seq<string>, x: string)
    requires x !in s
    ensures Count(s, x) == 0
  {
    if s != [] {
      CountAbsent(s[1..], x);
    }
  }

  /** With distinct kinds, the plan holds each kind exactly `repeats` times. */
  lemma EachKindPlannedRepeatsTimes(kinds: seq<string>, repeats: int, j: nat)
    requires Distinct(kinds) && j < |kinds| && repeats > 0
    ensures Count(Plan(kinds, repeats), kinds[j]) == repeats
  {
    PlanCount(kinds, repeats, kinds[j]);
    CountDistinct(kinds, j);
  }
}
