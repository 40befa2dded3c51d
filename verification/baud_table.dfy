/** The `validBaudRates` maps: each platform lists its supported rates and
    the symbolic speed constant (`Bxxx`) of each. The rates are fixed here;
    the constants are a parameter, aligned with the rates by position. */
module BaudTable {
  import opened Words

  /** The map `rates[i]: speeds[i]` written out as a Go map literal. */
  function Table(rates: seq<int>, speeds: seq<Word>): (t: map<int, Word>)
    requires |rates| == |speeds|
    ensures t.Keys == set r | r in rates
  {
    if |rates| == 0 then map[]
    else Table(rates[1..], speeds[1..])[rates[0] := speeds[0]]
  }

  /** The rates are listed in increasing order, as every table does. */
  predicate Increasing(rates: seq<int>) {
    forall i :: 0 < i < |rates| ==> rates[i - 1] < rates[i]
  }

  /** No rate is listed twice. */
  predicate Distinct(rates: seq<int>) {
    forall i, j :: 0 <= i < j < |rates| ==> rates[i] != rates[j]
  }

  lemma {:induction false} IncreasingBelow(rates: seq<int>, i: nat, j: nat)
    requires Increasing(rates) && i < j < |rates|
    ensures rates[i] < rates[j]
    decreases j - i
  {
    if i + 1 < j {
      IncreasingBelow(rates, i + 1, j);
    }
  }

  /** In an increasing table the last rate is the largest. */
  lemma IncreasingAtMostLast(rates: seq<int>)
    requires Increasing(rates) && |rates| > 0
    ensures forall r :: r in rates ==> r <= rates[|rates| - 1]
  {
    forall i | 0 <= i < |rates| - 1
      ensures rates[i] < rates[|rates| - 1]
    {
      IncreasingBelow(rates, i, |rates| - 1);
    }
  }

  lemma IncreasingIsDistinct(rates: seq<int>)
    requires Increasing(rates)
    ensures Distinct(rates)
  {
    forall i, j | 0 <= i < j < |rates|
      ensures rates[i] != rates[j]
    {
      IncreasingBelow(rates, i, j);
    }
  }

  /** Each listed rate maps to the constant listed beside it. */
  lemma {:induction false} TableLookup(rates: seq<int>, speeds: seq<Word>, i: nat)
    requires |rates| == |speeds| && Distinct(rates) && i < |rates|
    ensures Table(rates, speeds)[rates[i]] == speeds[i]
  {
    if i > 0 {
      assert Distinct(rates[1..]) by {
        forall a, b | 0 <= a < b < |rates[1..]|
          ensures rates[1..][a] != rates[1..][b]
        {
          assert rates[1..][a] == rates[a + 1] && rates[1..][b] == rates[b + 1];
        }
      }
      TableLookup(rates[1..], speeds[1..], i - 1);
      assert rates[i] != rates[0];
    }
  }

  /** A table built from distinct rates has exactly one entry per rate. */
  lemma {:induction false} TableSize(rates: seq<int>, speeds: seq<Word>)
    requires |rates| == |speeds| && Distinct(rates)
    ensures |Table(rates, speeds)| == |rates|
  {
    if |rates| > 0 {
      assert Distinct(rates[1..]) by {
        forall a, b | 0 <= a < b < |rates[1..]|
          ensures rates[1..][a] != rates[1..][b]
        {
          assert rates[1..][a] == rates[a + 1] && rates[1..][b] == rates[b + 1];
        }
      }
      TableSize(rates[1..], speeds[1..]);
      assert rates[0] !in Table(rates[1..], speeds[1..]) by {
        forall k | 0 <= k < |rates[1..]|
          ensures rates[1..][k] != rates[0]
        {
          assert rates[1..][k] == rates[k + 1];
        }
      }
    }
  }

  /** Every value of `t` is one of the listed constants. */
  lemma {:induction false} TableValues(rates: seq<int>, speeds: seq<Word>, r: int)
    requires |rates| == |speeds| && r in Table(rates, speeds)
    ensures exists i :: 0 <= i < |speeds| && Table(rates, speeds)[r] == speeds[i]
  {
    if r != rates[0] {
      TableValues(rates[1..], speeds[1..], r);
      var i :| 0 <= i < |speeds[1..]| && Table(rates[1..], speeds[1..])[r] == speeds[1..][i];
      assert speeds[1..][i] == speeds[i + 1];
    } else {
      assert Table(rates, speeds)[r] == speeds[0];
    }
  }

  /** `m` covers every value of `t`. */
  predicate CoversValues(m: Word, t: map<int, Word>) {
    forall k :: k in t ==> Includes(m, t[k])
  }

  /** `m` sets no bit that no value of `t` sets. */
  predicate WithinValues(m: Word, t: map<int, Word>) {
    forall b :: b in m ==> exists k :: k in t && b in t[k]
  }

  /** The `init` loop of the Darwin values file, which ORs every value of
      the table into the mask. Go visits a map in an unspecified order, so
      the order is a parameter: any sequence that lists every key. The
      result is the OR of all the values, whatever the order. */
  method MaskOf(t: map<int, Word>, order: seq<int>) returns (mask: Word)
    requires forall k :: k in t <==> k in order
    ensures CoversValues(mask, t)
    ensures WithinValues(mask, t)
  {
    mask := {};
    var i := 0;
    while i < |order|
      invariant i <= |order|
      invariant forall j :: 0 <= j < i ==> order[j] in t && Includes(mask, t[order[j]])
      invariant WithinValues(mask, t)
    {
      var k := order[i];
      assert k in t;
      forall b | b in t[k]
        ensures exists k' :: k' in t && b in t[k']
      {
        assert b in t[k];
      }
      mask := mask + t[k];
      i := i + 1;
    }
    forall k | k in t
      ensures Includes(mask, t[k])
    {
      var j :| 0 <= j < |order| && order[j] == k;
    }
  }

  /** The OR of the listed constants is the OR of the table's values. */
  lemma OrAllIsTableMask(rates: seq<int>, speeds: seq<Word>)
    requires |rates| == |speeds| && Distinct(rates)
    ensures CoversValues(OrAll(speeds), Table(rates, speeds))
    ensures WithinValues(OrAll(speeds), Table(rates, speeds))
  {
    var t := Table(rates, speeds);
    forall k | k in t
      ensures Includes(OrAll(speeds), t[k])
    {
      TableValues(rates, speeds, k);
      var i :| 0 <= i < |speeds| && t[k] == speeds[i];
      OrAllCovers(speeds, i);
    }
    forall b | b in OrAll(speeds)
      ensures exists k :: k in t && b in t[k]
    {
      var i := OrAllWitness(speeds, b);
      TableLookup(rates, speeds, i);
      assert rates[i] in t && b in t[rates[i]];
    }
  }

  /** The position of a word of `s` that sets bit `b` of their OR. */
  function OrAllWitness(s: seq<Word>, b: nat): (i: nat)
    requires b in OrAll(s)
    ensures i < |s| && b in s[i]
  {
    if b in s[0] then 0 else OrAllWitness(s[1..], b) + 1
  }

  /** Two words that both cover a table's values and stay within them are
      equal: the mask the loop computes does not depend on visiting order. */
  lemma MaskUnique(t: map<int, Word>, m1: Word, m2: Word)
    requires CoversValues(m1, t) && WithinValues(m1, t)
    requires CoversValues(m2, t) && WithinValues(m2, t)
    ensures m1 == m2
  {
    forall b | b in m1
      ensures b in m2
    {
      var k :| k in t && b in t[k];
    }
    forall b | b in m2
      ensures b in m1
    {
      var k :| k in t && b in t[k];
    }
  }
}
