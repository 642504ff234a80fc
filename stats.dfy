/** The summary bar: the number of lines, the total of the credits and the total of the
    debits, each total the left fold `reduce((sum, t) => sum + t.amount, 0)` over a filter. */
module Stats {
  import opened Sequences
  import opened Transactions

  /** The sum of all amounts, as a right fold: the reference for the left folds below. */
  function Sum(ts: seq<Transaction>): real
  {
    if ts == [] then 0.0 else ts[0].amount + Sum(ts[1..])
  }

  /** `ts.reduce((sum, t) => sum + t.amount, acc)`: a left fold from acc, which is acc plus
      the sum of the amounts. */
  function SumFrom(acc: real, ts: seq<Transaction>): (r: real)
    ensures r == acc + Sum(ts)
    decreases |ts|
  {
    if ts == [] then acc else SumFrom(acc + ts[0].amount, ts[1..])
  }

  /** Summing a concatenation sums each part. */
  lemma {:induction false} SumConcat(a: seq<Transaction>, b: seq<Transaction>)
    ensures Sum(a + b) == Sum(a) + Sum(b)
    decreases |a|
  {
    if a == [] {
      assert a + b == b;
    } else {
      assert (a + b)[0] == a[0];
      assert (a + b)[1..] == a[1..] + b;
      SumConcat(a[1..], b);
    }
  }

  /** The fold adds the amounts in list order, the last one last. */
  lemma SumFromAddsLastAmountLast(acc: real, ts: seq<Transaction>)
    requires ts != []
    ensures SumFrom(acc, ts) == SumFrom(acc, ts[..|ts| - 1]) + ts[|ts| - 1].amount
  {
    var n := |ts|;
    assert ts == ts[..n - 1] + [ts[n - 1]];
    SumConcat(ts[..n - 1], [ts[n - 1]]);
  }

  /** A sum of positive amounts is never negative, one of negative amounts never positive. */
  lemma {:induction false} SumBounds(ts: seq<Transaction>)
    ensures (forall i :: 0 <= i < |ts| ==> ts[i].amount > 0.0) ==> Sum(ts) >= 0.0
    ensures (forall i :: 0 <= i < |ts| ==> ts[i].amount < 0.0) ==> Sum(ts) <= 0.0
    decreases |ts|
  {
    if ts != [] {
      SumBounds(ts[1..]);
      assert forall i :: 1 <= i < |ts| ==> ts[1..][i - 1] == ts[i];
    }
  }

  /** `totalCredits`: never negative, and 0 for an empty list. */
  function TotalCredits(ts: seq<Transaction>): (total: real)
    ensures total >= 0.0
    ensures ts == [] ==> total == 0.0
  {
    SumBounds(Credits(ts));
    SumFrom(0.0, Credits(ts))
  }

  /** `totalDebits`: never positive, and 0 for an empty list. */
  function TotalDebits(ts: seq<Transaction>): (total: real)
    ensures total <= 0.0
    ensures ts == [] ==> total == 0.0
  {
    SumBounds(Debits(ts));
    SumFrom(0.0, Debits(ts))
  }

  /** `Math.abs`, the magnitude a stat card shows. */
  function Abs(x: real): (m: real)
    ensures m >= 0.0 && (m == x || m == -x)
  {
    if x < 0.0 then -x else x
  }

  /** What the three stat cards show, before currency formatting. */
  datatype Summary = Summary(count: nat, creditsShown: real, debitsShown: real)

  function StatsBar(ts: seq<Transaction>): (s: Summary)
    ensures s.count == |ts| == |Credits(ts)| + |Debits(ts)| + |Zeros(ts)|
    ensures s.creditsShown == TotalCredits(ts) && s.debitsShown == -TotalDebits(ts)
  {
    SignPartition(ts);
    CreditsArePositivePart(ts);
    DebitsAreNegativePart(ts);
    Summary(|ts|, Abs(TotalCredits(ts)), Abs(TotalDebits(ts)))
  }

  // Reference definitions: each line contributes the positive or negative part of its amount.

  function PositivePart(ts: seq<Transaction>): (r: real)
    ensures r >= 0.0
  {
    if ts == [] then 0.0 else (if ts[0].amount > 0.0 then ts[0].amount else 0.0) + PositivePart(ts[1..])
  }

  function NegativePart(ts: seq<Transaction>): (r: real)
    ensures r <= 0.0
  {
    if ts == [] then 0.0 else (if ts[0].amount < 0.0 then ts[0].amount else 0.0) + NegativePart(ts[1..])
  }

  /** totalCredits is the sum of exactly the positive amounts. */
  lemma {:induction false} CreditsArePositivePart(ts: seq<Transaction>)
    ensures TotalCredits(ts) == PositivePart(ts)
  {
    if ts != [] {
      CreditsArePositivePart(ts[1..]);
      assert ts == [ts[0]] + ts[1..];
      FilterConcat([ts[0]], ts[1..], IsCredit);
      SumConcat(Filter([ts[0]], IsCredit), Credits(ts[1..]));
    }
  }

  /** totalDebits is the sum of exactly the negative amounts. */
  lemma {:induction false} DebitsAreNegativePart(ts: seq<Transaction>)
    ensures TotalDebits(ts) == NegativePart(ts)
  {
    if ts != [] {
      DebitsAreNegativePart(ts[1..]);
      assert ts == [ts[0]] + ts[1..];
      FilterConcat([ts[0]], ts[1..], IsDebit);
      SumConcat(Filter([ts[0]], IsDebit), Debits(ts[1..]));
    }
  }

  /** The credit total is never negative, is 0 for an empty list, and is positive exactly
      when some line is a credit; the debit total mirrors this below zero. */
  lemma TotalsSigns(ts: seq<Transaction>)
    ensures TotalCredits(ts) >= 0.0 && TotalDebits(ts) <= 0.0
    ensures ts == [] ==> TotalCredits(ts) == 0.0 && TotalDebits(ts) == 0.0
    ensures TotalCredits(ts) > 0.0 <==> exists i :: 0 <= i < |ts| && ts[i].amount > 0.0
    ensures TotalDebits(ts) < 0.0 <==> exists i :: 0 <= i < |ts| && ts[i].amount < 0.0
  {
    CreditsArePositivePart(ts);
    DebitsAreNegativePart(ts);
    PartsDetectSigns(ts);
  }

  lemma {:induction false} PartsDetectSigns(ts: seq<Transaction>)
    ensures PositivePart(ts) > 0.0 <==> exists i :: 0 <= i < |ts| && ts[i].amount > 0.0
    ensures NegativePart(ts) < 0.0 <==> exists i :: 0 <= i < |ts| && ts[i].amount < 0.0
  {
    if ts != [] {
      PartsDetectSigns(ts[1..]);
      assert forall i :: 1 <= i < |ts| ==> ts[i] == ts[1..][i - 1];
      assert forall i :: 0 <= i < |ts[1..]| ==> ts[1..][i] == ts[i + 1];
    }
  }

  /** Both totals are additive over concatenation of line lists. */
  lemma TotalsConcat(a: seq<Transaction>, b: seq<Transaction>)
    ensures TotalCredits(a + b) == TotalCredits(a) + TotalCredits(b)
    ensures TotalDebits(a + b) == TotalDebits(a) + TotalDebits(b)
  {
    FilterConcat(a, b, IsCredit);
    FilterConcat(a, b, IsDebit);
    SumConcat(Credits(a), Credits(b));
    SumConcat(Debits(a), Debits(b));
  }

  /** Inserting a zero-amount line anywhere changes neither total, but adds one to the count. */
  lemma ZeroLineChangesNoTotal(a: seq<Transaction>, z: Transaction, b: seq<Transaction>)
    requires z.amount == 0.0
    ensures TotalCredits(a + [z] + b) == TotalCredits(a + b)
    ensures TotalDebits(a + [z] + b) == TotalDebits(a + b)
    ensures StatsBar(a + [z] + b).count == StatsBar(a + b).count + 1
  {
    TotalsConcat(a + [z], b);
    TotalsConcat(a, [z]);
    TotalsConcat(a, b);
  }

  /** The credit and debit totals add up to the sum of all amounts. */
  lemma {:induction false} TotalsAddUpToNet(ts: seq<Transaction>)
    ensures TotalCredits(ts) + TotalDebits(ts) == SumFrom(0.0, ts)
  {
    if ts != [] {
      TotalsAddUpToNet(ts[1..]);
      assert ts == [ts[0]] + ts[1..];
      TotalsConcat([ts[0]], ts[1..]);
    }
  }
}
