/** The optional value used wherever the source has `null`/`undefined`. */
module Wrappers {
  datatype Option<+T> = None | Some(value: T) {
    /** The `x ?? fallback` of JavaScript: the value when there is one, else the fallback. */
    function GetOr(fallback: T): (r: T)
      ensures Some? ==> r == value
      ensures None? ==> r == fallback
    {
      match this
      case Some(v) => v
      case None => fallback
    }
  }
}

/** A statement line as the extraction endpoint returns it and the web client consumes it,
    and the split of a list of lines into credits and debits by the sign of the amount. */
module Transactions {
  import opened Wrappers
  import opened Sequences

  /** One statement line. `description` is None when the JSON field is null or absent;
      `category` is the label the extraction step assigns and the client never reads. */
  datatype Transaction = Transaction(
    date: string,
    transaction: string,
    amount: real,
    description: Option<string>,
    category: string,
    isDirect: bool)

  /** The JSON body of a successful upload: `{ transactions: [...] }`. */
  datatype BankStatement = BankStatement(transactions: seq<Transaction>)

  predicate IsCredit(t: Transaction) { t.amount > 0.0 }
  predicate IsDebit(t: Transaction) { t.amount < 0.0 }
  predicate IsZero(t: Transaction) { t.amount == 0.0 }

  /** `transactions.filter((t) => t.amount > 0)`: the lines with a positive amount. */
  function Credits(ts: seq<Transaction>): (r: seq<Transaction>)
    ensures forall t :: t in r <==> t in ts && t.amount > 0.0
  {
    assert forall t :: t in Filter(ts, IsCredit) <==> t in ts && IsCredit(t) by {
      forall t ensures t in Filter(ts, IsCredit) <==> t in ts && IsCredit(t) {
        FilterMembership(ts, IsCredit, t);
      }
    }
    Filter(ts, IsCredit)
  }

  /** `transactions.filter((t) => t.amount < 0)`: the lines with a negative amount. */
  function Debits(ts: seq<Transaction>): (r: seq<Transaction>)
    ensures forall t :: t in r <==> t in ts && t.amount < 0.0
  {
    assert forall t :: t in Filter(ts, IsDebit) <==> t in ts && IsDebit(t) by {
      forall t ensures t in Filter(ts, IsDebit) <==> t in ts && IsDebit(t) {
        FilterMembership(ts, IsDebit, t);
      }
    }
    Filter(ts, IsDebit)
  }

  /** The lines that neither filter keeps. */
  function Zeros(ts: seq<Transaction>): seq<Transaction> { Filter(ts, IsZero) }

  /** Every line lands in exactly one of the three lists: the credits, the debits and the
      zero-amount lines are together a permutation of the input, so credits and debits
      never share a line and miss exactly the zero-amount ones. */
  lemma SignPartition(ts: seq<Transaction>)
    ensures multiset(Credits(ts)) + multiset(Debits(ts)) + multiset(Zeros(ts)) == multiset(ts)
    ensures multiset(Credits(ts)) * multiset(Debits(ts)) == multiset{}
    ensures |Credits(ts)| + |Debits(ts)| + |Zeros(ts)| == |ts|
  {
    forall x: Transaction
      ensures (multiset(Credits(ts)) + multiset(Debits(ts)) + multiset(Zeros(ts)))[x] == multiset(ts)[x]
      ensures (multiset(Credits(ts)) * multiset(Debits(ts)))[x] == 0
    {
      FilterMultiplicity(ts, IsCredit, x);
      FilterMultiplicity(ts, IsDebit, x);
      FilterMultiplicity(ts, IsZero, x);
    }
    assert multiset(Credits(ts)) + multiset(Debits(ts)) + multiset(Zeros(ts)) == multiset(ts);
    assert |multiset(Credits(ts)) + multiset(Debits(ts)) + multiset(Zeros(ts))| == |multiset(ts)|;
  }

  /** Credits and debits together have as many lines as the input exactly when no amount is zero. */
  lemma NoLineDroppedIffNoZero(ts: seq<Transaction>)
    ensures |Credits(ts)| + |Debits(ts)| <= |ts|
    ensures |Credits(ts)| + |Debits(ts)| == |ts| <==> forall i :: 0 <= i < |ts| ==> ts[i].amount != 0.0
  {
    SignPartition(ts);
    if |Zeros(ts)| > 0 {
      var z := Zeros(ts)[0];
      FilterMembership(ts, IsZero, z);
      var i :| 0 <= i < |ts| && ts[i] == z;
    } else {
      forall i | 0 <= i < |ts| ensures ts[i].amount != 0.0 {
        FilterMembership(ts, IsZero, ts[i]);
      }
    }
  }
}
