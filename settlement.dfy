/**
 * Settlement of a finished bill (`calculateBillSplit`): the equal share per person,
 * what each participant paid, how far that is from the share, and the participants
 * grouped by whether they overpaid, underpaid or paid exactly their share.
 * Amounts are exact reals, so the share is the exact quotient.
 */
module Settlement {
  import opened Bill
  import opened Seqs

  datatype Status = Overpaid | Underpaid | Exact

  /** One participant's line; `personNumber` is the 1-based position among the participants. */
  datatype PersonResult = PersonResult(
    personNumber: int,
    paid: real,
    shouldPay: real,
    difference: real,
    status: Status)

  datatype Summary = Summary(
    overpaid: seq<PersonResult>,
    underpaid: seq<PersonResult>,
    exact: seq<PersonResult>)

  datatype SplitResult = SplitResult(
    totalAmount: real,
    totalPaid: real,
    perPerson: real,
    results: seq<PersonResult>,
    summary: Summary)

  /** The status of a difference: the sign of `paid - shouldPay`. */
  function Classify(difference: real): (status: Status)
    ensures status == Overpaid <==> difference > 0.0
    ensures status == Underpaid <==> difference < 0.0
    ensures status == Exact <==> difference == 0.0
  {
    if difference > 0.0 then Overpaid else if difference < 0.0 then Underpaid else Exact
  }

  /**
   * The lookup map `calculateBillSplit` builds: each payment in turn sets its
   * participant's entry, so a later payment for the same participant wins.
   */
  function PaymentMap(payments: seq<Payment>): map<int, real>
  {
    if payments == [] then map[]
    else
      var last := payments[|payments| - 1];
      PaymentMap(payments[..|payments| - 1])[last.userId := last.amount]
  }

  /** `paymentMap.get(id) || 0`: the recorded amount, or 0 for a participant with none. */
  function PaidBy(payments: seq<Payment>, id: int): real
  {
    var m := PaymentMap(payments);
    if id in m then m[id] else 0.0
  }

  predicate IsOverpaid(r: PersonResult) { r.status == Overpaid }
  predicate IsUnderpaid(r: PersonResult) { r.status == Underpaid }
  predicate IsExact(r: PersonResult) { r.status == Exact }

  /**
   * One line per participant, in participant order. A participant is overpaid
   * exactly when they paid more than the share and underpaid exactly when they
   * paid less; when the payments were recorded one per participant in order,
   * each line shows its own payment, or 0 past the last one.
   */
  function Results(participants: seq<int>, payments: seq<Payment>, perPerson: real): (rs: seq<PersonResult>)
    ensures |rs| == |participants|
    ensures forall i :: 0 <= i < |rs| ==>
      && rs[i].personNumber == i + 1
      && rs[i].paid == PaidBy(payments, participants[i])
      && rs[i].shouldPay == perPerson
      && rs[i].difference == rs[i].paid - perPerson
      && rs[i].status == Classify(rs[i].difference)
      && (rs[i].status == Overpaid <==> rs[i].paid > perPerson)
      && (rs[i].status == Underpaid <==> rs[i].paid < perPerson)
    ensures Distinct(participants) && PaidInOrder(payments, participants) ==>
      forall i :: 0 <= i < |rs| ==> rs[i].paid == if i < |payments| then payments[i].amount else 0.0
  {
    var rs := seq(|participants|, i requires 0 <= i < |participants| =>
      var paid := PaidBy(payments, participants[i]);
      PersonResult(i + 1, paid, perPerson, paid - perPerson, Classify(paid - perPerson)));
    assert Distinct(participants) && PaidInOrder(payments, participants) ==>
      forall i :: 0 <= i < |rs| ==> rs[i].paid == if i < |payments| then payments[i].amount else 0.0
    by {
      if Distinct(participants) && PaidInOrder(payments, participants) {
        forall i | 0 <= i < |rs|
          ensures rs[i].paid == if i < |payments| then payments[i].amount else 0.0
        {
          PaidInOrderLookup(payments, participants, i);
        }
      }
    }
    rs
  }

  /** The lines are in participant order: person numbers strictly increase. */
  predicate InPersonOrder(rs: seq<PersonResult>)
  {
    forall i, j :: 0 <= i < j < |rs| ==> rs[i].personNumber < rs[j].personNumber
  }

  /** Dropping the first line keeps the order, and every later line has a larger number. */
  lemma TailInPersonOrder(rs: seq<PersonResult>)
    requires rs != [] && InPersonOrder(rs)
    ensures InPersonOrder(rs[1..])
    ensures forall y <- rs[1..] :: rs[0].personNumber < y.personNumber
  {
    var rest := rs[1..];
    forall i, j | 0 <= i < j < |rest| ensures rest[i].personNumber < rest[j].personNumber {
      assert rest[i] == rs[i + 1] && rest[j] == rs[j + 1];
    }
    forall y <- rest ensures rs[0].personNumber < y.personNumber {
      var j :| 0 <= j < |rest| && rest[j] == y;
      assert rs[j + 1] == y;
    }
  }

  /** A line numbered below every line of an ordered list can go in front of it. */
  lemma ConsInPersonOrder(first: PersonResult, tail: seq<PersonResult>)
    requires InPersonOrder(tail) && forall y <- tail :: first.personNumber < y.personNumber
    ensures InPersonOrder([first] + tail)
  {
    var rs := [first] + tail;
    forall i, j | 0 <= i < j < |rs| ensures rs[i].personNumber < rs[j].personNumber {
      assert rs[j] == tail[j - 1];
      if i == 0 {
        assert tail[j - 1] in tail;
      } else {
        assert rs[i] == tail[i - 1];
      }
    }
  }

  /** Filtering lines in participant order keeps them in participant order. */
  lemma {:induction false} FilterInPersonOrder(rs: seq<PersonResult>, keep: PersonResult -> bool)
    requires InPersonOrder(rs)
    ensures InPersonOrder(Filter(rs, keep))
  {
    if rs != [] {
      var first, rest := rs[0], rs[1..];
      TailInPersonOrder(rs);
      FilterInPersonOrder(rest, keep);
      var tail := Filter(rest, keep);
      assert Filter(rs, keep) == (if keep(first) then [first] else []) + tail;
      if keep(first) {
        assert forall y <- tail :: y in rest;
        ConsInPersonOrder(first, tail);
      } else {
        assert Filter(rs, keep) == tail;
      }
    }
  }

  /** `calculateBillSplit`. The callers always have at least one participant. */
  function CalculateBillSplit(bill: BillData): (split: SplitResult)
    requires |bill.participants| >= 1
    ensures split.totalAmount == bill.totalAmount && split.totalPaid == Total(bill.payments)
    ensures split.perPerson == bill.totalAmount / (|bill.participants| as real)
    ensures |split.results| == |bill.participants|
    ensures forall i :: 0 <= i < |split.results| ==>
      var r := split.results[i];
      && r.personNumber == i + 1
      && r.paid == PaidBy(bill.payments, bill.participants[i])
      && r.shouldPay == split.perPerson
      && r.difference == r.paid - split.perPerson
      && (r.status == Overpaid <==> r.paid > split.perPerson)
      && (r.status == Underpaid <==> r.paid < split.perPerson)
    ensures multiset(split.summary.overpaid) + multiset(split.summary.underpaid) + multiset(split.summary.exact)
         == multiset(split.results)
    ensures forall r <- split.summary.overpaid :: r in split.results && r.status == Overpaid
    ensures forall r <- split.summary.underpaid :: r in split.results && r.status == Underpaid
    ensures forall r <- split.summary.exact :: r in split.results && r.status == Exact
    ensures InPersonOrder(split.summary.overpaid) && InPersonOrder(split.summary.underpaid)
      && InPersonOrder(split.summary.exact)
  {
    var perPerson := bill.totalAmount / (|bill.participants| as real);
    var results := Results(bill.participants, bill.payments, perPerson);
    StatusPartition(results);
    FilterInPersonOrder(results, IsOverpaid);
    FilterInPersonOrder(results, IsUnderpaid);
    FilterInPersonOrder(results, IsExact);
    SplitResult(
      bill.totalAmount,
      Total(bill.payments),
      perPerson,
      results,
      Summary(Filter(results, IsOverpaid), Filter(results, IsUnderpaid), Filter(results, IsExact)))
  }

  /** The exact share, taken once per participant, gives back the total. */
  lemma ShareTimesCount(total: real, n: int, share: real)
    requires n >= 1 && share == total / (n as real)
    ensures (n as real) * share == total
  {
  }

  /** Three parts of a head and three parts of a tail make three parts of the whole. */
  lemma JoinParts<T>(head: seq<T>, ha: seq<T>, hb: seq<T>, hc: seq<T>,
                     tail: seq<T>, ta: seq<T>, tb: seq<T>, tc: seq<T>)
    requires multiset(ha) + multiset(hb) + multiset(hc) == multiset(head)
    requires multiset(ta) + multiset(tb) + multiset(tc) == multiset(tail)
    ensures multiset(ha + ta) + multiset(hb + tb) + multiset(hc + tc) == multiset(head + tail)
  {
  }

  /** Every line lands in exactly one of the three status groups. */
  lemma {:induction false} StatusPartition(rs: seq<PersonResult>)
    ensures multiset(Filter(rs, IsOverpaid)) + multiset(Filter(rs, IsUnderpaid)) + multiset(Filter(rs, IsExact))
         == multiset(rs)
  {
    if rs != [] {
      var r, tail := rs[0], rs[1..];
      StatusPartition(tail);
      var ho := if IsOverpaid(r) then [r] else [];
      var hu := if IsUnderpaid(r) then [r] else [];
      var he := if IsExact(r) then [r] else [];
      assert Filter(rs, IsOverpaid) == ho + Filter(tail, IsOverpaid);
      assert Filter(rs, IsUnderpaid) == hu + Filter(tail, IsUnderpaid);
      assert Filter(rs, IsExact) == he + Filter(tail, IsExact);
      assert multiset(ho) + multiset(hu) + multiset(he) == multiset([r]);
      JoinParts([r], ho, hu, he, tail, Filter(tail, IsOverpaid), Filter(tail, IsUnderpaid), Filter(tail, IsExact));
      assert [r] + tail == rs;
    }
  }

  /** A participant for whom no payment was recorded counts as having paid 0. */
  lemma {:induction false} UnpaidIsZero(payments: seq<Payment>, id: int)
    requires forall p <- payments :: p.userId != id
    ensures PaidBy(payments, id) == 0.0
  {
    if payments != [] {
      var init := payments[..|payments| - 1];
      assert forall p <- init :: p in payments;
      UnpaidIsZero(init, id);
    }
  }

  /**
   * When payments were recorded one per participant in participant order, the
   * participant in slot `i` paid the `i`-th payment, or 0 past the last one.
   */
  lemma {:induction false} PaidInOrderLookup(payments: seq<Payment>, participants: seq<int>, i: int)
    requires Distinct(participants) && PaidInOrder(payments, participants)
    requires 0 <= i < |participants|
    ensures PaidBy(payments, participants[i]) == if i < |payments| then payments[i].amount else 0.0
  {
    if payments != [] {
      var k := |payments| - 1;
      var init := payments[..k];
      assert PaidInOrder(init, participants);
      if i != k {
        assert participants[i] != participants[k];
        PaidInOrderLookup(init, participants, i);
      }
    }
  }

  function SumPaid(rs: seq<PersonResult>): real
  {
    if rs == [] then 0.0 else SumPaid(rs[..|rs| - 1]) + rs[|rs| - 1].paid
  }

  function SumDifferences(rs: seq<PersonResult>): real
  {
    if rs == [] then 0.0 else SumDifferences(rs[..|rs| - 1]) + rs[|rs| - 1].difference
  }

  /** Lines that follow the payments in order add up to the payments' total. */
  lemma {:induction false} SumPaidFollowsPayments(rs: seq<PersonResult>, payments: seq<Payment>)
    requires |payments| <= |rs|
    requires forall i :: 0 <= i < |rs| ==> rs[i].paid == if i < |payments| then payments[i].amount else 0.0
    ensures SumPaid(rs) == Total(payments)
  {
    if rs != [] {
      var k := |rs| - 1;
      if k < |payments| {
        SumPaidFollowsPayments(rs[..k], payments[..k]);
      } else {
        SumPaidFollowsPayments(rs[..k], payments);
      }
    }
  }

  /** With one share owed per line, the differences add up to what was paid minus all shares. */
  lemma {:induction false} SumDifferencesIsPaidMinusShares(rs: seq<PersonResult>, share: real)
    requires forall i :: 0 <= i < |rs| ==> rs[i].difference == rs[i].paid - share
    ensures SumDifferences(rs) == SumPaid(rs) - (|rs| as real) * share
  {
    if rs != [] {
      var k := |rs| - 1;
      SumDifferencesIsPaidMinusShares(rs[..k], share);
    }
  }

  /** When the shares add up to what was paid, the differences cancel out. */
  lemma DifferencesCancel(rs: seq<PersonResult>, n: int, share: real, total: real)
    requires |rs| == n
    requires forall i :: 0 <= i < |rs| ==> rs[i].difference == rs[i].paid - share
    requires SumPaid(rs) == total && (n as real) * share == total
    ensures SumDifferences(rs) == 0.0
  {
    SumDifferencesIsPaidMinusShares(rs, share);
  }

  /** In a finalized bill, a participant's line shows their recorded payment, or 0 past the last one. */
  lemma SettlementPaid(bill: BillData)
    requires Finalized(bill)
    ensures var rs := CalculateBillSplit(bill).results;
      forall i :: 0 <= i < |rs| ==> rs[i].paid == if i < |bill.payments| then bill.payments[i].amount else 0.0
  {
    var rs := CalculateBillSplit(bill).results;
    forall i | 0 <= i < |rs|
      ensures rs[i].paid == if i < |bill.payments| then bill.payments[i].amount else 0.0
    {
      PaidInOrderLookup(bill.payments, bill.participants, i);
    }
  }

  /** In a finalized bill, the lines account for every payment. */
  lemma SettlementPaysTotal(bill: BillData)
    requires Finalized(bill)
    ensures SumPaid(CalculateBillSplit(bill).results) == bill.totalAmount
  {
    SettlementPaid(bill);
    SumPaidFollowsPayments(CalculateBillSplit(bill).results, bill.payments);
  }

  /**
   * Settling a finalized bill: the amount paid equals the bill total, and the
   * differences from the equal share cancel out exactly.
   */
  lemma SettlementBalances(bill: BillData)
    requires Finalized(bill)
    ensures var split := CalculateBillSplit(bill);
      && split.totalPaid == split.totalAmount
      && SumDifferences(split.results) == 0.0
  {
    var split := CalculateBillSplit(bill);
    var n, share, total := |bill.participants|, split.perPerson, bill.totalAmount;
    SettlementPaysTotal(bill);
    ShareTimesCount(total, n, share);
    DifferencesCancel(split.results, n, share, total);
  }
}
