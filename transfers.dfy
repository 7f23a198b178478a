/**
 * The settling-up transfers of a finished bill (`calculateTransfers`): every
 * participant's difference becomes a balance, the debtors (negative balances) are
 * sorted most indebted first and the creditors (positive balances) largest surplus
 * first, and a greedy two-pointer pass pays the current creditor from the current
 * debtor until one of the two lists runs out.
 */
module Transfers {
  import opened Seqs
  import opened Settlement

  /** Transfers of this amount or less are not recorded, and balances this close to 0 count as settled. */
  const Tolerance: real := 0.01

  /** A participant's balance: positive when owed money, negative when owing it. */
  datatype Balance = Balance(personNumber: int, balance: real)

  /** `from` pays `to` the amount; both are 1-based person numbers. */
  datatype Transfer = Transfer(from: int, to: int, amount: real)

  function Abs(x: real): real { if x < 0.0 then -x else x }

  function Min(x: real, y: real): real { if x <= y then x else y }

  /** One balance per result line, numbered from 1 in line order. */
  function Balances(results: seq<PersonResult>): (bs: seq<Balance>)
    ensures |bs| == |results|
    ensures forall i :: 0 <= i < |bs| ==> bs[i] == Balance(i + 1, results[i].difference)
  {
    seq(|results|, i requires 0 <= i < |results| => Balance(i + 1, results[i].difference))
  }

  predicate IsDebt(b: Balance) { b.balance < 0.0 }
  predicate IsCredit(b: Balance) { b.balance > 0.0 }

  /** The sort key: the balance for an ascending sort, its negation for a descending one. */
  function Key(b: Balance, descending: bool): real
  {
    if descending then -b.balance else b.balance
  }

  /** Neighbours are in key order. */
  predicate SortedBy(s: seq<Balance>, descending: bool)
  {
    forall i :: 0 < i < |s| ==> Key(s[i - 1], descending) <= Key(s[i], descending)
  }

  /**
   * Puts `x` into a sorted sequence after every element whose key is not larger,
   * so elements with equal keys keep their order.
   */
  function Insert(x: Balance, s: seq<Balance>, descending: bool): (r: seq<Balance>)
    ensures |r| == |s| + 1
    ensures r[0] == x || (s != [] && r[0] == s[0])
  {
    if s == [] then [x]
    else if Key(x, descending) < Key(s[0], descending) then [x] + s
    else [s[0]] + Insert(x, s[1..], descending)
  }

  lemma {:induction false} InsertSorted(x: Balance, s: seq<Balance>, descending: bool)
    requires SortedBy(s, descending)
    ensures SortedBy(Insert(x, s, descending), descending)
  {
    if s != [] && Key(x, descending) >= Key(s[0], descending) {
      InsertSorted(x, s[1..], descending);
    }
  }

  lemma {:induction false} InsertKeeps(x: Balance, s: seq<Balance>, descending: bool)
    ensures multiset(Insert(x, s, descending)) == multiset(s) + multiset{x}
  {
    if s != [] && Key(x, descending) >= Key(s[0], descending) {
      InsertKeeps(x, s[1..], descending);
      assert s == [s[0]] + s[1..];
    }
  }

  /** A stable sort by balance, as `Array.prototype.sort` with a balance comparator. */
  function Sort(s: seq<Balance>, descending: bool): (r: seq<Balance>)
    ensures |r| == |s|
  {
    if s == [] then []
    else Insert(s[|s| - 1], Sort(s[..|s| - 1], descending), descending)
  }

  lemma {:induction false} InsertMembers(x: Balance, s: seq<Balance>, descending: bool)
    ensures forall y :: y in Insert(x, s, descending) <==> y == x || y in s
  {
    if s != [] && Key(x, descending) >= Key(s[0], descending) {
      InsertMembers(x, s[1..], descending);
      assert s == [s[0]] + s[1..];
    }
  }

  /** Sorting orders the balances. */
  lemma {:induction false} SortSorted(s: seq<Balance>, descending: bool)
    ensures SortedBy(Sort(s, descending), descending)
  {
    if s != [] {
      SortSorted(s[..|s| - 1], descending);
      InsertSorted(s[|s| - 1], Sort(s[..|s| - 1], descending), descending);
    }
  }

  /** Sorting only permutes the balances. */
  lemma {:induction false} SortPermutes(s: seq<Balance>, descending: bool)
    ensures multiset(Sort(s, descending)) == multiset(s)
  {
    if s != [] {
      var init := s[..|s| - 1];
      SortPermutes(init, descending);
      InsertKeeps(s[|s| - 1], Sort(init, descending), descending);
      assert s == init + [s[|s| - 1]];
    }
  }

  /** Sorting neither adds nor drops a balance. */
  lemma {:induction false} SortMembers(s: seq<Balance>, descending: bool)
    ensures forall y :: y in Sort(s, descending) <==> y in s
  {
    if s != [] {
      var init := s[..|s| - 1];
      SortMembers(init, descending);
      InsertMembers(s[|s| - 1], Sort(init, descending), descending);
      assert s == init + [s[|s| - 1]];
    }
  }

  /** Selects the balances whose sort key is `k`. */
  function HasKey(k: real, descending: bool): Balance -> bool
  {
    b => Key(b, descending) == k
  }

  /** In a sorted sequence no key is below the first one. */
  lemma {:induction false} SortedFirst(s: seq<Balance>, descending: bool)
    requires s != [] && SortedBy(s, descending)
    ensures forall y <- s :: Key(s[0], descending) <= Key(y, descending)
  {
    if |s| > 1 {
      var t := s[1..];
      assert SortedBy(t, descending) by {
        forall i | 0 < i < |t| ensures Key(t[i - 1], descending) <= Key(t[i], descending) {
          assert t[i - 1] == s[i] && t[i] == s[i + 1];
        }
      }
      SortedFirst(t, descending);
      assert s == [s[0]] + t;
      assert Key(s[0], descending) <= Key(s[1], descending);
    }
  }

  /**
   * Inserting into a sorted sequence puts `x` after every element with the same key:
   * among the elements with key `k`, the order is theirs followed by `x`.
   */
  lemma {:induction false} InsertStable(x: Balance, s: seq<Balance>, descending: bool, k: real)
    requires SortedBy(s, descending)
    ensures Filter(Insert(x, s, descending), HasKey(k, descending))
         == Filter(s, HasKey(k, descending)) + Filter([x], HasKey(k, descending))
  {
    var keep := HasKey(k, descending);
    if s == [] {
      assert Insert(x, s, descending) == [x];
    } else if Key(x, descending) < Key(s[0], descending) {
      InsertFront(x, s, descending, k);
    } else {
      var rest := s[1..];
      assert SortedBy(rest, descending) by {
        forall i | 0 < i < |rest| ensures Key(rest[i - 1], descending) <= Key(rest[i], descending) {
          assert rest[i - 1] == s[i] && rest[i] == s[i + 1];
        }
      }
      InsertStable(x, rest, descending, k);
      InsertBehind(x, s, descending, keep);
    }
  }

  /** Nothing is kept when no element qualifies. */
  lemma {:induction false} FilterNone(s: seq<Balance>, keep: Balance -> bool)
    requires forall y <- s :: !keep(y)
    ensures Filter(s, keep) == []
  {
    if s != [] {
      assert s[0] in s;
      assert forall y <- s[1..] :: y in s;
      FilterNone(s[1..], keep);
    }
  }

  /** `x` placed in front of larger keys is the last of its key. */
  lemma InsertFront(x: Balance, s: seq<Balance>, descending: bool, k: real)
    requires s != [] && SortedBy(s, descending) && Key(x, descending) < Key(s[0], descending)
    ensures Filter(Insert(x, s, descending), HasKey(k, descending))
         == Filter(s, HasKey(k, descending)) + Filter([x], HasKey(k, descending))
  {
    var keep := HasKey(k, descending);
    FilterAppend([x], s, keep);
    if Key(x, descending) == k {
      SortedFirst(s, descending);
      FilterNone(s, keep);
    }
  }

  /** The step of `Insert` that passes the head keeps the head in front. */
  lemma InsertBehind(x: Balance, s: seq<Balance>, descending: bool, keep: Balance -> bool)
    requires s != [] && Key(x, descending) >= Key(s[0], descending)
    requires Filter(Insert(x, s[1..], descending), keep) == Filter(s[1..], keep) + Filter([x], keep)
    ensures Filter(Insert(x, s, descending), keep) == Filter(s, keep) + Filter([x], keep)
  {
    var rest := s[1..];
    var head := Filter([s[0]], keep);
    assert Insert(x, s, descending) == [s[0]] + Insert(x, rest, descending);
    FilterAppend([s[0]], Insert(x, rest, descending), keep);
    FilterAppend([s[0]], rest, keep);
    assert [s[0]] + rest == s;
    AppendAssociates(head, Filter(rest, keep), Filter([x], keep));
  }

  /** The sort is stable: the balances with any one key come out in their input order. */
  lemma {:induction false} SortStable(s: seq<Balance>, descending: bool, k: real)
    ensures Filter(Sort(s, descending), HasKey(k, descending)) == Filter(s, HasKey(k, descending))
  {
    if s != [] {
      var init, last := s[..|s| - 1], s[|s| - 1];
      SortStable(init, descending, k);
      SortSorted(init, descending);
      InsertStable(last, Sort(init, descending), descending, k);
      FilterAppend(init, [last], HasKey(k, descending));
      assert s == init + [last];
    }
  }

  /** The participants who owe money, most indebted first. */
  function Debtors(results: seq<PersonResult>): seq<Balance>
  {
    Sort(Filter(Balances(results), IsDebt), false)
  }

  /** The participants who are owed money, largest surplus first. */
  function Creditors(results: seq<PersonResult>): seq<Balance>
  {
    Sort(Filter(Balances(results), IsCredit), true)
  }

  /**
   * The debtors are sorted, and they are exactly the participants with a negative
   * difference, each under its own person number.
   */
  lemma DebtorsAreUnderpayers(results: seq<PersonResult>)
    ensures SortedBy(Debtors(results), false)
    ensures forall b <- Debtors(results) ::
      1 <= b.personNumber <= |results| && b.balance == results[b.personNumber - 1].difference && b.balance < 0.0
    ensures forall i :: 0 <= i < |results| && results[i].difference < 0.0 ==>
      Balance(i + 1, results[i].difference) in Debtors(results)
  {
    var bs := Balances(results);
    var f := Filter(bs, IsDebt);
    SortSorted(f, false);
    SortMembers(f, false);
    forall b <- Debtors(results)
      ensures 1 <= b.personNumber <= |results| && b.balance == results[b.personNumber - 1].difference && b.balance < 0.0
    {
      var i :| 0 <= i < |bs| && bs[i] == b;
    }
    forall i | 0 <= i < |results| && results[i].difference < 0.0
      ensures Balance(i + 1, results[i].difference) in Debtors(results)
    {
      assert bs[i] in bs;
    }
  }

  /**
   * The creditors are sorted, and they are exactly the participants with a positive
   * difference, each under its own person number.
   */
  lemma CreditorsAreOverpayers(results: seq<PersonResult>)
    ensures SortedBy(Creditors(results), true)
    ensures forall b <- Creditors(results) ::
      1 <= b.personNumber <= |results| && b.balance == results[b.personNumber - 1].difference && b.balance > 0.0
    ensures forall i :: 0 <= i < |results| && results[i].difference > 0.0 ==>
      Balance(i + 1, results[i].difference) in Creditors(results)
  {
    var bs := Balances(results);
    var f := Filter(bs, IsCredit);
    SortSorted(f, true);
    SortMembers(f, true);
    forall b <- Creditors(results)
      ensures 1 <= b.personNumber <= |results| && b.balance == results[b.personNumber - 1].difference && b.balance > 0.0
    {
      var i :| 0 <= i < |bs| && bs[i] == b;
    }
    forall i | 0 <= i < |results| && results[i].difference > 0.0
      ensures Balance(i + 1, results[i].difference) in Creditors(results)
    {
      assert bs[i] in bs;
    }
  }

  /** Every debtor still owes money or is settled. */
  predicate AllOwing(debtors: seq<Balance>)
  {
    forall b <- debtors :: b.balance <= 0.0
  }

  /** Every creditor is still owed money or is settled. */
  predicate AllOwed(creditors: seq<Balance>)
  {
    forall b <- creditors :: b.balance >= 0.0
  }

  /** What the current debtor pays the current creditor: the smaller of the debt and the surplus. */
  function Settled(debtor: Balance, creditor: Balance): real
  {
    Min(Abs(debtor.balance), creditor.balance)
  }

  /** The transfer a round records, which it does only above the tolerance. */
  function Recorded(debtor: Balance, creditor: Balance, amount: real): seq<Transfer>
  {
    if amount > Tolerance then [Transfer(debtor.personNumber, creditor.personNumber, amount)] else []
  }

  /** The debtors after the first one has paid `amount`; it leaves once it is within tolerance of 0. */
  function PaidDown(debtors: seq<Balance>, amount: real): seq<Balance>
    requires debtors != []
  {
    var d := debtors[0].(balance := debtors[0].balance + amount);
    if Abs(d.balance) < Tolerance then debtors[1..] else [d] + debtors[1..]
  }

  /** The creditors after the first one has received `amount`; it leaves once it is below the tolerance. */
  function PaidOut(creditors: seq<Balance>, amount: real): seq<Balance>
    requires creditors != []
  {
    var c := creditors[0].(balance := creditors[0].balance - amount);
    if c.balance < Tolerance then creditors[1..] else [c] + creditors[1..]
  }

  /**
   * A round settles the debtor or the creditor completely, so at least one of them
   * leaves, and the debtors left still owe money.
   */
  lemma RoundSettlesOne(debtors: seq<Balance>, creditors: seq<Balance>)
    requires debtors != [] && creditors != [] && AllOwing(debtors)
    ensures var amount := Settled(debtors[0], creditors[0]);
      && |PaidDown(debtors, amount)| + |PaidOut(creditors, amount)| < |debtors| + |creditors|
      && AllOwing(PaidDown(debtors, amount))
      && (AllOwed(creditors) ==> 0.0 <= amount && AllOwed(PaidOut(creditors, amount)))
  {
    assert debtors[0] in debtors;
    assert forall b <- debtors[1..] :: b in debtors;
    assert forall b <- creditors[1..] :: b in creditors;
    assert AllOwed(creditors) ==> creditors[0] in creditors;
  }

  /** The transfers the greedy pass over `debtors` and `creditors` records, in order. */
  function Plan(debtors: seq<Balance>, creditors: seq<Balance>): seq<Transfer>
    requires AllOwing(debtors)
    decreases |debtors| + |creditors|
  {
    if debtors == [] || creditors == [] then []
    else
      var amount := Settled(debtors[0], creditors[0]);
      RoundSettlesOne(debtors, creditors);
      Recorded(debtors[0], creditors[0], amount) + Plan(PaidDown(debtors, amount), PaidOut(creditors, amount))
  }

  /** How many rounds the greedy pass takes. */
  function Rounds(debtors: seq<Balance>, creditors: seq<Balance>): nat
    requires AllOwing(debtors)
    decreases |debtors| + |creditors|
  {
    if debtors == [] || creditors == [] then 0
    else
      var amount := Settled(debtors[0], creditors[0]);
      RoundSettlesOne(debtors, creditors);
      1 + Rounds(PaidDown(debtors, amount), PaidOut(creditors, amount))
  }

  /** Every recorded transfer is above the tolerance. */
  lemma {:induction false} PlanAboveTolerance(debtors: seq<Balance>, creditors: seq<Balance>)
    requires AllOwing(debtors)
    ensures forall t <- Plan(debtors, creditors) :: t.amount > Tolerance
    decreases |debtors| + |creditors|
  {
    if debtors != [] && creditors != [] {
      var amount := Settled(debtors[0], creditors[0]);
      RoundSettlesOne(debtors, creditors);
      PlanAboveTolerance(PaidDown(debtors, amount), PaidOut(creditors, amount));
    }
  }

  /**
   * The pass ends after at most `|debtors| + |creditors| - 1` rounds, and each round
   * records at most one transfer.
   */
  lemma {:induction false} PlanRounds(debtors: seq<Balance>, creditors: seq<Balance>)
    requires AllOwing(debtors)
    ensures |Plan(debtors, creditors)| <= Rounds(debtors, creditors)
    ensures Rounds(debtors, creditors) == 0 || Rounds(debtors, creditors) + 1 <= |debtors| + |creditors|
    decreases |debtors| + |creditors|
  {
    if debtors != [] && creditors != [] {
      var amount := Settled(debtors[0], creditors[0]);
      RoundSettlesOne(debtors, creditors);
      PlanRounds(PaidDown(debtors, amount), PaidOut(creditors, amount));
    }
  }

  function PersonNumbers(s: seq<Balance>): set<int>
  {
    set b <- s :: b.personNumber
  }

  /** Money flows only from a debtor to a creditor. */
  lemma {:induction false} PlanEndpoints(debtors: seq<Balance>, creditors: seq<Balance>)
    requires AllOwing(debtors)
    ensures forall t <- Plan(debtors, creditors) ::
      t.from in PersonNumbers(debtors) && t.to in PersonNumbers(creditors)
    decreases |debtors| + |creditors|
  {
    if debtors != [] && creditors != [] {
      var amount := Settled(debtors[0], creditors[0]);
      RoundSettlesOne(debtors, creditors);
      var nd, nc := PaidDown(debtors, amount), PaidOut(creditors, amount);
      PlanEndpoints(nd, nc);
      assert PersonNumbers(nd) <= PersonNumbers(debtors) by {
        assert forall b <- debtors[1..] :: b in debtors;
      }
      assert PersonNumbers(nc) <= PersonNumbers(creditors) by {
        assert forall b <- creditors[1..] :: b in creditors;
      }
      assert debtors[0] in debtors && creditors[0] in creditors;
    }
  }

  /** The balance `s` holds for person `p`, summed over all of p's entries. */
  function Holding(s: seq<Balance>, p: int): real
  {
    if s == [] then 0.0
    else (if s[0].personNumber == p then s[0].balance else 0.0) + Holding(s[1..], p)
  }

  /** Debtors hold no positive balance, creditors no negative one. */
  lemma {:induction false} HoldingSign(s: seq<Balance>, p: int)
    ensures AllOwing(s) ==> Holding(s, p) <= 0.0
    ensures AllOwed(s) ==> Holding(s, p) >= 0.0
  {
    if s != [] {
      assert s[0] in s;
      assert forall b <- s[1..] :: b in s;
      HoldingSign(s[1..], p);
    }
  }

  /** What person `p` sends in total. */
  function SentBy(transfers: seq<Transfer>, p: int): real
  {
    if transfers == [] then 0.0
    else (if transfers[0].from == p then transfers[0].amount else 0.0) + SentBy(transfers[1..], p)
  }

  /** What person `p` receives in total. */
  function ReceivedBy(transfers: seq<Transfer>, p: int): real
  {
    if transfers == [] then 0.0
    else (if transfers[0].to == p then transfers[0].amount else 0.0) + ReceivedBy(transfers[1..], p)
  }

  lemma {:induction false} SentByAppend(a: seq<Transfer>, b: seq<Transfer>, p: int)
    ensures SentBy(a + b, p) == SentBy(a, p) + SentBy(b, p)
    ensures ReceivedBy(a + b, p) == ReceivedBy(a, p) + ReceivedBy(b, p)
  {
    if a == [] {
      assert a + b == b;
    } else {
      assert (a + b)[1..] == a[1..] + b;
      SentByAppend(a[1..], b, p);
    }
  }

  /**
   * A round moves the debtor's balance up by at least what it pays, and the
   * creditor's balance down by at least what it receives.
   */
  lemma RoundMovesBalances(debtors: seq<Balance>, creditors: seq<Balance>, p: int)
    requires debtors != [] && creditors != [] && AllOwing(debtors)
    ensures var amount := Settled(debtors[0], creditors[0]);
      && Holding(PaidDown(debtors, amount), p)
           >= Holding(debtors, p) + (if debtors[0].personNumber == p then amount else 0.0)
      && Holding(PaidOut(creditors, amount), p)
           <= Holding(creditors, p) - (if creditors[0].personNumber == p then amount else 0.0)
  {
    var amount := Settled(debtors[0], creditors[0]);
    assert debtors[0] in debtors;
    var d := debtors[0].(balance := debtors[0].balance + amount);
    assert ([d] + debtors[1..])[1..] == debtors[1..];
    var c := creditors[0].(balance := creditors[0].balance - amount);
    assert ([c] + creditors[1..])[1..] == creditors[1..];
  }

  /**
   * Nobody pays out more than they owe and nobody receives more than they are
   * owed: a debtor's transfers add up to at most its debt, a creditor's to at most
   * its surplus.
   */
  lemma {:induction false} PlanWithinBalances(debtors: seq<Balance>, creditors: seq<Balance>, p: int)
    requires AllOwing(debtors) && AllOwed(creditors)
    ensures SentBy(Plan(debtors, creditors), p) <= -Holding(debtors, p)
    ensures ReceivedBy(Plan(debtors, creditors), p) <= Holding(creditors, p)
    decreases |debtors| + |creditors|
  {
    if debtors == [] || creditors == [] {
      HoldingSign(debtors, p);
      HoldingSign(creditors, p);
    } else {
      var amount := Settled(debtors[0], creditors[0]);
      RoundSettlesOne(debtors, creditors);
      RoundMovesBalances(debtors, creditors, p);
      var rest := Plan(PaidDown(debtors, amount), PaidOut(creditors, amount));
      PlanWithinBalances(PaidDown(debtors, amount), PaidOut(creditors, amount), p);
      SentByAppend(Recorded(debtors[0], creditors[0], amount), rest, p);
    }
  }

  lemma {:induction false} HoldingAppend(a: seq<Balance>, b: seq<Balance>, p: int)
    ensures Holding(a + b, p) == Holding(a, p) + Holding(b, p)
  {
    if a == [] {
      assert a + b == b;
    } else {
      assert (a + b)[1..] == a[1..] + b;
      HoldingAppend(a[1..], b, p);
    }
  }

  lemma {:induction false} HoldingInsert(x: Balance, s: seq<Balance>, descending: bool, p: int)
    ensures Holding(Insert(x, s, descending), p) == Holding(s, p) + Holding([x], p)
  {
    if s == [] {
    } else if Key(x, descending) < Key(s[0], descending) {
      assert ([x] + s)[1..] == s;
    } else {
      HoldingInsert(x, s[1..], descending, p);
      assert ([s[0]] + Insert(x, s[1..], descending))[1..] == Insert(x, s[1..], descending);
    }
  }

  /** Sorting keeps every person's balance. */
  lemma {:induction false} HoldingSort(s: seq<Balance>, descending: bool, p: int)
    ensures Holding(Sort(s, descending), p) == Holding(s, p)
  {
    if s != [] {
      var init := s[..|s| - 1];
      HoldingSort(init, descending, p);
      HoldingInsert(s[|s| - 1], Sort(init, descending), descending, p);
      HoldingAppend(init, [s[|s| - 1]], p);
      assert s == init + [s[|s| - 1]];
    }
  }

  /**
   * In balances numbered consecutively from `k + 1`, the kept balances hold for
   * person `p` exactly p's own balance when it is kept, and nothing otherwise.
   */
  lemma {:induction false} HoldingNumbered(bs: seq<Balance>, keep: Balance -> bool, k: int, p: int)
    requires forall i :: 0 <= i < |bs| ==> bs[i].personNumber == k + i + 1
    ensures Holding(Filter(bs, keep), p)
      == if k < p <= k + |bs| && keep(bs[p - k - 1]) then bs[p - k - 1].balance else 0.0
  {
    if bs != [] {
      HoldingNumbered(bs[1..], keep, k + 1, p);
      var head := if keep(bs[0]) then [bs[0]] else [];
      HoldingAppend(head, Filter(bs[1..], keep), p);
    }
  }

  /** What person `p` owes: the size of a negative difference, and 0 otherwise. */
  function Debt(results: seq<PersonResult>, p: int): real
  {
    if 1 <= p <= |results| && results[p - 1].difference < 0.0 then -results[p - 1].difference else 0.0
  }

  /** What person `p` is owed: a positive difference, and 0 otherwise. */
  function Credit(results: seq<PersonResult>, p: int): real
  {
    if 1 <= p <= |results| && results[p - 1].difference > 0.0 then results[p - 1].difference else 0.0
  }

  /** The debtors hold exactly each participant's debt, the creditors exactly each one's credit. */
  lemma HoldingResults(results: seq<PersonResult>, p: int)
    ensures Holding(Debtors(results), p) == -Debt(results, p)
    ensures Holding(Creditors(results), p) == Credit(results, p)
  {
    var bs := Balances(results);
    HoldingSort(Filter(bs, IsDebt), false, p);
    HoldingNumbered(bs, IsDebt, 0, p);
    HoldingSort(Filter(bs, IsCredit), true, p);
    HoldingNumbered(bs, IsCredit, 0, p);
  }

  lemma DebtorsOwe(results: seq<PersonResult>)
    ensures AllOwing(Debtors(results))
  {
    DebtorsAreUnderpayers(results);
  }

  /** The transfers `calculateTransfers` returns for the result lines of a bill. */
  function TransferPlan(results: seq<PersonResult>): seq<Transfer>
  {
    DebtorsOwe(results);
    Plan(Debtors(results), Creditors(results))
  }

  /** How many rounds `calculateTransfers` takes for the result lines of a bill. */
  function TransferRounds(results: seq<PersonResult>): nat
  {
    DebtorsOwe(results);
    Rounds(Debtors(results), Creditors(results))
  }

  /**
   * Every transfer is above the tolerance and goes from a participant who
   * underpaid to a different participant who overpaid.
   */
  lemma TransfersFromDebtorsToCreditors(results: seq<PersonResult>)
    ensures forall t <- TransferPlan(results) ::
      && t.amount > Tolerance
      && 1 <= t.from <= |results| && results[t.from - 1].difference < 0.0
      && 1 <= t.to <= |results| && results[t.to - 1].difference > 0.0
  {
    DebtorsAreUnderpayers(results);
    CreditorsAreOverpayers(results);
    PlanAboveTolerance(Debtors(results), Creditors(results));
    PlanEndpoints(Debtors(results), Creditors(results));
  }

  /** No participant pays more than they owe or receives more than they are owed. */
  lemma TransfersWithinBalances(results: seq<PersonResult>, p: int)
    ensures SentBy(TransferPlan(results), p) <= Debt(results, p)
    ensures ReceivedBy(TransferPlan(results), p) <= Credit(results, p)
  {
    DebtorsAreUnderpayers(results);
    CreditorsAreOverpayers(results);
    assert AllOwed(Creditors(results));
    PlanWithinBalances(Debtors(results), Creditors(results), p);
    HoldingResults(results, p);
  }

  /** Each side of a difference is counted at most once: debts and credits fit in the lines. */
  lemma {:induction false} DebtsAndCreditsFit(bs: seq<Balance>)
    ensures |Filter(bs, IsDebt)| + |Filter(bs, IsCredit)| <= |bs|
  {
    if bs != [] {
      DebtsAndCreditsFit(bs[1..]);
    }
  }

  /** A bill with `n` participants needs at most `n - 1` rounds, and so at most `n - 1` transfers. */
  lemma TransfersFewerThanParticipants(results: seq<PersonResult>)
    ensures |TransferPlan(results)| <= TransferRounds(results)
    ensures TransferRounds(results) == 0 || TransferRounds(results) + 1 <= |results|
  {
    DebtorsAreUnderpayers(results);
    PlanRounds(Debtors(results), Creditors(results));
    DebtsAndCreditsFit(Balances(results));
  }

  /** When nobody underpaid, nobody has to transfer anything. */
  lemma NoDebtNoTransfers(results: seq<PersonResult>)
    requires forall r <- results :: r.difference >= 0.0
    ensures TransferPlan(results) == []
  {
    DebtorsAreUnderpayers(results);
    assert forall b <- Debtors(results) :: results[b.personNumber - 1] in results;
  }

  /**
   * When every debtor and every creditor is within the tolerance of 0, no round
   * moves more than the tolerance, so nothing is recorded.
   */
  lemma {:induction false} PlanSmall(debtors: seq<Balance>, creditors: seq<Balance>)
    requires AllOwing(debtors) && AllOwed(creditors)
    requires forall b <- debtors :: b.balance >= -Tolerance
    requires forall b <- creditors :: b.balance <= Tolerance
    ensures Plan(debtors, creditors) == []
    decreases |debtors| + |creditors|
  {
    if debtors != [] && creditors != [] {
      var amount := Settled(debtors[0], creditors[0]);
      RoundSettlesOne(debtors, creditors);
      assert debtors[0] in debtors && creditors[0] in creditors;
      assert Recorded(debtors[0], creditors[0], amount) == [];
      var nd, nc := PaidDown(debtors, amount), PaidOut(creditors, amount);
      assert forall b <- nd :: b.balance >= -Tolerance by {
        assert forall b <- debtors[1..] :: b in debtors;
      }
      assert forall b <- nc :: b.balance <= Tolerance by {
        assert forall b <- creditors[1..] :: b in creditors;
      }
      PlanSmall(nd, nc);
    }
  }

  /** When every difference is within the tolerance of 0, nobody has to transfer anything. */
  lemma SmallDifferencesNoTransfers(results: seq<PersonResult>)
    requires forall r <- results :: -Tolerance <= r.difference <= Tolerance
    ensures TransferPlan(results) == []
  {
    DebtorsAreUnderpayers(results);
    CreditorsAreOverpayers(results);
    assert forall b <- Debtors(results) :: results[b.personNumber - 1] in results;
    assert forall b <- Creditors(results) :: results[b.personNumber - 1] in results;
    PlanSmall(Debtors(results), Creditors(results));
  }

  /**
   * One round of the pass: with the round's transfer appended, the transfers so
   * far followed by the pass over what is left are the same as before the round,
   * and one round fewer is left.
   */
  lemma LoopRound(before: seq<Transfer>, debtors: seq<Balance>, creditors: seq<Balance>, amount: real,
                  after: seq<Transfer>, debtorsLeft: seq<Balance>, creditorsLeft: seq<Balance>)
    requires debtors != [] && creditors != [] && AllOwing(debtors)
    requires amount == Settled(debtors[0], creditors[0])
    requires after == before + Recorded(debtors[0], creditors[0], amount)
    requires debtorsLeft == PaidDown(debtors, amount) && creditorsLeft == PaidOut(creditors, amount)
    ensures AllOwing(debtorsLeft)
    ensures |debtorsLeft| + |creditorsLeft| < |debtors| + |creditors|
    ensures after + Plan(debtorsLeft, creditorsLeft) == before + Plan(debtors, creditors)
    ensures 1 + Rounds(debtorsLeft, creditorsLeft) == Rounds(debtors, creditors)
  {
    RoundSettlesOne(debtors, creditors);
    var sent, rest := Recorded(debtors[0], creditors[0], amount), Plan(debtorsLeft, creditorsLeft);
    assert Plan(debtors, creditors) == sent + rest;
    assert 1 + Rounds(debtorsLeft, creditorsLeft) == Rounds(debtors, creditors);
    AppendAssociates(before, sent, rest);
  }

  /**
   * Updating the current debtor in place, and moving past it once it is settled,
   * leaves the same debtors ahead as `PaidDown`.
   */
  lemma DebtorPaidInPlace(debtors: seq<Balance>, i: int, amount: real, ds: seq<Balance>, next: int)
    requires 0 <= i < |debtors|
    requires ds == debtors[i := debtors[i].(balance := debtors[i].balance + amount)]
    requires next == if Abs(ds[i].balance) < Tolerance then i + 1 else i
    ensures ds[next..] == PaidDown(debtors[i..], amount)
  {
    assert ds[i + 1..] == debtors[i + 1..] == debtors[i..][1..];
    assert ds[i..] == [ds[i]] + ds[i + 1..];
  }

  /**
   * Updating the current creditor in place, and moving past it once it is settled,
   * leaves the same creditors ahead as `PaidOut`.
   */
  lemma CreditorPaidInPlace(creditors: seq<Balance>, j: int, amount: real, cs: seq<Balance>, next: int)
    requires 0 <= j < |creditors|
    requires cs == creditors[j := creditors[j].(balance := creditors[j].balance - amount)]
    requires next == if cs[j].balance < Tolerance then j + 1 else j
    ensures cs[next..] == PaidOut(creditors[j..], amount)
  {
    assert cs[j + 1..] == creditors[j + 1..] == creditors[j..][1..];
    assert cs[j..] == [cs[j]] + cs[j + 1..];
  }

  /**
   * One iteration of the loop in `calculateTransfers`, stated over the indices and
   * the in-place updates: what the loop keeps track of carries over to the next
   * iteration, and the remaining work shrinks.
   */
  lemma LoopIteration(
    before: seq<Transfer>, debtors: seq<Balance>, creditors: seq<Balance>, i: int, j: int,
    debtor: Balance, creditor: Balance, amount: real,
    after: seq<Transfer>, debtors': seq<Balance>, creditors': seq<Balance>, i': int, j': int)
    requires 0 <= i < |debtors| && 0 <= j < |creditors| && AllOwing(debtors[i..])
    requires debtor == debtors[i] && creditor == creditors[j]
    requires amount == Min(Abs(debtor.balance), creditor.balance)
    requires after == before + Recorded(debtor, creditor, amount)
    requires debtors' == debtors[i := debtor.(balance := debtor.balance + amount)]
    requires creditors' == creditors[j := creditor.(balance := creditor.balance - amount)]
    requires i' == if Abs(debtors'[i].balance) < Tolerance then i + 1 else i
    requires j' == if creditors'[j].balance < Tolerance then j + 1 else j
    ensures |debtors'| == |debtors| && |creditors'| == |creditors|
    ensures i <= i' <= |debtors'| && j <= j' <= |creditors'| && i + j < i' + j'
    ensures AllOwing(debtors'[i'..])
    ensures after + Plan(debtors'[i'..], creditors'[j'..]) == before + Plan(debtors[i..], creditors[j..])
    ensures 1 + Rounds(debtors'[i'..], creditors'[j'..]) == Rounds(debtors[i..], creditors[j..])
  {
    var ds, cs := debtors[i..], creditors[j..];
    assert ds[0] == debtors[i] && cs[0] == creditors[j];
    DebtorPaidInPlace(debtors, i, amount, debtors', i');
    CreditorPaidInPlace(creditors, j, amount, creditors', j');
    LoopRound(before, ds, cs, amount, after, debtors'[i'..], creditors'[j'..]);
  }

  /**
   * `calculateTransfers`: two indices walk the sorted debtors and creditors; each
   * round moves the smaller of the current debt and surplus from the debtor to the
   * creditor, records it if it is above the tolerance, and moves past whichever of
   * the two is settled.
   */
  method CalculateTransfers(results: seq<PersonResult>) returns (transfers: seq<Transfer>, ghost rounds: nat)
    ensures transfers == TransferPlan(results)
    ensures rounds == TransferRounds(results)
  {
    var debtors := Debtors(results);
    var creditors := Creditors(results);
    DebtorsOwe(results);
    ghost var plan, allRounds := Plan(debtors, creditors), Rounds(debtors, creditors);
    var debtorIndex, creditorIndex := 0, 0;
    transfers, rounds := [], 0;
    assert debtors[0..] == debtors && creditors[0..] == creditors;
    assert transfers + plan == plan;
    while debtorIndex < |debtors| && creditorIndex < |creditors|
      invariant 0 <= debtorIndex <= |debtors| && 0 <= creditorIndex <= |creditors|
      invariant AllOwing(debtors[debtorIndex..])
      invariant transfers + Plan(debtors[debtorIndex..], creditors[creditorIndex..]) == plan
      invariant rounds + Rounds(debtors[debtorIndex..], creditors[creditorIndex..]) == allRounds
      decreases |debtors| - debtorIndex + |creditors| - creditorIndex
    {
      ghost var before, debtorsBefore, creditorsBefore := transfers, debtors, creditors;
      ghost var i, j := debtorIndex, creditorIndex;
      var debtor := debtors[debtorIndex];
      var creditor := creditors[creditorIndex];
      var amount := Min(Abs(debtor.balance), creditor.balance);
      if amount > Tolerance {
        transfers := transfers + [Transfer(debtor.personNumber, creditor.personNumber, amount)];
      }
      debtors := debtors[debtorIndex := debtor.(balance := debtor.balance + amount)];
      creditors := creditors[creditorIndex := creditor.(balance := creditor.balance - amount)];
      if Abs(debtors[debtorIndex].balance) < Tolerance {
        debtorIndex := debtorIndex + 1;
      }
      if creditors[creditorIndex].balance < Tolerance {
        creditorIndex := creditorIndex + 1;
      }
      rounds := rounds + 1;
      LoopIteration(before, debtorsBefore, creditorsBefore, i, j, debtor, creditor, amount,
                    transfers, debtors, creditors, debtorIndex, creditorIndex);
    }
    assert Plan(debtors[debtorIndex..], creditors[creditorIndex..]) == [];
    assert transfers + [] == transfers;
  }

  /** A result line for a share of 1.0. */
  function LineOfShare(personNumber: int, paid: real): PersonResult
  {
    PersonResult(personNumber, paid, 1.0, paid - 1.0, Classify(paid - 1.0))
  }

  /** The result lines of a four-person bill with a share of 1.0, where person 1 paid nothing. */
  function LeftOverLines(): seq<PersonResult>
  {
    [LineOfShare(1, 0.0), LineOfShare(2, 1.985), LineOfShare(3, 1.009), LineOfShare(4, 1.006)]
  }

  /** Already in descending order, the three creditors stay as they are. */
  lemma LeftOverCreditorsSorted(c2: Balance, c3: Balance, c4: Balance)
    requires c2 == Balance(2, 0.985) && c3 == Balance(3, 0.009) && c4 == Balance(4, 0.006)
    ensures Sort([c2, c3, c4], true) == [c2, c3, c4]
  {
    assert [c2, c3, c4][..2] == [c2, c3] && [c2, c3][..1] == [c2] && [c2][..0] == [];
    assert Sort([c2], true) == [c2];
    assert Insert(c3, [c2], true) == [c2, c3] by {
      assert [c2][1..] == [];
    }
    assert Sort([c2, c3], true) == [c2, c3];
    assert Insert(c4, [c3], true) == [c3, c4] by {
      assert [c3][1..] == [];
    }
    assert Insert(c4, [c2, c3], true) == [c2, c3, c4] by {
      assert [c2, c3][1..] == [c3];
    }
  }

  /** The balances of those lines: person 1 owes 1.0, the others are owed the rest. */
  lemma LeftOverBalances()
    ensures Balances(LeftOverLines()) == [Balance(1, -1.0), Balance(2, 0.985), Balance(3, 0.009), Balance(4, 0.006)]
  {
  }

  /** Person 1 is the only negative balance. */
  lemma LeftOverDebts(bs: seq<Balance>)
    requires bs == [Balance(1, -1.0), Balance(2, 0.985), Balance(3, 0.009), Balance(4, 0.006)]
    ensures Filter(bs, IsDebt) == [bs[0]]
  {
    assert Filter(bs[3..], IsDebt) == [];
    assert Filter(bs[2..], IsDebt) == [];
    assert Filter(bs[1..], IsDebt) == [];
  }

  /** Persons 2, 3 and 4 are the positive balances. */
  lemma LeftOverCredits(bs: seq<Balance>)
    requires bs == [Balance(1, -1.0), Balance(2, 0.985), Balance(3, 0.009), Balance(4, 0.006)]
    ensures Filter(bs, IsCredit) == bs[1..]
  {
    assert Filter(bs[3..], IsCredit) == bs[3..];
    assert Filter(bs[2..], IsCredit) == bs[2..];
  }

  /** Person 1 is the only debtor; persons 2, 3 and 4 are the creditors, largest first. */
  lemma LeftOverSides()
    ensures Debtors(LeftOverLines()) == [Balance(1, -1.0)]
    ensures Creditors(LeftOverLines()) == [Balance(2, 0.985), Balance(3, 0.009), Balance(4, 0.006)]
  {
    var d1, c2, c3, c4 := Balance(1, -1.0), Balance(2, 0.985), Balance(3, 0.009), Balance(4, 0.006);
    var bs := [d1, c2, c3, c4];
    LeftOverBalances();
    LeftOverDebts(bs);
    LeftOverCredits(bs);
    assert bs[1..] == [c2, c3, c4];
    assert Sort([d1], false) == [d1] by {
      assert [d1][..0] == [];
    }
    LeftOverCreditorsSorted(c2, c3, c4);
  }

  /**
   * The greedy pass for those sides: 0.985 goes to person 2; the 0.009 for person 3
   * is not above the tolerance and is skipped; person 1 is then within the tolerance.
   */
  lemma LeftOverPlan()
    ensures Plan([Balance(1, -1.0)], [Balance(2, 0.985), Balance(3, 0.009), Balance(4, 0.006)])
      == [Transfer(1, 2, 0.985)]
  {
    var d1, c2, c3, c4 := Balance(1, -1.0), Balance(2, 0.985), Balance(3, 0.009), Balance(4, 0.006);
    var d1a := Balance(1, -0.015);
    assert PaidDown([d1], 0.985) == [d1a];
    assert PaidOut([c2, c3, c4], 0.985) == [c3, c4];
    assert PaidDown([d1a], 0.009) == [];
    assert Plan([d1a], [c3, c4]) == [] by {
      assert Plan([], [c4]) == [];
    }
  }

  /**
   * A debtor can be left owing more than the tolerance. Person 1 owes 1.0 and pays
   * person 2 0.985. The 0.009 and 0.006 still owed to persons 3 and 4 fall at or
   * below the tolerance, so they are not recorded, and person 1 sends 0.015 less
   * than its debt.
   */
  lemma DebtLeftOver()
    ensures TransferPlan(LeftOverLines()) == [Transfer(1, 2, 0.985)]
    ensures Debt(LeftOverLines(), 1) - SentBy(TransferPlan(LeftOverLines()), 1) > Tolerance
  {
    LeftOverSides();
    LeftOverPlan();
    assert SentBy([Transfer(1, 2, 0.985)], 1) == 0.985;
  }
}
