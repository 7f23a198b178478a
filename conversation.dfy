/**
 * The per-user conversation that assembles a bill (`handleBillCreation` and the
 * button actions), as pure transitions: given the user's session and one event,
 * the session stays as it is, moves on to an updated session, or is completed
 * into a finished bill that is saved and settled.
 */
module Conversation {
  import opened Wrappers
  import opened Bill
  import Names
  import Settlement

  /**
   * A text message: the text, and what `parseInt` and `parseFloat` make of it
   * (`None` where they give NaN).
   */
  datatype Input = Input(text: string, asInt: Option<int>, asReal: Option<real>)

  /** What a user can send while a bill is in progress. */
  datatype Event =
    | Text(input: Input)
    | NamesYes
    | NamesNo
    | Finish

  /** The effect of one event on a session. */
  datatype Outcome =
    | Unchanged
    | Updated(next: Session)
    | Completed(bill: BillData)

  /** The button data the names question offers, which the text handler also accepts typed. */
  const YesText: string := "add_names_yes"
  const NoText: string := "add_names_no"

  /** The step after the names question: the total for a single-payer bill, payments one by one otherwise. */
  function StepAfterNames(billType: Option<BillType>): (step: Step)
    ensures step == PaymentAmount <==> billType == Some(Single)
    ensures step == IndividualPayments <==> billType != Some(Single)
  {
    if billType == Some(Single) then PaymentAmount else IndividualPayments
  }

  /** `billName`: any text becomes the title. */
  function OnBillName(s: Session, text: string): (next: Session)
    ensures next.step == TotalPeople && next.billData.title == text
    ensures next.billData.(title := s.billData.title) == s.billData && next.billType == s.billType
  {
    s.(step := TotalPeople, billData := s.billData.(title := text))
  }

  /**
   * `totalPeople`: a count from 1 to 10 makes the bill one for that many people,
   * numbered up from the sender's id; anything else changes nothing.
   */
  function OnTotalPeople(userId: int, s: Session, count: Option<int>): (o: Outcome)
    ensures o.Unchanged? <==> count.None? || count.value < 1 || count.value > MaxPeople
    ensures !o.Completed?
    ensures o.Updated? ==>
      && o.next.step == AddNames && o.next.billType == s.billType
      && |o.next.billData.participants| == count.value
      && o.next.billData.participants[0] == userId
      && o.next.billData.(participants := s.billData.participants) == s.billData
  {
    if count.None? || count.value < 1 then Unchanged
    else if count.value > MaxPeople then Unchanged
    else Updated(s.(step := AddNames, billData := s.billData.(participants := Slots(userId, count.value))))
  }

  /** The answer to the names question: collect names, or go on without them. */
  function ChooseNames(s: Session, yes: bool): (next: Session)
    ensures next.step == if yes then CollectNames else StepAfterNames(s.billType)
    ensures next.billData == s.billData && next.billType == s.billType
  {
    s.(step := if yes then CollectNames else StepAfterNames(s.billType))
  }

  /**
   * `collectNames`: the reply is accepted exactly when it holds one name per
   * participant; the names are then stored and the bill goes on.
   */
  function OnCollectNames(s: Session, text: string): (o: Outcome)
    ensures o.Unchanged? <==> |Names.Parse(text)| != |s.billData.participants|
    ensures !o.Completed?
    ensures o.Updated? ==>
      && o.next.step == StepAfterNames(s.billType) && o.next.billType == s.billType
      && o.next.billData.participantNames == Some(Names.Parse(text))
      && |o.next.billData.participantNames.value| == |s.billData.participants|
      && o.next.billData.(participantNames := s.billData.participantNames) == s.billData
  {
    var names := Names.Parse(text);
    if |names| != |s.billData.participants| then Unchanged
    else Updated(s.(step := StepAfterNames(s.billType), billData := s.billData.(participantNames := Some(names))))
  }

  /** `paymentAmount`: a positive amount becomes the bill total; anything else changes nothing. */
  function OnPaymentAmount(s: Session, amount: Option<real>): (o: Outcome)
    ensures o.Unchanged? <==> amount.None? || amount.value <= 0.0
    ensures !o.Completed?
    ensures o.Updated? ==>
      && o.next.step == SinglePayer && o.next.billType == s.billType
      && o.next.billData.totalAmount == amount.value > 0.0
      && o.next.billData.(totalAmount := s.billData.totalAmount) == s.billData
  {
    if amount.None? || amount.value <= 0.0 then Unchanged
    else Updated(s.(step := SinglePayer, billData := s.billData.(totalAmount := amount.value)))
  }

  /** The payments of a single-payer bill: participant `payer - 1` paid `total`, everyone else 0. */
  function SinglePayerPayments(participants: seq<int>, payer: int, total: real): (ps: seq<Payment>)
    ensures |ps| == |participants|
  {
    seq(|participants|, i requires 0 <= i < |participants| =>
      Payment(participants[i], if i == payer - 1 then total else 0.0))
  }

  /** The single payer's payment is the whole total. */
  lemma {:induction false} SinglePayerTotal(participants: seq<int>, payer: int, total: real)
    requires 1 <= payer <= |participants|
    ensures Total(SinglePayerPayments(participants, payer, total)) == total
  {
    var ps := SinglePayerPayments(participants, payer, total);
    PrefixTotal(ps, payer, total, |ps|);
    assert ps[..|ps|] == ps;
  }

  /** The payments up to `k` add up to `total` once they include the payer's, and to 0 before. */
  lemma {:induction false} PrefixTotal(ps: seq<Payment>, payer: int, total: real, k: nat)
    requires k <= |ps| && 1 <= payer
    requires forall i :: 0 <= i < |ps| ==> ps[i].amount == if i == payer - 1 then total else 0.0
    ensures Total(ps[..k]) == if payer <= k then total else 0.0
  {
    if k > 0 {
      PrefixTotal(ps, payer, total, k - 1);
      assert ps[..k][..k - 1] == ps[..k - 1];
    }
  }

  /**
   * `singlePayer`: a person number from 1 to the number of participants completes
   * the bill, with one payment per participant in order appended; anything else
   * changes nothing.
   */
  function OnSinglePayer(s: Session, payer: Option<int>): (o: Outcome)
    ensures o.Unchanged? <==> payer.None? || payer.value < 1 || payer.value > |s.billData.participants|
    ensures !o.Updated?
    ensures o.Completed? ==>
      && o.bill.payments
         == s.billData.payments + SinglePayerPayments(s.billData.participants, payer.value, s.billData.totalAmount)
      && o.bill.(payments := s.billData.payments) == s.billData
  {
    if payer.None? || payer.value < 1 || payer.value > |s.billData.participants| then Unchanged
    else
      var b := s.billData;
      Completed(b.(payments := b.payments + SinglePayerPayments(b.participants, payer.value, b.totalAmount)))
  }

  /** The payments after one more amount: it goes to the next participant without a payment, if any. */
  function AddPayment(b: BillData, amount: real): (payments: seq<Payment>)
    ensures |b.payments| < |b.participants| ==>
      payments == b.payments + [Payment(b.participants[|b.payments|], amount)]
    ensures |b.payments| >= |b.participants| ==> payments == b.payments
  {
    if |b.payments| < |b.participants| then b.payments + [Payment(b.participants[|b.payments|], amount)]
    else b.payments
  }

  /** A finished multi-payer bill: the total becomes the sum of the payments recorded. */
  function Finished(b: BillData): (bill: BillData)
    ensures bill.totalAmount == Total(b.payments) && bill.(totalAmount := b.totalAmount) == b
  {
    b.(totalAmount := Total(b.payments))
  }

  /**
   * `individualPayments`: a non-negative amount is recorded for the next
   * participant; the bill completes once everyone has a payment, and waits for
   * the next amount before that.
   */
  function OnIndividualPayment(s: Session, amount: Option<real>): (o: Outcome)
    ensures o.Unchanged? <==> amount.None? || amount.value < 0.0
    ensures o.Updated? ==>
      && o.next == s.(billData := s.billData.(payments := AddPayment(s.billData, amount.value)))
      && |o.next.billData.payments| < |s.billData.participants|
    ensures o.Completed? ==>
      && o.bill == Finished(s.billData.(payments := AddPayment(s.billData, amount.value)))
      && |o.bill.payments| >= |s.billData.participants|
  {
    if amount.None? || amount.value < 0.0 then Unchanged
    else
      var b := s.billData.(payments := AddPayment(s.billData, amount.value));
      if |b.payments| < |b.participants| then Updated(s.(billData := b))
      else Completed(Finished(b))
  }

  /** `handleBillCreation`: an empty text changes nothing; otherwise the current step decides. */
  function OnText(userId: int, s: Session, input: Input): (o: Outcome)
    ensures input.text == [] ==> o.Unchanged?
    ensures s.step == AddNames && input.text != [] ==> (o.Unchanged? <==> input.text != YesText && input.text != NoText)
  {
    if input.text == [] then Unchanged
    else
      match s.step
      case BillName => Updated(OnBillName(s, input.text))
      case TotalPeople => OnTotalPeople(userId, s, input.asInt)
      case AddNames =>
        if input.text == YesText then Updated(ChooseNames(s, true))
        else if input.text == NoText then Updated(ChooseNames(s, false))
        else Unchanged
      case CollectNames => OnCollectNames(s, input.text)
      case PaymentAmount => OnPaymentAmount(s, input.asReal)
      case SinglePayer => OnSinglePayer(s, input.asInt)
      case IndividualPayments => OnIndividualPayment(s, input.asReal)
  }

  /** The `add_names_yes` and `add_names_no` actions: they act at step `addNames` only. */
  function OnNamesButton(s: Session, yes: bool): (o: Outcome)
    ensures o.Unchanged? <==> s.step != AddNames
    ensures o.Updated? ==> o.next == ChooseNames(s, yes)
    ensures !o.Completed?
  {
    if s.step == AddNames then Updated(ChooseNames(s, yes)) else Unchanged
  }

  /** The `finish_bill` action: at step `individualPayments` it completes the bill with the payments so far. */
  function OnFinish(s: Session): (o: Outcome)
    ensures o.Unchanged? <==> s.step != IndividualPayments
    ensures o.Completed? ==> o.bill == Finished(s.billData)
    ensures !o.Updated?
  {
    if s.step == IndividualPayments then Completed(Finished(s.billData)) else Unchanged
  }

  /** The effect of one event on the session of user `userId`. */
  function Next(userId: int, s: Session, ev: Event): Outcome
  {
    match ev
    case Text(input) => OnText(userId, s, input)
    case NamesYes => OnNamesButton(s, true)
    case NamesNo => OnNamesButton(s, false)
    case Finish => OnFinish(s)
  }

  /** Slot ids numbered up from one sender are pairwise different. */
  lemma SlotsDistinct(userId: int, n: nat)
    ensures |Slots(userId, n)| == n && Distinct(Slots(userId, n))
  {
  }

  /** An outcome the store can keep: an updated session is well-formed, and a completed bill is ready for settlement. */
  predicate Sound(userId: int, o: Outcome)
  {
    && (o.Updated? ==> WellFormed(userId, o.next))
    && (o.Completed? ==> Finalized(o.bill))
  }

  lemma TotalPeopleSound(userId: int, s: Session, count: Option<int>)
    requires WellFormed(userId, s) && s.step == TotalPeople
    ensures Sound(userId, OnTotalPeople(userId, s, count))
  {
    if count.Some? && 1 <= count.value <= MaxPeople {
      SlotsDistinct(userId, count.value);
    }
  }

  lemma CollectNamesSound(userId: int, s: Session, text: string)
    requires WellFormed(userId, s) && s.step == CollectNames
    ensures Sound(userId, OnCollectNames(s, text))
  {
  }

  lemma PaymentAmountSound(userId: int, s: Session, amount: Option<real>)
    requires WellFormed(userId, s) && s.step == PaymentAmount
    ensures Sound(userId, OnPaymentAmount(s, amount))
  {
  }

  lemma SinglePayerSound(userId: int, s: Session, payer: Option<int>)
    requires WellFormed(userId, s) && s.step == SinglePayer
    ensures Sound(userId, OnSinglePayer(s, payer))
  {
    var b := s.billData;
    if payer.Some? && 1 <= payer.value <= |b.participants| {
      var ps := SinglePayerPayments(b.participants, payer.value, b.totalAmount);
      var bill := OnSinglePayer(s, payer).bill;
      assert bill == b.(payments := ps) by {
        assert b.payments + ps == ps;
      }
      assert Distinct(bill.participants) by {
        SlotsDistinct(userId, |b.participants|);
      }
      assert PaidInOrder(ps, b.participants);
      assert bill.totalAmount == Total(ps) by {
        SinglePayerTotal(b.participants, payer.value, b.totalAmount);
      }
    }
  }

  lemma IndividualPaymentSound(userId: int, s: Session, amount: Option<real>)
    requires WellFormed(userId, s) && s.step == IndividualPayments
    ensures Sound(userId, OnIndividualPayment(s, amount))
  {
    SlotsDistinct(userId, |s.billData.participants|);
  }

  lemma FinishSound(userId: int, s: Session)
    requires WellFormed(userId, s)
    ensures Sound(userId, OnFinish(s))
  {
    SlotsDistinct(userId, |s.billData.participants|);
  }

  /** A text answer keeps a well-formed session sound. */
  lemma TextSound(userId: int, s: Session, input: Input)
    requires WellFormed(userId, s)
    ensures Sound(userId, OnText(userId, s, input))
  {
    if input.text != [] {
      match s.step {
        case TotalPeople => TotalPeopleSound(userId, s, input.asInt);
        case CollectNames => CollectNamesSound(userId, s, input.text);
        case PaymentAmount => PaymentAmountSound(userId, s, input.asReal);
        case SinglePayer => SinglePayerSound(userId, s, input.asInt);
        case IndividualPayments => IndividualPaymentSound(userId, s, input.asReal);
        case _ =>
      }
    }
  }

  /** Every event keeps a well-formed session well-formed, and a bill it completes is ready for settlement. */
  lemma NextPreservesWellFormed(userId: int, s: Session, ev: Event)
    requires WellFormed(userId, s)
    ensures Next(userId, s, ev).Updated? ==> WellFormed(userId, Next(userId, s, ev).next)
    ensures Next(userId, s, ev).Completed? ==> Finalized(Next(userId, s, ev).bill)
  {
    match ev {
      case Text(input) => TextSound(userId, s, input);
      case Finish => FinishSound(userId, s);
      case _ =>
    }
  }

  /** How far a session has come: its step, then the number of payments recorded. */
  function Progress(s: Session): nat
  {
    var rank := match s.step
      case BillName => 0
      case TotalPeople => 1
      case AddNames => 2
      case CollectNames => 3
      case PaymentAmount => 4
      case SinglePayer => 5
      case IndividualPayments => 6;
    rank * (MaxPeople + 1) + |s.billData.payments|
  }

  /** Every event that updates a session moves it forward, so a bill never goes back a step. */
  lemma NextMovesForward(userId: int, s: Session, ev: Event)
    requires WellFormed(userId, s)
    ensures Next(userId, s, ev).Updated? ==> Progress(Next(userId, s, ev).next) > Progress(s)
  {
  }

  /** Typing the data of a names button while the question is open has the same effect as pressing it. */
  lemma TypedChoiceMatchesButton(userId: int, s: Session, input: Input, yes: bool)
    requires input.text == if yes then YesText else NoText
    requires s.step == AddNames
    ensures OnText(userId, s, input) == OnNamesButton(s, yes)
  {
  }

  /** Every bill an event completes settles: what was paid is the total, and the differences cancel out. */
  lemma CompletedBillBalances(userId: int, s: Session, ev: Event)
    requires WellFormed(userId, s) && Next(userId, s, ev).Completed?
    ensures var split := Settlement.CalculateBillSplit(Next(userId, s, ev).bill);
      && split.totalPaid == split.totalAmount
      && Settlement.SumDifferences(split.results) == 0.0
  {
    NextPreservesWellFormed(userId, s, ev);
    Settlement.SettlementBalances(Next(userId, s, ev).bill);
  }

  /** In a single-payer bill the chosen person paid the whole total and everyone else nothing. */
  lemma SinglePayerPaysAll(userId: int, s: Session, payer: Option<int>)
    requires WellFormed(userId, s) && s.step == SinglePayer && OnSinglePayer(s, payer).Completed?
    ensures var rs := Settlement.CalculateBillSplit(OnSinglePayer(s, payer).bill).results;
      forall i :: 0 <= i < |rs| ==> rs[i].paid == if i == payer.value - 1 then s.billData.totalAmount else 0.0
  {
    SinglePayerSound(userId, s, payer);
    Settlement.SettlementPaid(OnSinglePayer(s, payer).bill);
  }

  /** Finishing early: the participants without a recorded payment are settled as having paid 0. */
  lemma FinishCountsMissingAsZero(userId: int, s: Session)
    requires WellFormed(userId, s) && s.step == IndividualPayments
    ensures var b := s.billData;
      var rs := Settlement.CalculateBillSplit(OnFinish(s).bill).results;
      forall i :: 0 <= i < |rs| ==> rs[i].paid == if i < |b.payments| then b.payments[i].amount else 0.0
  {
    FinishSound(userId, s);
    Settlement.SettlementPaid(OnFinish(s).bill);
  }
}
