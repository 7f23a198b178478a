/**
 * The bill record a conversation assembles and the per-user session that holds it
 * while the conversation runs (the `BillData` interface and the `userStates` entries
 * of src/commands/newbill.ts).
 */
module Bill {
  import opened Wrappers

  /** The largest number of people a bill may have. */
  const MaxPeople: int := 10

  /** The conversation steps, in the order a bill goes through them. */
  datatype Step =
    | BillName
    | TotalPeople
    | AddNames
    | CollectNames
    | PaymentAmount
    | SinglePayer
    | IndividualPayments

  datatype BillType = Single | Multi

  /** One recorded payment: a participant id and the amount that participant paid. */
  datatype Payment = Payment(userId: int, amount: real)

  datatype BillData = BillData(
    title: string,
    totalAmount: real,
    participants: seq<int>,
    participantNames: Option<seq<string>>,
    payments: seq<Payment>)

  /**
   * One user's unfinished bill: the current step, the bill so far, and the bill type,
   * which is absent for sessions opened by /newbill.
   */
  datatype Session = Session(step: Step, billData: BillData, billType: Option<BillType>)

  /** The sum of the payment amounts, accumulated left to right as `reduce` does. */
  function Total(payments: seq<Payment>): real
  {
    if payments == [] then 0.0
    else Total(payments[..|payments| - 1]) + payments[|payments| - 1].amount
  }

  /** The participant ids of an `n`-person bill opened by `userId`: slot `i` is `userId + i`. */
  function Slots(userId: int, n: nat): seq<int>
  {
    seq(n, i => userId + i)
  }

  predicate Distinct(ids: seq<int>)
  {
    forall i, j :: 0 <= i < j < |ids| ==> ids[i] != ids[j]
  }

  /** An event identifies its sender when it carries a user id that is not 0 (`!userId` fails). */
  predicate Identified(from: Option<int>)
  {
    from.Some? && from.value != 0
  }

  /**
   * The payments are those of the first `|payments|` participants, one each, in
   * participant order, and none is negative.
   */
  predicate PaidInOrder(payments: seq<Payment>, participants: seq<int>)
  {
    && |payments| <= |participants|
    && forall i :: 0 <= i < |payments| ==> payments[i].userId == participants[i] && payments[i].amount >= 0.0
  }

  /** What every session in the store satisfies between two events. */
  predicate WellFormed(userId: int, s: Session)
  {
    var b := s.billData;
    && 1 <= |b.participants| <= MaxPeople
    && b.participants == Slots(userId, |b.participants|)
    && (s.step == BillName || s.step == TotalPeople ==> |b.participants| == 1)
    && (s.step in {BillName, TotalPeople, AddNames, CollectNames} ==> b.participantNames.None?)
    && (b.participantNames.Some? ==> |b.participantNames.value| == |b.participants|)
    && (s.step == PaymentAmount || s.step == SinglePayer ==> s.billType == Some(Single))
    && (s.step == SinglePayer ==> b.totalAmount > 0.0)
    && (s.step != IndividualPayments ==> b.payments == [])
    && (s.step == IndividualPayments ==> |b.payments| < |b.participants| && PaidInOrder(b.payments, b.participants))
  }

  /**
   * A finished bill as it is handed to settlement and storage: 1 to 10 distinct
   * participants, payments recorded in participant order, and a total equal to the
   * sum of the payments.
   */
  predicate Finalized(b: BillData)
  {
    && 1 <= |b.participants| <= MaxPeople
    && Distinct(b.participants)
    && PaidInOrder(b.payments, b.participants)
    && b.totalAmount == Total(b.payments)
    && (b.participantNames.Some? ==> |b.participantNames.value| == |b.participants|)
  }

  /**
   * The session a start command stores: step `billName`, an empty title, the sender
   * as the only participant, no payments and a zero total.
   */
  function Opened(userId: int, billType: Option<BillType>): (s: Session)
    ensures WellFormed(userId, s)
    ensures s.step == BillName && s.billType == billType && s.billData.title == ""
    ensures s.billData.participants == [userId] && s.billData.participantNames.None?
    ensures s.billData.payments == [] && s.billData.totalAmount == 0.0
  {
    Session(BillName, BillData("", 0.0, [userId], None, []), billType)
  }
}
