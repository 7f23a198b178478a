/**
 * The bot's in-memory session store (`userStates`) and the handlers that change it:
 * /newbill, /single and /multi open a session, every text message and the
 * `add_names_yes`, `add_names_no` and `finish_bill` buttons advance it, and a
 * completed bill is handed out to be saved while its session is deleted.
 */
module Bot {
  import opened Wrappers
  import opened Bill
  import opened Conversation
  import Names

  /** Every stored session is well-formed for the user it is stored under. */
  ghost predicate AllWellFormed(states: map<int, Session>)
  {
    forall id <- states :: WellFormed(id, states[id])
  }

  /** The store after an outcome for `userId`: kept, replaced, or deleted once the bill is complete. */
  function Apply(states: map<int, Session>, userId: int, o: Outcome): (after: map<int, Session>)
    ensures o.Unchanged? ==> after == states
    ensures o.Updated? ==> after == states[userId := o.next]
    ensures o.Completed? ==> userId !in after && forall id <- states :: id != userId ==> id in after
    ensures forall id <- after :: id != userId ==> id in states && after[id] == states[id]
  {
    match o
    case Unchanged => states
    case Updated(next) => states[userId := next]
    case Completed(_) => states - {userId}
  }

  /** The bill handed out to be saved, if the outcome completed one. */
  function Saved(o: Outcome): (saved: Option<BillData>)
    ensures saved.Some? <==> o.Completed?
    ensures saved.Some? ==> saved.value == o.bill
  {
    if o.Completed? then Some(o.bill) else None
  }

  /** A sound outcome keeps every stored session well-formed. */
  lemma ApplyKeepsWellFormed(states: map<int, Session>, userId: int, o: Outcome)
    requires AllWellFormed(states) && Sound(userId, o)
    ensures AllWellFormed(Apply(states, userId, o))
  {
  }

  /** The outcome of event `ev` for the sender `from`: nothing happens without a user id or a session. */
  function Dispatch(states: map<int, Session>, from: Option<int>, ev: Event): (o: Outcome)
    ensures !Identified(from) || from.value !in states ==> o.Unchanged?
  {
    if Identified(from) && from.value in states then Next(from.value, states[from.value], ev) else Unchanged
  }

  /** Whatever event arrives, the store stays well-formed, and any bill handed out is ready for settlement. */
  lemma DispatchKeepsWellFormed(states: map<int, Session>, from: Option<int>, ev: Event)
    requires AllWellFormed(states)
    ensures from.Some? ==> AllWellFormed(Apply(states, from.value, Dispatch(states, from, ev)))
    ensures Saved(Dispatch(states, from, ev)).Some? ==> Finalized(Saved(Dispatch(states, from, ev)).value)
  {
    if Identified(from) && from.value in states {
      NextPreservesWellFormed(from.value, states[from.value], ev);
      ApplyKeepsWellFormed(states, from.value, Dispatch(states, from, ev));
    }
  }

  class SessionStore {
    /** The unfinished bill of each user, keyed by user id. */
    var userStates: map<int, Session>

    ghost predicate Valid()
      reads this
    {
      AllWellFormed(userStates)
    }

    constructor()
      ensures Valid() && userStates == map[]
    {
      userStates := map[];
    }

    /** /newbill: an identified sender gets a fresh session without a bill type, replacing any unfinished one. */
    method NewBill(from: Option<int>)
      requires Valid()
      modifies this
      ensures Valid()
      ensures userStates == if Identified(from) then old(userStates)[from.value := Opened(from.value, None)] else old(userStates)
    {
      if Identified(from) {
        var userId := from.value;
        userStates := userStates[userId := Session(BillName, BillData("", 0.0, [userId], None, []), None)];
      }
    }

    /** /single and /multi: like /newbill, but the session records the bill type. */
    method StartTyped(from: Option<int>, billType: BillType)
      requires Valid()
      modifies this
      ensures Valid()
      ensures userStates ==
        if Identified(from) then old(userStates)[from.value := Opened(from.value, Some(billType))] else old(userStates)
    {
      if Identified(from) {
        var userId := from.value;
        userStates := userStates[userId := Session(BillName, BillData("", 0.0, [userId], None, []), Some(billType))];
      }
    }

    /** Stores the outcome for `userId` and hands out the completed bill, if any. */
    method Commit(userId: int, o: Outcome) returns (saved: Option<BillData>)
      requires Valid() && Sound(userId, o)
      modifies this
      ensures Valid()
      ensures userStates == Apply(old(userStates), userId, o) && saved == Saved(o)
    {
      ApplyKeepsWellFormed(userStates, userId, o);
      match o {
        case Unchanged =>
          saved := None;
        case Updated(next) =>
          userStates := userStates[userId := next];
          saved := None;
        case Completed(bill) =>
          userStates := userStates - {userId};
          saved := Some(bill);
      }
    }

    /**
     * The single-payer step's loop: one payment per participant in order, the
     * whole total for participant `payer - 1` and 0 for everyone else.
     */
    static method PaySingle(b: BillData, payer: int) returns (payments: seq<Payment>)
      ensures payments == b.payments + SinglePayerPayments(b.participants, payer, b.totalAmount)
    {
      payments := b.payments;
      var all := SinglePayerPayments(b.participants, payer, b.totalAmount);
      for i := 0 to |b.participants|
        invariant payments == b.payments + all[..i]
      {
        payments := payments + [Payment(b.participants[i], if i == payer - 1 then b.totalAmount else 0.0)];
        assert all[..i + 1] == all[..i] + [all[i]];
      }
      assert all[..|b.participants|] == all;
    }

    /** The text handler: the sender's session answers the message according to its step. */
    method HandleText(from: Option<int>, input: Input) returns (saved: Option<BillData>)
      requires Valid()
      modifies this
      ensures Valid()
      ensures var o := Dispatch(old(userStates), from, Text(input));
        userStates == (if from.Some? then Apply(old(userStates), from.value, o) else old(userStates))
        && saved == Saved(o)
    {
      if !Identified(from) || from.value !in userStates || input.text == [] {
        return None;
      }
      var userId := from.value;
      var state := userStates[userId];
      var b := state.billData;
      var o: Outcome;
      match state.step {
        case BillName =>
          o := Updated(state.(step := TotalPeople, billData := b.(title := input.text)));
        case TotalPeople =>
          var count := input.asInt;
          if count.None? || count.value < 1 || count.value > MaxPeople {
            o := Unchanged;
          } else {
            o := Updated(state.(step := AddNames, billData := b.(participants := Slots(userId, count.value))));
          }
        case AddNames =>
          if input.text == YesText {
            o := Updated(state.(step := CollectNames));
          } else if input.text == NoText {
            o := Updated(state.(step := if state.billType == Some(Single) then PaymentAmount else IndividualPayments));
          } else {
            o := Unchanged;
          }
        case CollectNames =>
          var names := Names.Parse(input.text);
          if |names| != |b.participants| {
            o := Unchanged;
          } else {
            var step := if state.billType == Some(Single) then PaymentAmount else IndividualPayments;
            o := Updated(state.(step := step, billData := b.(participantNames := Some(names))));
          }
        case PaymentAmount =>
          var amount := input.asReal;
          if amount.None? || amount.value <= 0.0 {
            o := Unchanged;
          } else {
            o := Updated(state.(step := SinglePayer, billData := b.(totalAmount := amount.value)));
          }
        case SinglePayer =>
          var payer := input.asInt;
          if payer.None? || payer.value < 1 || payer.value > |b.participants| {
            o := Unchanged;
          } else {
            var payments := PaySingle(b, payer.value);
            o := Completed(b.(payments := payments));
          }
        case IndividualPayments =>
          var amount := input.asReal;
          if amount.None? || amount.value < 0.0 {
            o := Unchanged;
          } else {
            var payments := b.payments;
            if |payments| < |b.participants| {
              payments := payments + [Payment(b.participants[|payments|], amount.value)];
            }
            if |payments| < |b.participants| {
              o := Updated(state.(billData := b.(payments := payments)));
            } else {
              o := Completed(b.(payments := payments, totalAmount := Total(payments)));
            }
          }
      }
      assert o == OnText(userId, state, input);
      TextSound(userId, state, input);
      saved := Commit(userId, o);
    }

    /** The `add_names_yes` button: at step `addNames` the names are asked for next. */
    method AddNamesYes(from: Option<int>)
      requires Valid()
      modifies this
      ensures Valid()
      ensures from.Some? ==> userStates == Apply(old(userStates), from.value, Dispatch(old(userStates), from, NamesYes))
      ensures from.None? ==> userStates == old(userStates)
    {
      if Identified(from) && from.value in userStates {
        var userId := from.value;
        var state := userStates[userId];
        if state.step == AddNames {
          userStates := userStates[userId := state.(step := CollectNames)];
        }
      }
    }

    /** The `add_names_no` button: at step `addNames` the bill goes on without names. */
    method AddNamesNo(from: Option<int>)
      requires Valid()
      modifies this
      ensures Valid()
      ensures from.Some? ==> userStates == Apply(old(userStates), from.value, Dispatch(old(userStates), from, NamesNo))
      ensures from.None? ==> userStates == old(userStates)
    {
      if Identified(from) && from.value in userStates {
        var userId := from.value;
        var state := userStates[userId];
        if state.step == AddNames {
          if state.billType == Some(Single) {
            userStates := userStates[userId := state.(step := PaymentAmount)];
          } else {
            userStates := userStates[userId := state.(step := IndividualPayments)];
          }
        }
      }
    }

    /** The `finish_bill` button: at step `individualPayments` the bill completes with the payments so far. */
    method FinishBill(from: Option<int>) returns (saved: Option<BillData>)
      requires Valid()
      modifies this
      ensures Valid()
      ensures var o := Dispatch(old(userStates), from, Finish);
        userStates == (if from.Some? then Apply(old(userStates), from.value, o) else old(userStates))
        && saved == Saved(o)
    {
      saved := None;
      if Identified(from) && from.value in userStates {
        var userId := from.value;
        var state := userStates[userId];
        if state.step == IndividualPayments {
          var b := state.billData;
          FinishSound(userId, state);
          saved := Commit(userId, Completed(b.(totalAmount := Total(b.payments))));
        }
      }
    }
  }
}
