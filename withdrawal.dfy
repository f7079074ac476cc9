/**
 * `POST /create` of apps/worker/src/routes/withdrawal.ts: the validation
 * chain, the guarded deduction of `balance` and `withdrawable_balance`, the
 * order inserted as `pending`, and its move to `completed`, or to `failed`
 * together with a refund, once the payment gateway has answered.
 *
 * The two tables are a map from user id to balances and the sequence of
 * orders. Amounts are exact reals. The LDC quote (the rounded gross, fee
 * and net amounts), the order id, the trade number and the gateway's answer
 * are parameters.
 */
module Withdrawal {
  import opened Wrappers
  import Text

  datatype Balances = Balances(balance: real, withdrawable: real)

  datatype Status = Pending | Completed | Failed

  datatype Order = Order(
    id: string, userId: string, tradeNo: string,
    amount: real, ldc: real, fee: real, feeRate: real,
    linuxdoId: string, linuxdoUsername: string,
    status: Status, error: Option<string>)

  /** The request body: `Number(body.amount)` (`None` when it is NaN) and `String(body.amount)`. */
  datatype Body = Body(amount: Option<real>, amountText: string)

  /** The signed-in user's LinuxDO link; an empty string is a missing value. */
  datatype UserRecord = UserRecord(linuxdoId: string, linuxdoUsername: string)

  datatype Settings = Settings(enabled: bool, pid: string, key: string, feeRate: real)

  /** `grossLdc`, `feeAmount` and `netLdc` as the source rounds them. */
  datatype Quote = Quote(gross: real, fee: real, net: real)

  datatype Request = Request(
    userId: string, user: UserRecord, body: Option<Body>, settings: Settings,
    quote: Quote, orderId: string, tradeNo: string)

  /** What the distribute call gives: an ok response, a non-ok one (with its text, unless reading it threw), or a thrown error (with its message if it is an `Error`). */
  datatype Outcome = Delivered | Refused(text: Option<string>) | Unreachable(message: Option<string>)

  datatype Reply =
    | Success(orderId: string, amount: real, ldc: real, fee: real)
    | Error(status: int, error: string, message: string)

  datatype State = State(users: map<string, Balances>, orders: seq<Order>)

  // ---------------------------------------------------------------------
  // The validation chain
  // ---------------------------------------------------------------------

  /** `parts.length > 1 && parts[1].length > 2` over `String(body.amount).split(".")`. */
  predicate TooManyDecimals(text: string) {
    var parts := Text.Split(text, '.');
    |parts| > 1 && |parts[1]| > 2
  }

  /** A textual amount without a point never has too many decimals. */
  lemma NoPointNoDecimals(text: string)
    requires '.' !in text
    ensures !TooManyDecimals(text)
  {
    Text.SplitWithoutSeparator(text, '.');
  }

  /** `int.frac` has too many decimals exactly when `frac` has more than two digits. */
  lemma DecimalsOfPointed(whole: string, frac: string)
    requires '.' !in whole && '.' !in frac
    ensures TooManyDecimals(whole + "." + frac) <==> |frac| > 2
  {
    Text.SplitAfterFirst(whole, frac, '.');
    Text.SplitWithoutSeparator(frac, '.');
  }

  function Amount(req: Request): real
    requires req.body.Some? && req.body.value.amount.Some?
  {
    req.body.value.amount.value
  }

  /** The first failed check before the deduction, in the source's order, or `None` when all pass. */
  function Rejection(s: State, req: Request): Option<Reply>
  {
    if req.body.None? then Some(Error(400, "missing_body", "missing_body"))
    else if !req.settings.enabled then Some(Error(403, "withdrawal_disabled", "withdrawal_disabled"))
    else if req.user.linuxdoId == "" || req.user.linuxdoUsername == "" then
      Some(Error(400, "linuxdo_required", "linuxdo_required"))
    else if req.body.value.amount.None? || req.body.value.amount.value <= 0.0 then
      Some(Error(400, "invalid_amount", "invalid_amount"))
    else if TooManyDecimals(req.body.value.amountText) then
      Some(Error(400, "invalid_amount", "amount_max_2_decimals"))
    else if req.userId !in s.users then Some(Error(404, "user_not_found", "user_not_found"))
    else if Amount(req) > s.users[req.userId].withdrawable then
      Some(Error(400, "insufficient_withdrawable", "insufficient_withdrawable"))
    else if Amount(req) > s.users[req.userId].balance then
      Some(Error(400, "insufficient_balance", "insufficient_balance"))
    else if req.settings.pid == "" || req.settings.key == "" then
      Some(Error(500, "ldc_payment_not_configured", "ldc_payment_not_configured"))
    else if req.quote.net <= 0.0 then Some(Error(400, "amount_too_small", "amount_too_small"))
    else None
  }

  /** A request passes the checks exactly when every condition the source tests holds. */
  lemma AcceptedIff(s: State, req: Request)
    ensures Rejection(s, req).None? <==>
      && req.body.Some? && req.settings.enabled
      && req.user.linuxdoId != "" && req.user.linuxdoUsername != ""
      && req.body.value.amount.Some? && req.body.value.amount.value > 0.0
      && !TooManyDecimals(req.body.value.amountText)
      && req.userId in s.users
      && req.body.value.amount.value <= s.users[req.userId].withdrawable
      && req.body.value.amount.value <= s.users[req.userId].balance
      && req.settings.pid != "" && req.settings.key != ""
      && req.quote.net > 0.0
    ensures Rejection(s, req).Some? ==> Rejection(s, req).value.Error?
  {
  }

  // ---------------------------------------------------------------------
  // The specification of the whole request
  // ---------------------------------------------------------------------

  function Debited(b: Balances, amount: real): Balances {
    Balances(b.balance - amount, b.withdrawable - amount)
  }

  function Credited(b: Balances, amount: real): Balances {
    Balances(b.balance + amount, b.withdrawable + amount)
  }

  function NewOrder(req: Request): Order
    requires req.body.Some? && req.body.value.amount.Some?
  {
    Order(req.orderId, req.userId, req.tradeNo, Amount(req), req.quote.net, req.quote.fee,
      req.settings.feeRate, req.user.linuxdoId, req.user.linuxdoUsername, Pending, None)
  }

  /** `UPDATE withdrawal_orders SET status = ... WHERE id = ?`: every order with that id changes. */
  function WithStatus(orders: seq<Order>, id: string, status: Status, error: Option<string>): (r: seq<Order>)
    ensures |r| == |orders|
    ensures forall k :: 0 <= k < |orders| ==>
      r[k] == if orders[k].id == id then orders[k].(status := status, error := error) else orders[k]
  {
    seq(|orders|, k requires 0 <= k < |orders| =>
      if orders[k].id == id then orders[k].(status := status, error := error) else orders[k])
  }

  /** `errText.slice(0, 512)`, or "distribute_failed" when the text could not be read. */
  function RefusalMessage(text: Option<string>): (m: string)
    ensures text.Some? ==> m == text.value[..if |text.value| < 512 then |text.value| else 512]
    ensures text.None? ==> m == "distribute_failed"
  {
    match text
    case None => "distribute_failed"
    case Some(t) => if |t| <= 512 then t else t[..512]
  }

  /** `err instanceof Error ? err.message : "network_error"`. */
  function NetworkMessage(message: Option<string>): string {
    match message
    case None => "network_error"
    case Some(m) => m
  }

  /** The state and reply after `POST /create`, one decision at a time. */
  function Create(s: State, req: Request, outcome: Outcome): (State, Reply)
  {
    match Rejection(s, req)
    case Some(e) => (s, e)
    case None =>
      var uid := req.userId;
      var amount := Amount(req);
      var b := s.users[uid];
      if !(b.balance >= amount && b.withdrawable >= amount) then
        (s, Error(400, "insufficient_balance", "insufficient_balance"))
      else
        var pending := s.orders + [NewOrder(req)];
        match outcome
        case Delivered =>
          (State(s.users[uid := Debited(b, amount)], WithStatus(pending, req.orderId, Completed, None)),
           Success(req.orderId, amount, req.quote.net, req.quote.fee))
        case Refused(text) =>
          var msg := RefusalMessage(text);
          (State(s.users[uid := Credited(Debited(b, amount), amount)], WithStatus(pending, req.orderId, Failed, Some(msg))),
           Error(502, "distribute_failed", msg))
        case Unreachable(message) =>
          (State(s.users[uid := Credited(Debited(b, amount), amount)],
                 WithStatus(pending, req.orderId, Failed, Some(NetworkMessage(message)))),
           Error(502, "gateway_unreachable", "gateway_unreachable"))
  }

  /** No order id in the table equals the new one (`crypto.randomUUID()`). */
  predicate FreshId(s: State, id: string) {
    forall k :: 0 <= k < |s.orders| ==> s.orders[k].id != id
  }

  /** A rejected request changes no balance and creates no order. */
  lemma RejectedChangesNothing(s: State, req: Request, outcome: Outcome)
    requires Rejection(s, req).Some?
    ensures Create(s, req, outcome).0 == s
    ensures Create(s, req, outcome).1 == Rejection(s, req).value
  {
  }

  /** Balances change only when the guard `balance >= amount AND withdrawable_balance >= amount` held. */
  lemma DebitOnlyUnderGuard(s: State, req: Request, outcome: Outcome)
    requires Create(s, req, outcome).0.users != s.users
    ensures req.body.Some? && req.body.value.amount.Some? && req.userId in s.users
    ensures s.users[req.userId].balance >= Amount(req) && s.users[req.userId].withdrawable >= Amount(req)
  {
  }

  /** In a sequential run the checks already imply the guard, so an accepted request always reaches the gateway. */
  lemma AcceptedPassesGuard(s: State, req: Request, outcome: Outcome)
    requires Rejection(s, req).None?
    ensures |Create(s, req, outcome).0.orders| == |s.orders| + 1
  {
  }

  /** On success both balances drop by exactly the amount and the new order is `completed`. */
  lemma CompletedDebitsAmount(s: State, req: Request)
    requires Rejection(s, req).None? && FreshId(s, req.orderId)
    ensures var (t, reply) := Create(s, req, Delivered);
      var b := s.users[req.userId];
      && reply == Success(req.orderId, Amount(req), req.quote.net, req.quote.fee)
      && t.users == s.users[req.userId := Balances(b.balance - Amount(req), b.withdrawable - Amount(req))]
      && t.orders == s.orders + [NewOrder(req).(status := Completed)]
  {
    var pending := s.orders + [NewOrder(req)];
    assert WithStatus(pending, req.orderId, Completed, None) == s.orders + [NewOrder(req).(status := Completed)];
  }

  /** On a refusal or a network error the refund cancels the deduction and the new order is `failed`. */
  lemma FailedRefundsAmount(s: State, req: Request, outcome: Outcome)
    requires Rejection(s, req).None? && FreshId(s, req.orderId) && !outcome.Delivered?
    ensures var (t, reply) := Create(s, req, outcome);
      var msg := if outcome.Refused? then RefusalMessage(outcome.text) else NetworkMessage(outcome.message);
      && reply.Error? && reply.status == 502
      && t.users == s.users
      && t.orders == s.orders + [NewOrder(req).(status := Failed, error := Some(msg))]
  {
    var uid := req.userId;
    var b := s.users[uid];
    assert Credited(Debited(b, Amount(req)), Amount(req)) == b;
    assert s.users[uid := b] == s.users;
    var msg := if outcome.Refused? then RefusalMessage(outcome.text) else NetworkMessage(outcome.message);
    var pending := s.orders + [NewOrder(req)];
    assert WithStatus(pending, req.orderId, Failed, Some(msg)) == s.orders + [NewOrder(req).(status := Failed, error := Some(msg))];
  }

  /** Non-negative balances stay non-negative, whatever the gateway does. */
  lemma BalancesStayNonNegative(s: State, req: Request, outcome: Outcome)
    requires forall u :: u in s.users ==> s.users[u].balance >= 0.0 && s.users[u].withdrawable >= 0.0
    ensures var t := Create(s, req, outcome).0;
      forall u :: u in t.users ==> t.users[u].balance >= 0.0 && t.users[u].withdrawable >= 0.0
  {
  }

  // ---------------------------------------------------------------------
  // A database statement that throws inside the `try`
  // ---------------------------------------------------------------------

  /**
   * One `UPDATE` of the `try` block that throws (its message, when the
   * thrown value is an `Error`): the `completed` mark after a 2xx, or the
   * refund or the `failed` mark after a refusal.
   */
  datatype StatementFault =
    | CompletedMarkThrows(message: Option<string>)
    | RefundThrows(message: Option<string>)
    | FailedMarkThrows(message: Option<string>)

  /**
   * `POST /create` when `fault` throws: the failed statement has no effect,
   * and the `catch` refunds both balances once more, marks the order `failed`
   * with the thrown message and answers `gateway_unreachable`. A fault that
   * names a statement the outcome's path does not run changes nothing, so
   * the result is `Create`'s.
   */
  function CreateWithFault(s: State, req: Request, outcome: Outcome, fault: StatementFault): (State, Reply)
  {
    match Rejection(s, req)
    case Some(_) => Create(s, req, outcome)
    case None =>
      var uid := req.userId;
      var amount := Amount(req);
      var b := s.users[uid];
      if !(b.balance >= amount && b.withdrawable >= amount) then Create(s, req, outcome)
      else
        var pending := s.orders + [NewOrder(req)];
        var caught := Error(502, "gateway_unreachable", "gateway_unreachable");
        match (outcome, fault)
        case (Delivered, CompletedMarkThrows(m)) =>
          (State(s.users[uid := Credited(Debited(b, amount), amount)],
                 WithStatus(pending, req.orderId, Failed, Some(NetworkMessage(m)))), caught)
        case (Refused(_), RefundThrows(m)) =>
          (State(s.users[uid := Credited(Debited(b, amount), amount)],
                 WithStatus(pending, req.orderId, Failed, Some(NetworkMessage(m)))), caught)
        case (Refused(_), FailedMarkThrows(m)) =>
          (State(s.users[uid := Credited(Credited(Debited(b, amount), amount), amount)],
                 WithStatus(pending, req.orderId, Failed, Some(NetworkMessage(m)))), caught)
        case _ => Create(s, req, outcome)
  }

  /**
   * When marking the order `completed` throws after the gateway has paid,
   * the `catch` still refunds the balances and marks the order `failed`:
   * the user keeps the balance and the payout.
   */
  lemma PaidButRefunded(s: State, req: Request, m: Option<string>)
    requires Rejection(s, req).None? && FreshId(s, req.orderId)
    ensures var (t, reply) := CreateWithFault(s, req, Delivered, CompletedMarkThrows(m));
      && t.users == s.users
      && t.orders == s.orders + [NewOrder(req).(status := Failed, error := Some(NetworkMessage(m)))]
      && reply == Error(502, "gateway_unreachable", "gateway_unreachable")
      && Create(s, req, Delivered).0.users != s.users
  {
    var uid := req.userId;
    var b := s.users[uid];
    assert Credited(Debited(b, Amount(req)), Amount(req)) == b;
    assert s.users[uid := b] == s.users;
    var pending := s.orders + [NewOrder(req)];
    assert WithStatus(pending, req.orderId, Failed, Some(NetworkMessage(m)))
      == s.orders + [NewOrder(req).(status := Failed, error := Some(NetworkMessage(m)))];
    assert Amount(req) > 0.0;
    assert Create(s, req, Delivered).0.users[uid] != b;
  }

  /** When the refund itself throws, the `catch` refunds once, so the balances end as a plain refusal leaves them. */
  lemma RefundThrowsRefundsOnce(s: State, req: Request, text: Option<string>, m: Option<string>)
    requires Rejection(s, req).None?
    ensures CreateWithFault(s, req, Refused(text), RefundThrows(m)).0.users == Create(s, req, Refused(text)).0.users
  {
  }

  /**
   * When marking the order `failed` throws after the refund, the `catch`
   * refunds a second time: both balances end `amount` above where they
   * started.
   */
  lemma RefundedTwice(s: State, req: Request, text: Option<string>, m: Option<string>)
    requires Rejection(s, req).None?
    ensures var t := CreateWithFault(s, req, Refused(text), FailedMarkThrows(m)).0;
      var b := s.users[req.userId];
      t.users == s.users[req.userId := Balances(b.balance + Amount(req), b.withdrawable + Amount(req))]
  {
  }

  // ---------------------------------------------------------------------
  // The route as a sequence of table updates
  // ---------------------------------------------------------------------

  class Store {
    var users: map<string, Balances>
    var orders: seq<Order>

    constructor(users0: map<string, Balances>, orders0: seq<Order>)
      ensures users == users0 && orders == orders0
    {
      users := users0;
      orders := orders0;
    }

    function Snapshot(): State
      reads this
    {
      State(users, orders)
    }

    /** The guarded `UPDATE users SET balance = balance - ?, ...`; `changed` is `meta.changes != 0`. */
    method Deduct(uid: string, amount: real) returns (changed: bool)
      modifies this
      ensures changed <==> uid in old(users) && old(users)[uid].balance >= amount && old(users)[uid].withdrawable >= amount
      ensures users == if changed then old(users)[uid := Debited(old(users)[uid], amount)] else old(users)
      ensures orders == old(orders)
    {
      changed := uid in users && users[uid].balance >= amount && users[uid].withdrawable >= amount;
      if changed {
        users := users[uid := Debited(users[uid], amount)];
      }
    }

    /** The unguarded refund `UPDATE users SET balance = balance + ?, ...`. */
    method Refund(uid: string, amount: real)
      modifies this
      ensures users == if uid in old(users) then old(users)[uid := Credited(old(users)[uid], amount)] else old(users)
      ensures orders == old(orders)
    {
      if uid in users {
        users := users[uid := Credited(users[uid], amount)];
      }
    }

    method SetStatus(id: string, status: Status, error: Option<string>)
      modifies this
      ensures orders == WithStatus(old(orders), id, status, error)
      ensures users == old(users)
    {
      orders := WithStatus(orders, id, status, error);
    }

    /** Everything up to the distribute call: the checks, the deduction and the `pending` order. */
    method Open(req: Request) returns (rejected: Option<Reply>)
      modifies this
      ensures rejected == Rejection(old(Snapshot()), req)
      ensures rejected.Some? ==> users == old(users) && orders == old(orders)
      ensures rejected.None? ==>
        && users == old(users)[req.userId := Debited(old(users)[req.userId], Amount(req))]
        && orders == old(orders) + [NewOrder(req)]
        && orders[|orders| - 1].status == Pending
    {
      rejected := Rejection(Snapshot(), req);
      if rejected.Some? {
        return;
      }
      var changed := Deduct(req.userId, Amount(req));
      if !changed {
        rejected := Some(Error(400, "insufficient_balance", "insufficient_balance"));
        return;
      }
      orders := orders + [NewOrder(req)];
    }

    /** The distribute call's answer settles the pending order. */
    method Settle(req: Request, outcome: Outcome) returns (reply: Reply)
      requires req.body.Some? && req.body.value.amount.Some?
      modifies this
      ensures outcome.Delivered? ==> users == old(users)
      ensures !outcome.Delivered? ==> users == if req.userId in old(users) then old(users)[req.userId := Credited(old(users)[req.userId], Amount(req))] else old(users)
      ensures orders == WithStatus(old(orders), req.orderId,
        if outcome.Delivered? then Completed else Failed,
        match outcome
        case Delivered => None
        case Refused(text) => Some(RefusalMessage(text))
        case Unreachable(message) => Some(NetworkMessage(message)))
      ensures reply == match outcome
        case Delivered => Success(req.orderId, Amount(req), req.quote.net, req.quote.fee)
        case Refused(text) => Error(502, "distribute_failed", RefusalMessage(text))
        case Unreachable(_) => Error(502, "gateway_unreachable", "gateway_unreachable")
    {
      match outcome
      case Delivered =>
        SetStatus(req.orderId, Completed, None);
        reply := Success(req.orderId, Amount(req), req.quote.net, req.quote.fee);
      case Refused(text) =>
        var msg := RefusalMessage(text);
        Refund(req.userId, Amount(req));
        SetStatus(req.orderId, Failed, Some(msg));
        reply := Error(502, "distribute_failed", msg);
      case Unreachable(message) =>
        Refund(req.userId, Amount(req));
        SetStatus(req.orderId, Failed, Some(NetworkMessage(message)));
        reply := Error(502, "gateway_unreachable", "gateway_unreachable");
    }

    /** `POST /create`: the tables end as the specification says. */
    method CreateOrder(req: Request, outcome: Outcome) returns (reply: Reply)
      modifies this
      ensures (Snapshot(), reply) == Create(old(Snapshot()), req, outcome)
    {
      ghost var s0 := Snapshot();
      var rejected := Open(req);
      if rejected.Some? {
        reply := rejected.value;
        assert Snapshot() == s0;
        assert (Snapshot(), reply) == Create(s0, req, outcome);
        return;
      }
      ghost var b := s0.users[req.userId];
      assert b.balance >= Amount(req) && b.withdrawable >= Amount(req);
      reply := Settle(req, outcome);
      ghost var expected := Create(s0, req, outcome);
      assert reply == expected.1;
      assert users == expected.0.users;
      assert orders == expected.0.orders;
    }
  }
}
