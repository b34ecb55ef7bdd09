/** The pay-order use case (application/pay_order_usecase.py): load the
    order, run the domain transition, charge the gateway, save the order, and
    turn every failure into a result record. */
module PayOrder {
  import opened Wrappers
  import opened Domain
  import opened Repository
  import opened Gateway

  const OrderNotFoundMessage: string := "Order not found"
  const PaymentFailedPrefix: string := "Payment failed: "

  datatype PayOrderCommand = PayOrderCommand(orderId: string)

  datatype PayOrderResult = PayOrderResult(
    success: bool,
    orderId: string,
    transactionId: Option<string>,
    errorMessage: Option<string>)

  /** The message a caught exception becomes: a `ValueError` verbatim, any
      other exception behind the "Payment failed: " prefix. */
  function ErrorMessage(e: Error): (message: string)
    ensures e.ValueError? ==> message == e.message
    ensures e.OtherError? ==>
      |message| >= |PaymentFailedPrefix| && message[..|PaymentFailedPrefix|] == PaymentFailedPrefix &&
      message[|PaymentFailedPrefix|..] == e.message
  {
    match e
    case ValueError(m) => m
    case OtherError(m) => PaymentFailedPrefix + m
  }

  /** The result for a caught exception. */
  function Failure(orderId: string, e: Error): (r: PayOrderResult)
    ensures WellFormed(r) && !r.success && r.orderId == orderId
    ensures r.errorMessage == Some(ErrorMessage(e))
  {
    PayOrderResult(false, orderId, None, Some(ErrorMessage(e)))
  }

  /** Exactly one of the transaction id and the error message is set, and
      the transaction id is set exactly on success. */
  predicate WellFormed(result: PayOrderResult) {
    (result.success <==> result.transactionId.Some?) &&
    (result.transactionId.Some? <==> result.errorMessage.None?)
  }

  /** What one execution returns, and what the store and the charge log hold
      afterwards. */
  datatype Run = Run(result: PayOrderResult, orders: map<string, OrderValue>, charges: seq<ChargeRecord>)

  /** One execution over the stored orders and the charge log of a gateway
      whose failure switch is `shouldFail`: not found, domain failure, gateway
      failure, or success with one new charge and the paid order saved. */
  function Execution(orders: map<string, OrderValue>, charges: seq<ChargeRecord>, shouldFail: bool,
                     command: PayOrderCommand, suffix: string): (run: Run)
    requires IsHexSuffix(suffix)
    ensures WellFormed(run.result)
    ensures run.result.success <==> |run.charges| == |charges| + 1
    ensures |run.charges| >= |charges| && run.charges[..|charges|] == charges
    ensures !run.result.success ==> run.orders == orders && run.charges == charges
  {
    if command.orderId !in orders then
      Run(PayOrderResult(false, command.orderId, None, Some(OrderNotFoundMessage)), orders, charges)
    else
      var order := orders[command.orderId];
      match PayCheck(order.lines, order.status)
      case Fail(e) => Run(Failure(command.orderId, e), orders, charges)
      case Pass =>
        if shouldFail then
          Run(Failure(command.orderId, ValueError(GatewayFailureMessage)), orders, charges)
        else
          var paid := order.(status := Paid);
          var txn := TransactionId(suffix);
          Run(PayOrderResult(true, paid.id, Some(txn), None),
              orders[paid.id := paid],
              charges + [ChargeRecord(paid.id, TotalOf(order.lines).value, txn)])
  }

  /** Every result is well formed, and a failure echoes the command's id. */
  lemma ExecutionWellFormed(orders: map<string, OrderValue>, charges: seq<ChargeRecord>, shouldFail: bool,
                            command: PayOrderCommand, suffix: string)
    requires IsHexSuffix(suffix)
    ensures WellFormed(Execution(orders, charges, shouldFail, command, suffix).result)
    ensures !Execution(orders, charges, shouldFail, command, suffix).result.success ==>
      Execution(orders, charges, shouldFail, command, suffix).result.orderId == command.orderId
  {
  }

  /** The side effects are ordered: a charge is recorded exactly when the
      domain transition and the gateway both succeed, it is the one charge of
      the execution, it is for the order's id and total, and the store changes
      only after it. A failed execution leaves store and log as they were. */
  lemma ExecutionEffects(orders: map<string, OrderValue>, charges: seq<ChargeRecord>, shouldFail: bool,
                         command: PayOrderCommand, suffix: string)
    requires IsHexSuffix(suffix)
    ensures var run := Execution(orders, charges, shouldFail, command, suffix);
      if run.result.success then
        command.orderId in orders &&
        PayCheck(orders[command.orderId].lines, orders[command.orderId].status) == Pass &&
        !shouldFail &&
        TotalOf(orders[command.orderId].lines).Ok? &&
        run.charges == charges + [ChargeRecord(orders[command.orderId].id,
                                               TotalOf(orders[command.orderId].lines).value,
                                               run.result.transactionId.value)] &&
        run.orders == orders[orders[command.orderId].id := orders[command.orderId].(status := Paid)]
      else
        run.charges == charges && run.orders == orders
  {
  }

  /** A domain failure is reported with the domain's message, verbatim. */
  lemma DomainFailureReported(orders: map<string, OrderValue>, charges: seq<ChargeRecord>, shouldFail: bool,
                              command: PayOrderCommand, suffix: string)
    requires IsHexSuffix(suffix)
    requires command.orderId in orders
    requires PayCheck(orders[command.orderId].lines, orders[command.orderId].status).Fail?
    ensures Execution(orders, charges, shouldFail, command, suffix).result ==
      PayOrderResult(false, command.orderId, None,
                     Some(PayCheck(orders[command.orderId].lines, orders[command.orderId].status).error.message))
  {
  }

  /** An id never saved is reported as not found, with nothing charged and
      nothing saved. */
  lemma UnknownOrderNotFound(orders: map<string, OrderValue>, charges: seq<ChargeRecord>, shouldFail: bool,
                             command: PayOrderCommand, suffix: string)
    requires IsHexSuffix(suffix)
    requires command.orderId !in orders
    ensures Execution(orders, charges, shouldFail, command, suffix) ==
      Run(PayOrderResult(false, command.orderId, None, Some(OrderNotFoundMessage)), orders, charges)
  {
  }

  /** When the gateway fails, the stored order keeps its previous, unpaid
      state, nothing is recorded, and the result carries either the domain's
      message or the gateway's, verbatim. */
  lemma GatewayFailureLeavesOrderUnpaid(orders: map<string, OrderValue>, charges: seq<ChargeRecord>,
                                        command: PayOrderCommand, suffix: string)
    requires IsHexSuffix(suffix)
    requires command.orderId in orders && orders[command.orderId].status != Paid
    ensures var run := Execution(orders, charges, true, command, suffix);
      !run.result.success && run.orders == orders && run.charges == charges &&
      run.orders[command.orderId].status != Paid &&
      (PayCheck(orders[command.orderId].lines, orders[command.orderId].status).Pass? ==>
         run.result.errorMessage == Some(GatewayFailureMessage))
  {
  }

  /** Executing twice on the same id: the second execution fails with
      "already paid" and the log holds exactly the first execution's charge. */
  lemma SecondExecutionFails(orders: map<string, OrderValue>, charges: seq<ChargeRecord>,
                             shouldFail: bool, command: PayOrderCommand,
                             suffix1: string, suffix2: string)
    requires IsHexSuffix(suffix1) && IsHexSuffix(suffix2)
    requires forall key :: key in orders ==> orders[key].id == key
    requires Execution(orders, charges, shouldFail, command, suffix1).result.success
    ensures var first := Execution(orders, charges, shouldFail, command, suffix1);
      var second := Execution(first.orders, first.charges, shouldFail, command, suffix2);
      second.result == Failure(command.orderId, ValueError(AlreadyPaidMessage)) &&
      |second.charges| == |charges| + 1 && second.orders == first.orders
  {
  }

  /** The test scenario of two lines, 2 x 10.5 and 1 x 5.0: the order is
      paid for 26, recorded once, and stored as paid. */
  lemma TwoLineOrderPaid(suffix: string)
    requires IsHexSuffix(suffix)
    ensures var order := OrderValue("order-1", "customer-1",
                                    [OrderLine("prod-1", 2, Money(10.5, USD)),
                                     OrderLine("prod-2", 1, Money(5.0, USD))], Pending);
      var run := Execution(map["order-1" := order], [], false, PayOrderCommand("order-1"), suffix);
      run.result == PayOrderResult(true, "order-1", Some(TransactionId(suffix)), None) &&
      run.charges == [ChargeRecord("order-1", Money(26.0, USD), TransactionId(suffix))] &&
      run.orders["order-1"].status == Paid
  {
    var lines := [OrderLine("prod-1", 2, Money(10.5, USD)), OrderLine("prod-2", 1, Money(5.0, USD))];
    TotalOfCharacterised(lines);
    assert AmountSum(lines[1..]) == 5.0 by {
      assert lines[1..][1..] == [];
    }
    assert AmountSum(lines) == 21.0 + 5.0;
  }

  /** The use case, wired to the two adapters it is run with. */
  class PayOrderUseCase {
    const orderRepo: InMemoryOrderRepository
    const paymentGateway: FakePaymentGateway

    constructor (orderRepo: InMemoryOrderRepository, paymentGateway: FakePaymentGateway)
      ensures this.orderRepo == orderRepo && this.paymentGateway == paymentGateway
    {
      this.orderRepo := orderRepo;
      this.paymentGateway := paymentGateway;
    }

    /** `execute`: load, pay, charge, save. The suffix stands for the random
        part of the transaction id the gateway would draw. */
    method Execute(command: PayOrderCommand, suffix: string) returns (result: PayOrderResult)
      requires IsHexSuffix(suffix)
      modifies orderRepo, paymentGateway
      ensures Run(result, orderRepo.orders, paymentGateway.charges) ==
        Execution(old(orderRepo.orders), old(paymentGateway.charges), paymentGateway.shouldFail, command, suffix)
      ensures old(orderRepo.Valid()) ==> orderRepo.Valid() && result.orderId == command.orderId
    {
      var order := orderRepo.GetById(command.orderId);
      if order == null {
        return PayOrderResult(false, command.orderId, None, Some(OrderNotFoundMessage));
      }
      var paid := order.Pay();
      if paid.Fail? {
        return Failure(command.orderId, paid.error);
      }
      // The checks of `pay` computed this total without error, so the
      // recomputation here cannot raise.
      var total := order.TotalAmount();
      var charged := paymentGateway.Charge(order.id, total.value, suffix);
      if charged.Err? {
        return Failure(command.orderId, charged.error);
      }
      orderRepo.Save(order);
      result := PayOrderResult(true, order.id, Some(charged.value), None);
    }
  }
}
