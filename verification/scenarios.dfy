/** Client code driving the classes the way tests/test_pay_order_usecase.py
    does; what each method ensures follows from the contracts alone. */
module Scenarios {
  import opened Wrappers
  import opened Domain
  import opened Repository
  import opened Gateway
  import opened PayOrder

  /** A paid order, loaded back from the store, refuses a new line with the
      "modify" message and keeps its lines. */
  method ModifyAfterPayment(suffix: string) returns (outcome: Outcome, lines: seq<OrderLine>)
    requires IsHexSuffix(suffix)
    ensures outcome == Fail(ValueError(ModifyAfterPaymentMessage))
    ensures lines == [OrderLine("prod-1", 1, Money(10.0, USD))]
  {
    var repo := new InMemoryOrderRepository();
    var gateway := new FakePaymentGateway();
    var useCase := new PayOrderUseCase(repo, gateway);
    var order := new Order("order-4", "customer-4");
    var added := order.AddLine("prod-1", 1, Money(10.0, USD));
    repo.Save(order);
    PayCheckPassIff(order.lines, Pending);
    assert AmountSum(order.lines) == 10.0;
    var result := useCase.Execute(PayOrderCommand("order-4"), suffix);
    var paidOrder := repo.GetById("order-4");
    outcome := paidOrder.AddLine("prod-2", 1, Money(5.0, USD));
    lines := paidOrder.lines;
  }

  /** Paying the same order twice: the first execution succeeds, the second
      fails with "already paid", and the gateway holds exactly one charge. */
  method DoublePayment(suffix1: string, suffix2: string) returns (first: PayOrderResult, second: PayOrderResult, count: nat)
    requires IsHexSuffix(suffix1) && IsHexSuffix(suffix2)
    ensures first == PayOrderResult(true, "order-3", Some(TransactionId(suffix1)), None)
    ensures second == PayOrderResult(false, "order-3", None, Some(AlreadyPaidMessage))
    ensures count == 1
  {
    var repo := new InMemoryOrderRepository();
    var gateway := new FakePaymentGateway();
    var useCase := new PayOrderUseCase(repo, gateway);
    var order := new Order("order-3", "customer-3");
    var added := order.AddLine("prod-1", 1, Money(10.0, USD));
    repo.Save(order);
    PayCheckPassIff(order.lines, Pending);
    assert AmountSum(order.lines) == 10.0;
    first := useCase.Execute(PayOrderCommand("order-3"), suffix1);
    second := useCase.Execute(PayOrderCommand("order-3"), suffix2);
    count := gateway.ChargesCount();
  }

  /** An empty order is refused with the "empty" message and nothing is
      charged. */
  method EmptyOrderPayment(suffix: string) returns (result: PayOrderResult, count: nat)
    requires IsHexSuffix(suffix)
    ensures result == PayOrderResult(false, "order-2", None, Some(EmptyOrderMessage))
    ensures count == 0
  {
    var repo := new InMemoryOrderRepository();
    var gateway := new FakePaymentGateway();
    var useCase := new PayOrderUseCase(repo, gateway);
    var order := new Order("order-2", "customer-2");
    repo.Save(order);
    result := useCase.Execute(PayOrderCommand("order-2"), suffix);
    count := gateway.ChargesCount();
  }
}
