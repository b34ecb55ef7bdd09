# Order payment: a Dafny model

This project models the core of a small ports-and-adapters order-payment
system. An `Order` aggregate holds priced lines and a status. It can be paid
exactly once, after three checks made in a fixed order. A `PayOrderUseCase`
loads the order from a repository, runs the domain transition, charges a
payment gateway and saves the paid order. It turns every failure into a
`PayOrderResult` record. Two adapters complete the system: an in-memory order
store that copies on save and on load, and a fake gateway that keeps an
append-only log of charges and can be switched to fail.

Files, one module per source file:

- `wrappers.dfy` (`Wrappers`): `Option`, `Result`, `Outcome`, and the `Error`
  type. `Error` keeps the code's one distinction between exceptions: a
  `ValueError` versus any other exception.
- `order.dfy` (`Domain`): `Money`, `OrderLine`, `OrderStatus`, the `Order`
  class and the pure functions that specify it.
  - `TotalOf` is the fold `total_amount` computes.
  - `PayCheck` holds the three checks `pay` makes.
- `in_memory_order_repository.dfy` (`Repository`): the store.
  - Its `orders` field is a map from ids to order values (`OrderValue`).
  - Saving stores a value, and loading builds a fresh `Order`. So the copies
    the code makes with `copy.deepcopy` follow from value semantics.
- `fake_payment_gateway.dfy` (`Gateway`): the charge log and the failure switch.
- `pay_order_usecase.dfy` (`PayOrder`): the command and result records, the use
  case class, and `Execution`.
  - `Execution` is a pure function giving the result, the new store and the new
    charge log of one `execute` call.
  - The method `Execute` is proved equal to it. The lemmas about side-effect
    ordering are stated about `Execution`.
- `scenarios.dfy` (`Scenarios`): client methods that drive the classes the way
  the test file does. Their postconditions follow from the class contracts.

The model represents amounts as exact `real`s and does no rounding. The code
itself uses Python's `Decimal`, which rounds at 28 significant digits.
Quantities are unbounded `int`s, as in Python.

Three behaviours of the code worth noting:

- `pay` rejects only an order that is already PAID, so a CANCELLED order with
  a positive total can be paid (domain/order.py:83).
- The fake gateway raises a `ValueError`, so a gateway failure is reported
  verbatim as "Payment gateway failure". It does not get the
  "Payment failed: " prefix (infrastructure/fake_payment_gateway.py:15,
  application/pay_order_usecase.py:53-58).
- Computing the total inside `pay` can raise the currency-mismatch error. That
  error escapes `pay` and is reported verbatim (domain/order.py:87).

## Model

| member | source | states |
|---|---|---|
| `Domain.Add` | domain/order.py:20-23 | addition fails with the currency-mismatch `ValueError` exactly when the currencies differ; otherwise the result keeps the first operand's currency and its amount is the sum |
| `Domain.Zero` | domain/order.py:69-71 | the starting total `Money(Decimal('0'))` is zero in the default currency, USD |
| `Domain.ZeroIsUsdIdentity` | domain/order.py:69-74 | USD zero plus a USD amount, on either side, is that amount; USD zero plus any other currency fails with the mismatch error |
| `Domain.Scale` | domain/order.py:25-26 | scaling by an integer quantity keeps the currency and multiplies the amount by the quantity |
| `Domain.AddCommutative` | domain/order.py:20-23 | addition is commutative, including which pairs it rejects |
| `Domain.AddAssociative` | domain/order.py:20-23 | within one currency, addition always succeeds and is associative |
| `Domain.ScaleDistributes` | domain/order.py:25-26 | scaling keeps the currency and distributes over a sum of quantities |
| `Domain.OrderLine.Total` | domain/order.py:36-38 | a line total is in the unit price's currency and its amount is unit price times quantity |
| `Domain.Accumulate` | domain/order.py:71-74 | the running `total += line.total` fails only with the currency-mismatch error and keeps the accumulator's currency |
| `Domain.TotalOf` | domain/order.py:65-74 | the order total fails only with the currency-mismatch error; when it succeeds it is in USD |
| `Domain.AccumulateCharacterised` | domain/order.py:71-74 | from a USD accumulator, the fold succeeds exactly when every line is in USD; it then gives the accumulator plus the sum of line totals, otherwise the mismatch error |
| `Domain.TotalOfCharacterised` | domain/order.py:65-74 | the total is USD zero for no lines; otherwise it is the USD sum of line totals when all lines are in USD, and the mismatch error when any is not |
| `Domain.TotalPermutationInvariant` | domain/order.py:65-74 | two line sequences that are permutations of each other have the same total (or the same error) |
| `Domain.ThreeLineTotal` | tests/test_pay_order_usecase.py:110-123 | lines 3 x 7.5, 2 x 12.0 and 1 x 5.5 total exactly 52 USD |
| `Domain.PayCheck` | domain/order.py:76-88 | every failure of `pay`'s checks is a `ValueError`; passing implies the total exists and is positive |
| `Domain.PayCheckPassIff` | domain/order.py:79-88 | `pay`'s checks pass exactly when there are lines, the status is not PAID, every line is in USD and the summed amount is positive |
| `Domain.PayTwiceFails` | domain/order.py:83-91 | after checks that passed and the status set to PAID, paying again fails with "Order is already paid" |
| `Domain.Order.constructor` | domain/order.py:44-48 | a new order has the given ids, no lines and status PENDING |
| `Domain.Order.Copy` | infrastructure/in_memory_order_repository.py:17 | the copy made on load has exactly the stored order's state |
| `Domain.Order.AddLine` | domain/order.py:52-62 | for a PAID order: fails with "Cannot modify order after payment" (other statuses, CANCELLED included, are not rejected). For a product already present: fails with "Product ... already in order". Otherwise appends exactly one line at the end. Lines are unchanged on failure, id, customer and status always, and distinct product ids stay distinct |
| `Domain.Order.TotalAmount` | domain/order.py:65-74 | the loop returns `TotalOf(lines)` and modifies nothing |
| `Domain.Order.Pay` | domain/order.py:76-91 | the outcome is the first failing check, in the code's order, or success; on success only the status changes, to PAID; on failure nothing changes |
| `Repository.InMemoryOrderRepository.constructor` | infrastructure/in_memory_order_repository.py:10-11 | a new store holds no orders |
| `Repository.InMemoryOrderRepository.GetById` | infrastructure/in_memory_order_repository.py:13-18 | an unknown id yields null, not a failure; a known id yields a freshly allocated order equal to the stored value; the store is not modified |
| `Repository.InMemoryOrderRepository.Save` | infrastructure/in_memory_order_repository.py:20-21 | the entry under the order's id becomes a copy of the order; all other entries are unchanged; every entry stays filed under its own id |
| `Repository.InMemoryOrderRepository.Clear` | infrastructure/in_memory_order_repository.py:23-25 | the store is empty afterwards |
| `Gateway.TransactionId` | infrastructure/fake_payment_gateway.py:17 | a transaction id is "txn_" followed by the 8 random hexadecimal characters |
| `Gateway.FakePaymentGateway.constructor` | infrastructure/fake_payment_gateway.py:9-11 | a new gateway keeps the failure switch it is given (off by default) and has an empty charge log |
| `Gateway.FakePaymentGateway.Charge` | infrastructure/fake_payment_gateway.py:13-23 | with the switch set: fails with "Payment gateway failure" and records nothing; otherwise appends exactly one record (order id, amount, transaction id) at the end and returns that transaction id |
| `Gateway.FakePaymentGateway.ChargesCount` | infrastructure/fake_payment_gateway.py:25-26 | the count is the length of the charge log |
| `PayOrder.ErrorMessage` | application/pay_order_usecase.py:53-64 | a `ValueError`'s message is reported verbatim; any other exception's message follows the "Payment failed: " prefix |
| `PayOrder.Failure` | application/pay_order_usecase.py:53-64 | a caught exception becomes a failed, well-formed result with the given order id, no transaction id, and the exception's reported message |
| `PayOrder.Execution` | application/pay_order_usecase.py:27-64 | one execution as a value: the result is well formed; it succeeds exactly when the charge log grows by one record; the earlier records are kept; a failure leaves store and log unchanged |
| `PayOrder.ExecutionWellFormed` | application/pay_order_usecase.py:31-63 | every result has exactly one of transaction id and error message set, success exactly when the transaction id is set, and a failure echoes the command's order id |
| `PayOrder.ExecutionEffects` | application/pay_order_usecase.py:39-45 | a charge is recorded only when the domain checks and the gateway both succeed; it is the one new record, for the order's id and total; the save happens only then and stores the order as PAID; a failed execution leaves store and log unchanged |
| `PayOrder.DomainFailureReported` | application/pay_order_usecase.py:53-58 | when `pay`'s checks fail, the result carries their message verbatim and the command's order id |
| `PayOrder.UnknownOrderNotFound` | application/pay_order_usecase.py:30-36 | an unknown id gives "Order not found" with store and log untouched |
| `PayOrder.GatewayFailureLeavesOrderUnpaid` | application/pay_order_usecase.py:41-45 | with a failing gateway, an unpaid stored order stays unpaid, nothing is recorded, and a charge failure is reported as "Payment gateway failure" |
| `PayOrder.SecondExecutionFails` | tests/test_pay_order_usecase.py:60-78 | after a successful execution, a second one on the same id fails with "Order is already paid"; the log then holds exactly one more record than before the first, and the store is not changed again |
| `PayOrder.TwoLineOrderPaid` | tests/test_pay_order_usecase.py:14-39 | lines 2 x 10.5 and 1 x 5.0 are paid: success with the transaction id, one charge of 26 USD, and the stored order is PAID |
| `PayOrder.PayOrderUseCase.constructor` | application/pay_order_usecase.py:23-25 | the use case keeps the repository and gateway it is given |
| `PayOrder.PayOrderUseCase.Execute` | application/pay_order_usecase.py:27-64 | result, new store and new charge log are exactly those of `Execution`; over a store whose entries are filed under their own ids, that property is kept and the result echoes the command's id |
| `Scenarios.ModifyAfterPayment` | tests/test_pay_order_usecase.py:81-101 | an order paid through the use case and loaded back refuses a new line with "Cannot modify order after payment" and keeps its one line |
| `Scenarios.DoublePayment` | tests/test_pay_order_usecase.py:60-78 | paying the same order twice: the first succeeds, the second fails with "Order is already paid", and the gateway's count is 1 |
| `Scenarios.EmptyOrderPayment` | tests/test_pay_order_usecase.py:42-57 | an empty order is refused with "Cannot pay an empty order" and the gateway's count is 0 |

## Left out

- The ports of application/interfaces.py are not modelled as abstract
  interfaces. The use case holds the two in-memory adapters directly, so the
  model says nothing about other implementations of the ports.
- Non-finite `Decimal` values (NaN, infinities) and the `Decimal` signals
  `InvalidOperation` and `Overflow` are not modelled. In the code they are the
  one route into the "Payment failed: " branch of `execute`: for example, a
  NaN total makes the comparison at domain/order.py:87 raise
  `InvalidOperation`. The model computes with reals, which never raise, so its
  executions produce only `ValueError`s. The prefixed branch is modelled
  (`ErrorMessage`, `Failure`), but no modelled execution reaches it.
- `created_at` and `updated_at` are left out. They come from a wall clock and
  no rule reads them.
- `uuid.uuid4()` is left out. The 8 random hexadecimal characters of a
  transaction id are a parameter (`suffix`) of `Charge` and `Execute`.
- The `Decimal` context (28 significant digits, rounding) is left out: the
  model's amounts are exact reals, so results that the code would round can
  differ in their last digits.
- `copy.deepcopy` is not modelled as such. Its observable effect comes from
  storing values in a map and building a fresh `Order` on load.
- Python's truthiness test `if not order` is modelled as a null check. An
  `Order` object is always truthy.
- `Order.__str__` is display formatting only. main.py is a demo driver. The
  test runner and tests/test_simple.py are scaffolding.
- No concurrency is modelled. Each execution runs to completion on its own.
