/** The order aggregate: money values, order lines and the order itself
    (domain/order.py). */
module Domain {
  import opened Wrappers

  datatype OrderStatus = Pending | Paid | Cancelled

  const USD: string := "USD"

  const CurrencyMismatchMessage: string := "Cannot add money with different currencies"
  const ModifyAfterPaymentMessage: string := "Cannot modify order after payment"
  const EmptyOrderMessage: string := "Cannot pay an empty order"
  const AlreadyPaidMessage: string := "Order is already paid"
  const NonPositiveTotalMessage: string := "Order total must be positive"

  function DuplicateProductMessage(productId: string): string {
    "Product " + productId + " already in order"
  }

  /** An amount in a currency. Decimal amounts are modelled exactly, as reals. */
  datatype Money = Money(amount: real, currency: string)

  /** `Money(Decimal('0'))`: the default currency is USD. */
  function Zero(): (r: Money)
    ensures r.currency == USD && r.amount == 0.0
  {
    Money(0.0, USD)
  }

  /** USD zero is the identity of addition on USD amounts, and adding any
      other currency to it fails. */
  lemma ZeroIsUsdIdentity(m: Money)
    ensures m.currency == USD ==> Add(Zero(), m) == Ok(m) && Add(m, Zero()) == Ok(m)
    ensures m.currency != USD ==> Add(Zero(), m) == Err(ValueError(CurrencyMismatchMessage))
  {
  }

  /** `Money.__add__`: currency-checked addition. */
  function Add(a: Money, b: Money): (r: Result<Money>)
    ensures r.Ok? <==> a.currency == b.currency
    ensures r.Err? ==> r.error == ValueError(CurrencyMismatchMessage)
    ensures r.Ok? ==> r.value.currency == a.currency && r.value.amount == a.amount + b.amount
  {
    if a.currency != b.currency then Err(ValueError(CurrencyMismatchMessage))
    else Ok(Money(a.amount + b.amount, a.currency))
  }

  /** `Money.__mul__`: scaling by an integer quantity. */
  function Scale(m: Money, quantity: int): (r: Money)
    ensures r.currency == m.currency && r.amount == m.amount * quantity as real
  {
    Money(m.amount * quantity as real, m.currency)
  }

  /** Addition is commutative, also in which pairs it rejects. */
  lemma AddCommutative(a: Money, b: Money)
    ensures Add(a, b) == Add(b, a)
  {
  }

  /** Addition is associative within one currency. */
  lemma AddAssociative(a: Money, b: Money, c: Money)
    requires a.currency == b.currency == c.currency
    ensures Add(a, b).Ok? && Add(b, c).Ok?
    ensures Add(Add(a, b).value, c) == Add(a, Add(b, c).value)
  {
  }

  /** Scaling distributes over the sum of two quantities. */
  lemma ScaleDistributes(m: Money, p: int, q: int)
    ensures Add(Scale(m, p), Scale(m, q)) == Ok(Scale(m, p + q))
  {
    var sum := Add(Scale(m, p), Scale(m, q));
    assert (p + q) as real == p as real + q as real;
    assert m.amount * (p as real + q as real) == m.amount * p as real + m.amount * q as real;
    assert sum.value == Scale(m, p + q);
  }

  datatype OrderLine = OrderLine(productId: string, quantity: int, price: Money) {
    /** The `total` property: the unit price scaled by the quantity. */
    function Total(): (r: Money)
      ensures r.currency == price.currency && r.amount == price.amount * quantity as real
    {
      Scale(price, quantity)
    }
  }

  /** True when no two lines name the same product. */
  ghost predicate DistinctProducts(lines: seq<OrderLine>) {
    forall i, j :: 0 <= i < j < |lines| ==> lines[i].productId != lines[j].productId
  }

  /** True when every line is priced in US dollars. */
  ghost predicate AllInUsd(lines: seq<OrderLine>) {
    forall line :: line in lines ==> line.price.currency == USD
  }

  /** The sum of the line totals' amounts, whatever their currencies. */
  ghost function AmountSum(lines: seq<OrderLine>): real {
    if lines == [] then 0.0 else lines[0].Total().amount + AmountSum(lines[1..])
  }

  /** The accumulation `total += line.total` over `lines`, starting from `acc`. */
  function Accumulate(acc: Money, lines: seq<OrderLine>): (r: Result<Money>)
    decreases |lines|
    ensures r.Err? ==> r.error == ValueError(CurrencyMismatchMessage)
    ensures r.Ok? ==> r.value.currency == acc.currency
  {
    if lines == [] then Ok(acc)
    else
      match Add(acc, lines[0].Total())
      case Err(e) => Err(e)
      case Ok(next) => Accumulate(next, lines[1..])
  }

  /** `Order.total_amount`: USD zero for no lines, otherwise USD zero plus
      every line total, in line order. */
  function TotalOf(lines: seq<OrderLine>): (r: Result<Money>)
    ensures r.Err? ==> r.error == ValueError(CurrencyMismatchMessage)
    ensures r.Ok? ==> r.value.currency == USD
  {
    if lines == [] then Ok(Zero()) else Accumulate(Zero(), lines)
  }

  lemma {:induction false} AccumulateCharacterised(acc: Money, lines: seq<OrderLine>)
    requires acc.currency == USD
    decreases |lines|
    ensures Accumulate(acc, lines) ==
      if AllInUsd(lines) then Ok(Money(acc.amount + AmountSum(lines), USD))
      else Err(ValueError(CurrencyMismatchMessage))
  {
    if lines != [] {
      var head := lines[0];
      assert lines == [head] + lines[1..];
      assert AllInUsd(lines) <==> head.price.currency == USD && AllInUsd(lines[1..]);
      if head.price.currency == USD {
        AccumulateCharacterised(Money(acc.amount + head.Total().amount, USD), lines[1..]);
      }
    }
  }

  /** The total succeeds exactly when every line is in USD, and is then the
      USD sum of the line totals; otherwise it is the currency-mismatch error. */
  lemma TotalOfCharacterised(lines: seq<OrderLine>)
    ensures TotalOf(lines) ==
      if AllInUsd(lines) then Ok(Money(AmountSum(lines), USD))
      else Err(ValueError(CurrencyMismatchMessage))
  {
    if lines != [] {
      AccumulateCharacterised(Zero(), lines);
    }
  }

  lemma {:induction false} AmountSumRemove(lines: seq<OrderLine>, j: nat)
    requires j < |lines|
    ensures AmountSum(lines) == lines[j].Total().amount + AmountSum(lines[..j] + lines[j + 1..])
  {
    if j > 0 {
      var rest := lines[..j] + lines[j + 1..];
      AmountSumRemove(lines[1..], j - 1);
      assert rest[0] == lines[0];
      assert rest[1..] == lines[1..][..j - 1] + lines[1..][j..];
    } else {
      assert lines[..0] + lines[1..] == lines[1..];
    }
  }

  /** Removing the line at `j` from `b`, and the first line from `a`, keeps
      two permutations permutations of each other. */
  lemma RemoveMatching(a: seq<OrderLine>, b: seq<OrderLine>, j: nat)
    requires multiset(a) == multiset(b) && a != [] && j < |b| && b[j] == a[0]
    ensures multiset(a[1..]) == multiset(b[..j] + b[j + 1..])
  {
    assert b == b[..j] + [b[j]] + b[j + 1..];
    assert multiset(b) == multiset(b[..j]) + multiset{b[j]} + multiset(b[j + 1..]);
    assert multiset(b[..j] + b[j + 1..]) == multiset(b[..j]) + multiset(b[j + 1..]);
    assert a == [a[0]] + a[1..];
    assert multiset(a) == multiset{a[0]} + multiset(a[1..]);
    assert multiset(a[1..]) == multiset(a) - multiset{a[0]};
    assert multiset(b[..j] + b[j + 1..]) == multiset(b) - multiset{b[j]};
  }

  lemma {:induction false} AmountSumPermutation(a: seq<OrderLine>, b: seq<OrderLine>)
    requires multiset(a) == multiset(b)
    ensures AmountSum(a) == AmountSum(b)
    decreases |a|
  {
    if a == [] {
      assert |b| == |multiset(b)| == 0;
    } else {
      assert a[0] in multiset(b);
      var j :| 0 <= j < |b| && b[j] == a[0];
      AmountSumRemove(b, j);
      RemoveMatching(a, b, j);
      AmountSumPermutation(a[1..], b[..j] + b[j + 1..]);
    }
  }

  /** The total does not depend on the order of the lines. */
  lemma TotalPermutationInvariant(a: seq<OrderLine>, b: seq<OrderLine>)
    requires multiset(a) == multiset(b)
    ensures TotalOf(a) == TotalOf(b)
  {
    TotalOfCharacterised(a);
    TotalOfCharacterised(b);
    AmountSumPermutation(a, b);
    assert AllInUsd(a) <==> AllInUsd(b) by {
      forall line ensures line in a <==> line in b {
        assert line in a <==> line in multiset(a);
        assert line in b <==> line in multiset(b);
      }
    }
  }

  /** The checks of `Order.pay`, in the order the code makes them; the first
      that fails is reported. Computing the total can itself raise the
      currency-mismatch error, which then escapes `pay`. */
  function PayCheck(lines: seq<OrderLine>, status: OrderStatus): (o: Outcome)
    ensures o.Fail? ==> o.error.ValueError?
    ensures o.Pass? ==> TotalOf(lines).Ok? && TotalOf(lines).value.amount > 0.0
  {
    if lines == [] then Fail(ValueError(EmptyOrderMessage))
    else if status == Paid then Fail(ValueError(AlreadyPaidMessage))
    else
      match TotalOf(lines)
      case Err(e) => Fail(e)
      case Ok(total) => if total.amount <= 0.0 then Fail(ValueError(NonPositiveTotalMessage)) else Pass
  }

  /** Payment is accepted exactly for a non-empty, not yet paid order whose
      lines are all in USD and sum to a positive amount. */
  lemma PayCheckPassIff(lines: seq<OrderLine>, status: OrderStatus)
    ensures PayCheck(lines, status).Pass? <==>
      lines != [] && status != Paid && AllInUsd(lines) && AmountSum(lines) > 0.0
  {
    TotalOfCharacterised(lines);
  }

  /** Once an order has been paid, paying it again always fails with
      "already paid". */
  lemma PayTwiceFails(lines: seq<OrderLine>, status: OrderStatus)
    requires PayCheck(lines, status).Pass?
    ensures PayCheck(lines, Paid) == Fail(ValueError(AlreadyPaidMessage))
  {
  }

  /** The test's three-line order: 3 x 7.5 + 2 x 12.0 + 1 x 5.5 = 52. */
  lemma ThreeLineTotal()
    ensures TotalOf([OrderLine("prod-1", 3, Money(7.5, USD)),
                     OrderLine("prod-2", 2, Money(12.0, USD)),
                     OrderLine("prod-3", 1, Money(5.5, USD))]) == Ok(Money(52.0, USD))
  {
    var lines := [OrderLine("prod-1", 3, Money(7.5, USD)),
                  OrderLine("prod-2", 2, Money(12.0, USD)),
                  OrderLine("prod-3", 1, Money(5.5, USD))];
    TotalOfCharacterised(lines);
    assert AmountSum(lines[2..]) == 5.5 by {
      assert lines[2..][1..] == [];
    }
    assert lines[1..][1..] == lines[2..];
    assert AmountSum(lines[1..]) == 24.0 + 5.5;
    assert AmountSum(lines) == 22.5 + 29.5;
  }

  /** A copy of an order's state, as the repository keeps it. */
  datatype OrderValue = OrderValue(id: string, customerId: string, lines: seq<OrderLine>, status: OrderStatus)

  /** The aggregate root. Creation and update timestamps are not modelled. */
  class Order {
    var id: string
    var customerId: string
    var lines: seq<OrderLine>
    var status: OrderStatus

    /** The order's state as a value. */
    function Snapshot(): OrderValue
      reads this
    {
      OrderValue(id, customerId, lines, status)
    }

    /** A new order has no lines and is pending. */
    constructor (orderId: string, customerId: string)
      ensures Snapshot() == OrderValue(orderId, customerId, [], Pending)
    {
      this.id := orderId;
      this.customerId := customerId;
      this.lines := [];
      this.status := Pending;
    }

    /** A deep copy of a stored order. */
    constructor Copy(v: OrderValue)
      ensures Snapshot() == v
    {
      this.id := v.id;
      this.customerId := v.customerId;
      this.lines := v.lines;
      this.status := v.status;
    }

    /** `add_line`: rejected once paid, rejected for a product already in the
        order, otherwise appends exactly one line at the end. */
    method AddLine(productId: string, quantity: int, price: Money) returns (outcome: Outcome)
      modifies this
      ensures id == old(id) && customerId == old(customerId) && status == old(status)
      ensures old(status) == Paid ==>
        outcome == Fail(ValueError(ModifyAfterPaymentMessage)) && lines == old(lines)
      ensures old(status) != Paid && (exists line :: line in old(lines) && line.productId == productId) ==>
        outcome == Fail(ValueError(DuplicateProductMessage(productId))) && lines == old(lines)
      ensures old(status) != Paid && (forall line :: line in old(lines) ==> line.productId != productId) ==>
        outcome == Pass && lines == old(lines) + [OrderLine(productId, quantity, price)]
      ensures DistinctProducts(old(lines)) ==> DistinctProducts(lines)
    {
      if status == Paid {
        return Fail(ValueError(ModifyAfterPaymentMessage));
      }
      var i := 0;
      while i < |lines|
        invariant 0 <= i <= |lines|
        invariant forall k :: 0 <= k < i ==> lines[k].productId != productId
      {
        if lines[i].productId == productId {
          return Fail(ValueError(DuplicateProductMessage(productId)));
        }
        i := i + 1;
      }
      lines := lines + [OrderLine(productId, quantity, price)];
      outcome := Pass;
    }

    /** `total_amount`: the loop accumulating the line totals, which leaves
        the order untouched. */
    method TotalAmount() returns (r: Result<Money>)
      ensures r == TotalOf(lines)
    {
      if lines == [] {
        return Ok(Zero());
      }
      var total := Zero();
      var i := 0;
      while i < |lines|
        invariant 0 <= i <= |lines|
        invariant Accumulate(Zero(), lines) == Accumulate(total, lines[i..])
      {
        var sum := Add(total, lines[i].Total());
        if sum.Err? {
          return Err(sum.error);
        }
        total := sum.value;
        i := i + 1;
      }
      r := Ok(total);
    }

    /** `pay`: the guarded PENDING to PAID transition. On failure nothing
        changes; on success only the status does. */
    method Pay() returns (outcome: Outcome)
      modifies this
      ensures id == old(id) && customerId == old(customerId) && lines == old(lines)
      ensures outcome == PayCheck(old(lines), old(status))
      ensures status == if outcome.Pass? then Paid else old(status)
    {
      if lines == [] {
        return Fail(ValueError(EmptyOrderMessage));
      }
      if status == Paid {
        return Fail(ValueError(AlreadyPaidMessage));
      }
      var total := TotalAmount();
      if total.Err? {
        return Fail(total.error);
      }
      if total.value.amount <= 0.0 {
        return Fail(ValueError(NonPositiveTotalMessage));
      }
      status := Paid;
      outcome := Pass;
    }
  }
}
