/** The fake payment gateway (infrastructure/fake_payment_gateway.py): an
    append-only log of charges and a switch that makes every charge fail. */
module Gateway {
  import opened Wrappers
  import opened Domain

  const GatewayFailureMessage: string := "Payment gateway failure"

  /** One entry of the charge log. */
  datatype ChargeRecord = ChargeRecord(orderId: string, amount: Money, transactionId: string)

  /** The eight characters taken from a random UUID's hexadecimal form. The
      random source itself is not modelled: callers pass the characters in. */
  predicate IsHexSuffix(suffix: string) {
    |suffix| == 8 && forall i :: 0 <= i < |suffix| ==> suffix[i] in "0123456789abcdef"
  }

  /** The transaction id made from a suffix. */
  function TransactionId(suffix: string): (txn: string)
    requires IsHexSuffix(suffix)
    ensures |txn| == 12 && txn[..4] == "txn_" && txn[4..] == suffix
  {
    "txn_" + suffix
  }

  class FakePaymentGateway {
    const shouldFail: bool
    var charges: seq<ChargeRecord>

    /** A new gateway has an empty log. */
    constructor (shouldFail: bool := false)
      ensures this.shouldFail == shouldFail && charges == []
    {
      this.shouldFail := shouldFail;
      charges := [];
    }

    /** `charge`: fails without recording anything when the switch is set;
        otherwise appends exactly one record and returns its transaction id. */
    method Charge(orderId: string, amount: Money, suffix: string) returns (r: Result<string>)
      requires IsHexSuffix(suffix)
      modifies this
      ensures shouldFail ==> r == Err(ValueError(GatewayFailureMessage)) && charges == old(charges)
      ensures !shouldFail ==>
        r == Ok(TransactionId(suffix)) && charges == old(charges) + [ChargeRecord(orderId, amount, r.value)]
    {
      if shouldFail {
        return Err(ValueError(GatewayFailureMessage));
      }
      var transactionId := "txn_" + suffix;
      charges := charges + [ChargeRecord(orderId, amount, transactionId)];
      r := Ok(transactionId);
    }

    /** `get_charges_count`: the number of successful charges so far. */
    function ChargesCount(): (n: nat)
      reads this
      ensures n == |charges|
    {
      |charges|
    }
  }
}
