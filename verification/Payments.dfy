/** Payment and order statuses, and what a provider event means for them. */
module Payments {

  const PENDING: nat := 0
  const ACCEPTED: nat := 5
  const AUTHORIZED: nat := 10
  const FAILED: nat := 20
  const CAPTURED: nat := 30

  datatype OrderStatus = PendingPayment | Confirmed

  /** What a delivery asks for: a payment status, an order status, and whether it is acted on at all. */
  datatype Verdict = Verdict(pay: nat, order: OrderStatus, valid: bool)

  predicate IsSettled(psp: string) {
    psp == "captured" || psp == "authorized" || psp == "success"
  }

  predicate OccursAt(text: string, part: string, i: nat) {
    i + |part| <= |text| && text[i..i + |part|] == part
  }

  predicate Contains(text: string, part: string) {
    exists i | 0 <= i <= |text| :: OccursAt(text, part, i)
  }

  /** pay_order_status_util; its first test is a substring test, because ("failed") is a string and not a tuple. */
  function Classify(psp: string, event: string): Verdict {
    var v := Verdict(PENDING, PendingPayment, true);
    var v := if Contains("failed", psp) then v.(pay := FAILED) else v;
    var v := if !IsSettled(psp) then v
             else if event == "payment.authorized" then v.(pay := AUTHORIZED)
             else if event == "payment.captured" then v.(pay := CAPTURED, order := Confirmed)
             else if event == "order.paid" then Verdict(CAPTURED, Confirmed, false)
             else v;
    if !IsSettled(psp) && psp != "failed" then v.(pay := FAILED, valid := false) else v
  }

  /** Every event is classified as its provider status and name say, and the substring test never changes a verdict. */
  lemma ClassifyMeaning(psp: string, event: string)
    ensures var v, settled := Classify(psp, event), psp in {"captured", "authorized", "success"};
            && (v.valid <==> psp == "failed" || (settled && event != "order.paid"))
            && (v.valid ==> (v.pay == CAPTURED <==> settled && event == "payment.captured"))
            && (v.valid ==> (v.pay == AUTHORIZED <==> settled && event == "payment.authorized"))
            && (v.valid ==> (v.pay == FAILED <==> psp == "failed"))
            && (v.order == Confirmed <==> v.pay == CAPTURED)
            && v.pay in {PENDING, AUTHORIZED, FAILED, CAPTURED}
    ensures PENDING < ACCEPTED < AUTHORIZED < FAILED < CAPTURED
  {
    if IsSettled(psp) {
      assert !Contains("failed", psp);
    } else if psp == "failed" {
      assert OccursAt("failed", psp, 0);
    }
  }
}
