/** The payment gateway's return page: two query parameters, each accepted in
    two spellings, decide one of three states, a message and the transaction id
    shown. Nothing else is read or changed. */
module PaymentCallback {
  import opened Wrappers

  /** The query string, name to value (`searchParams.get` gives the value or null). */
  type Query = map<string, string>

  function Get(query: Query, name: string): Option<string> {
    if name in query then Some(query[name]) else None
  }

  /** JavaScript `a || b` on two results of `get`: `a` unless it is null or empty. */
  function Or(a: Option<string>, b: Option<string>): Option<string> {
    if a.Some? && a.value != "" then a else b
  }

  /** The value of the first of the two spellings that is present and non-empty,
      or "" when neither is. */
  function Preferred(query: Query, first: string, second: string): string {
    if first in query && query[first] != "" then query[first]
    else if second in query then query[second]
    else ""
  }

  datatype Status = Loading | Success | Failed

  datatype CallbackState = CallbackState(status: Status, orderId: string, message: string)

  const SuccessMessage: string := "Payment successful! Your order has been confirmed."
  const VerifyingMessage: string := "Verifying payment status..."

  /** The page's state before the effect runs. */
  const InitialState: CallbackState := CallbackState(Loading, "", "")

  /** `toLowerCase` on one character, for ASCII letters. */
  function LowerAscii(c: char): char {
    if 'A' <= c <= 'Z' then (c as int + 32) as char else c
  }

  function ToLower(s: string): (r: string)
    ensures |r| == |s|
  {
    seq(|s|, i requires 0 <= i < |s| => LowerAscii(s[i]))
  }

  /** `status === "00" || status.toLowerCase() === "success"`. */
  predicate IsSuccessCode(status: string): (ok: bool)
    ensures ok ==> |status| == 2 || |status| == 7
  {
    status == "00" || ToLower(status) == "success"
  }

  /** "success" is recognised in any mix of upper and lower case, letter by
      letter, and only it and "00" are. */
  lemma SuccessCodeIff(status: string)
    ensures IsSuccessCode(status) <==>
      || status == "00"
      || (|status| == 7 && forall i :: 0 <= i < 7 ==> status[i] == "success"[i] || status[i] == "SUCCESS"[i])
  {
    if |status| == 7 && forall i :: 0 <= i < 7 ==> status[i] == "success"[i] || status[i] == "SUCCESS"[i] {
      forall i | 0 <= i < 7 ensures LowerAscii(status[i]) == "success"[i] {
      }
      assert ToLower(status) == "success";
    }
    if ToLower(status) == "success" {
      forall i | 0 <= i < 7 ensures status[i] == "success"[i] || status[i] == "SUCCESS"[i] {
        assert LowerAscii(status[i]) == ToLower(status)[i];
      }
    }
  }

  /** The effect: take the id from `Id`, else `id`; the status from `Status`,
      else `status`. A success code gives the success state; any other non-empty
      status fails with that status as the message; no status leaves the page
      verifying. The id is shown only when it is non-empty. */
  function Interpret(query: Query): (st: CallbackState)
    ensures st.orderId == Preferred(query, "Id", "id")
    ensures var raw := Preferred(query, "Status", "status");
      && (st.status == Success <==> raw != "" && IsSuccessCode(raw))
      && (st.status == Failed <==> raw != "" && !IsSuccessCode(raw))
      && (st.status == Loading <==> raw == "")
      && st.message == (match st.status
          case Success => SuccessMessage
          case Failed => raw
          case Loading => VerifyingMessage)
  {
    var id := Or(Get(query, "Id"), Get(query, "id"));
    var paymentStatus := Or(Get(query, "Status"), Get(query, "status"));
    var orderId := if id.Some? && id.value != "" then id.value else InitialState.orderId;
    if paymentStatus.Some? && IsSuccessCode(paymentStatus.value) then
      CallbackState(Success, orderId, SuccessMessage)
    else if paymentStatus.Some? && paymentStatus.value != "" then
      CallbackState(Failed, orderId, paymentStatus.value)
    else
      CallbackState(Loading, orderId, VerifyingMessage)
  }

  lemma CallbackExamples()
    ensures Interpret(map["Status" := "00"]).status == Success
    ensures Interpret(map["status" := "SUCCESS"]).status == Success
    ensures Interpret(map["Status" := "ERR_DECLINED"]) == CallbackState(Failed, "", "ERR_DECLINED")
    ensures Interpret(map["Id" := "T1", "id" := "T2"]) == CallbackState(Loading, "T1", VerifyingMessage)
  {
    assert ToLower("SUCCESS") == "success";
    assert ToLower("ERR_DECLINED") != "success";
  }
}
