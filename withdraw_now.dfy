/**
  The withdrawal request screen: the screen's transaction id, the checks
  on the entered amount and the request it sends.
  Source: screens/MyEarningsScreen/WithdrawNowScreen.js.
 */
module WithdrawNow {
  import opened Js
  import opened Records

  const TxnPrefix := "TXN"
  const MissingFieldMessage := "Please provide both amount and transaction ID."
  const ExceedsBalanceMessage := "Withdrawal amount exceeds available balance."

  // ---------------------------------------------------------------------
  // The transaction id (lines 19, 22-24)

  /** `s.substring(start, end)` with both ends clamped to the string. */
  function Substring(s: string, start: nat, end: nat): (r: string)
    requires start <= end
    ensures |r| <= end - start && |r| <= |s|
    ensures start <= |s| ==> r == s[start..if end <= |s| then end else |s|]
  {
    var e := if end <= |s| then end else |s|;
    if start <= e then s[start..e] else []
  }

  /** The lower-case base-36 digits `Number.prototype.toString(36)` writes. */
  predicate IsBase36Digit(c: char) { IsDigit(c) || IsAsciiLower(c) }

  /** The text of `Math.random().toString(36)`: "0", or "0." and base-36 digits. */
  predicate RandomText(s: string) {
    s == "0" || (|s| >= 2 && s[..2] == "0." && forall i :: 2 <= i < |s| ==> IsBase36Digit(s[i]))
  }

  /** `'TXN' + random.toString(36).substring(2, 15).toUpperCase()`, for the random text given. */
  function TransactionId(randomText: string): (id: string)
    ensures 3 <= |id| <= 16 && id[..3] == TxnPrefix
    ensures RandomText(randomText) ==> forall i :: 3 <= i < |id| ==> IsDigit(id[i]) || IsAsciiUpper(id[i])
  {
    TxnPrefix + AsciiUpper(Substring(randomText, 2, 15))
  }

  /** A generated id is never empty, so the transaction-id half of the first check never fires. */
  lemma TransactionIdTruthy(randomText: string)
    ensures Truthy(TransactionId(randomText))
  {
  }

  // ---------------------------------------------------------------------
  // The checks (lines 32-41)

  /** `parseFloat(amount)`, with whole numbers standing for its finite results. */
  datatype Parsed = Num(value: int) | NaN

  datatype WithdrawGuard = MissingField | ExceedsBalance | Send

  /**
    An empty amount or id is refused first; then an amount above the
    balance. A NaN amount compares false and passes.
   */
  function CheckWithdrawal(amount: string, transactionId: string, parsed: Parsed, balance: int): (g: WithdrawGuard)
    ensures g == MissingField <==> amount == "" || transactionId == ""
    ensures g == ExceedsBalance <==> amount != "" && transactionId != "" && parsed.Num? && parsed.value > balance
    ensures g == Send <==> amount != "" && transactionId != "" && (parsed.NaN? || parsed.value <= balance)
  {
    if !Truthy(amount) || !Truthy(transactionId) then MissingField
    else if parsed.Num? && parsed.value > balance then ExceedsBalance
    else Send
  }

  /** The whole balance can be withdrawn; one unit more cannot. */
  lemma WholeBalanceAllowed(amount: string, transactionId: string, balance: int)
    requires amount != "" && transactionId != ""
    ensures CheckWithdrawal(amount, transactionId, Num(balance), balance) == Send
    ensures CheckWithdrawal(amount, transactionId, Num(balance + 1), balance) == ExceedsBalance
  {
  }

  /** The comparison never stops text that does not parse as a number. */
  lemma UnparsableAmountIsSent(amount: string, transactionId: string, balance: int)
    requires amount != "" && transactionId != ""
    ensures CheckWithdrawal(amount, transactionId, NaN, balance) == Send
  {
  }

  // ---------------------------------------------------------------------
  // The request and the handler (lines 27-68)

  /** The JSON body: `chef_id`, the parsed `amount`, `transaction_id`. */
  datatype WithdrawRequest = WithdrawRequest(chefId: string, amount: Parsed, transactionId: string)

  datatype WithdrawOutcome =
    | NoStoredUser                                 // `JSON.parse(null).id` throws before any check
    | Refused(guard: WithdrawGuard)                // an alert; nothing is sent
    | Sent(request: WithdrawRequest, wentBack: bool)

  class WithdrawNowScreen {
    const availableBalance: int
    const transactionId: string
    var amount: string

    /** The id is generated once, when the screen is created, from the random text given. */
    constructor (availableBalance: int, randomText: string)
      ensures this.availableBalance == availableBalance
      ensures transactionId == TransactionId(randomText) && amount == ""
    {
      this.availableBalance := availableBalance;
      transactionId := TransactionId(randomText);
      amount := "";
    }

    method SetAmount(text: string)
      modifies this`amount
      ensures amount == text
    {
      amount := text;
    }

    /**
      `handleWithdraw`. `parsed` is `parseFloat(amount)`; `reply` is the
      response's `success` flag. The screen goes back only on success.
     */
    method HandleWithdraw(storedUser: Option<User>, parsed: Parsed, reply: Reply<bool>) returns (out: WithdrawOutcome)
      ensures storedUser.None? ==> out == NoStoredUser
      ensures storedUser.Some? ==>
        var g := CheckWithdrawal(amount, transactionId, parsed, availableBalance);
        && (g != Send ==> out == Refused(g))
        && (g == Send ==> out.Sent? && out.request == WithdrawRequest(storedUser.value.id, parsed, transactionId))
      ensures out.Sent? ==> (out.wentBack <==> reply == Returned(true))
    {
      if storedUser.None? {
        return NoStoredUser;
      }
      var chefId := storedUser.value.id;
      if amount == "" || transactionId == "" {
        return Refused(MissingField);
      }
      if parsed.Num? && parsed.value > availableBalance {
        return Refused(ExceedsBalance);
      }
      var request := WithdrawRequest(chefId, parsed, transactionId);
      out := Sent(request, reply.Returned? && reply.value);
    }
  }
}
