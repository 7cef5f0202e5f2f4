/** The LST faucet page: mint up to one million liquid-staking tokens to the connected account. */
module Lst {
  import opened Wrappers
  import opened Decimals
  import opened Chain

  const InvalidAmount := "Please enter a valid amount greater than 0"
  const MintFallback := "Failed to mint LST. Please try again."
  const MaxAmount: nat := 1000000

  function MintedMessage(amount: string): string {
    "Successfully minted " + amount + " LST!"
  }

  /** `0 <= parseFloat(value) && parseFloat(value) <= 1000000`; both comparisons are false on NaN. */
  predicate InRange(p: Parsed) {
    p.Num? && (!p.negative || p.magnitude.units == 0) && (p.negative || AtMost(p.magnitude, MaxAmount))
  }

  /** This page's filter: the shared pattern test, and then the value bound unless the text is empty. */
  predicate LstAccepts(value: string) {
    FilterAccepts(value) && (value == "" || InRange(ParseFloat(value)))
  }

  /**
   * The filter accepts exactly the empty text and amount text of value at most
   * one million that holds a digit; "." alone is refused.
   */
  lemma LstAcceptsIff(value: string)
    ensures LstAccepts(value) <==>
      value == "" || (AmountText(value) && value != "." && AtMost(DecimalOf(value), MaxAmount))
    ensures !LstAccepts(".")
  {
    if AmountText(value) {
      ParseFloatAmountText(value);
    }
    ParseFloatAmountText(".");
  }

  /** `mint(parseUnits(amount, 18))` on LST, sent from the connected account. */
  function MintCall(account: Option<string>, amount: string): (c: Call)
    requires AmountText(amount)
    ensures c.args == [Uint(ParseUnits(amount))]
  {
    Call(account, LST, "mint", [Uint(ParseUnits(amount))])
  }

  /** The refreshes a handler starts without awaiting them. */
  datatype Refresh = RefreshBalance

  class LstMint {
    var amount: string
    var balance: string
    var loading: bool
    var error: string
    var success: string

    /** The amount field only ever holds text this page's filter let through. */
    ghost predicate Valid()
      reads this
    {
      LstAccepts(amount)
    }

    constructor ()
      ensures Valid()
      ensures amount == "" && balance == "0" && !loading && error == "" && success == ""
    {
      amount := "";
      balance := "0";
      loading := false;
      error := "";
      success := "";
    }

    /** `fetchBalance`: the formatted balance on a successful read; a failed read changes nothing. */
    method FetchBalance(w: Wallet, net: Net)
      modifies this`balance, net
      ensures !CanRead(w) ==> balance == old(balance) && unchanged(net)
      ensures CanRead(w) ==>
        net.log == old(net.log) + [Read(BalanceOf(LST, w.address.value))] && net.next == old(net.next) + 1 &&
        net.busy == old(net.busy) + [loading] &&
        balance == match WordOf(net.oracle(old(net.next)))
                   case Some(n) => FormatUnits(n)
                   case None => old(balance)
    {
      if !CanRead(w) { return; }
      var v := net.ReadWord(BalanceOf(LST, w.address.value), loading);
      if v.Some? {
        balance := FormatUnits(v.value);
      }
    }

    /** `handleAmountChange`: the keystroke's text is kept only when pattern and bound accept it. */
    method HandleAmountChange(value: string)
      requires Valid()
      modifies this`amount
      ensures Valid()
      ensures amount == if LstAccepts(value) then value else old(amount)
    {
      if value == "" || AmountText(value) {
        var numValue := ParseFloat(value);
        if value == "" || InRange(numValue) {
          amount := value;
        }
      }
    }

    /**
     * `handleMint`: an empty or non-positive amount and then a missing client
     * set the error; otherwise one mint transaction is sent while loading, and
     * its outcome decides the message and the field.
     */
    method HandleMint(w: Wallet, net: Net) returns (started: seq<Refresh>)
      requires Valid()
      modifies this`amount, this`loading, this`error, this`success, net
      ensures Valid()
      ensures RejectedAmount(old(amount)) ==>
        started == [] && error == InvalidAmount && amount == old(amount) &&
        loading == old(loading) && success == old(success) && unchanged(net)
      ensures !RejectedAmount(old(amount)) && !CanWrite(w) ==>
        started == [] && error == WalletNotConnected && amount == old(amount) &&
        loading == old(loading) && success == old(success) && unchanged(net)
      ensures !RejectedAmount(old(amount)) && CanWrite(w) ==>
        var t := Tx(net.oracle, old(net.next), MintCall(w.address, old(amount)));
        !loading &&
        net.log == old(net.log) + t.requests && net.next == old(net.next) + |t.requests| &&
        net.busy == old(net.busy) + Busy(|t.requests|) &&
        match t.result
        case Confirmed =>
          started == [RefreshBalance] && amount == "" && error == "" && success == MintedMessage(old(amount))
        case Failed(e) =>
          started == [] && amount == old(amount) && success == "" && error == ErrorText(e, MintFallback)
    {
      var entered := amount;
      started := [];
      if RejectedAmount(entered) {
        error := InvalidAmount;
        return;
      }
      if !CanWrite(w) {
        error := WalletNotConnected;
        return;
      }
      loading := true;
      error := "";
      success := "";
      var r := net.Transact(MintCall(w.address, entered), loading);
      if r.Confirmed? {
        started := [RefreshBalance];
        amount := "";
        success := MintedMessage(entered);
      } else {
        error := ErrorText(r.thrown, MintFallback);
      }
      loading := false;
    }
  }
}
