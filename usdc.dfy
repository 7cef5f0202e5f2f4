/** The test-USDC faucet page: mint any positive amount of USDC to the connected account. */
module Usdc {
  import opened Wrappers
  import opened Decimals
  import opened Chain

  const InvalidAmount := "Please enter a valid amount"
  const MintFallback := "Failed to mint USDC. Please try again."

  function MintedMessage(amount: string): string {
    "Successfully minted " + amount + " USDC!"
  }

  /** `mint(parseUnits(amount, 18))` on USDC, sent from the connected account. */
  function MintCall(account: Option<string>, amount: string): (c: Call)
    requires AmountText(amount)
    ensures c.args == [Uint(ParseUnits(amount))]
  {
    Call(account, USDC, "mint", [Uint(ParseUnits(amount))])
  }

  /** The refreshes a handler starts without awaiting them. */
  datatype Refresh = RefreshBalance

  class UsdcMint {
    var amount: string
    var balance: string
    var loading: bool
    var error: string
    var success: string

    /** The amount field only ever holds text the input filter let through. */
    ghost predicate Valid()
      reads this
    {
      AmountText(amount)
    }

    constructor ()
      ensures Valid()
      ensures amount == "" && balance == "0" && !loading && error == "" && success == ""
    {
      amount := "";
      balance := "0";
      loading := false;
      error := "";
      success := "";
    }

    /** `fetchBalance`: the formatted balance on a successful read; a failed read changes nothing. */
    method FetchBalance(w: Wallet, net: Net)
      modifies this`balance, net
      ensures !CanRead(w) ==> balance == old(balance) && unchanged(net)
      ensures CanRead(w) ==>
        net.log == old(net.log) + [Read(BalanceOf(USDC, w.address.value))] && net.next == old(net.next) + 1 &&
        net.busy == old(net.busy) + [loading] &&
        balance == match WordOf(net.oracle(old(net.next)))
                   case Some(n) => FormatUnits(n)
                   case None => old(balance)
    {
      if !CanRead(w) { return; }
      var v := net.ReadWord(BalanceOf(USDC, w.address.value), loading);
      if v.Some? {
        balance := FormatUnits(v.value);
      }
    }

    /** `handleAmountChange`: the keystroke's text is kept only when the filter accepts it. */
    method HandleAmountChange(value: string)
      requires Valid()
      modifies this`amount
      ensures Valid()
      ensures amount == if FilterAccepts(value) then value else old(amount)
    {
      if FilterAccepts(value) {
        amount := value;
      }
    }

    /**
     * `handleMint`: an empty or non-positive amount raises an alert and changes
     * nothing; a missing client sets the error; otherwise one mint transaction
     * is sent while loading, and its outcome decides the message and the field.
     */
    method HandleMint(w: Wallet, net: Net) returns (alerted: Option<string>, started: seq<Refresh>)
      requires Valid()
      modifies this`amount, this`loading, this`error, this`success, net
      ensures Valid()
      ensures RejectedAmount(old(amount)) ==>
        alerted == Some(InvalidAmount) && started == [] && unchanged(this) && unchanged(net)
      ensures !RejectedAmount(old(amount)) && !CanWrite(w) ==>
        alerted == None && started == [] && error == WalletNotConnected && amount == old(amount) &&
        loading == old(loading) && success == old(success) && unchanged(net)
      ensures !RejectedAmount(old(amount)) && CanWrite(w) ==>
        var t := Tx(net.oracle, old(net.next), MintCall(w.address, old(amount)));
        alerted == None && !loading &&
        net.log == old(net.log) + t.requests && net.next == old(net.next) + |t.requests| &&
        net.busy == old(net.busy) + Busy(|t.requests|) &&
        match t.result
        case Confirmed =>
          started == [RefreshBalance] && amount == "" && error == "" && success == MintedMessage(old(amount))
        case Failed(e) =>
          started == [] && amount == old(amount) && success == "" && error == ErrorText(e, MintFallback)
    {
      var entered := amount;
      started := [];
      if RejectedAmount(entered) {
        return Some(InvalidAmount), [];
      }
      alerted := None;
      if !CanWrite(w) {
        error := WalletNotConnected;
        return;
      }
      loading := true;
      error := "";
      success := "";
      var r := net.Transact(MintCall(w.address, entered), loading);
      if r.Confirmed? {
        started := [RefreshBalance];
        amount := "";
        success := MintedMessage(entered);
      } else {
        error := ErrorText(r.thrown, MintFallback);
      }
      loading := false;
    }
  }
}
