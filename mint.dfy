/** The PUSD mint page: deposit USDC into the PUSD contract and receive PUSD one for one. */
module Mint {
  import opened Wrappers
  import opened Decimals
  import opened Chain

  const InvalidAmount := "Please enter a valid amount"
  const MintFallback := "Failed to mint PUSD. Please try again."
  const Minted := "Successfully minted PUSD!"
  const EmptyReceive := "0.0"

  function InsufficientMessage(usdcBalance: string): string {
    "Insufficient USDC balance. You have " + usdcBalance + " USDC."
  }

  /** The balance check `parseFloat(usdcBalance) < parseFloat(amount)`. */
  predicate Insufficient(usdcBalance: string, amount: string) {
    LessThan(ParseFloat(usdcBalance), ParseFloat(amount))
  }

  /**
   * For a balance that was read and formatted, the check compares exact values:
   * the balance in units of 10^-18 against the amount scaled to 10^-18, at any
   * number of fractional digits (and units against `parseUnits` within 18 of
   * them); "." is never short of balance, as NaN compares false.
   */
  lemma InsufficientExact(n: nat, amount: string)
    requires AmountText(amount) && amount != ""
    ensures Insufficient(FormatUnits(n), amount) <==>
      amount != "." && n * Pow10(|FracPart(amount)|) < DecimalOf(amount).units * Pow10(TokenDecimals)
    ensures |FracPart(amount)| <= TokenDecimals ==>
      (Insufficient(FormatUnits(n), amount) <==> amount != "." && n < ParseUnits(amount))
  {
    if amount != "." {
      BalanceBelowValue(n, amount);
      if |FracPart(amount)| <= TokenDecimals {
        BalanceBelowAmount(n, amount);
      }
    } else {
      ParseFloatAmountText(amount);
    }
  }


  /** `approve(PUSD, parseUnits(amount, 18))` on USDC. */
  function ApproveCall(account: Option<string>, amount: string): (c: Call)
    requires AmountText(amount)
    ensures c.target == USDC && c.args == [ContractAddress(PUSD), Uint(ParseUnits(amount))]
  {
    Call(account, USDC, "approve", [ContractAddress(PUSD), Uint(ParseUnits(amount))])
  }

  /** `depositAndMint(parseUnits(amount, 18))` on PUSD. */
  function DepositAndMintCall(account: Option<string>, amount: string): (c: Call)
    requires AmountText(amount)
    ensures c.target == PUSD && c.args == [Uint(ParseUnits(amount))]
  {
    Call(account, PUSD, "depositAndMint", [Uint(ParseUnits(amount))])
  }

  /** The Receive field: `amount || "0.0"`. */
  function ReceiveDisplay(amount: string): (r: string)
    ensures r != ""
  {
    if amount == "" then EmptyReceive else amount
  }

  /**
   * The Receive field shows exactly what will be minted: the same text as the
   * amount whenever there is one, and in every case text of the same value in
   * units of 10^-18.
   */
  lemma ReceiveDisplayOneToOne(amount: string)
    requires AmountText(amount)
    ensures amount != "" ==> ReceiveDisplay(amount) == amount
    ensures AmountText(ReceiveDisplay(amount)) && ParseUnits(ReceiveDisplay(amount)) == ParseUnits(amount)
  {
    if amount == "" {
      var r := EmptyReceive;
      assert LeadingDigits(r) == 1 by {
        assert LeadingDigits(r[1..]) == 0;
      }
      assert IntPart(r) == "0" && FracPart(r) == "0";
      assert NatOf("00") == 0 by { assert "00"[..1] == "0"; }
    }
  }

  /** The refreshes a handler starts without awaiting them. */
  datatype Refresh = RefreshBalances

  class MintPage {
    var amount: string
    var usdcBalance: string
    var pusdBalance: string
    var loading: bool
    var error: string
    var success: string

    /** The amount field only ever holds text the input filter let through. */
    ghost predicate Valid()
      reads this
    {
      AmountText(amount)
    }

    constructor ()
      ensures Valid()
      ensures amount == "" && usdcBalance == "0" && pusdBalance == "0"
      ensures !loading && error == "" && success == ""
    {
      amount := "";
      usdcBalance := "0";
      pusdBalance := "0";
      loading := false;
      error := "";
      success := "";
    }

    /** The Mint button's `disabled`: `loading || !amount`. */
    predicate MintDisabled()
      reads this
    {
      loading || amount == ""
    }

    /**
     * While the Mint button is enabled no request is in flight and the field is
     * not empty, so `handleMint`'s guard turns away only text worth zero; a lone
     * "." gets past it, as NaN is not `<= 0`.
     */
    lemma EnabledButtonGuard()
      requires Valid() && !MintDisabled()
      ensures !loading && amount != ""
      ensures RejectedAmount(amount) <==> amount != "." && DecimalOf(amount).units == 0
    {
      RejectedAmountText(amount);
    }

    /**
     * `fetchBalances`: both reads in one `try`, USDC first; a failed read ends
     * the refresh, keeping whatever was already set.
     */
    method FetchBalances(w: Wallet, net: Net)
      modifies this`usdcBalance, this`pusdBalance, net
      ensures !CanRead(w) ==> usdcBalance == old(usdcBalance) && pusdBalance == old(pusdBalance) && unchanged(net)
      ensures CanRead(w) ==>
        var at, account := old(net.next), w.address.value;
        var first, second := WordOf(net.oracle(at)), WordOf(net.oracle(at + 1));
        if first.None? then
          net.log == old(net.log) + [Read(BalanceOf(USDC, account))] && net.next == at + 1 &&
          usdcBalance == old(usdcBalance) && pusdBalance == old(pusdBalance)
        else
          net.log == old(net.log) + [Read(BalanceOf(USDC, account)), Read(BalanceOf(PUSD, account))] &&
          net.next == at + 2 && usdcBalance == FormatUnits(first.value) &&
          pusdBalance == if second.Some? then FormatUnits(second.value) else old(pusdBalance)
    {
      if !CanRead(w) { return; }
      var usdc := net.ReadWord(BalanceOf(USDC, w.address.value), loading);
      if usdc.None? { return; }
      usdcBalance := FormatUnits(usdc.value);
      var pusd := net.ReadWord(BalanceOf(PUSD, w.address.value), loading);
      if pusd.None? { return; }
      pusdBalance := FormatUnits(pusd.value);
    }

    /** `handleAmountChange`: the keystroke's text is kept only when the filter accepts it. */
    method HandleAmountChange(value: string)
      requires Valid()
      modifies this`amount
      ensures Valid()
      ensures amount == if FilterAccepts(value) then value else old(amount)
    {
      if FilterAccepts(value) {
        amount := value;
      }
    }

    /**
     * `handleMint`: the amount guard, then the wallet guard; then, while
     * loading, the balance check and approve followed by depositAndMint.
     */
    method HandleMint(w: Wallet, net: Net) returns (started: seq<Refresh>)
      requires Valid()
      modifies this`amount, this`loading, this`error, this`success, net
      ensures Valid()
      ensures RejectedAmount(old(amount)) ==>
        started == [] && error == InvalidAmount && amount == old(amount) &&
        loading == old(loading) && success == old(success) && unchanged(net)
      ensures !RejectedAmount(old(amount)) && !CanWrite(w) ==>
        started == [] && error == WalletNotConnected && amount == old(amount) &&
        loading == old(loading) && success == old(success) && unchanged(net)
      ensures !RejectedAmount(old(amount)) && CanWrite(w) && Insufficient(old(usdcBalance), old(amount)) ==>
        started == [] && !loading && error == InsufficientMessage(old(usdcBalance)) && success == "" &&
        amount == old(amount) && unchanged(net)
      ensures !RejectedAmount(old(amount)) && CanWrite(w) && !Insufficient(old(usdcBalance), old(amount)) ==>
        var t := Chained(net.oracle, old(net.next),
          ApproveCall(w.address, old(amount)), DepositAndMintCall(w.address, old(amount)));
        !loading &&
        net.log == old(net.log) + t.requests && net.next == old(net.next) + |t.requests| &&
        net.busy == old(net.busy) + Busy(|t.requests|) &&
        match t.result
        case Confirmed =>
          started == [RefreshBalances] && amount == "" && error == "" && success == Minted
        case Failed(e) =>
          started == [] && amount == old(amount) && success == "" && error == ErrorText(e, MintFallback)
    {
      var entered, balance := amount, usdcBalance;
      started := [];
      if RejectedAmount(entered) {
        error := InvalidAmount;
        return;
      }
      if !CanWrite(w) {
        error := WalletNotConnected;
        return;
      }
      loading := true;
      error := "";
      success := "";
      if Insufficient(balance, entered) {
        error := InsufficientMessage(balance);
        loading := false;
        return;
      }
      var r := net.TransactBoth(ApproveCall(w.address, entered), DepositAndMintCall(w.address, entered), loading);
      if r.Confirmed? {
        started := [RefreshBalances];
        amount := "";
        success := Minted;
      } else {
        error := ErrorText(r.thrown, MintFallback);
      }
      loading := false;
    }
  }
}
