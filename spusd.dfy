/**
 * The sPUSD vault page: deposit PUSD for vault shares, or redeem shares for
 * PUSD, with a preview of what the current amount would give.
 */
module Spusd {
  import opened Wrappers
  import opened Decimals
  import opened Chain
  import opened Ui

  const InvalidAmount := "Please enter a valid amount"
  const DepositFallback := "Failed to deposit"
  const WithdrawFallback := "Failed to withdraw"

  function DepositedMessage(amount: string): string {
    "Successfully deposited " + amount + " PUSD"
  }

  function WithdrawnMessage(preview: string): string {
    "Successfully withdrawn " + preview + " PUSD"
  }

  /** `activeTab`, which the two tab buttons set to "deposit" or "withdraw". */
  datatype Tab = DepositTab | WithdrawTab

  const TotalAssets := Call(None, SPUSD, "totalAssets", [])
  const TotalSupply := Call(None, SPUSD, "totalSupply", [])

  /** The preview for the tab: `previewDeposit(assets)` or `previewRedeem(shares)`, both `parseUnits(amount, 18)`. */
  function PreviewCall(amount: string, tab: Tab): (c: Call)
    requires AmountText(amount)
    ensures c.target == SPUSD && c.args == [Uint(ParseUnits(amount))]
    ensures c.name == (if tab == DepositTab then "previewDeposit" else "previewRedeem")
  {
    match tab
    case DepositTab => Call(None, SPUSD, "previewDeposit", [Uint(ParseUnits(amount))])
    case WithdrawTab => Call(None, SPUSD, "previewRedeem", [Uint(ParseUnits(amount))])
  }

  /** What one vault refresh read: its requests and the values it obtained, in order. */
  datatype VaultRead = VaultRead(requests: seq<Request>, assets: Option<nat>, shares: Option<nat>, preview: Option<nat>)

  /**
   * The four unconditional reads of `fetchVaultData`: the PUSD balance, the
   * share balance, total assets and total supply in turn, up to the first that
   * fails; `complete` when all four succeeded.
   */
  function HoldingsReads(oracle: nat -> Outcome, at: nat, account: string): (r: (VaultRead, bool))
    ensures 1 <= |r.0.requests| <= 4 && r.0.preview == None
    ensures r.0.requests[0] == Read(BalanceOf(PUSD, account))
    ensures r.0.assets == WordOf(oracle(at))
    ensures r.0.shares.Some? ==> r.0.assets.Some?
    ensures r.1 <==> forall k | at <= k < at + 4 :: WordOf(oracle(k)).Some?
    ensures r.1 ==> |r.0.requests| == 4
  {
    var steps := [Read(BalanceOf(PUSD, account)), Read(BalanceOf(SPUSD, account)), Read(TotalAssets), Read(TotalSupply)];
    var assets, shares := WordOf(oracle(at)), WordOf(oracle(at + 1));
    if assets.None? then (VaultRead(steps[..1], None, None, None), false)
    else if shares.None? then (VaultRead(steps[..2], assets, None, None), false)
    else if WordOf(oracle(at + 2)).None? then (VaultRead(steps[..3], assets, shares, None), false)
    else (VaultRead(steps, assets, shares, None), WordOf(oracle(at + 3)).Some?)
  }

  /**
   * `fetchVaultData` with the script's outcomes from `at` on: the four reads,
   * and then, when they all succeeded and the amount is not empty, the preview
   * the tab selects.
   */
  function VaultReads(oracle: nat -> Outcome, at: nat, account: string, amount: string, tab: Tab): (v: VaultRead)
    requires AmountText(amount)
    ensures 1 <= |v.requests| <= 5
    ensures v.requests[0] == Read(BalanceOf(PUSD, account))
    ensures v.assets == WordOf(oracle(at))
    ensures v.shares.Some? ==> v.assets.Some?
    ensures v.preview.Some? ==> v.shares.Some?
    ensures |v.requests| == 5 <==> amount != "" && forall k | at <= k < at + 4 :: WordOf(oracle(k)).Some?
    ensures |v.requests| == 5 ==> v.requests[4] == Read(PreviewCall(amount, tab)) && v.preview == WordOf(oracle(at + 4))
  {
    var (h, complete) := HoldingsReads(oracle, at, account);
    if !complete || amount == "" then h
    else h.(requests := h.requests + [Read(PreviewCall(amount, tab))], preview := WordOf(oracle(at + 4)))
  }

  /** The four unconditional reads, in order, up to the first that fails. */
  method ReadHoldings(net: Net, account: string, ghost loading: bool) returns (h: VaultRead, complete: bool)
    modifies net
    ensures (h, complete) == HoldingsReads(net.oracle, old(net.next), account)
    ensures net.log == old(net.log) + h.requests && net.next == old(net.next) + |h.requests|
  {
    var steps := [Read(BalanceOf(PUSD, account)), Read(BalanceOf(SPUSD, account)), Read(TotalAssets), Read(TotalSupply)];
    var assets := net.ReadWord(steps[0].call, loading);
    if assets.None? { return VaultRead(steps[..1], None, None, None), false; }
    var shares := net.ReadWord(steps[1].call, loading);
    if shares.None? { return VaultRead(steps[..2], assets, None, None), false; }
    var total := net.ReadWord(TotalAssets, loading);
    if total.None? { return VaultRead(steps[..3], assets, shares, None), false; }
    var supply := net.ReadWord(TotalSupply, loading);
    h, complete := VaultRead(steps, assets, shares, None), supply.Some?;
  }

  /** The reads of `fetchVaultData`, in order, up to the first that fails. */
  method ReadVault(net: Net, account: string, seen: string, tab: Tab, ghost loading: bool) returns (v: VaultRead)
    requires AmountText(seen)
    modifies net
    ensures v == VaultReads(net.oracle, old(net.next), account, seen, tab)
    ensures net.log == old(net.log) + v.requests && net.next == old(net.next) + |v.requests|
  {
    var complete;
    v, complete := ReadHoldings(net, account, loading);
    if !complete || seen == "" { return; }
    var preview := net.ReadWord(PreviewCall(seen, tab), loading);
    v := v.(requests := v.requests + [Read(PreviewCall(seen, tab))], preview := preview);
  }

  /** With an empty amount no preview is asked for, on either tab. */
  lemma NoPreviewForEmptyAmount(oracle: nat -> Outcome, at: nat, account: string, tab: Tab)
    ensures |VaultReads(oracle, at, account, "", tab).requests| <= 4
    ensures VaultReads(oracle, at, account, "", tab).preview == None
  {
  }

  /** `approve(sPUSD, parseUnits(amount, 18))` on PUSD. */
  function ApproveCall(account: Option<string>, amount: string): (c: Call)
    requires AmountText(amount)
    ensures c.target == PUSD && c.args == [ContractAddress(SPUSD), Uint(ParseUnits(amount))]
  {
    Call(account, PUSD, "approve", [ContractAddress(SPUSD), Uint(ParseUnits(amount))])
  }

  /** `deposit(parseUnits(amount, 18), address)` on sPUSD. */
  function DepositCall(account: Option<string>, amount: string): (c: Call)
    requires AmountText(amount)
    ensures c.target == SPUSD && c.args == [Uint(ParseUnits(amount)), Account(account)]
  {
    Call(account, SPUSD, "deposit", [Uint(ParseUnits(amount)), Account(account)])
  }

  /** `redeem(parseUnits(amount, 18), address, address)` on sPUSD: the amount is a number of shares. */
  function RedeemCall(account: Option<string>, amount: string): (c: Call)
    requires AmountText(amount)
    ensures c.target == SPUSD && c.args == [Uint(ParseUnits(amount)), Account(account), Account(account)]
  {
    Call(account, SPUSD, "redeem", [Uint(ParseUnits(amount)), Account(account), Account(account)])
  }

  /**
   * A vault refresh a handler starts without awaiting it; it runs with the
   * amount and tab of the render the handler belongs to.
   */
  datatype Refresh = RefreshVault(amount: string, tab: Tab)

  class SpusdPage {
    var activeTab: Tab
    var amount: string
    var usdcBalance: string
    var spusdBalance: string
    var shareBalance: string
    var loading: bool
    var notification: Notice

    /** The amount field only ever holds text the input filter let through. */
    ghost predicate Valid()
      reads this
    {
      AmountText(amount)
    }

    constructor ()
      ensures Valid()
      ensures activeTab == DepositTab && amount == "" && usdcBalance == "0" && spusdBalance == "0"
      ensures shareBalance == "0" && !loading && notification == Hidden
    {
      activeTab := DepositTab;
      amount := "";
      usdcBalance := "0";
      spusdBalance := "0";
      shareBalance := "0";
      loading := false;
      notification := Hidden;
    }

    /** A tab button: `setActiveTab`. */
    method SelectTab(tab: Tab)
      modifies this`activeTab
      ensures activeTab == tab
    {
      activeTab := tab;
    }

    /**
     * `fetchVaultData` for the given render's amount and tab: each value read
     * is formatted into its field; a field whose read did not happen keeps its value.
     */
    method FetchVaultData(w: Wallet, net: Net, seen: string, tab: Tab)
      requires AmountText(seen)
      modifies this`usdcBalance, this`shareBalance, this`spusdBalance, net
      ensures !CanRead(w) ==>
        usdcBalance == old(usdcBalance) && shareBalance == old(shareBalance) &&
        spusdBalance == old(spusdBalance) && unchanged(net)
      ensures CanRead(w) ==>
        var v := VaultReads(net.oracle, old(net.next), w.address.value, seen, tab);
        net.log == old(net.log) + v.requests && net.next == old(net.next) + |v.requests| &&
        usdcBalance == (if v.assets.Some? then FormatUnits(v.assets.value) else old(usdcBalance)) &&
        shareBalance == (if v.shares.Some? then FormatUnits(v.shares.value) else old(shareBalance)) &&
        spusdBalance == if v.preview.Some? then FormatUnits(v.preview.value) else old(spusdBalance)
    {
      if !CanRead(w) { return; }
      var v := ReadVault(net, w.address.value, seen, tab, loading);
      ShowVault(v);
    }

    /** The setters of `fetchVaultData`: each value read is formatted into its field. */
    method ShowVault(v: VaultRead)
      modifies this`usdcBalance, this`shareBalance, this`spusdBalance
      ensures usdcBalance == (if v.assets.Some? then FormatUnits(v.assets.value) else old(usdcBalance))
      ensures shareBalance == (if v.shares.Some? then FormatUnits(v.shares.value) else old(shareBalance))
      ensures spusdBalance == if v.preview.Some? then FormatUnits(v.preview.value) else old(spusdBalance)
    {
      if v.assets.Some? { usdcBalance := FormatUnits(v.assets.value); }
      if v.shares.Some? { shareBalance := FormatUnits(v.shares.value); }
      if v.preview.Some? { spusdBalance := FormatUnits(v.preview.value); }
    }

    /** `handleAmountChange`: the keystroke's text is kept only when the filter accepts it. */
    method HandleAmountChange(value: string)
      requires Valid()
      modifies this`amount
      ensures Valid()
      ensures amount == if FilterAccepts(value) then value else old(amount)
    {
      if FilterAccepts(value) {
        amount := value;
      }
    }

    /**
     * `handleDeposit`: the amount guard, then the wallet guard, each showing an
     * error notice; then, while loading, approve followed by deposit.
     */
    method HandleDeposit(w: Wallet, net: Net) returns (started: seq<Refresh>)
      requires Valid()
      modifies this`amount, this`loading, this`notification, net
      ensures Valid()
      ensures RejectedAmount(old(amount)) ==>
        started == [] && notification == Shown(InvalidAmount, Error) &&
        amount == old(amount) && loading == old(loading) && unchanged(net)
      ensures !RejectedAmount(old(amount)) && !CanWrite(w) ==>
        started == [] && notification == Shown(WalletNotConnected, Error) &&
        amount == old(amount) && loading == old(loading) && unchanged(net)
      ensures !RejectedAmount(old(amount)) && CanWrite(w) ==>
        var t := Chained(net.oracle, old(net.next), ApproveCall(w.address, old(amount)), DepositCall(w.address, old(amount)));
        !loading &&
        net.log == old(net.log) + t.requests && net.next == old(net.next) + |t.requests| &&
        net.busy == old(net.busy) + Busy(|t.requests|) &&
        match t.result
        case Confirmed =>
          started == [RefreshVault(old(amount), old(activeTab))] && amount == "" &&
          notification == Shown(DepositedMessage(old(amount)), Success)
        case Failed(e) =>
          started == [] && amount == old(amount) && notification == Shown(ErrorText(e, DepositFallback), Error)
    {
      var entered := amount;
      started := [];
      if RejectedAmount(entered) {
        notification := Shown(InvalidAmount, Error);
        return;
      }
      if !CanWrite(w) {
        notification := Shown(WalletNotConnected, Error);
        return;
      }
      loading := true;
      var r := net.TransactBoth(ApproveCall(w.address, entered), DepositCall(w.address, entered), loading);
      if r.Confirmed? {
        started := [RefreshVault(entered, activeTab)];
        amount := "";
        notification := Shown(DepositedMessage(entered), Success);
      } else {
        notification := Shown(ErrorText(r.thrown, DepositFallback), Error);
      }
      loading := false;
    }

    /**
     * `handleWithdraw`: the same guards; then, while loading, one redeem of the
     * entered number of shares. The success notice names the previewed amount.
     */
    method HandleWithdraw(w: Wallet, net: Net) returns (started: seq<Refresh>)
      requires Valid()
      modifies this`amount, this`loading, this`notification, net
      ensures Valid()
      ensures RejectedAmount(old(amount)) ==>
        started == [] && notification == Shown(InvalidAmount, Error) &&
        amount == old(amount) && loading == old(loading) && unchanged(net)
      ensures !RejectedAmount(old(amount)) && !CanWrite(w) ==>
        started == [] && notification == Shown(WalletNotConnected, Error) &&
        amount == old(amount) && loading == old(loading) && unchanged(net)
      ensures !RejectedAmount(old(amount)) && CanWrite(w) ==>
        var t := Tx(net.oracle, old(net.next), RedeemCall(w.address, old(amount)));
        !loading &&
        net.log == old(net.log) + t.requests && net.next == old(net.next) + |t.requests| &&
        net.busy == old(net.busy) + Busy(|t.requests|) &&
        match t.result
        case Confirmed =>
          started == [RefreshVault(old(amount), old(activeTab))] && amount == "" &&
          notification == Shown(WithdrawnMessage(old(spusdBalance)), Success)
        case Failed(e) =>
          started == [] && amount == old(amount) && notification == Shown(ErrorText(e, WithdrawFallback), Error)
    {
      var entered, preview := amount, spusdBalance;
      started := [];
      if RejectedAmount(entered) {
        notification := Shown(InvalidAmount, Error);
        return;
      }
      if !CanWrite(w) {
        notification := Shown(WalletNotConnected, Error);
        return;
      }
      loading := true;
      var r := net.Transact(RedeemCall(w.address, entered), loading);
      if r.Confirmed? {
        started := [RefreshVault(entered, activeTab)];
        amount := "";
        notification := Shown(WithdrawnMessage(preview), Success);
      } else {
        notification := Shown(ErrorText(r.thrown, WithdrawFallback), Error);
      }
      loading := false;
    }
  }
}
