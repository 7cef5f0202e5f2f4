/** The restaking screen: delegate LST to the restaking contract, or take a delegation back. */
module Restaking {
  import opened Wrappers
  import opened Decimals
  import opened Chain
  import opened Ui

  const InvalidAmount := "Please enter a valid amount"
  const DelegateFallback := "Failed to delegate tokens"
  const UndelegateFallback := "Failed to undelegate tokens"

  function DelegatedMessage(amount: string): string {
    "Successfully delegated " + amount + " LST"
  }

  function UndelegatedMessage(amount: string): string {
    "Successfully undelegated " + amount + " LST"
  }

  /** `activeTab`, which the two tab buttons set to "delegate" or "undelegate". */
  datatype Tab = DelegateTab | UndelegateTab

  /** `getDelegatedAmount(address)` on the restaking contract. */
  function DelegatedOf(account: string): Call {
    Call(None, Eigen, "getDelegatedAmount", [Account(Some(account))])
  }

  /** `addDelegation(parseUnits(amount, 18))` on the restaking contract. */
  function AddDelegationCall(account: Option<string>, amount: string): (c: Call)
    requires AmountText(amount)
    ensures c.target == Eigen && c.args == [Uint(ParseUnits(amount))]
  {
    Call(account, Eigen, "addDelegation", [Uint(ParseUnits(amount))])
  }

  /** `removeDelegation(parseUnits(amount, 18))`: the same argument as a delegation. */
  function RemoveDelegationCall(account: Option<string>, amount: string): (c: Call)
    requires AmountText(amount)
    ensures c.target == Eigen && c.args == AddDelegationCall(account, amount).args
  {
    Call(account, Eigen, "removeDelegation", [Uint(ParseUnits(amount))])
  }

  /** The refresh a handler starts without awaiting it. */
  datatype Refresh = RefreshBalance

  class RestakingScreen {
    var balance: string
    var amount: string
    var isLoading: bool
    var activeTab: Tab
    var notification: Notice
    var delegatedAmount: string

    /**
     * The amount field holds text the filter let through or a balance MAX
     * copied in, and balances are `formatUnits` text, so all three are amount text.
     */
    ghost predicate Valid()
      reads this
    {
      AmountText(amount) && AmountText(balance) && AmountText(delegatedAmount)
    }

    constructor ()
      ensures Valid()
      ensures balance == "0" && amount == "" && !isLoading && activeTab == DelegateTab
      ensures notification == Hidden && delegatedAmount == "0"
    {
      balance := "0";
      amount := "";
      isLoading := false;
      activeTab := DelegateTab;
      notification := Hidden;
      delegatedAmount := "0";
    }

    /** A tab button: `setActiveTab`. */
    method SelectTab(tab: Tab)
      modifies this`activeTab
      ensures activeTab == tab
    {
      activeTab := tab;
    }

    /**
     * `fetchBalance`: the LST balance, then, in a nested `try`, the delegated
     * amount. A failed balance read skips the second read; a failed second
     * read keeps the delegated amount and the balance just set.
     */
    method FetchBalance(w: Wallet, net: Net)
      requires Valid()
      modifies this`balance, this`delegatedAmount, net
      ensures Valid()
      ensures !CanRead(w) ==> balance == old(balance) && delegatedAmount == old(delegatedAmount) && unchanged(net)
      ensures CanRead(w) ==>
        var at, account := old(net.next), w.address.value;
        var first, second := WordOf(net.oracle(at)), WordOf(net.oracle(at + 1));
        if first.None? then
          net.log == old(net.log) + [Read(BalanceOf(LST, account))] && net.next == at + 1 &&
          balance == old(balance) && delegatedAmount == old(delegatedAmount)
        else
          net.log == old(net.log) + [Read(BalanceOf(LST, account)), Read(DelegatedOf(account))] &&
          net.next == at + 2 && balance == FormatUnits(first.value) &&
          delegatedAmount == if second.Some? then FormatUnits(second.value) else old(delegatedAmount)
    {
      if !CanRead(w) { return; }
      var held := net.ReadWord(BalanceOf(LST, w.address.value), isLoading);
      if held.None? { return; }
      balance := FormatUnits(held.value);
      var delegated := net.ReadWord(DelegatedOf(w.address.value), isLoading);
      if delegated.None? { return; }
      delegatedAmount := FormatUnits(delegated.value);
    }

    /** `handleAmountChange`: the keystroke's text is kept only when the filter accepts it. */
    method HandleAmountChange(value: string)
      requires Valid()
      modifies this`amount
      ensures Valid()
      ensures amount == if FilterAccepts(value) then value else old(amount)
    {
      if FilterAccepts(value) {
        amount := value;
      }
    }

    /**
     * `handleMaxClick`: the LST balance on the delegate tab, the delegated amount
     * on the other; the input filter is not consulted, yet the field stays amount text.
     */
    method HandleMaxClick()
      requires Valid()
      modifies this`amount
      ensures Valid()
      ensures amount == if activeTab == DelegateTab then balance else delegatedAmount
    {
      if activeTab == DelegateTab {
        amount := balance;
      } else {
        amount := delegatedAmount;
      }
    }

    /**
     * `handleDelegate`: the amount guard, then the wallet guard, each showing an
     * error notice; then, while loading, one addDelegation of the entered amount.
     */
    method HandleDelegate(w: Wallet, net: Net) returns (started: seq<Refresh>)
      requires Valid()
      modifies this`amount, this`isLoading, this`notification, net
      ensures Valid()
      ensures RejectedAmount(old(amount)) ==>
        started == [] && notification == Shown(InvalidAmount, Error) &&
        amount == old(amount) && isLoading == old(isLoading) && unchanged(net)
      ensures !RejectedAmount(old(amount)) && !CanWrite(w) ==>
        started == [] && notification == Shown(WalletNotConnected, Error) &&
        amount == old(amount) && isLoading == old(isLoading) && unchanged(net)
      ensures !RejectedAmount(old(amount)) && CanWrite(w) ==>
        var t := Tx(net.oracle, old(net.next), AddDelegationCall(w.address, old(amount)));
        !isLoading &&
        net.log == old(net.log) + t.requests && net.next == old(net.next) + |t.requests| &&
        net.busy == old(net.busy) + Busy(|t.requests|) &&
        match t.result
        case Confirmed =>
          started == [RefreshBalance] && amount == "" &&
          notification == Shown(DelegatedMessage(old(amount)), Success)
        case Failed(e) =>
          started == [] && amount == old(amount) && notification == Shown(ErrorText(e, DelegateFallback), Error)
    {
      var entered := amount;
      started := [];
      if RejectedAmount(entered) {
        notification := Shown(InvalidAmount, Error);
        return;
      }
      if !CanWrite(w) {
        notification := Shown(WalletNotConnected, Error);
        return;
      }
      isLoading := true;
      var r := net.Transact(AddDelegationCall(w.address, entered), isLoading);
      if r.Confirmed? {
        started := [RefreshBalance];
        notification := Shown(DelegatedMessage(entered), Success);
        amount := "";
      } else {
        notification := Shown(ErrorText(r.thrown, DelegateFallback), Error);
      }
      isLoading := false;
    }

    /**
     * `handleUndelegate`: the same guards; then, while loading, one
     * removeDelegation of the entered amount.
     */
    method HandleUndelegate(w: Wallet, net: Net) returns (started: seq<Refresh>)
      requires Valid()
      modifies this`amount, this`isLoading, this`notification, net
      ensures Valid()
      ensures RejectedAmount(old(amount)) ==>
        started == [] && notification == Shown(InvalidAmount, Error) &&
        amount == old(amount) && isLoading == old(isLoading) && unchanged(net)
      ensures !RejectedAmount(old(amount)) && !CanWrite(w) ==>
        started == [] && notification == Shown(WalletNotConnected, Error) &&
        amount == old(amount) && isLoading == old(isLoading) && unchanged(net)
      ensures !RejectedAmount(old(amount)) && CanWrite(w) ==>
        var t := Tx(net.oracle, old(net.next), RemoveDelegationCall(w.address, old(amount)));
        !isLoading &&
        net.log == old(net.log) + t.requests && net.next == old(net.next) + |t.requests| &&
        net.busy == old(net.busy) + Busy(|t.requests|) &&
        match t.result
        case Confirmed =>
          started == [RefreshBalance] && amount == "" &&
          notification == Shown(UndelegatedMessage(old(amount)), Success)
        case Failed(e) =>
          started == [] && amount == old(amount) && notification == Shown(ErrorText(e, UndelegateFallback), Error)
    {
      var entered := amount;
      started := [];
      if RejectedAmount(entered) {
        notification := Shown(InvalidAmount, Error);
        return;
      }
      if !CanWrite(w) {
        notification := Shown(WalletNotConnected, Error);
        return;
      }
      isLoading := true;
      var r := net.Transact(RemoveDelegationCall(w.address, entered), isLoading);
      if r.Confirmed? {
        started := [RefreshBalance];
        notification := Shown(UndelegatedMessage(entered), Success);
        amount := "";
      } else {
        notification := Shown(ErrorText(r.thrown, UndelegateFallback), Error);
      }
      isLoading := false;
    }
  }
}
