/**
 * The operator screen: borrow PUSDC against delegated LST, repay the loan, and
 * mint PUSD to the operator account; three of its tabs depend on whether a loan
 * is active.
 */
module OperatorScreen {
  import opened Wrappers
  import opened Decimals
  import opened Chain
  import opened Ui

  const InvalidLoanAmount := "Please enter a valid loan amount"
  const InvalidRepayAmount := "Please enter a valid repayment amount"
  const CreateLoanFallback := "Failed to create loan"
  const RepayFallback := "Failed to repay loan"
  const MintFallback := "Failed to mint PUSD"
  const Repaid := "Successfully repaid loan"
  const MintedToOperator := "Successfully minted PUSD to operator"

  function LoanCreatedMessage(loanAmount: string): string {
    "Successfully created loan for " + loanAmount + " PUSDC"
  }

  // ------------------------------------------------------------ loan details

  /** The `LoanDetails` record the page keeps. */
  datatype LoanDetails = LoanDetails(
    amount: string, interestRate: Decimal, startTime: nat, dueTime: nat,
    isRepaid: bool, collateralAmount: string, loanedUSDCAmount: string)

  /** A uint element used as a condition: missing and `0n` are falsy. */
  predicate Truthy(x: Option<nat>) {
    x.Some? && x.value != 0
  }

  /** The number an element stands for, a missing one counting as zero. */
  function ValueOf(x: Option<nat>): nat {
    if x.Some? then x.value else 0
  }

  /** `x ? formatUnits(x, 18) : "0"`. */
  function UnitsOrZero(x: Option<nat>): (s: string)
    ensures AmountText(s) && s != "" && s != "."
  {
    if Truthy(x) then FormatUnits(x.value) else "0"
  }

  /** The loan tuple, when `getLoanDetails` answered something truthy. */
  function LoanOf(reply: Reply): Option<LoanResponse> {
    match reply
    case Tuple(loan) => Some(loan)
    case Word(n) => if n == 0 then None else Some(LoanResponse(None, None, None, None, None, None, None))
    case Nothing => None
  }

  /**
   * The record `fetchActiveLoans` stores: each element, or its fallback when the
   * element is falsy, the interest rate being the basis-point value over 100; the collateral is the delegated amount just read
   * (`delegatedAmount || "0"`), never the tuple's own collateral element.
   */
  function DecodeLoan(resp: LoanResponse, delegated: nat): (d: LoanDetails)
    ensures d.collateralAmount == FormatUnits(delegated)
    ensures d.isRepaid <==> resp.isRepaid == Some(true)
    ensures d.startTime == ValueOf(resp.startTime) && d.dueTime == ValueOf(resp.dueTime)
    ensures d.interestRate.units == ValueOf(resp.interestRate)
    ensures d.interestRate.units * 100 == ValueOf(resp.interestRate) * Pow10(d.interestRate.scale)
    ensures AmountText(d.amount) && AmountText(d.loanedUSDCAmount)
  {
    var delegatedAmount := FormatUnits(delegated);
    assert Pow10(2) == 100;
    LoanDetails(
      UnitsOrZero(resp.amount),
      if Truthy(resp.interestRate) then Decimal(resp.interestRate.value, 2) else Decimal(0, 0),
      if Truthy(resp.startTime) then resp.startTime.value else 0,
      if Truthy(resp.dueTime) then resp.dueTime.value else 0,
      resp.isRepaid == Some(true),
      if delegatedAmount != "" then delegatedAmount else "0",
      UnitsOrZero(resp.loanedUSDCAmount))
  }

  /** The "0" fallback reads back as zero, so the decoded amounts read back as the response's values. */
  lemma DecodeLoanReadsBack(resp: LoanResponse, delegated: nat)
    ensures ParseUnits(DecodeLoan(resp, delegated).amount) == ValueOf(resp.amount)
    ensures ParseUnits(DecodeLoan(resp, delegated).loanedUSDCAmount) == ValueOf(resp.loanedUSDCAmount)
    ensures ParseUnits(DecodeLoan(resp, delegated).collateralAmount) == delegated
  {
    ParseUnitsFormatUnits(ValueOf(resp.amount));
    ParseUnitsFormatUnits(ValueOf(resp.loanedUSDCAmount));
    ParseUnitsFormatUnits(delegated);
    ZeroText();
  }

  /** `formatUnits(0n, 18)` is "0". */
  lemma ZeroText()
    ensures FormatUnits(0) == "0"
  {
    var w := Pow10(TokenDecimals);
    assert 0 / w == 0 && 0 % w == 0;
    ZeroPadding(TokenDecimals);
    var frac := TrimZerosRight(PadDigits(0, TokenDecimals));
    assert frac == "";
    assert Digits(0) == "0";
  }

  lemma {:induction false} ZeroPadding(w: nat)
    ensures AllZeros(PadDigits(0, w))
  {
    if w > 0 {
      ZeroPadding(w - 1);
      var s := PadDigits(0, w);
      assert s == PadDigits(0, w - 1) + [DigitChar(0)];
      assert forall i | 0 <= i < w - 1 :: s[i] == PadDigits(0, w - 1)[i];
    }
  }

  /** The condition the three loan tabs test: `loanDetails && !loanDetails.isRepaid && parseFloat(loanDetails.amount) > 0`. */
  predicate HasActiveLoan(details: Option<LoanDetails>) {
    details.Some? && !details.value.isRepaid && Positive(ParseFloat(details.value.amount))
  }

  /**
   * For a decoded response, a loan is active iff the tuple does not say it was
   * repaid and its amount element is above zero.
   */
  lemma ActiveLoanOfResponse(resp: LoanResponse, delegated: nat)
    ensures HasActiveLoan(Some(DecodeLoan(resp, delegated))) <==>
      resp.isRepaid != Some(true) && ValueOf(resp.amount) > 0
  {
    ParseFloatFormatUnits(ValueOf(resp.amount));
    ZeroText();
  }

  /** `activeTab`, set by the four tab buttons. */
  datatype Tab = RwaTab | LoansTab | TakeTab | RepayTab

  /** What the selected tab shows. */
  datatype Panel =
    | RwaOverview
    | LoansTable | NoActiveLoans
    | ActiveLoanNotice | TakeLoanForm
    | RepayLoanForm | NoLoanToRepay

  function PanelShown(tab: Tab, details: Option<LoanDetails>): (p: Panel)
    ensures tab == RwaTab <==> p == RwaOverview
  {
    match tab
    case RwaTab => RwaOverview
    case LoansTab => if HasActiveLoan(details) then LoansTable else NoActiveLoans
    case TakeTab => if HasActiveLoan(details) then ActiveLoanNotice else TakeLoanForm
    case RepayTab => if HasActiveLoan(details) then RepayLoanForm else NoLoanToRepay
  }

  /**
   * One condition drives three tabs: the loans table, the notice that replaces
   * the take-loan form, and the repay form are shown for exactly the same loans.
   */
  lemma TabsAgree(details: Option<LoanDetails>)
    ensures PanelShown(LoansTab, details) == LoansTable <==> HasActiveLoan(details)
    ensures PanelShown(TakeTab, details) == ActiveLoanNotice <==> HasActiveLoan(details)
    ensures PanelShown(RepayTab, details) == RepayLoanForm <==> HasActiveLoan(details)
    ensures PanelShown(TakeTab, details) == TakeLoanForm <==> PanelShown(RepayTab, details) == NoLoanToRepay
  {
  }

  // ------------------------------------------------------------ contract calls

  const LoanDetailsCall := Call(None, LoanManager, "getLoanDetails", [])
  const RepaymentAmountCall := Call(None, LoanManager, "calculateRepaymentAmount", [])
  const OperatorBalanceCall := Call(None, PUSD, "balanceOf", [ContractAddress(Operator)])

  function DelegatedOf(account: string): Call {
    Call(None, Eigen, "getDelegatedAmount", [Account(Some(account))])
  }

  /**
   * `createLoan(parseUnits(loanAmount, 18))` on the loan manager, for number
   * input text that passed the loan-amount guard: that text is a positive amount.
   */
  function CreateLoanCall(account: Option<string>, loanAmount: string): (c: Call)
    requires NumberText(loanAmount) && !RejectedAmount(loanAmount)
    ensures AmountText(loanAmount) && DecimalOf(loanAmount).units > 0
    ensures c.target == LoanManager && c.args == [Uint(ParseUnits(loanAmount))]
  {
    NumberTextPastGuard(loanAmount);
    Call(account, LoanManager, "createLoan", [Uint(ParseUnits(loanAmount))])
  }

  /** `repayLoan()`: no argument, whatever the repayment field holds. */
  function RepayLoanCall(account: Option<string>): (c: Call)
    ensures c.target == LoanManager && c.args == []
  {
    Call(account, LoanManager, "repayLoan", [])
  }

  /** `mintToOperator(parseUnits("10", 18))` on PUSD. */
  function MintToOperatorCall(account: Option<string>): (c: Call)
    ensures c.target == PUSD && c.args == [Uint(ParseUnits("10"))]
  {
    Call(account, PUSD, "mintToOperator", [Uint(ParseUnits("10"))])
  }

  /** The operator mint is always ten whole tokens. */
  lemma MintToOperatorIsTenTokens(account: Option<string>)
    ensures MintToOperatorCall(account).args == [Uint(10 * Pow10(TokenDecimals))]
  {
    var s := "10";
    assert LeadingDigits(s) == 2 by {
      assert LeadingDigits(s[1..]) == 1 by { assert LeadingDigits(s[1..][1..]) == 0; }
    }
    assert IntPart(s) == s && FracPart(s) == "";
    assert IntPart(s) + FracPart(s) == s;
    assert NatOf(s) == 10 by { assert s[..1] == "1"; assert NatOf("1") == 1 by { assert "1"[..0] == ""; } }
    assert DecimalOf(s) == Decimal(10, 0);
  }

  /** The refreshes a handler starts without awaiting them. */
  datatype Refresh = RefreshBalances | RefreshActiveLoans | RefreshOperatorBalance

  /**
   * The reads of `fetchActiveLoans`: the loan tuple, then, when it is truthy,
   * the delegated amount; both values when both reads succeeded.
   */
  function LoanReads(oracle: nat -> Outcome, at: nat, account: string): (r: (seq<Request>, Option<(LoanResponse, nat)>))
    ensures 1 <= |r.0| <= 2 && r.0[0] == Read(LoanDetailsCall)
    ensures |r.0| == 2 <==> oracle(at).Ok? && LoanOf(oracle(at).reply).Some?
    ensures |r.0| == 2 ==> r.0[1] == Read(DelegatedOf(account))
    ensures r.1.Some? <==> |r.0| == 2 && WordOf(oracle(at + 1)).Some?
    ensures r.1.Some? ==> r.1.value == (LoanOf(oracle(at).reply).value, WordOf(oracle(at + 1)).value)
  {
    var first := oracle(at);
    if first.Throws? || LoanOf(first.reply).None? then ([Read(LoanDetailsCall)], None)
    else
      var delegated := WordOf(oracle(at + 1));
      ([Read(LoanDetailsCall), Read(DelegatedOf(account))],
       if delegated.None? then None else Some((LoanOf(first.reply).value, delegated.value)))
  }

  /** The requests of `fetchActiveLoans`, in order. */
  method ReadLoan(net: Net, account: string, ghost loading: bool) returns (read: Option<(LoanResponse, nat)>)
    modifies net
    ensures var r := LoanReads(net.oracle, old(net.next), account);
      read == r.1 && net.log == old(net.log) + r.0 && net.next == old(net.next) + |r.0|
  {
    var first := net.Perform(Read(LoanDetailsCall), loading);
    if first.Throws? || LoanOf(first.reply).None? { return None; }
    var delegated := net.ReadWord(DelegatedOf(account), loading);
    if delegated.None? { return None; }
    read := Some((LoanOf(first.reply).value, delegated.value));
  }

  class OperatorScreenPage {
    var activeTab: Tab
    var loanAmount: string
    var collateralAmount: string
    var repayAmount: string
    var loanDetails: Option<LoanDetails>
    var isLoading: bool
    var notification: Notice
    var usdcBalance: string
    var operatorBalance: string
    var delegatedAmount: string

    /**
     * The loan field holds what a number input reports; the repayment field is
     * empty or `formatUnits` text.
     */
    ghost predicate Valid()
      reads this
    {
      NumberText(loanAmount) && AmountText(repayAmount)
    }

    constructor ()
      ensures Valid()
      ensures activeTab == RwaTab && loanAmount == "" && collateralAmount == "" && repayAmount == ""
      ensures loanDetails == None && !isLoading && notification == Hidden
      ensures usdcBalance == "0" && operatorBalance == "0" && delegatedAmount == "0"
    {
      activeTab := RwaTab;
      loanAmount := "";
      collateralAmount := "";
      repayAmount := "";
      loanDetails := None;
      isLoading := false;
      notification := Hidden;
      usdcBalance := "0";
      operatorBalance := "0";
      delegatedAmount := "0";
    }

    /** A tab button: `setActiveTab`. */
    method SelectTab(tab: Tab)
      modifies this`activeTab
      ensures activeTab == tab
    {
      activeTab := tab;
    }

    /** `fetchBalances`: the PUSD balance, then the delegated amount, in one `try`. */
    method FetchBalances(w: Wallet, net: Net)
      modifies this`usdcBalance, this`delegatedAmount, net
      ensures !CanRead(w) ==> usdcBalance == old(usdcBalance) && delegatedAmount == old(delegatedAmount) && unchanged(net)
      ensures CanRead(w) ==>
        var at, account := old(net.next), w.address.value;
        var first, second := WordOf(net.oracle(at)), WordOf(net.oracle(at + 1));
        if first.None? then
          net.log == old(net.log) + [Read(BalanceOf(PUSD, account))] && net.next == at + 1 &&
          usdcBalance == old(usdcBalance) && delegatedAmount == old(delegatedAmount)
        else
          net.log == old(net.log) + [Read(BalanceOf(PUSD, account)), Read(DelegatedOf(account))] &&
          net.next == at + 2 && usdcBalance == FormatUnits(first.value) &&
          delegatedAmount == if second.Some? then FormatUnits(second.value) else old(delegatedAmount)
    {
      if !CanRead(w) { return; }
      var held := net.ReadWord(BalanceOf(PUSD, w.address.value), isLoading);
      if held.None? { return; }
      usdcBalance := FormatUnits(held.value);
      var delegated := net.ReadWord(DelegatedOf(w.address.value), isLoading);
      if delegated.None? { return; }
      delegatedAmount := FormatUnits(delegated.value);
    }

    /** `fetchActiveLoans`: the loan record is replaced only when both reads succeed. */
    method FetchActiveLoans(w: Wallet, net: Net)
      modifies this`loanDetails, net
      ensures !CanRead(w) ==> loanDetails == old(loanDetails) && unchanged(net)
      ensures CanRead(w) ==>
        var r := LoanReads(net.oracle, old(net.next), w.address.value);
        net.log == old(net.log) + r.0 && net.next == old(net.next) + |r.0| &&
        loanDetails == if r.1.Some? then Some(DecodeLoan(r.1.value.0, r.1.value.1)) else old(loanDetails)
    {
      if !CanRead(w) { return; }
      var read := ReadLoan(net, w.address.value, isLoading);
      if read.Some? {
        loanDetails := Some(DecodeLoan(read.value.0, read.value.1));
      }
    }

    /** `fetchOperatorBalance`: needs only the public client. */
    method FetchOperatorBalance(w: Wallet, net: Net)
      modifies this`operatorBalance, net
      ensures !w.publicClient ==> operatorBalance == old(operatorBalance) && unchanged(net)
      ensures w.publicClient ==>
        net.log == old(net.log) + [Read(OperatorBalanceCall)] && net.next == old(net.next) + 1 &&
        operatorBalance == match WordOf(net.oracle(old(net.next)))
                           case Some(n) => FormatUnits(n)
                           case None => old(operatorBalance)
    {
      if !w.publicClient { return; }
      var v := net.ReadWord(OperatorBalanceCall, isLoading);
      if v.Some? {
        operatorBalance := FormatUnits(v.value);
      }
    }

    /** `fetchRepaymentAmount`: needs only the public client; fills the read-only repayment field. */
    method FetchRepaymentAmount(w: Wallet, net: Net)
      requires Valid()
      modifies this`repayAmount, net
      ensures Valid()
      ensures !w.publicClient ==> repayAmount == old(repayAmount) && unchanged(net)
      ensures w.publicClient ==>
        net.log == old(net.log) + [Read(RepaymentAmountCall)] && net.next == old(net.next) + 1 &&
        repayAmount == match WordOf(net.oracle(old(net.next)))
                       case Some(n) => FormatUnits(n)
                       case None => old(repayAmount)
    {
      if !w.publicClient { return; }
      var v := net.ReadWord(RepaymentAmountCall, isLoading);
      if v.Some? {
        repayAmount := FormatUnits(v.value);
      }
    }

    /**
     * `handleLoanAmountChange`: the number input's value is stored unfiltered,
     * with the collateral text computed for it (a float computation this model
     * takes as given).
     */
    method HandleLoanAmountChange(value: string, collateral: string)
      requires Valid() && NumberText(value)
      modifies this`loanAmount, this`collateralAmount
      ensures Valid()
      ensures loanAmount == value && collateralAmount == collateral
    {
      loanAmount := value;
      collateralAmount := collateral;
    }

    /**
     * `handleTakeLoan`: the loan-amount guard, then the client guard, each
     * showing an error notice; then, while loading, one createLoan.
     */
    method HandleTakeLoan(w: Wallet, net: Net) returns (started: seq<Refresh>)
      requires Valid()
      modifies this`loanAmount, this`collateralAmount, this`isLoading, this`notification, net
      ensures Valid()
      ensures RejectedAmount(old(loanAmount)) ==>
        started == [] && notification == Shown(InvalidLoanAmount, Error) && loanAmount == old(loanAmount) &&
        collateralAmount == old(collateralAmount) && isLoading == old(isLoading) && unchanged(net)
      ensures !RejectedAmount(old(loanAmount)) && !CanWrite(w) ==>
        started == [] && notification == Shown(WalletNotConnected, Error) && loanAmount == old(loanAmount) &&
        collateralAmount == old(collateralAmount) && isLoading == old(isLoading) && unchanged(net)
      ensures !RejectedAmount(old(loanAmount)) && CanWrite(w) ==>
        var t := Tx(net.oracle, old(net.next), CreateLoanCall(w.address, old(loanAmount)));
        !isLoading &&
        net.log == old(net.log) + t.requests && net.next == old(net.next) + |t.requests| &&
        net.busy == old(net.busy) + Busy(|t.requests|) &&
        match t.result
        case Confirmed =>
          started == [RefreshBalances, RefreshActiveLoans] && loanAmount == "" && collateralAmount == "" &&
          notification == Shown(LoanCreatedMessage(old(loanAmount)), Success)
        case Failed(e) =>
          started == [] && loanAmount == old(loanAmount) && collateralAmount == old(collateralAmount) &&
          notification == Shown(ErrorText(e, CreateLoanFallback), Error)
    {
      var entered := loanAmount;
      started := [];
      if RejectedAmount(entered) {
        notification := Shown(InvalidLoanAmount, Error);
        return;
      }
      if !CanWrite(w) {
        notification := Shown(WalletNotConnected, Error);
        return;
      }
      isLoading := true;
      var r := net.Transact(CreateLoanCall(w.address, entered), isLoading);
      if r.Confirmed? {
        started := [RefreshBalances, RefreshActiveLoans];
        notification := Shown(LoanCreatedMessage(entered), Success);
        loanAmount := "";
        collateralAmount := "";
      } else {
        notification := Shown(ErrorText(r.thrown, CreateLoanFallback), Error);
      }
      isLoading := false;
    }

    /**
     * `handleRepayLoan`: the repayment field only gates the call; repayLoan
     * takes no argument. The field is cleared once the repayment is confirmed.
     */
    method HandleRepayLoan(w: Wallet, net: Net) returns (started: seq<Refresh>)
      requires Valid()
      modifies this`repayAmount, this`isLoading, this`notification, net
      ensures Valid()
      ensures RejectedAmount(old(repayAmount)) ==>
        started == [] && notification == Shown(InvalidRepayAmount, Error) &&
        repayAmount == old(repayAmount) && isLoading == old(isLoading) && unchanged(net)
      ensures !RejectedAmount(old(repayAmount)) && !CanWrite(w) ==>
        started == [] && notification == Shown(WalletNotConnected, Error) &&
        repayAmount == old(repayAmount) && isLoading == old(isLoading) && unchanged(net)
      ensures !RejectedAmount(old(repayAmount)) && CanWrite(w) ==>
        var t := Tx(net.oracle, old(net.next), RepayLoanCall(w.address));
        !isLoading &&
        net.log == old(net.log) + t.requests && net.next == old(net.next) + |t.requests| &&
        net.busy == old(net.busy) + Busy(|t.requests|) &&
        match t.result
        case Confirmed =>
          started == [RefreshBalances, RefreshActiveLoans] && repayAmount == "" &&
          notification == Shown(Repaid, Success)
        case Failed(e) =>
          started == [] && repayAmount == old(repayAmount) && notification == Shown(ErrorText(e, RepayFallback), Error)
    {
      started := [];
      if RejectedAmount(repayAmount) {
        notification := Shown(InvalidRepayAmount, Error);
        return;
      }
      if !CanWrite(w) {
        notification := Shown(WalletNotConnected, Error);
        return;
      }
      isLoading := true;
      var r := net.Transact(RepayLoanCall(w.address), isLoading);
      if r.Confirmed? {
        started := [RefreshBalances, RefreshActiveLoans];
        notification := Shown(Repaid, Success);
        repayAmount := "";
      } else {
        notification := Shown(ErrorText(r.thrown, RepayFallback), Error);
      }
      isLoading := false;
    }

    /**
     * `handleMintUSDC`: the only handler whose guard also needs a connected
     * address; then, while loading, one mintToOperator of ten tokens.
     */
    method HandleMintUSDC(w: Wallet, net: Net) returns (started: seq<Refresh>)
      modifies this`isLoading, this`notification, net
      ensures !(CanWrite(w) && w.address.Some?) ==>
        started == [] && notification == Shown(WalletNotConnected, Error) &&
        isLoading == old(isLoading) && unchanged(net)
      ensures CanWrite(w) && w.address.Some? ==>
        var t := Tx(net.oracle, old(net.next), MintToOperatorCall(w.address));
        !isLoading &&
        net.log == old(net.log) + t.requests && net.next == old(net.next) + |t.requests| &&
        net.busy == old(net.busy) + Busy(|t.requests|) &&
        match t.result
        case Confirmed =>
          started == [RefreshBalances, RefreshOperatorBalance] && notification == Shown(MintedToOperator, Success)
        case Failed(e) =>
          started == [] && notification == Shown(ErrorText(e, MintFallback), Error)
    {
      started := [];
      if !(CanWrite(w) && w.address.Some?) {
        notification := Shown(WalletNotConnected, Error);
        return;
      }
      isLoading := true;
      var r := net.Transact(MintToOperatorCall(w.address), isLoading);
      if r.Confirmed? {
        started := [RefreshBalances, RefreshOperatorBalance];
        notification := Shown(MintedToOperator, Success);
      } else {
        notification := Shown(ErrorText(r.thrown, MintFallback), Error);
      }
      isLoading := false;
    }
  }
}
