/**
 * The pages' view of the chain. Every `await` on a wagmi/viem client
 * (`readContract`, `simulateContract`, `writeContract`,
 * `waitForTransactionReceipt`) is one request to a `Net`, which records it and
 * answers with the next outcome of a fixed script: the chain and the wallet are
 * an oracle, and nothing of what the contracts compute is modelled.
 */
module Chain {
  import opened Wrappers

  /** The deployed contracts the pages name (their addresses are not part of this model). */
  datatype Contract = USDC | PUSD | LST | SPUSD | Eigen | LoanManager | Operator

  /** A call argument: a token amount in units of 10^-18, a contract's address, or the connected account. */
  datatype Arg = Uint(n: nat) | ContractAddress(c: Contract) | Account(a: Option<string>)

  /** A contract function call; `sender` is the `account` a transaction is sent from (None for reads). */
  datatype Call = Call(sender: Option<string>, target: Contract, name: string, args: seq<Arg>)

  /** `balanceOf(account)` on a token contract. */
  function BalanceOf(token: Contract, account: string): Call {
    Call(None, token, "balanceOf", [Account(Some(account))])
  }

  /** The four kinds of awaited request. */
  datatype Request = Read(call: Call) | Simulate(call: Call) | Write(call: Call) | WaitReceipt(call: Call)

  /** The 7-tuple `getLoanDetails()` answers; a missing element is None. */
  datatype LoanResponse = LoanResponse(
    amount: Option<nat>, interestRate: Option<nat>, startTime: Option<nat>, dueTime: Option<nat>,
    isRepaid: Option<bool>, collateral: Option<nat>, loanedUSDCAmount: Option<nat>)

  /** What a request that succeeded returned: a uint, a loan tuple, or a falsy value. */
  datatype Reply = Word(n: nat) | Tuple(loan: LoanResponse) | Nothing

  /** What a failed request threw: an `Error` (which has a message) or any other value. */
  datatype Thrown = ErrorObject(message: string) | NonError

  datatype Outcome = Ok(reply: Reply) | Throws(thrown: Thrown)

  /** The wallet state a page sees: `walletClient`, `publicClient` and `address`, each possibly absent. */
  datatype Wallet = Wallet(walletClient: bool, publicClient: bool, address: Option<string>)

  /** The write guard of every handler: `walletClient && publicClient`. */
  predicate CanWrite(w: Wallet) { w.walletClient && w.publicClient }

  /** The guard of every fetch: `address && publicClient`. */
  predicate CanRead(w: Wallet) { w.address.Some? && w.publicClient }

  const WalletNotConnected := "Wallet not connected properly"

  /** The message a `catch` block shows: `err instanceof Error ? err.message : fallback`. */
  function ErrorText(e: Thrown, fallback: string): (m: string)
    ensures e.NonError? ==> m == fallback
    ensures e.ErrorObject? ==> m == e.message
  {
    match e
    case ErrorObject(message) => message
    case NonError => fallback
  }

  /** The uint a read returned, if it succeeded with one. */
  function WordOf(o: Outcome): Option<nat> {
    if o.Ok? && o.reply.Word? then Some(o.reply.n) else None
  }

  datatype TxResult = Confirmed | Failed(thrown: Thrown)

  /** A simulate–write–wait sequence: its result and the requests it made. */
  datatype TxRun = TxRun(result: TxResult, requests: seq<Request>)

  /**
   * What sending `call` does when the script's next outcomes are those from `at`
   * on: simulate, then write the simulated request, then wait for its receipt,
   * stopping at the first request that throws.
   */
  function Tx(oracle: nat -> Outcome, at: nat, call: Call): (t: TxRun)
    ensures 1 <= |t.requests| <= 3 && t.requests == [Simulate(call), Write(call), WaitReceipt(call)][..|t.requests|]
    ensures t.result.Confirmed? <==> oracle(at).Ok? && oracle(at + 1).Ok? && oracle(at + 2).Ok?
    ensures t.result.Failed? ==> Throws(t.result.thrown) == oracle(at + |t.requests| - 1)
    ensures t.result.Confirmed? ==> |t.requests| == 3
  {
    var steps := [Simulate(call), Write(call), WaitReceipt(call)];
    if oracle(at).Throws? then TxRun(Failed(oracle(at).thrown), steps[..1])
    else if oracle(at + 1).Throws? then TxRun(Failed(oracle(at + 1).thrown), steps[..2])
    else if oracle(at + 2).Throws? then TxRun(Failed(oracle(at + 2).thrown), steps)
    else TxRun(Confirmed, steps)
  }

  /** A transaction is broadcast only when its simulation succeeded. */
  lemma BroadcastOnlyAfterSimulation(oracle: nat -> Outcome, at: nat, call: Call)
    ensures Write(call) in Tx(oracle, at, call).requests <==> oracle(at).Ok?
  {
    var t := Tx(oracle, at, call);
    if oracle(at).Throws? {
      assert t.requests == [Simulate(call)];
    } else {
      assert t.requests[1] == Write(call);
    }
  }

  /** `n` requests all made while the page showed its loading state. */
  function Busy(n: nat): (b: seq<bool>)
    ensures |b| == n && forall i | 0 <= i < n :: b[i]
  {
    seq(n, _ => true)
  }

  /**
   * Two transactions in one `try`: the second is simulated only once the first
   * one's receipt has arrived, and a failure anywhere ends the sequence.
   */
  function Chained(oracle: nat -> Outcome, at: nat, first: Call, second: Call): (t: TxRun)
    ensures t.result.Confirmed? <==> forall k | at <= k < at + 6 :: oracle(k).Ok?
    ensures 1 <= |t.requests| <= 6
    ensures |t.requests| > 3 <==> Tx(oracle, at, first).result.Confirmed?
    ensures |t.requests| <= 3 ==> t == Tx(oracle, at, first)
    ensures |t.requests| > 3 ==>
      t.requests[..4] == [Simulate(first), Write(first), WaitReceipt(first), Simulate(second)]
    ensures t.result.Failed? ==> Throws(t.result.thrown) == oracle(at + |t.requests| - 1)
  {
    var a := Tx(oracle, at, first);
    if a.result.Failed? then a
    else
      var b := Tx(oracle, at + 3, second);
      TxRun(b.result, a.requests + b.requests)
  }

  /**
   * The chain as the pages reach it through their clients: a scripted oracle,
   * the log of requests made, and (ghost) the page's loading flag at each request.
   */
  class Net {
    const oracle: nat -> Outcome
    var log: seq<Request>
    var next: nat
    ghost var busy: seq<bool>

    constructor (script: nat -> Outcome)
      ensures oracle == script && log == [] && next == 0 && busy == []
    {
      oracle := script;
      log := [];
      next := 0;
      busy := [];
    }

    /** One awaited request: it is logged and answered by the next outcome of the script. */
    method Perform(r: Request, ghost loading: bool) returns (o: Outcome)
      modifies this
      ensures log == old(log) + [r] && next == old(next) + 1 && busy == old(busy) + [loading]
      ensures o == oracle(old(next))
    {
      o := oracle(next);
      log := log + [r];
      next := next + 1;
      busy := busy + [loading];
    }

    /** `readContract`: the uint it returned, or None when it threw or returned something else. */
    method ReadWord(call: Call, ghost loading: bool) returns (v: Option<nat>)
      modifies this
      ensures log == old(log) + [Read(call)] && next == old(next) + 1 && busy == old(busy) + [loading]
      ensures v == WordOf(oracle(old(next)))
    {
      var o := Perform(Read(call), loading);
      v := WordOf(o);
    }

    /** `simulateContract`, `writeContract`, `waitForTransactionReceipt` in turn, up to the first that throws. */
    method Transact(call: Call, ghost loading: bool) returns (r: TxResult)
      modifies this
      ensures var t := Tx(oracle, old(next), call);
        r == t.result && log == old(log) + t.requests && next == old(next) + |t.requests| &&
        busy == old(busy) + seq(|t.requests|, _ => loading)
    {
      var o := Perform(Simulate(call), loading);
      if o.Throws? { return Failed(o.thrown); }
      o := Perform(Write(call), loading);
      if o.Throws? { return Failed(o.thrown); }
      o := Perform(WaitReceipt(call), loading);
      if o.Throws? { return Failed(o.thrown); }
      r := Confirmed;
    }

    /** Two transactions awaited one after the other inside one `try`. */
    method TransactBoth(first: Call, second: Call, ghost loading: bool) returns (r: TxResult)
      modifies this
      ensures var t := Chained(oracle, old(next), first, second);
        r == t.result && log == old(log) + t.requests && next == old(next) + |t.requests| &&
        busy == old(busy) + seq(|t.requests|, _ => loading)
    {
      r := Transact(first, loading);
      if r.Confirmed? {
        r := Transact(second, loading);
      }
    }
  }
}

/** The feedback a page shows. */
module Ui {
  datatype Kind = Success | Error

  /** The `notification` state: hidden, or shown with a message and a kind. */
  datatype Notice = Hidden | Shown(message: string, kind: Kind)
}
