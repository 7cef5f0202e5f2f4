# Pharos front end: the pages' decision logic in Dafny

This project models the client-side logic of the Pharos restaking front end, a
Next.js application whose pages talk to token, vault, restaking and loan
contracts through wagmi/viem clients. The model covers:

- The six transaction pages: the USDC faucet, the LST faucet, the PUSD mint, the
  sPUSD vault, the restaking screen and the operator screen. For each it covers
  the input filters, the balance and loan fetches, and the transaction handlers.
- The operator registration form and its validation.
- The real-world-asset list page.
- The network and contract registry in `config.ts` and the explorer links built from it.

The pieces:

- **Page state.** Every page's React state is a class whose fields are the `useState`
  variables. Every handler is a method that changes the fields it sets.
- **The chain.** The chain is an oracle (`Chain.Net`). Every awaited client call
  (`readContract`, `simulateContract`, `writeContract`,
  `waitForTransactionReceipt`) is one logged request, answered by the next
  outcome of a fixed script. So each handler's contract states exactly which
  requests it makes, in which order, and what the page shows for every way the
  script can answer.
- **Amounts.** Amounts are exact. `Decimals` defines the text the amount inputs
  accept, JavaScript's `parseFloat` on that text, and viem's `parseUnits(x, 18)` and
  `formatUnits(x, 18)`. It proves the properties the pages rely on:
  - the filter's language;
  - the round trip between the two conversions;
  - which texts the `!amount || parseFloat(amount) <= 0` guard refuses;
  - that comparing `parseFloat` of a formatted balance with `parseFloat` of the
    entered amount compares the exact token units.

Modules: `Wrappers` (Option), `Decimals`, `Chain` and `Ui` (in `chain.dfy`),
`Usdc`, `Lst`, `Mint`, `Spusd`, `Restaking`, `OperatorScreen`, `Registration`,
`Rwa`, `Config`.

## Model

| member | source | states |
|---|---|---|
| Decimals.FilterAcceptsIff | src/app/usdc/page.tsx:52 | The amount filter `value === "" \|\| /^\d*\.?\d*$/` accepts exactly the texts made only of digits and dots with at most one dot (both directions). |
| Decimals.DigitlessAmountText | src/app/usdc/page.tsx:52 | The only accepted texts without a digit are "" and ".". |
| Decimals.DecimalOf | src/app/usdc/page.tsx:59 | The exact value of accepted text has as many decimal places as the text has fraction digits. |
| Decimals.ParseFloatAmountText | src/app/usdc/page.tsx:59 | On accepted text `parseFloat` is NaN exactly for "" and ".", and otherwise the non-negative digit-for-digit value. |
| Decimals.RejectedAmountText | src/app/usdc/page.tsx:59-62 | The guard `!amount \|\| parseFloat(amount) <= 0` refuses accepted text iff it is empty or a zero value other than "."; "." itself gets past it (NaN <= 0 is false). |
| Decimals.NumberTextPastGuard | src/app/operator-screen/page.tsx:268-271 | Text from a number input that gets past the guard is unsigned accepted text, not ".", of positive value: a negative entry never reaches a transaction. |
| Decimals.WeiScaled | src/app/usdc/page.tsx:75 | `parseUnits(x, 18)` is exact within 18 fraction digits: the result is the value times 10^18. |
| Decimals.FormatUnits | src/app/usdc/page.tsx:33 | `formatUnits(n, 18)` is always accepted text with at least one digit (so a balance can be copied into an amount field). |
| Decimals.FormatParts | src/app/usdc/page.tsx:33 | The printed text splits into the integer's decimal digits and the 18-digit padded remainder without its trailing zeros. |
| Decimals.ParseUnitsFormatUnits | src/app/usdc/page.tsx:33 | Round trip: `parseUnits(formatUnits(n, 18), 18) == n` for every n, and the printed text has at most 18 fraction digits. |
| Decimals.FormatUnitsParseUnits | src/app/usdc/page.tsx:75 | Reverse round trip: formatting the units of accepted text with at most 18 fraction digits gives text of the same value. |
| Decimals.ParseFloatFormatUnits | src/app/usdc/page.tsx:33 | `parseFloat` of a formatted balance is a non-negative number that is positive iff the balance is. |
| Decimals.WeiExact | src/app/usdc/page.tsx:75 | Within 18 fraction digits two amounts convert to the same units iff they have the same value. |
| Decimals.BalanceBelowAmount | src/app/mint/page.tsx:92 | `parseFloat(formatUnits(n)) < parseFloat(amount)` holds iff n is below `parseUnits(amount)` (both directions, exact arithmetic). |
| Decimals.BalanceBelowValue | src/app/mint/page.tsx:92 | The same comparison for amount text with any number of fraction digits: it holds iff n times 10^(fraction digits) is below the amount's digits times 10^18 (both directions). |
| Decimals.RoundToMillionths | src/app/spusd/page.tsx:220 | Scaling a value to millionths and converting to units rounds it to the nearest millionth, halves upwards. |
| Decimals.ToFixed6 | src/app/spusd/page.tsx:220 | `toFixed(6)` prints digits, a dot and exactly six digits, and those digits read as millionths are the value rounded to six places, halves upwards. |
| Decimals.FirstZeroTail | src/app/spusd/page.tsx:222 | The leftmost match of `\.?0+$`: a match, with no match before it, or no match at all. |
| Decimals.StripZeroTailFixed | src/app/spusd/page.tsx:222 | `replace(/\.?0+$/, "")` on `toFixed` output removes the whole fraction when it is all zeros, and otherwise exactly the fraction's trailing zeros. |
| Decimals.StrippedMillionths | src/app/spusd/page.tsx:222 | Removing `\.?0+$` from `toFixed(6)` output leaves accepted text with the same integer digits, at most six fraction digits and no trailing zero, worth the same number of millionths. |
| Decimals.FormatNumber | src/app/spusd/page.tsx:214-223 | `formatNumber` gives "0" for NaN and for zero, the "< 0.000001" marker for every other value below one millionth (negative values included), and for the rest accepted text without a trailing fraction zero whose value is the input rounded to millionths, halves upwards. |
| Decimals.FormatNumberShape | src/app/spusd/page.tsx:214-223 | Every output of `formatNumber` is "0", the below-one-millionth marker, an integer, or a decimal whose last fraction digit is not 0. |
| Chain.ErrorText | src/app/usdc/page.tsx:98-102 | A `catch` shows the error's message for an `Error` and the page's fallback text for anything else thrown. |
| Chain.Tx | src/app/usdc/page.tsx:78-90 | A transaction makes one to three requests: simulate, write, wait. It is confirmed iff all three succeed. A failure carries what the failing request threw. |
| Chain.BroadcastOnlyAfterSimulation | src/app/usdc/page.tsx:78-87 | The write request is sent iff the simulation succeeded. |
| Chain.Chained | src/app/mint/page.tsx:99-120 | Two transactions in one `try`: the second starts only after the first is confirmed; confirmed iff all six requests succeed; the failing request's error is reported. |
| Chain.Net.Perform | src/app/usdc/page.tsx:26-31 | An awaited request is appended to the log and answered by the script's next outcome. |
| Chain.Net.ReadWord | src/app/usdc/page.tsx:26-31 | `readContract` logs one read and yields the uint returned, or nothing when it threw. |
| Chain.Net.Transact | src/app/usdc/page.tsx:78-90 | Sending a call performs exactly the requests of `Tx`, each while loading, and returns its result. |
| Chain.Net.TransactBoth | src/app/mint/page.tsx:99-120 | Two awaited transactions perform exactly the requests of `Chained`. |
| Usdc.MintCall | src/app/usdc/page.tsx:75-83 | `mint` is called with `parseUnits(amount, 18)`. |
| Usdc.UsdcMint.constructor | src/app/usdc/page.tsx:11-15 | Initial state: empty amount, balance "0", not loading, no messages. |
| Usdc.UsdcMint.FetchBalance | src/app/usdc/page.tsx:22-37 | Without address or client nothing happens. Otherwise one balanceOf read is logged; a value read becomes the formatted balance; a failed read keeps the old balance. |
| Usdc.UsdcMint.HandleAmountChange | src/app/usdc/page.tsx:49-55 | The keystroke's text is kept iff the filter accepts it; the field always holds accepted text. |
| Usdc.UsdcMint.HandleMint | src/app/usdc/page.tsx:58-106 | A refused amount raises the "valid amount" alert and changes nothing. A missing client sets the wallet error with no request. Otherwise exactly one mint transaction of the entered amount is sent while loading. Confirmation refreshes the balance, clears the amount and names the amount in the success message. A failure keeps the amount and shows the thrown message or the fallback. Loading ends either way. |
| Lst.LstAcceptsIff | src/app/lst/page.tsx:50-60 | The LST filter accepts exactly "" and accepted text with a digit whose value is at most 1,000,000; "." is refused. |
| Lst.MintCall | src/app/lst/page.tsx:80-89 | `mint` is called with `parseUnits(amount, 18)`. |
| Lst.LstMint.constructor | src/app/lst/page.tsx:11-15 | Initial state as declared. |
| Lst.LstMint.FetchBalance | src/app/lst/page.tsx:25-40 | One balanceOf read on the LST token; the formatted value on success, the old balance otherwise. |
| Lst.LstMint.HandleAmountChange | src/app/lst/page.tsx:50-60 | The text is kept iff pattern and bound accept it, so the field never exceeds one million. |
| Lst.LstMint.HandleMint | src/app/lst/page.tsx:63-111 | Refused amount, then missing client, each set the error with no request. Otherwise one mint transaction; on confirmation a refresh, a cleared field and a success message naming the amount; on failure the thrown message or fallback. |
| Mint.InsufficientExact | src/app/mint/page.tsx:91-96 | For a balance that was read and formatted and any non-empty accepted amount, the check `parseFloat(usdcBalance) < parseFloat(amount)` holds iff the balance is below the amount's exact value (compared at a common scale); within 18 fraction digits, iff the balance's units are below `parseUnits(amount)`; "." is never short. |
| Mint.ApproveCall | src/app/mint/page.tsx:99-105 | USDC `approve(PUSD, parseUnits(amount, 18))`. |
| Mint.DepositAndMintCall | src/app/mint/page.tsx:111-117 | PUSD `depositAndMint(parseUnits(amount, 18))`, the same units the approval allowed. |
| Mint.MintPage.EnabledButtonGuard | src/app/mint/page.tsx:235 | While the Mint button (`disabled={loading \|\| !amount}`) is enabled, no request is in flight and the field is non-empty, and `handleMint`'s guard refuses the amount iff its value is zero; "." gets past it. |
| Mint.ReceiveDisplay | src/app/mint/page.tsx:222 | The Receive field is never empty. |
| Mint.ReceiveDisplayOneToOne | src/app/mint/page.tsx:222 | The Receive field shows the entered amount itself when there is one, and in every case text of the same units as will be minted. |
| Mint.MintPage.constructor | src/app/mint/page.tsx:11-16 | Initial state as declared. |
| Mint.MintPage.FetchBalances | src/app/mint/page.tsx:27-53 | The USDC read, then the PUSD read, in one `try`: a failed read ends the refresh and keeps what was already set. |
| Mint.MintPage.HandleAmountChange | src/app/mint/page.tsx:63-69 | The text is kept iff the filter accepts it. |
| Mint.MintPage.HandleMint | src/app/mint/page.tsx:72-136 | Refused amount and missing client set their errors with no request. An insufficient balance sets the balance message and makes no request. Otherwise approve and then depositAndMint of the same units are chained: on confirmation of both a refresh, a cleared field and the success message; on any failure the thrown message or fallback. |
| Spusd.PreviewCall | src/app/spusd/page.tsx:70-91 | The deposit tab previews `previewDeposit` and the withdraw tab `previewRedeem`, both of `parseUnits(amount, 18)`. |
| Spusd.HoldingsReads | src/app/spusd/page.tsx:33-63 | The four reads (PUSD balance, share balance, total assets, total supply) in order, up to the first failure; complete iff all four return a value. |
| Spusd.VaultReads | src/app/spusd/page.tsx:29-95 | A vault refresh makes 1 to 5 reads; the fifth (the preview the tab selects) happens iff the amount is non-empty and the four reads all succeeded. |
| Spusd.ReadHoldings | src/app/spusd/page.tsx:33-63 | The four reads are performed and logged exactly as `HoldingsReads` describes. |
| Spusd.ReadVault | src/app/spusd/page.tsx:29-95 | The reads of a refresh are performed and logged exactly as `VaultReads` describes. |
| Spusd.NoPreviewForEmptyAmount | src/app/spusd/page.tsx:70-91 | With an empty amount no preview is read, on either tab. |
| Spusd.ApproveCall | src/app/spusd/page.tsx:126-132 | PUSD `approve(sPUSD, parseUnits(amount, 18))`. |
| Spusd.DepositCall | src/app/spusd/page.tsx:138-144 | sPUSD `deposit(parseUnits(amount, 18), address)`. |
| Spusd.RedeemCall | src/app/spusd/page.tsx:177-183 | sPUSD `redeem(parseUnits(amount, 18), address, address)`. |
| Spusd.SpusdPage.constructor | src/app/spusd/page.tsx:11-18 | Initial state as declared. |
| Spusd.SpusdPage.SelectTab | src/app/spusd/page.tsx:263-273 | The tab buttons set the active tab. |
| Spusd.SpusdPage.FetchVaultData | src/app/spusd/page.tsx:29-95 | Without address or client nothing happens. Otherwise the reads of `VaultReads` are logged, and each value read is formatted into its field. |
| Spusd.SpusdPage.ShowVault | src/app/spusd/page.tsx:40-90 | Each value read is formatted into its field; a field whose read did not happen keeps its value. |
| Spusd.SpusdPage.HandleAmountChange | src/app/spusd/page.tsx:104-109 | The text is kept iff the filter accepts it. |
| Spusd.SpusdPage.HandleDeposit | src/app/spusd/page.tsx:112-161 | Refused amount and missing client show error notices with no request. Otherwise approve then deposit of the same units are chained; on confirmation a vault refresh, a cleared field and the success notice; on failure the thrown message or fallback. |
| Spusd.SpusdPage.HandleWithdraw | src/app/spusd/page.tsx:164-203 | The same guards; one redeem of the entered shares; the success notice names the previewed amount. |
| Restaking.AddDelegationCall | src/app/restaking-screen/page.tsx:107-112 | `addDelegation(parseUnits(amount, 18))` on the restaking contract. |
| Restaking.RemoveDelegationCall | src/app/restaking-screen/page.tsx:149-154 | `removeDelegation` takes the same argument a delegation of that amount would. |
| Restaking.RestakingScreen.constructor | src/app/restaking-screen/page.tsx:12-21 | Initial state as declared. |
| Restaking.RestakingScreen.SelectTab | src/app/restaking-screen/page.tsx:209-219 | The tab buttons set the active tab. |
| Restaking.RestakingScreen.FetchBalance | src/app/restaking-screen/page.tsx:28-58 | The LST balance read, then (in a nested `try`) the delegated-amount read. A failed first read skips the second. A failed second read keeps the delegated amount and the balance just set. |
| Restaking.RestakingScreen.HandleAmountChange | src/app/restaking-screen/page.tsx:68-74 | The text is kept iff the filter accepts it. |
| Restaking.RestakingScreen.HandleMaxClick | src/app/restaking-screen/page.tsx:77-83 | MAX copies the LST balance on the delegate tab and the delegated amount on the other; the field stays accepted text. |
| Restaking.RestakingScreen.HandleDelegate | src/app/restaking-screen/page.tsx:94-132 | Refused amount and missing client show error notices with no request. Otherwise one addDelegation transaction; on confirmation a refresh, a cleared field and a notice naming the amount; on failure the thrown message or fallback. |
| Restaking.RestakingScreen.HandleUndelegate | src/app/restaking-screen/page.tsx:135-174 | The same guards and outcomes with one removeDelegation transaction. |
| OperatorScreen.UnitsOrZero | src/app/operator-screen/page.tsx:175-177 | A missing or zero tuple element prints as "0", any other as `formatUnits`; always accepted text with a digit. |
| OperatorScreen.DecodeLoan | src/app/operator-screen/page.tsx:174-189 | The loan shown: collateral is the formatted delegated amount; repaid iff element 4 is `true`; the times come from their elements, 0 when missing; the rate is the element's value divided by 100 (0 when missing); amounts are accepted text. |
| OperatorScreen.DecodeLoanReadsBack | src/app/operator-screen/page.tsx:174-189 | Reading the shown amounts back with `parseUnits` gives the contract's loan amount, loaned USDC and delegated units exactly. |
| OperatorScreen.ZeroText | src/app/operator-screen/page.tsx:175-177 | `formatUnits(0, 18)` is "0", the same text the missing-element branch prints. |
| OperatorScreen.ActiveLoanOfResponse | src/app/operator-screen/page.tsx:703-705 | A decoded loan is active iff the contract did not report it repaid and its amount is positive. |
| OperatorScreen.PanelShown | src/app/operator-screen/page.tsx:478-950 | The RWA tab, and only it, shows the RWA overview. |
| OperatorScreen.TabsAgree | src/app/operator-screen/page.tsx:703-705 | The loans, take and repay tabs use one active-loan test: the loans table, the "already have a loan" notice and the repay form appear exactly when a loan is active, and the take form exactly when there is nothing to repay. |
| OperatorScreen.CreateLoanCall | src/app/operator-screen/page.tsx:268-291 | A loan amount past the guard is positive unsigned text, and `createLoan` gets `parseUnits(loanAmount, 18)`. |
| OperatorScreen.RepayLoanCall | src/app/operator-screen/page.tsx:332-338 | `repayLoan` takes no argument. |
| OperatorScreen.MintToOperatorCall | src/app/operator-screen/page.tsx:371-377 | PUSD `mintToOperator(parseUnits("10", 18))`. |
| OperatorScreen.MintToOperatorIsTenTokens | src/app/operator-screen/page.tsx:375 | That argument is exactly 10 · 10^18 units. |
| OperatorScreen.LoanReads | src/app/operator-screen/page.tsx:142-204 | `getLoanDetails`, then `getDelegatedAmount` only when the first read returned a loan tuple. Both values are available iff both reads succeeded. |
| OperatorScreen.ReadLoan | src/app/operator-screen/page.tsx:142-204 | The loan reads are performed and logged exactly as `LoanReads` describes. |
| OperatorScreen.OperatorScreenPage.constructor | src/app/operator-screen/page.tsx:83-96 | Initial state as declared. |
| OperatorScreen.OperatorScreenPage.SelectTab | src/app/operator-screen/page.tsx:441-471 | The tab buttons set the active tab. |
| OperatorScreen.OperatorScreenPage.FetchBalances | src/app/operator-screen/page.tsx:113-139 | The PUSD balance read, then the delegated amount; each success formatted into its field, a failure ends the refresh. |
| OperatorScreen.OperatorScreenPage.FetchActiveLoans | src/app/operator-screen/page.tsx:142-204 | The loan shown becomes the decoded loan exactly when both reads succeed, and is unchanged otherwise. |
| OperatorScreen.OperatorScreenPage.FetchOperatorBalance | src/app/operator-screen/page.tsx:207-222 | With a public client, one PUSD balanceOf read of the operator contract, formatted into the field on success. |
| OperatorScreen.OperatorScreenPage.FetchRepaymentAmount | src/app/operator-screen/page.tsx:225-241 | With a public client, one `calculateRepaymentAmount` read, formatted into the repay field on success. |
| OperatorScreen.OperatorScreenPage.HandleLoanAmountChange | src/app/operator-screen/page.tsx:252-256 | The loan amount takes the input's value and the collateral its computed text. |
| OperatorScreen.OperatorScreenPage.HandleTakeLoan | src/app/operator-screen/page.tsx:265-314 | Refused amount and missing client show error notices with no request. Otherwise one createLoan transaction; on confirmation the loan list and balances are refreshed, both fields cleared and the notice names the amount; on failure the thrown message or fallback. |
| OperatorScreen.OperatorScreenPage.HandleRepayLoan | src/app/operator-screen/page.tsx:317-359 | The same guards on the repayment amount; one repayLoan transaction; on confirmation refreshes, a cleared field and the repaid notice; on failure the thrown message or fallback. |
| OperatorScreen.OperatorScreenPage.HandleMintUSDC | src/app/operator-screen/page.tsx:362-396 | Without wallet client, public client and address, an error notice and no request. Otherwise one mint of ten tokens to the operator contract; on confirmation both balances are refreshed. |
| Registration.TrimStart | src/app/operator-registration/page.tsx:32 | The text left after trimming the start does not begin with white space. |
| Registration.TrimEnd | src/app/operator-registration/page.tsx:32 | The text left after trimming the end does not end with white space. |
| Registration.TrimStartSuffix | src/app/operator-registration/page.tsx:32 | Trimming the start removes a leading run of white space and nothing else: the result is a suffix of the text and what was dropped is all white space. |
| Registration.TrimEndPrefix | src/app/operator-registration/page.tsx:32 | Trimming the end removes a trailing run of white space and nothing else: the result is a prefix of the text and what was dropped is all white space. |
| Registration.BlankIff | src/app/operator-registration/page.tsx:32 | `!s.trim()` holds iff every character of s is ECMAScript white space (both directions). |
| Registration.WithField | src/app/operator-registration/page.tsx:17-23 | The named field takes the value; the other two keep theirs. |
| Registration.AddressCheckIsPrefix | src/app/operator-registration/page.tsx:38-42 | The address check `!trim() \|\| !startsWith("0x")` is equivalent to the prefix test alone. |
| Registration.FirstFailureOrder | src/app/operator-registration/page.tsx:32-48 | The checks run in order: a white-space name is reported first whatever else holds, then an address without "0x", then a white-space metadata URI; a form passing all three is accepted. |
| Registration.RegistrationForm.constructor | src/app/operator-registration/page.tsx:8-15 | Initial state: empty form, not submitting, no messages. |
| Registration.RegistrationForm.HandleChange | src/app/operator-registration/page.tsx:17-23 | Only the named field changes. |
| Registration.RegistrationForm.HandleSubmit | src/app/operator-registration/page.tsx:25-76 | Submitting ends on return. The first failing check's message is the error, with no success and the form as it was. A form passing all checks gets no error and the message naming the operator, and the form is emptied. |
| Rwa.WithField | src/app/rwa/page.tsx:76-82 | The named input takes the value; the other two keep theirs. |
| Rwa.MaxId | src/app/rwa/page.tsx:61 | `Math.max` of the ids bounds every id and is attained. |
| Rwa.AppendKeepsDistinct | src/app/rwa/page.tsx:61-68 | Appending an asset with the new id keeps all ids distinct. |
| Rwa.Shown | src/app/rwa/page.tsx:131-162 | The count is the number of assets; the placeholder appears iff the list is empty; otherwise the table lists the assets in order. |
| Rwa.ShownAfterAppend | src/app/rwa/page.tsx:62-68 | After an addition the count grows by one, the table shows the earlier rows unchanged and the new asset last. |
| Rwa.RwaPage.constructor | src/app/rwa/page.tsx:12-22 | The three initial assets, a closed modal and an empty form; ids distinct. |
| Rwa.RwaPage.OpenModal | src/app/rwa/page.tsx:150 | The + button opens the modal. |
| Rwa.RwaPage.CloseModal | src/app/rwa/page.tsx:290-291 | The modal's Cancel button closes it and changes nothing else. |
| Rwa.RwaPage.HandleInputChange | src/app/rwa/page.tsx:76-82 | Only the named input changes. |
| Rwa.RwaPage.HandleAddAsset | src/app/rwa/page.tsx:45-73 | With an empty input the "fill in all fields" alert is raised and nothing changes. Otherwise exactly one asset with a fresh id is appended, the form is emptied and the modal closed; ids stay distinct. |
| Config.GetContractAddress | src/config.ts:41-54 | The registry's answer always has the shape of an address. |
| Config.UnknownChainGivesZero | src/config.ts:53 | Off Base Sepolia every name maps to the zero address. |
| Config.PharosChainUnregistered | src/definechain.ts:5 | The Pharos chain (50002) the wallet is configured for has no registered contract. |
| Config.NonZeroIff | src/config.ts:33-54 | A non-zero address comes back iff the chain is Base Sepolia and the name is USDC or PUSDC. |
| Config.TokensDistinct | src/config.ts:35-36 | The two registered tokens have different addresses. |
| Config.UrlsIgnoreChain | src/config.ts:67-84 | Every chain id gets the Base Sepolia RPC endpoint and explorer. |
| Config.GetTransactionUrl | src/config.ts:87-89 | The link is the explorer, "/tx/" and the hash. |
| Config.GetAddressUrl | src/config.ts:92-94 | The link is the explorer, "/address/" and the address. |
| Config.AfterPrefix | src/config.ts:87-94 | Splitting a link after an explorer path succeeds iff the link starts with it, and the parts join back to the link. |
| Config.TransactionUrlRoundTrip | src/config.ts:87-89 | A transaction link gives back its hash, and a link that gives a hash is that hash's link. |
| Config.AddressUrlRoundTrip | src/config.ts:92-94 | An address link gives back its address, and a link that gives an address is that address's link. |
| Config.TransactionAndAddressUrlsDiffer | src/config.ts:87-94 | No transaction link equals an address link. |

## Left out

- Floating point: every `parseFloat`, comparison and conversion is modelled on exact decimals, where JavaScript uses binary doubles. `parseFloat` rounds text with more than about 17 significant digits, and most decimal fractions have no exact double, so results can differ from the model: two amounts that differ past the seventeenth significant digit compare equal in JavaScript, and a comparison or `toFixed` near a rounding boundary can come out the other way.
- `parseFloat` forms the inputs cannot produce (leading white space, exponents, `Infinity`) are not modelled. A number input's exponent form is not modelled either: `NumberText` covers only an optional '-' followed by digits and one dot.
- Decimals.ParseUnitsFormatUnits, Decimals.FormatUnitsParseUnits and Decimals.BalanceBelowAmount are stated for at most 18 fraction digits. Beyond that `parseUnits` rounds (modelled as half up), and the exact comparisons no longer hold. Decimals.BalanceBelowValue and Mint.InsufficientExact also state the comparison for any number of fraction digits.
- Decimals.ToFixed6: rounds the exact value, halves upwards. JavaScript's `toFixed` rounds the double nearest the value, so a tie or near-tie can go the other way: for example, `formatUnits` text "1.0000015" prints "1.000001" in JavaScript but "1.000002" in the model. From 10^21 upwards `toFixed` prints exponent form; the model always prints plain digits. The same holds for Decimals.FormatNumber.
- Chain.WordOf: a read that succeeds but returns something other than an unsigned integer is treated like a failed read. The source's `as bigint` casts check nothing at run time, so there the value would flow on unchanged.
- OperatorScreen.OperatorScreenPage.HandleLoanAmountChange: `calculateCollateral` is float arithmetic, so its text is a parameter. The precondition `NumberText(value)` stands for what a `type="number"` input can report.
- OperatorScreen.DecodeLoan: `Number(x) / 100` for the interest rate is kept as the exact value `x / 100`. Loss of precision in `Number()` for large times is not modelled.
- Rwa.RwaPage.HandleAddAsset: the `toLocaleString` and `toFixed` formatting of amount, yield and estimated value is locale- and float-dependent, so the three texts are parameters. `calculateTotalYield` and the page's total-value and yield figures are float sums and are not modelled.
- The vault page's `conversionRate` computation and display are float arithmetic and are not modelled. The preview and balances are.
- Config.GetContractAddress: only the length and the "0x" prefix of an address are stated, not that the 40 characters after it are hexadecimal digits.
- `config.ts`'s `ABIs` table and the chain metadata in `supportedChains` and `definechain.ts` (names, currencies) are data that nothing in the modelled logic reads. Only the ids, URLs and addresses are modelled.
- Timers: the notification auto-dismiss (`setTimeout`) and the registration page's simulated delay and redirect are not modelled. Its `catch` branch is unreachable once the delay is gone, so it is not modelled either.
- React scheduling: `useEffect` triggers, and the interleaving of a fetch started by a handler with later keystrokes, are not modelled. A refresh a handler starts without awaiting it is returned in `started`. A vault refresh carries the amount and tab of the render that started it.
- The contracts themselves: what a call does on chain is an oracle outcome. Addresses come from `ContractAddresses`, which is not part of this model.
- The static pages, the layout, the wallet provider components and the cap-admin page are outside this model.
