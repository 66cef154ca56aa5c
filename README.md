# Market view-model and borrow/repay dialog, in Dafny

This project models two pieces of a lending-market front-end.

**The per-market view-model** is in `ctoken.dfy`, module `CToken`. One market's on-chain reads become a `CTokenInfo` record. The reads are the account snapshot, the totals, the exchange rate, the cash and the comptroller's per-market parameters. The underlying asset is resolved first. It can be:
- the chain's native coin;
- the MKR token, whose `symbol()` and `name()` answer `bytes32`;
- a standard token.

Its price comes from the price oracle. Only the standard-token branch tolerates a failed oracle call: it substitutes price 0. Chain reads are inputs to pure functions. `CTokenInfo` is a class whose on-chain fields are constants fixed by its constructor. Its five busy flags (spinners) are the only mutable fields, and they start false.

**The borrow/repay dialog** is in `borrow_dialog.dfy`, module `BorrowDialog`. A class holds the dialog's six pieces of state:
- the borrow and repay entries;
- their validation messages;
- the full-repay flag;
- the selected tab.

Its methods are the user's actions: editing either entry, "Max" on the Repay tab, choosing a tab, the close icon and a click outside the box. The entries are texts. An entry's validation runs again whenever its text changes, and setting the same text again keeps the old message. The checks themselves are pure functions, and so are the predicates that choose and enable the buttons. The checks see an entry as the parser reads its text: `Empty`, `NotANumber` or `Amount(v)`, with `v` in the token's base units. The parser (`parse`) and the amount-to-text conversion (`format`) are fixed when the dialog is created.

`wrappers.dfy` defines `Option` and `Result`.

## Model

| member | source | states |
|---|---|---|
| `CToken.ToLower` | src/Classes/cTokenClass.tsx:194 | the lower-cased string has the same length and each character is folded to lower case |
| `CToken.KindOf` | src/Classes/cTokenClass.tsx:191-198 | a null or empty underlying address is the native coin; the MKR branch is taken exactly when the lower-cased address equals the MKR address; everything else is a standard token |
| `CToken.MakerDispatchIgnoresCase` | src/Classes/cTokenClass.tsx:194 | two addresses that differ only in the case of letters take the same branch |
| `CToken.GetNativeTokenInfo` | src/Classes/cTokenClass.tsx:200-212 | the native coin has address "0x0", 18 decimals, total supply 0, allowance 2^256-1 and the native balance; its symbol and name are the network's, and its logo is the network symbol's entry; a failed oracle call fails the whole lookup |
| `CToken.GetTokenInfo` | src/Classes/cTokenClass.tsx:214-238 | a standard token's price is the oracle's answer, or 0 when the call fails; its symbol, name, decimals, total supply, wallet balance and allowance are the token's reads, and its logo is its symbol's entry |
| `CToken.GetMakerInfo` | src/Classes/cTokenClass.tsx:240-254 | MKR's symbol and name are decoded from bytes32 and its logo is the "MKR" entry; decimals, total supply, wallet balance and allowance are the token's reads; a failed oracle call fails the lookup |
| `CToken.GetUnderlying` | src/Classes/cTokenClass.tsx:191-198 | the lookup fails exactly when the branch is not the standard token's and the oracle fails; the price is always the oracle's answer or 0; the address, decimals, allowance and balance follow the branch; the result is exactly the native-coin, MKR or standard-token lookup for its branch |
| `CToken.CtokenInfoFields` | src/Classes/cTokenClass.tsx:120-189 | the market fails exactly when its underlying lookup fails. The supplied balance is snapshot[1] × snapshot[3]. Every quote value is its token-unit amount × price. Total supply is totalSupply × exchangeRateStored × price. isEnterMarket holds iff the address is in enteredMarkets. Collateral factor, speed, decimals, allowance and balance are passed through, and underlyingAddress is null for a native market and underlying() otherwise |
| `CToken.ZeroPriceZeroesQuoteValues` | src/Classes/cTokenClass.tsx:128-157 | a zero price makes every price-derived field zero |
| `CToken.OracleFailureDegradesStandardToken` | src/Classes/cTokenClass.tsx:218-225 | a standard-token market whose oracle call fails still yields a view, priced 0, with every quote value 0 and its token-unit fields (supplied balance, borrow balance, total borrows, cash) intact |
| `CToken.MarketViewIsolated` | src/Classes/cTokenClass.tsx:142-161 | a market's view depends on the comptroller only through that market's own entries (its membership of enteredMarkets, its oracle price, collateral factor and speed), so an oracle failure elsewhere cannot change it |
| `CToken.SupplyProductsAreNotRescaled` | src/Classes/cTokenClass.tsx:128-129 | 1000 base units at exchange rate 1.05e18 and price 2e18 give 1050e18 units and 2100e36 in value: the products keep every mantissa |
| `CToken.CTokenInfo.constructor` | src/Classes/cTokenClass.tsx:42-93 | every on-chain field equals its argument and all five spinners are false |
| `CToken.GetCtokenInfo` | src/Classes/cTokenClass.tsx:120-189 | returns a fresh, idle CTokenInfo whose fields are exactly those derived, or the lookup's error |
| `BorrowDialog.ReadEntry` | src/Components/Markets/MarketsDialogs/borrowMarketsDialog.tsx:51-57 | an entry reads as empty exactly for the empty text, as not a number exactly when the parser rejects a non-empty text, and otherwise as the parser's amount |
| `BorrowDialog.BorrowValidation` | src/Components/Markets/MarketsDialogs/borrowMarketsDialog.tsx:50-66 | the message is empty exactly for an empty entry or an acceptable amount. Otherwise the first failing check sets it: not a number, ≤ 0, amount × price above the borrow limit, then above the liquidity. The last two checks apply only with a market |
| `BorrowDialog.RepayValidation` | src/Components/Markets/MarketsDialogs/borrowMarketsDialog.tsx:74-94 | the message is empty exactly for an empty entry or an acceptable amount. Otherwise the first failing check sets it: not a number, ≤ 0, above the borrow balance (skipped for a full repay), then above the wallet balance |
| `BorrowDialog.FullRepaySkipsOnlyBorrowBalanceCheck` | src/Components/Markets/MarketsDialogs/borrowMarketsDialog.tsx:87-91 | with the full-repay flag the borrow-balance message never appears, every other message is unchanged, and the wallet check still applies |
| `BorrowDialog.MaxRepay` | src/Components/Markets/MarketsDialogs/borrowMarketsDialog.tsx:139-150 | the amount is the minimum of the affordable and the full-repay amounts; the flag holds iff the affordable amount covers the full repay; the flag means the amount is the full repay, its absence that it is the affordable amount |
| `BorrowDialog.BorrowButtonDisabled` | src/Components/Markets/MarketsDialogs/borrowMarketsDialog.tsx:197 | Borrow is enabled exactly when the entry is non-empty, its message is empty and no borrow is pending |
| `BorrowDialog.RepayButtonDisabled` | src/Components/Markets/MarketsDialogs/borrowMarketsDialog.tsx:218 | Repay is enabled exactly when the entry is non-empty, its message is empty and no repay is pending |
| `BorrowDialog.ApproveButtonDisabled` | src/Components/Markets/MarketsDialogs/borrowMarketsDialog.tsx:226 | Approve is disabled exactly when there is a market and its repay is pending |
| `BorrowDialog.ShowsRepayButton` | src/Components/Markets/MarketsDialogs/borrowMarketsDialog.tsx:215-216 | Repay is shown instead of Approve iff there is a market and its allowance is > 0 and ≥ the entry, an empty entry counting as 0 |
| `BorrowDialog.EnabledBorrowHasAcceptableAmount` | src/Components/Markets/MarketsDialogs/borrowMarketsDialog.tsx:197 | for the message the borrow check gives for the entry, the market and the account data, an enabled Borrow button means the entry is an amount every borrow check accepts and no borrow is pending |
| `BorrowDialog.EnabledRepayHasAcceptableAmount` | src/Components/Markets/MarketsDialogs/borrowMarketsDialog.tsx:215-218 | for the message the repay check gives for the entry, the market and the flag, a shown, enabled Repay button means the entry is a positive amount within the wallet balance and the allowance, and within the borrow balance unless the repay is full |
| `BorrowDialog.RepayTabLockedWhileRepaying` | src/Components/Markets/MarketsDialogs/borrowMarketsDialog.tsx:218-226 | both Repay and Approve are disabled while the market's repay spinner is set |
| `BorrowDialog.BorrowMarketDialog.constructor` | src/Components/Markets/MarketsDialogs/borrowMarketsDialog.tsx:32-37 | both entries and both messages start empty, the flag false, the Borrow tab selected, and the parser and formatter are the given ones |
| `BorrowDialog.BorrowMarketDialog.EditBorrowInput` | src/Components/Markets/MarketsDialogs/borrowMarketsDialog.tsx:49-71 | the entry becomes the new text; the message is recomputed when the text changed and kept otherwise; nothing else changes |
| `BorrowDialog.BorrowMarketDialog.EditRepayInput` | src/Components/Markets/MarketsDialogs/borrowMarketsDialog.tsx:73-99 | the entry becomes the new text and the full-repay flag is cleared. The message is recomputed without the flag when the text changed, and kept otherwise |
| `BorrowDialog.BorrowMarketDialog.HandleMaxRepay` | src/Components/Markets/MarketsDialogs/borrowMarketsDialog.tsx:139-150 | the entry becomes the text of the MaxRepay amount and the flag its choice. Without a market both bounds are 0. The message is recomputed with the new flag when the text changed, and kept otherwise |
| `BorrowDialog.BorrowMarketDialog.SelectTab` | src/Components/Markets/MarketsDialogs/borrowMarketsDialog.tsx:185-188 | only the tab changes |
| `BorrowDialog.BorrowMarketDialog.CloseDialog` | src/Components/Markets/MarketsDialogs/borrowMarketsDialog.tsx:39-47 | entries and messages become empty, the flag false and the tab 1 |
| `BorrowDialog.BorrowMarketDialog.CloseOnOutsideClick` | src/Components/Markets/MarketsDialogs/borrowMarketsDialog.tsx:106-116 | while a transaction is pending nothing changes and the dialog stays open; otherwise it resets and closes like CloseDialog |

Every dialog method also preserves `Valid()`. Under `Valid()`:
- the tab is 1 or 2;
- each message is one its entry can carry (empty for an empty entry, "must be a number" for a non-number, "> 0" for a non-positive amount, one of the market-dependent ones otherwise);
- the full-repay flag implies that the repay entry is a text `format` produced.

A stored message need not be the one the checks would give now. Validation runs only when the entry's text changes, so a new flag or a refreshed market with the same text keeps the old message. This happens in the source and in the model alike. For example, take a borrow balance of 19 and press Max twice: first with bounds 50 and 20, then with bounds 20 and 25. The second press writes the same text "20" but clears the flag, so the message stays "" while a non-full repay of 20 exceeds the borrow balance. The two `Enabled…` lemmas are therefore stated for the message the check gives for the current entry, market and flag.

## Left out

- The supply and borrow APYs (floating point: `Math.pow`, `toFixed`, `parseUnits`) are a foreign function `apy(ratePerBlock, decimals)`, so the model makes no statement about their values. The block-time constants go with them.
- `handleMaxBorrow`: it divides big integers as floating point and formats with `toFixed(18)`.
- `BorrowValidation`: the borrow-limit check (borrowMarketsDialog.tsx:60) and the liquidity check (:62) both convert their two sides to JavaScript numbers (`+x.toString()`). The model compares exact integers, so it does not capture the precision loss above 2^53: an entry of 10^18+1 base units against a cash of 10^18 passes the source's liquidity check but gets "Amount must be <= liquidity" in the model.
- `ReadEntry`: `parse` stands for two readings of a non-empty text. One is JavaScript's number conversion, which decides "not a number" (`isNaN(+text)`, borrowMarketsDialog.tsx:56 and :80) and the `<= 0` checks. The other is `BigNumber.parseValue`, which gives the amount the later checks use. The model assumes both accept the same texts and give the same amount (texts such as "0x10", "1e3", " 7" or "Infinity" may be read differently by the two). A `parseValue` failure on a text JavaScript reads as a number is not modelled.
- The parser (`BigNumber.parseValue`) and the big-number type's `toString` are not part of this model: they are the dialog's `parse` and `format`. Nothing is assumed about whether `format`'s text parses back to its amount.
- `ShowsRepayButton`: for an entry that is not a number, the source parses the entry to compare it with the allowance. What that parse does is unknown, so the model answers `None` there.
- Every chain read other than the oracle price is taken as answered. The failure of those reads, which propagates in the source, is not modelled.
- `ethers.utils.parseBytes32String` is a foreign total function: its errors for malformed bytes are not modelled. The `Logos` table is a map. The network's symbol and name are given values.
- `ToLower`: case folding is modelled for ASCII letters only. The MKR address contains only ASCII digits and lower-case letters, so non-ASCII folding could only change a comparison if it produced one of those characters.
- Asynchrony is not modelled: `async`/`await` ordering, concurrent aggregation of several markets, and React's effect scheduling beyond "the validation effect runs when its entry's text changes".
- `console.log` diagnostics in the oracle fallback.
- UI and DOM plumbing: rendering, the document `mousedown` listener (`CloseOnOutsideClick` is what a click outside the box does), the body `overflow` style and the parent's `closeBorrowMarketDialog` callback.
- The transaction callbacks `handleBorrow`, `handleRepay` and `handleEnable`, and the code that sets the spinners, live outside these files.
- The account-wide figures are reduced to `totalBorrowLimit`, the only one the modelled code reads.
- `SupplyProductsAreNotRescaled`: the code multiplies the raw mantissas without rescaling, so 1000 base units at an exchange rate of 1.05e18 give 1050e18, not 1050. The model follows the code and does not rescale.
