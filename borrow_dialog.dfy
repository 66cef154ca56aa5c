/**
 * The borrow/repay dialog of one market: two text entries, the message each entry's
 * validation produced, the full-repay flag and the selected tab, with the checks that
 * produce the messages and the predicates that choose and enable the buttons.
 *
 * An entry is the text the user typed. The checks see it as the parser reads it: empty,
 * not a number, or an amount already in the token's base units.
 */
module BorrowDialog {
  import opened Wrappers
  import opened CToken

  /** An entry as the checks see it */
  datatype Input = Empty | NotANumber | Amount(value: int)

  /**
   * How the checks read an entry's text. The empty text is tested first. `parse` then stands for
   * both readings the checks make of a non-empty text: the number test (None when the text is not
   * a number) and the big-number parser (the amount in base units otherwise).
   */
  function ReadEntry(text: string, parse: string -> Option<int>): (e: Input)
    ensures e.Empty? <==> text == ""
    ensures e.NotANumber? <==> text != "" && parse(text).None?
    ensures e.Amount? ==> Some(e.value) == parse(text)
  {
    if text == "" then Empty
    else match parse(text)
      case None => NotANumber
      case Some(v) => Amount(v)
  }

  /** The account-wide figures the dialog reads (the borrow limit, over all markets) */
  datatype GeneralData = GeneralData(totalBorrowLimit: int)

  const BorrowTab: int := 1
  const RepayTab: int := 2

  const MustBeNumber: string := "Amount must be a number"
  const MustBePositive: string := "Amount must be > 0"
  const MustBeWithinBorrowLimit: string := "Amount must be <= borrow limit"
  const MustBeWithinLiquidity: string := "Amount must be <= liquidity"
  const MustBeWithinBorrowBalance: string := "Amount must be <= your borrow balance"
  const MustBeWithinBalance: string := "Amount must be <= balance"

  // ---------------------------------------------------------------------------
  // Borrow validation
  // ---------------------------------------------------------------------------

  /** The amounts the Borrow tab accepts */
  predicate BorrowAcceptable(amount: int, market: CTokenInfo?, generalData: Option<GeneralData>) {
    && amount > 0
    && (market != null && generalData.Some? ==> amount * market.underlyingPrice <= generalData.value.totalBorrowLimit)
    && (market != null ==> amount <= market.underlyingAmount)
  }

  /** The messages an entry can carry whatever the market: only the last ones depend on it */
  ghost predicate BorrowMessageFits(input: Input, msg: string) {
    match input
    case Empty => msg == ""
    case NotANumber => msg == MustBeNumber
    case Amount(v) =>
      if v <= 0 then msg == MustBePositive
      else msg == "" || msg == MustBeWithinBorrowLimit || msg == MustBeWithinLiquidity
  }

  /** The borrow entry's message: the first failing check wins */
  function BorrowValidation(input: Input, market: CTokenInfo?, generalData: Option<GeneralData>): (msg: string)
    ensures BorrowMessageFits(input, msg)
    ensures msg == "" <==> input.Empty? || (input.Amount? && BorrowAcceptable(input.value, market, generalData))
    ensures msg == MustBeWithinBorrowLimit <==>
      input.Amount? && input.value > 0 && market != null && generalData.Some?
      && input.value * market.underlyingPrice > generalData.value.totalBorrowLimit
    ensures msg == MustBeWithinLiquidity <==>
      input.Amount? && input.value > 0 && market != null && input.value > market.underlyingAmount
      && !(generalData.Some? && input.value * market.underlyingPrice > generalData.value.totalBorrowLimit)
  {
    match input
    case Empty => ""
    case NotANumber => MustBeNumber
    case Amount(v) =>
      if v <= 0 then MustBePositive
      else if market != null && generalData.Some? && v * market.underlyingPrice > generalData.value.totalBorrowLimit
      then MustBeWithinBorrowLimit
      else if market != null && v > market.underlyingAmount then MustBeWithinLiquidity
      else ""
  }

  // ---------------------------------------------------------------------------
  // Repay validation
  // ---------------------------------------------------------------------------

  /** The amounts the Repay tab accepts; a full repay may exceed the recorded borrow balance */
  predicate RepayAcceptable(amount: int, market: CTokenInfo?, isFullRepay: bool) {
    && amount > 0
    && (!isFullRepay && market != null ==> amount <= market.borrowBalanceInTokenUnit)
    && (market != null ==> amount <= market.walletBalance)
  }

  ghost predicate RepayMessageFits(input: Input, msg: string) {
    match input
    case Empty => msg == ""
    case NotANumber => msg == MustBeNumber
    case Amount(v) =>
      if v <= 0 then msg == MustBePositive
      else msg == "" || msg == MustBeWithinBorrowBalance || msg == MustBeWithinBalance
  }

  /** The repay entry's message: the first failing check wins */
  function RepayValidation(input: Input, market: CTokenInfo?, isFullRepay: bool): (msg: string)
    ensures RepayMessageFits(input, msg)
    ensures msg == "" <==> input.Empty? || (input.Amount? && RepayAcceptable(input.value, market, isFullRepay))
    ensures msg == MustBeWithinBorrowBalance <==>
      input.Amount? && input.value > 0 && !isFullRepay && market != null
      && input.value > market.borrowBalanceInTokenUnit
    ensures msg == MustBeWithinBalance <==>
      input.Amount? && input.value > 0 && market != null && input.value > market.walletBalance
      && (isFullRepay || input.value <= market.borrowBalanceInTokenUnit)
  {
    match input
    case Empty => ""
    case NotANumber => MustBeNumber
    case Amount(v) =>
      if v <= 0 then MustBePositive
      else if !isFullRepay && market != null && v > market.borrowBalanceInTokenUnit then MustBeWithinBorrowBalance
      else if market != null && v > market.walletBalance then MustBeWithinBalance
      else ""
  }

  /** The full-repay flag turns off the borrow-balance check and nothing else */
  lemma FullRepaySkipsOnlyBorrowBalanceCheck(input: Input, market: CTokenInfo?)
    ensures RepayValidation(input, market, true) != MustBeWithinBorrowBalance
    ensures RepayValidation(input, market, false) != MustBeWithinBorrowBalance ==>
      RepayValidation(input, market, true) == RepayValidation(input, market, false)
    ensures input.Amount? && input.value > 0 && market != null && input.value > market.walletBalance ==>
      RepayValidation(input, market, true) == MustBeWithinBalance
  {
  }

  // ---------------------------------------------------------------------------
  // Max repay
  // ---------------------------------------------------------------------------

  datatype MaxRepayChoice = MaxRepayChoice(amount: int, isFullRepay: bool)

  /** The smaller of what the wallet affords and what repays the whole debt, and which one it was */
  function MaxRepay(maxAffordable: int, fullRepayAmount: int): (c: MaxRepayChoice)
    ensures c.amount <= maxAffordable && c.amount <= fullRepayAmount
    ensures c.amount == maxAffordable || c.amount == fullRepayAmount
    ensures c.isFullRepay <==> maxAffordable >= fullRepayAmount
    ensures c.isFullRepay ==> c.amount == fullRepayAmount
    ensures !c.isFullRepay ==> c.amount == maxAffordable
  {
    MaxRepayChoice(if maxAffordable <= fullRepayAmount then maxAffordable else fullRepayAmount,
                   maxAffordable >= fullRepayAmount)
  }

  // ---------------------------------------------------------------------------
  // Buttons
  // ---------------------------------------------------------------------------

  /** The Borrow button is disabled */
  function BorrowButtonDisabled(borrowInput: string, borrowValidation: string, market: CTokenInfo?): (disabled: bool)
    reads market
    ensures !disabled <==> borrowInput != "" && borrowValidation == "" && (market == null || !market.borrowSpinner)
  {
    borrowInput == "" || borrowValidation != "" || (market != null && market.borrowSpinner)
  }

  /** The Repay button is disabled */
  function RepayButtonDisabled(repayInput: string, repayValidation: string, market: CTokenInfo?): (disabled: bool)
    reads market
    ensures !disabled <==> repayInput != "" && repayValidation == "" && (market == null || !market.repaySpinner)
  {
    repayInput == "" || repayValidation != "" || (market != null && market.repaySpinner)
  }

  /** The Approve button is disabled */
  function ApproveButtonDisabled(market: CTokenInfo?): (disabled: bool)
    reads market
    ensures disabled <==> market != null && market.repaySpinner
  {
    market != null && market.repaySpinner
  }

  /**
   * Whether the Repay tab shows Repay (Some(true)) or Approve (Some(false)). An empty entry
   * counts as 0. None: the choice needs the parsed value of an entry that is not a number.
   */
  function ShowsRepayButton(repayInput: Input, market: CTokenInfo?): (shown: Option<bool>)
    ensures shown == Some(true) <==>
      market != null && market.underlyingAllowance > 0
      && (repayInput.Empty? || (repayInput.Amount? && market.underlyingAllowance >= repayInput.value))
    ensures shown.None? <==> market != null && market.underlyingAllowance > 0 && repayInput.NotANumber?
  {
    if market == null || market.underlyingAllowance <= 0 then Some(false)
    else match repayInput
      case Empty => Some(true)
      case NotANumber => None
      case Amount(v) => Some(market.underlyingAllowance >= v)
  }

  /**
   * With the message the borrow check gives for the entry, the market and the account data,
   * an enabled Borrow button means the entry is an amount every borrow check accepts
   */
  lemma EnabledBorrowHasAcceptableAmount(text: string, parse: string -> Option<int>, market: CTokenInfo?,
                                         generalData: Option<GeneralData>)
    requires !BorrowButtonDisabled(text, BorrowValidation(ReadEntry(text, parse), market, generalData), market)
    ensures parse(text).Some? && BorrowAcceptable(parse(text).value, market, generalData)
    ensures market != null ==> !market.borrowSpinner
  {
  }

  /** While the market's repay is pending, whichever button the Repay tab shows is disabled */
  lemma RepayTabLockedWhileRepaying(text: string, validation: string, market: CTokenInfo?)
    requires market != null && market.repaySpinner
    ensures ApproveButtonDisabled(market) && RepayButtonDisabled(text, validation, market)
  {
  }

  /**
   * With the message the repay check gives for the entry, the market and the flag, an enabled,
   * shown Repay button means the entry is an amount within the wallet and the allowance
   */
  lemma EnabledRepayHasAcceptableAmount(text: string, parse: string -> Option<int>, market: CTokenInfo?,
                                        isFullRepay: bool)
    requires ShowsRepayButton(ReadEntry(text, parse), market) == Some(true)
    requires !RepayButtonDisabled(text, RepayValidation(ReadEntry(text, parse), market, isFullRepay), market)
    ensures parse(text).Some? && RepayAcceptable(parse(text).value, market, isFullRepay)
    ensures market != null && parse(text).value <= market.underlyingAllowance && !market.repaySpinner
  {
  }

  // ---------------------------------------------------------------------------
  // The dialog's state
  // ---------------------------------------------------------------------------

  /**
   * The dialog's state. `parse` (how a non-empty entry is read, see ReadEntry) and `format`
   * (an amount's decimal text) are fixed for the dialog's lifetime.
   */
  class BorrowMarketDialog {
    const parse: string -> Option<int>
    const format: int -> string
    var borrowInput: string
    var repayInput: string
    var borrowValidation: string
    var repayValidation: string
    var tabChange: int
    var isFullRepay: bool

    /** Each message fits its entry, the tab is one of the two, and a full repay holds the text Max wrote */
    ghost predicate Valid()
      reads this
    {
      && (tabChange == BorrowTab || tabChange == RepayTab)
      && BorrowMessageFits(ReadEntry(borrowInput, parse), borrowValidation)
      && RepayMessageFits(ReadEntry(repayInput, parse), repayValidation)
      && (isFullRepay ==> exists v :: repayInput == format(v))
    }

    constructor(parse: string -> Option<int>, format: int -> string)
      ensures Valid()
      ensures this.parse == parse && this.format == format
      ensures borrowInput == "" && repayInput == ""
      ensures borrowValidation == "" && repayValidation == ""
      ensures tabChange == BorrowTab && !isFullRepay
    {
      this.parse, this.format := parse, format;
      borrowInput, repayInput := "", "";
      borrowValidation, repayValidation := "", "";
      tabChange, isFullRepay := BorrowTab, false;
    }

    /** The state every close leaves behind */
    ghost predicate Reset()
      reads this
    {
      && borrowInput == "" && repayInput == ""
      && borrowValidation == "" && repayValidation == ""
      && !isFullRepay && tabChange == BorrowTab
    }

    /**
     * The user edits the borrow entry. Its validation runs again when the text changed; setting
     * the same text again leaves the message as it was.
     */
    method EditBorrowInput(text: string, market: CTokenInfo?, generalData: Option<GeneralData>)
      requires Valid()
      modifies this
      ensures Valid()
      ensures borrowInput == text
      ensures borrowValidation ==
        if text == old(borrowInput) then old(borrowValidation)
        else BorrowValidation(ReadEntry(text, parse), market, generalData)
      ensures repayInput == old(repayInput) && repayValidation == old(repayValidation)
      ensures tabChange == old(tabChange) && isFullRepay == old(isFullRepay)
    {
      if text != borrowInput {
        borrowValidation := BorrowValidation(ReadEntry(text, parse), market, generalData);
      }
      borrowInput := text;
    }

    /**
     * The user edits the repay entry: the edit clears the full-repay flag, and validation
     * runs again, without it, when the text changed.
     */
    method EditRepayInput(text: string, market: CTokenInfo?)
      requires Valid()
      modifies this
      ensures Valid()
      ensures repayInput == text && !isFullRepay
      ensures repayValidation ==
        if text == old(repayInput) then old(repayValidation) else RepayValidation(ReadEntry(text, parse), market, false)
      ensures borrowInput == old(borrowInput) && borrowValidation == old(borrowValidation)
      ensures tabChange == old(tabChange)
    {
      isFullRepay := false;
      if text != repayInput {
        repayValidation := RepayValidation(ReadEntry(text, parse), market, false);
      }
      repayInput := text;
    }

    /**
     * "Max" on the Repay tab. maxAmount and maxRepayAmount are what getMaxAmount and
     * getMaxRepayAmount answer for the market; without a market both are 0. The entry becomes
     * the chosen amount's text, and validation runs again, with the new flag, when that text
     * differs from the entry's.
     */
    method HandleMaxRepay(market: CTokenInfo?, maxAmount: int, maxRepayAmount: int)
      requires Valid()
      modifies this
      ensures Valid()
      ensures var choice := MaxRepay(if market != null then maxAmount else 0,
                                     if market != null then maxRepayAmount else 0);
        repayInput == format(choice.amount) && isFullRepay == choice.isFullRepay
      ensures repayValidation ==
        if repayInput == old(repayInput) then old(repayValidation)
        else RepayValidation(ReadEntry(repayInput, parse), market, isFullRepay)
      ensures borrowInput == old(borrowInput) && borrowValidation == old(borrowValidation)
      ensures tabChange == old(tabChange)
    {
      var maxAffordable := if market != null then maxAmount else 0;
      var fullRepayAmount := if market != null then maxRepayAmount else 0;
      var choice := MaxRepay(maxAffordable, fullRepayAmount);
      isFullRepay := choice.isFullRepay;
      var text := format(choice.amount);
      if text != repayInput {
        repayValidation := RepayValidation(ReadEntry(text, parse), market, isFullRepay);
      }
      repayInput := text;
    }

    /** A tab header is clicked */
    method SelectTab(tabId: int)
      requires Valid()
      requires tabId == BorrowTab || tabId == RepayTab
      modifies this
      ensures Valid()
      ensures tabChange == tabId
      ensures borrowInput == old(borrowInput) && repayInput == old(repayInput)
      ensures borrowValidation == old(borrowValidation) && repayValidation == old(repayValidation)
      ensures isFullRepay == old(isFullRepay)
    {
      tabChange := tabId;
    }

    /** The close icon: everything back to its initial value, then the dialog closes */
    method CloseDialog()
      modifies this
      ensures Valid() && Reset()
    {
      borrowInput, repayInput := "", "";
      borrowValidation, repayValidation := "", "";
      isFullRepay := false;
      tabChange := BorrowTab;
    }

    /** A click outside the dialog box closes it as the icon does, unless a transaction is pending */
    method CloseOnOutsideClick(spinnerVisible: bool) returns (closed: bool)
      requires Valid()
      modifies this
      ensures Valid()
      ensures closed == !spinnerVisible
      ensures closed ==> Reset()
      ensures !closed ==>
        && borrowInput == old(borrowInput) && repayInput == old(repayInput)
        && borrowValidation == old(borrowValidation) && repayValidation == old(repayValidation)
        && isFullRepay == old(isFullRepay) && tabChange == old(tabChange)
    {
      if spinnerVisible {
        return false;
      }
      CloseDialog();
      closed := true;
    }
  }
}
