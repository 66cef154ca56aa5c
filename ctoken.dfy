/**
 * The per-market view-model of the lending front-end: how one market's on-chain reads
 * (account snapshot, totals, exchange rate, cash, comptroller parameters, oracle price)
 * and the resolved underlying asset become one CTokenInfo record.
 *
 * Chain reads are inputs. Every read except the oracle price is taken as answered;
 * the oracle price is an Option, None meaning the call failed.
 * Amounts are the chain's unbounded integers, multiplied without rescaling.
 */
module CToken {
  import opened Wrappers

  type Address = string
  type Bytes32 = seq<bv8>

  /** The MKR token, whose symbol() and name() answer bytes32 rather than a string */
  const MkrTokenAddress: Address := "0x9f8f72aa9304c8b593d555f12ef6589cc3a579a2"
  /** The address reported for the chain's native coin */
  const NativeTokenAddress: Address := "0x0"
  const NativeTokenDecimals: nat := 18
  /** 2^256 - 1, the allowance reported for the native coin */
  const MaxUint256: nat := 0xffff_ffff_ffff_ffff_ffff_ffff_ffff_ffff_ffff_ffff_ffff_ffff_ffff_ffff_ffff_ffff

  // ---------------------------------------------------------------------------
  // Lower-casing, for the case-insensitive comparison with the MKR address
  // ---------------------------------------------------------------------------

  function LowerChar(c: char): char {
    if 'A' <= c <= 'Z' then (c as int + 32) as char else c
  }

  /** String.prototype.toLowerCase, restricted to ASCII letters */
  function ToLower(s: string): (r: string)
    ensures |r| == |s|
    ensures forall i :: 0 <= i < |s| ==> r[i] == LowerChar(s[i])
  {
    if s == [] then [] else [LowerChar(s[0])] + ToLower(s[1..])
  }

  /** Two strings that differ at most in the case of ASCII letters */
  ghost predicate EqualIgnoringCase(a: string, b: string) {
    |a| == |b| && forall i :: 0 <= i < |a| ==> LowerChar(a[i]) == LowerChar(b[i])
  }

  // ---------------------------------------------------------------------------
  // Inputs: network configuration, foreign helpers, chain reads
  // ---------------------------------------------------------------------------

  datatype Network = Network(symbol: string, name: string)

  /** Helpers the source calls whose code is not modelled */
  datatype Foreign = Foreign(
    logos: map<string, string>,            // the symbol-to-logo table
    parseBytes32String: Bytes32 -> string,  // ethers.utils.parseBytes32String
    apy: (nat, nat) -> int)                 // annual yield from (rate per block, decimals), floating point

  /** Logos[key]: undefined when the table has no entry */
  function LogoOf(logos: map<string, string>, key: string): Option<string> {
    if key in logos then Some(logos[key]) else None
  }

  /** What the underlying token's contract answers for the caller and the market */
  datatype TokenReads = TokenReads(
    symbol: string,          // symbol() under the standard token interface
    name: string,            // name() under the standard token interface
    rawSymbol: Bytes32,      // symbol() under the MKR interface
    rawName: Bytes32,        // name() under the MKR interface
    decimals: nat,
    totalSupply: nat,
    balanceOf: nat,          // balanceOf(user)
    allowance: nat)          // allowance(user, market)

  /** getAccountSnapshot(user): (error, market-token balance, borrow balance, exchange rate) */
  datatype AccountSnapshot = AccountSnapshot(
    error: nat, tokenBalance: nat, borrowBalance: nat, exchangeRateMantissa: nat)

  /** What the market contract answers */
  datatype MarketReads = MarketReads(
    underlying: Address,     // underlying(), read only for a market that is not the native coin's
    accountSnapshot: AccountSnapshot,
    totalSupply: nat,
    exchangeRateStored: nat,
    totalBorrows: nat,
    supplyRatePerBlock: nat,
    borrowRatePerBlock: nat,
    cash: nat)               // getCash()

  /** The protocol context shared by all markets, keyed by market address */
  datatype Comptroller = Comptroller(
    enteredMarkets: seq<Address>,
    collateralFactorMantissa: Address -> nat,  // markets(address).collateralFactorMantissa
    compSpeeds: Address -> nat,
    underlyingPrice: Address -> Option<nat>)   // oracle.getUnderlyingPrice(address); None = the call failed

  datatype FetchError = OracleCallFailed(market: Address)

  // ---------------------------------------------------------------------------
  // Underlying-asset resolution
  // ---------------------------------------------------------------------------

  datatype UnderlyingInfo = UnderlyingInfo(
    address: Address,
    symbol: string,
    name: string,
    decimals: nat,
    totalSupply: nat,
    logo: Option<string>,
    price: nat,
    walletBalance: nat,
    allowance: nat)

  datatype UnderlyingKind = NativeCoin | MakerToken | StandardToken

  /** The branch getUnderlying takes for an underlying address */
  function KindOf(underlyingAddress: Option<Address>): (k: UnderlyingKind)
    ensures k == NativeCoin <==> underlyingAddress == None || underlyingAddress == Some("")
    ensures k == MakerToken <==> underlyingAddress.Some? && ToLower(underlyingAddress.value) == MkrTokenAddress
  {
    if underlyingAddress.None? || underlyingAddress.value == "" then NativeCoin
    else if ToLower(underlyingAddress.value) == MkrTokenAddress then MakerToken
    else StandardToken
  }

  /** The native coin: described by the network, priced by the oracle, which is not guarded */
  function GetNativeTokenInfo(pToken: Address, comptroller: Comptroller, nativeBalance: nat,
                              network: Network, foreign: Foreign): (r: Result<UnderlyingInfo, FetchError>)
    ensures r.Failure? <==> comptroller.underlyingPrice(pToken).None?
    ensures r.Failure? ==> r.error == OracleCallFailed(pToken)
    ensures r.Success? ==>
      && r.value.address == NativeTokenAddress
      && r.value.decimals == 18
      && r.value.totalSupply == 0
      && r.value.allowance == MaxUint256
      && r.value.walletBalance == nativeBalance
      && Some(r.value.price) == comptroller.underlyingPrice(pToken)
      && r.value.symbol == network.symbol && r.value.name == network.name
      && r.value.logo == LogoOf(foreign.logos, network.symbol)
  {
    match comptroller.underlyingPrice(pToken)
    case None => Failure(OracleCallFailed(pToken))
    case Some(price) =>
      Success(UnderlyingInfo(NativeTokenAddress, network.symbol, network.name, NativeTokenDecimals, 0,
                             LogoOf(foreign.logos, network.symbol), price, nativeBalance, MaxUint256))
  }

  /** A standard token: a failed oracle call leaves the price at zero instead of failing */
  function GetTokenInfo(address: Address, pToken: Address, comptroller: Comptroller,
                        token: TokenReads, foreign: Foreign): (r: UnderlyingInfo)
    ensures r.price == (if comptroller.underlyingPrice(pToken).Some? then comptroller.underlyingPrice(pToken).value else 0)
    ensures r.address == address && r.symbol == token.symbol && r.name == token.name
    ensures r.logo == LogoOf(foreign.logos, token.symbol)
    ensures r.decimals == token.decimals && r.totalSupply == token.totalSupply
    ensures r.walletBalance == token.balanceOf && r.allowance == token.allowance
  {
    var price := comptroller.underlyingPrice(pToken).GetOr(0);
    UnderlyingInfo(address, token.symbol, token.name, token.decimals, token.totalSupply,
                   LogoOf(foreign.logos, token.symbol), price, token.balanceOf, token.allowance)
  }

  /** MKR: symbol and name decoded from bytes32, the MKR logo, and an unguarded oracle call */
  function GetMakerInfo(address: Address, pToken: Address, comptroller: Comptroller,
                        token: TokenReads, foreign: Foreign): (r: Result<UnderlyingInfo, FetchError>)
    ensures r.Failure? <==> comptroller.underlyingPrice(pToken).None?
    ensures r.Failure? ==> r.error == OracleCallFailed(pToken)
    ensures r.Success? ==>
      && r.value.address == address
      && r.value.symbol == foreign.parseBytes32String(token.rawSymbol)
      && r.value.name == foreign.parseBytes32String(token.rawName)
      && r.value.logo == LogoOf(foreign.logos, "MKR")
      && Some(r.value.price) == comptroller.underlyingPrice(pToken)
      && r.value.decimals == token.decimals && r.value.totalSupply == token.totalSupply
      && r.value.walletBalance == token.balanceOf && r.value.allowance == token.allowance
  {
    match comptroller.underlyingPrice(pToken)
    case None => Failure(OracleCallFailed(pToken))
    case Some(price) =>
      Success(UnderlyingInfo(address, foreign.parseBytes32String(token.rawSymbol),
                             foreign.parseBytes32String(token.rawName), token.decimals, token.totalSupply,
                             LogoOf(foreign.logos, "MKR"), price, token.balanceOf, token.allowance))
  }

  /** getUnderlying: native coin, MKR, or a standard token */
  function GetUnderlying(underlyingAddress: Option<Address>, pToken: Address, comptroller: Comptroller,
                         token: TokenReads, nativeBalance: nat, network: Network, foreign: Foreign)
    : (r: Result<UnderlyingInfo, FetchError>)
    ensures r.Failure? <==> KindOf(underlyingAddress) != StandardToken && comptroller.underlyingPrice(pToken).None?
    ensures r.Success? ==> r.value.price == comptroller.underlyingPrice(pToken).GetOr(0)
    ensures r.Success? ==>
      r.value.address == (if KindOf(underlyingAddress) == NativeCoin then NativeTokenAddress else underlyingAddress.value)
    ensures r.Success? && KindOf(underlyingAddress) == NativeCoin ==>
      r.value.decimals == 18 && r.value.totalSupply == 0 && r.value.allowance == MaxUint256
      && r.value.walletBalance == nativeBalance
    ensures r.Success? && KindOf(underlyingAddress) != NativeCoin ==>
      r.value.decimals == token.decimals && r.value.allowance == token.allowance
      && r.value.walletBalance == token.balanceOf
    ensures KindOf(underlyingAddress) == NativeCoin ==>
      r == GetNativeTokenInfo(pToken, comptroller, nativeBalance, network, foreign)
    ensures KindOf(underlyingAddress) == MakerToken ==>
      r == GetMakerInfo(underlyingAddress.value, pToken, comptroller, token, foreign)
    ensures KindOf(underlyingAddress) == StandardToken ==>
      r == Success(GetTokenInfo(underlyingAddress.value, pToken, comptroller, token, foreign))
  {
    match KindOf(underlyingAddress)
    case NativeCoin => GetNativeTokenInfo(pToken, comptroller, nativeBalance, network, foreign)
    case MakerToken => GetMakerInfo(underlyingAddress.value, pToken, comptroller, token, foreign)
    case StandardToken => Success(GetTokenInfo(underlyingAddress.value, pToken, comptroller, token, foreign))
  }

  /** The dispatch compares the address with the MKR address ignoring the case of its letters */
  lemma MakerDispatchIgnoresCase(a: Address, b: Address)
    requires EqualIgnoringCase(a, b)
    ensures KindOf(Some(a)) == KindOf(Some(b))
  {
  }

  // ---------------------------------------------------------------------------
  // The market view-model
  // ---------------------------------------------------------------------------

  /** The values a CTokenInfo is constructed from, in the constructor's order */
  datatype MarketView = MarketView(
    pTokenAddress: Address,
    underlyingAddress: Option<Address>,
    symbol: string,
    logoSource: Option<string>,
    supplyApy: int,
    borrowApy: int,
    underlyingAllowance: nat,
    walletBalance: nat,
    supplyBalanceInTokenUnit: nat,
    supplyBalance: nat,
    marketTotalSupply: nat,
    borrowBalanceInTokenUnit: nat,
    borrowBalance: nat,
    marketTotalBorrowInTokenUnit: nat,
    marketTotalBorrow: nat,
    isEnterMarket: bool,
    underlyingAmount: nat,
    underlyingPrice: nat,
    liquidity: nat,
    collateralFactor: nat,
    pctSpeed: nat,
    decimals: nat,
    isNativeToken: bool)

  /** Every quote-value field is its token-unit amount times the price */
  ghost predicate PricedConsistently(v: MarketView) {
    && v.supplyBalance == v.supplyBalanceInTokenUnit * v.underlyingPrice
    && v.borrowBalance == v.borrowBalanceInTokenUnit * v.underlyingPrice
    && v.marketTotalBorrow == v.marketTotalBorrowInTokenUnit * v.underlyingPrice
    && v.liquidity == v.underlyingAmount * v.underlyingPrice
  }

  /** The fields getCtokenInfo derives for market `address` */
  function CtokenInfoFields(address: Address, isNativeToken: bool, market: MarketReads, token: TokenReads,
                            nativeBalance: nat, comptroller: Comptroller, network: Network, foreign: Foreign)
    : (r: Result<MarketView, FetchError>)
    ensures var u := GetUnderlying(if isNativeToken then None else Some(market.underlying), address,
                                   comptroller, token, nativeBalance, network, foreign);
      && (r.Failure? <==> u.Failure?)
      && (r.Success? ==>
          && r.value.decimals == u.value.decimals
          && r.value.underlyingAllowance == u.value.allowance
          && r.value.walletBalance == u.value.walletBalance
          && r.value.symbol == u.value.symbol
          && r.value.logoSource == u.value.logo
          && r.value.underlyingPrice == u.value.price)
    ensures r.Failure? <==>
      (isNativeToken || KindOf(Some(market.underlying)) != StandardToken) && comptroller.underlyingPrice(address).None?
    ensures r.Success? ==>
      && r.value.pTokenAddress == address
      && r.value.isNativeToken == isNativeToken
      && r.value.underlyingAddress == (if isNativeToken then None else Some(market.underlying))
      && r.value.underlyingPrice == comptroller.underlyingPrice(address).GetOr(0)
      && PricedConsistently(r.value)
    ensures r.Success? ==>
      && r.value.supplyBalanceInTokenUnit == market.accountSnapshot.tokenBalance * market.accountSnapshot.exchangeRateMantissa
      && r.value.borrowBalanceInTokenUnit == market.accountSnapshot.borrowBalance
      && r.value.marketTotalSupply == market.totalSupply * market.exchangeRateStored * r.value.underlyingPrice
      && r.value.marketTotalBorrowInTokenUnit == market.totalBorrows
      && r.value.underlyingAmount == market.cash
    ensures r.Success? ==>
      && (r.value.isEnterMarket <==> address in comptroller.enteredMarkets)
      && r.value.collateralFactor == comptroller.collateralFactorMantissa(address)
      && r.value.pctSpeed == comptroller.compSpeeds(address)
      && r.value.supplyApy == foreign.apy(market.supplyRatePerBlock, r.value.decimals)
      && r.value.borrowApy == foreign.apy(market.borrowRatePerBlock, r.value.decimals)
  {
    var underlyingAddress := if isNativeToken then None else Some(market.underlying);
    match GetUnderlying(underlyingAddress, address, comptroller, token, nativeBalance, network, foreign)
    case Failure(e) => Failure(e)
    case Success(underlying) =>
      var price := underlying.price;
      var snapshot := market.accountSnapshot;
      var supplyBalanceInTokenUnit := snapshot.tokenBalance * snapshot.exchangeRateMantissa;
      var borrowBalanceInTokenUnit := snapshot.borrowBalance;
      Success(MarketView(
        address,
        underlyingAddress,
        underlying.symbol,
        underlying.logo,
        foreign.apy(market.supplyRatePerBlock, underlying.decimals),
        foreign.apy(market.borrowRatePerBlock, underlying.decimals),
        underlying.allowance,
        underlying.walletBalance,
        supplyBalanceInTokenUnit,
        supplyBalanceInTokenUnit * price,
        market.totalSupply * market.exchangeRateStored * price,
        borrowBalanceInTokenUnit,
        borrowBalanceInTokenUnit * price,
        market.totalBorrows,
        market.totalBorrows * price,
        address in comptroller.enteredMarkets,
        market.cash,
        price,
        market.cash * price,
        comptroller.collateralFactorMantissa(address),
        comptroller.compSpeeds(address),
        underlying.decimals,
        isNativeToken))
  }

  /** A zero price makes every quote-value field zero and leaves the token-unit fields alone */
  lemma ZeroPriceZeroesQuoteValues(address: Address, isNativeToken: bool, market: MarketReads, token: TokenReads,
                                   nativeBalance: nat, comptroller: Comptroller, network: Network, foreign: Foreign)
    requires CtokenInfoFields(address, isNativeToken, market, token, nativeBalance, comptroller, network, foreign).Success?
    requires CtokenInfoFields(address, isNativeToken, market, token, nativeBalance, comptroller, network, foreign).value.underlyingPrice == 0
    ensures var v := CtokenInfoFields(address, isNativeToken, market, token, nativeBalance, comptroller, network, foreign).value;
      && v.supplyBalance == 0 && v.borrowBalance == 0 && v.marketTotalSupply == 0
      && v.marketTotalBorrow == 0 && v.liquidity == 0
  {
  }

  /** A standard-token market whose oracle call fails still gets a view, priced at zero */
  lemma OracleFailureDegradesStandardToken(address: Address, market: MarketReads, token: TokenReads,
                                           nativeBalance: nat, comptroller: Comptroller, network: Network, foreign: Foreign)
    requires KindOf(Some(market.underlying)) == StandardToken
    requires comptroller.underlyingPrice(address).None?
    ensures var r := CtokenInfoFields(address, false, market, token, nativeBalance, comptroller, network, foreign);
      && r.Success?
      && r.value.underlyingPrice == 0
      && r.value.supplyBalance == 0 && r.value.borrowBalance == 0 && r.value.marketTotalSupply == 0
      && r.value.marketTotalBorrow == 0 && r.value.liquidity == 0
      && r.value.supplyBalanceInTokenUnit == market.accountSnapshot.tokenBalance * market.accountSnapshot.exchangeRateMantissa
      && r.value.borrowBalanceInTokenUnit == market.accountSnapshot.borrowBalance
      && r.value.marketTotalBorrowInTokenUnit == market.totalBorrows
      && r.value.underlyingAmount == market.cash
  {
  }

  /**
   * One market's view depends on the protocol context only through that market's own entries,
   * so an oracle failure at another market cannot affect it.
   */
  lemma MarketViewIsolated(address: Address, isNativeToken: bool, market: MarketReads, token: TokenReads,
                           nativeBalance: nat, c1: Comptroller, c2: Comptroller, network: Network, foreign: Foreign)
    requires (address in c1.enteredMarkets) == (address in c2.enteredMarkets)
    requires c1.underlyingPrice(address) == c2.underlyingPrice(address)
    requires c1.collateralFactorMantissa(address) == c2.collateralFactorMantissa(address)
    requires c1.compSpeeds(address) == c2.compSpeeds(address)
    ensures CtokenInfoFields(address, isNativeToken, market, token, nativeBalance, c1, network, foreign)
         == CtokenInfoFields(address, isNativeToken, market, token, nativeBalance, c2, network, foreign)
  {
  }

  /**
   * No rescaling: a balance of 1000 market-token base units at an exchange rate of 1.05 (mantissa 10^18)
   * and a price of 2 (mantissa 10^18) gives 1050 * 10^18 underlying units and 2100 * 10^36 in value.
   */
  lemma SupplyProductsAreNotRescaled(address: Address, market: MarketReads, token: TokenReads,
                                     nativeBalance: nat, comptroller: Comptroller, network: Network, foreign: Foreign)
    requires market.accountSnapshot.tokenBalance == 1000
    requires market.accountSnapshot.exchangeRateMantissa == 1_050_000_000_000_000_000
    requires comptroller.underlyingPrice(address) == Some(2_000_000_000_000_000_000)
    ensures var r := CtokenInfoFields(address, true, market, token, nativeBalance, comptroller, network, foreign);
      && r.Success?
      && r.value.supplyBalanceInTokenUnit == 1050 * 1_000_000_000_000_000_000
      && r.value.supplyBalance == 2100 * 1_000_000_000_000_000_000 * 1_000_000_000_000_000_000
  {
  }

  // ---------------------------------------------------------------------------
  // The CTokenInfo object
  // ---------------------------------------------------------------------------

  /**
   * The view-model object. Its on-chain fields never change after construction; the five
   * spinner flags are the only state the presentation layer toggles.
   */
  class CTokenInfo {
    const pTokenAddress: Address
    const underlyingAddress: Option<Address>
    const symbol: string
    const logoSource: Option<string>
    const supplyApy: int
    const borrowApy: int
    const underlyingAllowance: nat
    const walletBalance: nat
    const supplyBalanceInTokenUnit: nat
    const supplyBalance: nat
    const marketTotalSupply: nat
    const borrowBalanceInTokenUnit: nat
    const borrowBalance: nat
    const marketTotalBorrowInTokenUnit: nat
    const marketTotalBorrow: nat
    const isEnterMarket: bool
    const underlyingAmount: nat
    const underlyingPrice: nat
    const liquidity: nat
    const collateralFactor: nat
    const pctSpeed: nat
    const decimals: nat
    const isNativeToken: bool
    var spinner: bool
    var supplySpinner: bool
    var withdrawSpinner: bool
    var borrowSpinner: bool
    var repaySpinner: bool

    constructor(pTokenAddress: Address, underlyingAddress: Option<Address>, symbol: string,
                logoSource: Option<string>, supplyApy: int, borrowApy: int, underlyingAllowance: nat,
                walletBalance: nat, supplyBalanceInTokenUnit: nat, supplyBalance: nat,
                marketTotalSupply: nat, borrowBalanceInTokenUnit: nat, borrowBalance: nat,
                marketTotalBorrowInTokenUnit: nat, marketTotalBorrow: nat, isEnterMarket: bool,
                underlyingAmount: nat, underlyingPrice: nat, liquidity: nat, collateralFactor: nat,
                pctSpeed: nat, decimals: nat, isNativeToken: bool)
      ensures View() == MarketView(pTokenAddress, underlyingAddress, symbol, logoSource, supplyApy, borrowApy,
                                   underlyingAllowance, walletBalance, supplyBalanceInTokenUnit, supplyBalance,
                                   marketTotalSupply, borrowBalanceInTokenUnit, borrowBalance,
                                   marketTotalBorrowInTokenUnit, marketTotalBorrow, isEnterMarket,
                                   underlyingAmount, underlyingPrice, liquidity, collateralFactor,
                                   pctSpeed, decimals, isNativeToken)
      ensures Idle()
    {
      this.pTokenAddress := pTokenAddress;
      this.underlyingAddress := underlyingAddress;
      this.symbol := symbol;
      this.logoSource := logoSource;
      this.supplyApy := supplyApy;
      this.borrowApy := borrowApy;
      this.underlyingAllowance := underlyingAllowance;
      this.walletBalance := walletBalance;
      this.supplyBalanceInTokenUnit := supplyBalanceInTokenUnit;
      this.supplyBalance := supplyBalance;
      this.marketTotalSupply := marketTotalSupply;
      this.borrowBalanceInTokenUnit := borrowBalanceInTokenUnit;
      this.borrowBalance := borrowBalance;
      this.marketTotalBorrowInTokenUnit := marketTotalBorrowInTokenUnit;
      this.marketTotalBorrow := marketTotalBorrow;
      this.isEnterMarket := isEnterMarket;
      this.underlyingAmount := underlyingAmount;
      this.underlyingPrice := underlyingPrice;
      this.liquidity := liquidity;
      this.collateralFactor := collateralFactor;
      this.pctSpeed := pctSpeed;
      this.decimals := decimals;
      this.isNativeToken := isNativeToken;
      spinner := false;
      supplySpinner := false;
      withdrawSpinner := false;
      borrowSpinner := false;
      repaySpinner := false;
    }

    /** The on-chain fields as a value */
    function View(): MarketView {
      MarketView(pTokenAddress, underlyingAddress, symbol, logoSource, supplyApy, borrowApy,
                 underlyingAllowance, walletBalance, supplyBalanceInTokenUnit, supplyBalance,
                 marketTotalSupply, borrowBalanceInTokenUnit, borrowBalance,
                 marketTotalBorrowInTokenUnit, marketTotalBorrow, isEnterMarket,
                 underlyingAmount, underlyingPrice, liquidity, collateralFactor,
                 pctSpeed, decimals, isNativeToken)
    }

    /** No action of this market is in progress */
    predicate Idle()
      reads this
    {
      !spinner && !supplySpinner && !withdrawSpinner && !borrowSpinner && !repaySpinner
    }
  }

  /** getCtokenInfo: read the market and build a fresh, idle CTokenInfo */
  method GetCtokenInfo(address: Address, isNativeToken: bool, market: MarketReads, token: TokenReads,
                       nativeBalance: nat, comptroller: Comptroller, network: Network, foreign: Foreign)
    returns (r: Result<CTokenInfo, FetchError>)
    ensures var f := CtokenInfoFields(address, isNativeToken, market, token, nativeBalance, comptroller, network, foreign);
      && (r.Failure? <==> f.Failure?)
      && (r.Failure? ==> r.error == f.error)
      && (r.Success? ==> fresh(r.value) && r.value.View() == f.value && r.value.Idle())
  {
    match CtokenInfoFields(address, isNativeToken, market, token, nativeBalance, comptroller, network, foreign)
    case Failure(e) =>
      r := Failure(e);
    case Success(v) =>
      var info := new CTokenInfo(v.pTokenAddress, v.underlyingAddress, v.symbol, v.logoSource, v.supplyApy,
                                 v.borrowApy, v.underlyingAllowance, v.walletBalance, v.supplyBalanceInTokenUnit,
                                 v.supplyBalance, v.marketTotalSupply, v.borrowBalanceInTokenUnit, v.borrowBalance,
                                 v.marketTotalBorrowInTokenUnit, v.marketTotalBorrow, v.isEnterMarket,
                                 v.underlyingAmount, v.underlyingPrice, v.liquidity, v.collateralFactor,
                                 v.pctSpeed, v.decimals, v.isNativeToken);
      r := Success(info);
  }
}
