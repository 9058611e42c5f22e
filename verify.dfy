/**
 * The verification screen of src/components/Verify.tsx: the blank-input
 * guard, the found / not-found rule, the token id read from the query, and
 * the resets of the search box.
 *
 * As with the mint, the simulated delay splits `handleVerify` into a step
 * before it and a step after it.
 */
module Verify {
  import opened Wrappers
  import opened Types
  import opened JsNumber
  import opened MockData
  import opened Store

  datatype SearchType = TokenIdSearch | HashSearch | WalletSearch

  /**
   * The wallet every verified proof is reported for: a literal of the screen,
   * the same string as the proof contract's address in `CONTRACT_ADDRESSES`.
   */
  const MockAddress := "0x742d35Cc6634C0532925a3b844Bc9e7595f1E123"

  /** `!searchValue.trim()`: the query is blank exactly when it is nothing but white space. */
  function IsBlankQuery(value: string): (b: bool)
    ensures b <==> AllWhiteSpace(value)
  {
    TrimEmptyIffBlank(value);
    Trim(value) == ""
  }

  /**
   * `isFound`: the untrimmed query is longer than two characters. A query of
   * at most two characters is never found, and one whose trimmed form is longer
   * than two always is, so surrounding white space can only help.
   */
  function IsFound(value: string): (b: bool)
    ensures |value| <= 2 ==> !b
    ensures |Trim(value)| > 2 ==> b
  {
    |value| > 2
  }

  /** `parseInt(searchValue) || 1`: NaN and 0 are both falsy, and fall back to 1. */
  function TokenIdFromQuery(value: string): (id: int)
    ensures id != 0
    ensures id == 1 || ParseInt(value, 0) == Some(id)
    ensures ParseInt(value, 0).Some? && ParseInt(value, 0).value != 0 ==> id == ParseInt(value, 0).value
  {
    match ParseInt(value, 0)
    case Some(n) => if n != 0 then n else 1
    case None => 1
  }

  /** A query that is the decimal form of a non-zero id yields that id. */
  lemma TokenIdOfNumeral(n: int)
    requires n != 0
    ensures TokenIdFromQuery(NumberToString(n, 10)) == n
  {
    DecimalRoundTrip(n);
  }

  /** Leading white space and a trailing non-digit tail are ignored: " 42abc" gives 42, "-7 " gives -7. */
  lemma TokenIdOfLeadingDecimal(ws: string, sign: string, d: string, t: string)
    requires AllWhiteSpace(ws) && (sign == "" || sign == "+" || sign == "-")
    requires |d| >= 1 && AllDigits(d, 10)
    requires t == [] || !IsDigit(t[0], 10)
    requires !(d == "0" && t != [] && (t[0] == 'x' || t[0] == 'X'))
    requires DigitsValue(d, 10) != 0
    ensures TokenIdFromQuery(ws + (sign + (d + t))) == (if sign == "-" then -1 else 1) * DigitsValue(d, 10)
  {
    ParseIntLeadingDecimal(ws, sign, d, t);
  }

  /** A query with a "0x" or "0X" prefix is read as hexadecimal: "0x1A" gives 26, "-0x1A" gives -26. */
  lemma TokenIdOfLeadingHex(ws: string, sign: string, x: char, d: string, t: string)
    requires AllWhiteSpace(ws) && (sign == "" || sign == "+" || sign == "-")
    requires x == 'x' || x == 'X'
    requires |d| >= 1 && AllDigits(d, 16)
    requires t == [] || !IsDigit(t[0], 16)
    requires DigitsValue(d, 16) != 0
    ensures TokenIdFromQuery(ws + (sign + (['0', x] + (d + t)))) == (if sign == "-" then -1 else 1) * DigitsValue(d, 16)
  {
    ParseIntLeadingHex(ws, sign, x, d, t, 0);
  }

  /** A query that does not start with a digit, a sign or white space yields 1. */
  lemma TokenIdOfText(value: string)
    requires value == [] || (!IsWhiteSpace(value[0]) && value[0] != '+' && value[0] != '-' && !IsDigit(value[0], 10))
    ensures TokenIdFromQuery(value) == 1
  {
    ParseIntNoDigits(value);
  }

  /** The verify button: `disabled={isVerifying || !searchValue.trim()}`. */
  function VerifyButtonDisabled(isVerifying: bool, value: string): (b: bool)
    ensures b <==> isVerifying || AllWhiteSpace(value)
  {
    isVerifying || IsBlankQuery(value)
  }

  /**
   * The draws one verification takes: the mock feed, the hash of each of its
   * payments, the token id of a hash or wallet search, and the proof's hash.
   */
  datatype VerifyDraws = VerifyDraws(feed: seq<real>, txHashes: seq<string>, tokenDraw: real, hashDraws: seq<real>)

  predicate WellFormedDraws(d: VerifyDraws) {
    && |d.feed| >= MaxFeedDraws && UnitInterval(d.feed) && |d.txHashes| >= 24
    && 0.0 <= d.tokenDraw < 1.0
    && |d.hashDraws| == 64 && UnitInterval(d.hashDraws)
  }

  /** The token id the reported proof gets. */
  function ReportedTokenId(searchType: SearchType, value: string, tokenDraw: real): (id: int)
    requires 0.0 <= tokenDraw < 1.0
    ensures searchType == TokenIdSearch ==> id == TokenIdFromQuery(value)
    ensures searchType != TokenIdSearch ==> 1 <= id <= 100
  {
    if searchType == TokenIdSearch then TokenIdFromQuery(value) else RandomBelow(tokenDraw, 100) + 1
  }

  /** The local state of the verify screen, over the shared store. */
  class VerifyPanel {
    var searchType: SearchType
    var searchValue: string
    const store: AppStore

    constructor (store: AppStore)
      ensures this.store == store && searchType == TokenIdSearch && searchValue == ""
    {
      this.store := store;
      searchType := TokenIdSearch;
      searchValue := "";
    }

    /** Typing into the search box. */
    method SetSearchValue(value: string)
      modifies this`searchValue
      ensures searchValue == value
    {
      searchValue := value;
    }

    /** A tab press: the new search type, an empty box and no result. */
    method SelectTab(tab: SearchType)
      modifies this`searchType, this`searchValue, store`verificationResult
      ensures searchType == tab && searchValue == "" && store.verificationResult == None
    {
      searchType := tab;
      searchValue := "";
      store.SetVerificationResult(None);
    }

    /** `clearSearch`: an empty box and no result; the search type stays. */
    method ClearSearch()
      modifies this`searchValue, store`verificationResult
      ensures searchValue == "" && store.verificationResult == None
      ensures searchType == old(searchType)
    {
      searchValue := "";
      store.SetVerificationResult(None);
    }

    /**
     * The part of `handleVerify` before the delay. A blank query only warns and
     * returns false; otherwise the search starts with the old result cleared.
     */
    method BeginVerify(now: Millis) returns (started: bool)
      modifies store`isVerifying, store`verificationResult, store`toasts
      ensures started <==> !IsBlankQuery(searchValue)
      ensures !started ==>
        && store.toasts == old(store.toasts) + [StampedToast(WarningToast, "Input Required", "Please enter a value to search", now)]
        && store.isVerifying == old(store.isVerifying)
        && store.verificationResult == old(store.verificationResult)
      ensures started ==> store.isVerifying && store.verificationResult == None && store.toasts == old(store.toasts)
    {
      if IsBlankQuery(searchValue) {
        store.AddToast(WarningToast, "Input Required", "Please enter a value to search", now);
        return false;
      }
      store.SetIsVerifying(true);
      store.SetVerificationResult(None);
      return true;
    }

    /**
     * The part after the delay: a query longer than two characters is found and
     * reported as a valid proof for the mock wallet, anything shorter is not.
     */
    method CompleteVerify(draws: VerifyDraws, today: CalendarDate, now: Millis)
      requires WellFormedDraws(draws)
      modifies store`isVerifying, store`verificationResult, store`toasts
      ensures IsFound(searchValue) ==>
        && store.verificationResult.Some?
        && store.verificationResult.value.isValid
        && store.verificationResult.value.walletAddress == MockAddress
        && store.verificationResult.value.tokenId == ReportedTokenId(searchType, searchValue, draws.tokenDraw)
        && IsVerificationHash(store.verificationResult.value.verificationHash)
        && store.toasts == old(store.toasts) + [StampedToast(SuccessToast, "Proof Verified", "Income proof NFT found and validated", now)]
      ensures !IsFound(searchValue) ==>
        && store.verificationResult == None
        && store.toasts == old(store.toasts) + [StampedToast(ErrorToast, "Not Found", "No income proof found for the given input", now)]
      ensures !store.isVerifying
    {
      var mockTransactions := GenerateMockTransactions(MockAddress, today, draws.feed, draws.txHashes);
      var mockMetrics := CalculateIncomeMetrics(mockTransactions, now);
      if IsFound(searchValue) {
        var tokenId := ReportedTokenId(searchType, searchValue, draws.tokenDraw);
        var mockNFT := GenerateMockNFT(tokenId, MockAddress, mockMetrics, draws.hashDraws, now);
        store.SetVerificationResult(Some(mockNFT));
        store.AddToast(SuccessToast, "Proof Verified", "Income proof NFT found and validated", now);
      } else {
        store.SetVerificationResult(None);
        store.AddToast(ErrorToast, "Not Found", "No income proof found for the given input", now);
      }
      store.SetIsVerifying(false);
    }

    /** `handleVerify` as one transition. */
    method HandleVerify(draws: VerifyDraws, today: CalendarDate, now: Millis)
      requires WellFormedDraws(draws)
      modifies store`isVerifying, store`verificationResult, store`toasts
      ensures IsBlankQuery(searchValue) ==>
        && store.toasts == old(store.toasts) + [StampedToast(WarningToast, "Input Required", "Please enter a value to search", now)]
        && store.isVerifying == old(store.isVerifying)
        && store.verificationResult == old(store.verificationResult)
      ensures !IsBlankQuery(searchValue) ==> !store.isVerifying
      ensures !IsBlankQuery(searchValue) && IsFound(searchValue) ==>
        && store.verificationResult.Some? && store.verificationResult.value.isValid
        && store.verificationResult.value.walletAddress == MockAddress
        && store.verificationResult.value.tokenId == ReportedTokenId(searchType, searchValue, draws.tokenDraw)
        && IsVerificationHash(store.verificationResult.value.verificationHash)
        && store.toasts == old(store.toasts) + [StampedToast(SuccessToast, "Proof Verified", "Income proof NFT found and validated", now)]
      ensures !IsBlankQuery(searchValue) && !IsFound(searchValue) ==>
        && store.verificationResult == None
        && store.toasts == old(store.toasts) + [StampedToast(ErrorToast, "Not Found", "No income proof found for the given input", now)]
    {
      var started := BeginVerify(now);
      if started {
        CompleteVerify(draws, today, now);
      }
    }
  }

  /** A blank query of any length is stopped by the guard before the length rule is applied. */
  lemma BlankQueriesNeverSearched(value: string)
    requires AllWhiteSpace(value)
    ensures IsBlankQuery(value) && VerifyButtonDisabled(false, value)
  {
    TrimEmptyIffBlank(value);
  }
}
