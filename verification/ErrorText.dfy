/** Classification of failure messages by the words they contain. */
module ErrorText {
  predicate StartsWith(text: string, word: string) {
    |word| <= |text| && text[..|word|] == word
  }

  predicate Contains(text: string, word: string) {
    StartsWith(text, word) || (text != [] && Contains(text[1..], word))
  }

  function Lower(text: string): string {
    seq(|text|, i requires 0 <= i < |text| =>
      if 'A' <= text[i] <= 'Z' then text[i] - 'A' + 'a' else text[i])
  }

  predicate ContainsAny(text: string, words: seq<string>) {
    exists i | 0 <= i < |words| :: Contains(text, words[i])
  }

  // ---- Bid submission ----

  datatype BidFailure =
    | DuplicateBid | CollateralBelowMinimum | InactiveAgent | BidExceedsBudget | AuctionExpired | JobNotFound
    | InsufficientPayerHbar | InsufficientFunds | NonceConflict | NetworkError | NetworkTimeout | ContractRevert
    | UnknownError

  function ReasonCode(error: string): BidFailure {
    var m := Lower(error);
    if Contains(m, "bid already submitted") then DuplicateBid
    else if Contains(m, "collateral below minimum") then CollateralBelowMinimum
    else if Contains(m, "inactive agent") then InactiveAgent
    else if Contains(m, "bid exceeds budget") then BidExceedsBudget
    else if Contains(m, "auction expired") then AuctionExpired
    else if Contains(m, "job does not exist") then JobNotFound
    else if Contains(m, "insufficient funds for transfer") then InsufficientPayerHbar
    else if Contains(m, "insufficient payer balance") then InsufficientPayerHbar
    else if Contains(m, "insufficient funds") then InsufficientFunds
    else if Contains(m, "nonce") then NonceConflict
    else if Contains(m, "server response 5") then NetworkError
    else if Contains(m, "bad gateway") then NetworkError
    else if Contains(m, "gateway") then NetworkError
    else if Contains(m, "network") then NetworkError
    else if Contains(m, "timeout") then NetworkTimeout
    else if Contains(m, "execution reverted") then ContractRevert
    else UnknownError
  }

  const RETRIABLE_WORDS := [
    "502 bad gateway", "503", "504", "server response 5", "temporarily unavailable", "fetch failed",
    "enotfound", "econnreset", "etimedout", "replacement fee too low"]

  predicate RetriableBidFailure(error: string) {
    var code := ReasonCode(error);
    code == NetworkError || code == NetworkTimeout || code == NonceConflict
    || ContainsAny(Lower(error), RETRIABLE_WORDS)
  }

  const COLLATERAL_WORDS := ["collateral", "allowance", "transfer amount exceeds balance", "insufficient guard"]

  /** A failure of `submitBid` as the retry loop sees it. */
  datatype BidError = BidError(text: string, duplicate: bool, ambiguous: bool, payer: bool, collateral: bool)

  function ClassifyBid(demo: bool, text: string): BidError {
    var m := Lower(text);
    BidError(
      text,
      ReasonCode(text) == DuplicateBid,
      Contains(m, "timeout") || RetriableBidFailure(text),
      ReasonCode(text) == InsufficientPayerHbar || Contains(m, "insufficient funds for transfer"),
      !demo && (ReasonCode(text) == InsufficientFunds
                || ContainsAny(m, COLLATERAL_WORDS)))
  }

  lemma {:induction false} ContainsInfix(before: string, word: string, after: string)
    ensures Contains(before + word + after, word)
    decreases |before|
  {
    var text := before + word + after;
    if before == [] {
      assert text[..|word|] == word;
    } else {
      assert text[1..] == before[1..] + word + after;
      ContainsInfix(before[1..], word, after);
    }
  }

  lemma LowerOfInfix(before: string, word: string, after: string)
    ensures Lower(before + word + after) == Lower(before) + Lower(word) + Lower(after)
  {
  }

  /** A text contains a word exactly if the word stands in it somewhere. */
  lemma {:induction false} ContainsIff(text: string, word: string)
    ensures Contains(text, word) <==> exists n :: 0 <= n <= |text| - |word| && text[n..][..|word|] == word
    decreases |text|
  {
    if StartsWith(text, word) {
      assert text[0..][..|word|] == word;
    } else if text != [] {
      ContainsIff(text[1..], word);
      if n :| 0 <= n <= |text[1..]| - |word| && text[1..][n..][..|word|] == word {
        assert text[n + 1..] == text[1..][n..];
      }
      if n :| 0 <= n <= |text| - |word| && text[n..][..|word|] == word {
        assert n > 0 && text[1..][n - 1..] == text[n..];
      }
    }
  }

  /** Upper and lower case letters become the same, and small letters stay. */
  lemma LowerForgetsCase(text: string, k: nat)
    requires k < |text| && 'a' <= text[k] <= 'z'
    ensures Lower(text)[k] == text[k]
    ensures Lower(text[k := text[k] - 'a' + 'A']) == Lower(text)
  {
  }

  /** A failure that names an existing bid is a duplicate, whatever else it says. */
  lemma DuplicateTakesPrecedence(demo: bool, before: string, word: string, after: string)
    requires Lower(word) == "bid already submitted"
    ensures ClassifyBid(demo, before + word + after).duplicate
  {
    LowerOfInfix(before, word, after);
    ContainsInfix(Lower(before), Lower(word), Lower(after));
  }

  /** The label under which a submission times out makes the failure ambiguous, in any case
      of letters, so the chain is re-read before anything else is sent. */
  lemma TimeoutIsAmbiguous(demo: bool, before: string, word: string, after: string)
    requires Lower(word) == "timeout"
    ensures ClassifyBid(demo, before + word + after).ambiguous
  {
    LowerOfInfix(before, word, after);
    ContainsInfix(Lower(before), Lower(word), Lower(after));
  }

  // ---- The flags of a failed submission, word by word ----

  predicate Has(error: string, word: string) {
    Contains(Lower(error), word)
  }

  /** The message names a final refusal, which takes precedence over everything else it says. */
  predicate IsFinal(error: string) {
    || Has(error, "bid already submitted") || Has(error, "collateral below minimum") || Has(error, "inactive agent")
    || Has(error, "bid exceeds budget") || Has(error, "auction expired") || Has(error, "job does not exist")
  }

  predicate IsShort(error: string) {
    || Has(error, "insufficient funds for transfer") || Has(error, "insufficient payer balance")
    || Has(error, "insufficient funds")
  }

  lemma ReasonOf(error: string)
    ensures ReasonCode(error) == DuplicateBid <==> Has(error, "bid already submitted")
    ensures ReasonCode(error) == InsufficientPayerHbar
            <==> !IsFinal(error) && (Has(error, "insufficient funds for transfer")
                                     || Has(error, "insufficient payer balance"))
    ensures ReasonCode(error) == InsufficientFunds
            <==> !IsFinal(error) && !Has(error, "insufficient funds for transfer")
                 && !Has(error, "insufficient payer balance") && Has(error, "insufficient funds")
    ensures ReasonCode(error) in {NonceConflict, NetworkError, NetworkTimeout}
            <==> !IsFinal(error) && !IsShort(error)
                 && (|| Has(error, "nonce") || Has(error, "server response 5") || Has(error, "bad gateway")
                     || Has(error, "gateway") || Has(error, "network") || Has(error, "timeout"))
  {
  }

  lemma CollateralWordsAre(m: string)
    ensures ContainsAny(m, COLLATERAL_WORDS)
            <==> || Contains(m, "collateral") || Contains(m, "allowance")
                 || Contains(m, "transfer amount exceeds balance") || Contains(m, "insufficient guard")
  {
    assert COLLATERAL_WORDS[0] == "collateral" && COLLATERAL_WORDS[1] == "allowance";
    assert COLLATERAL_WORDS[2] == "transfer amount exceeds balance" && COLLATERAL_WORDS[3] == "insufficient guard";
  }

  /** Which words raise which flag: a duplicate; the payer short of HBAR; the collateral short of GUARD,
      outside demo mode only. */
  lemma FlagsAre(demo: bool, error: string)
    ensures var e := ClassifyBid(demo, error);
            && e.text == error
            && (e.duplicate <==> Has(error, "bid already submitted"))
            && (e.payer <==> || Has(error, "insufficient funds for transfer")
                             || (!IsFinal(error) && Has(error, "insufficient payer balance")))
            && (e.collateral <==>
                  !demo &&
                  (|| Has(error, "collateral") || Has(error, "allowance")
                   || Has(error, "transfer amount exceeds balance") || Has(error, "insufficient guard")
                   || (!IsFinal(error) && !Has(error, "insufficient funds for transfer")
                       && !Has(error, "insufficient payer balance") && Has(error, "insufficient funds"))))
  {
    ReasonOf(error);
    CollateralWordsAre(Lower(error));
  }

  lemma RetriableWordsAre(m: string)
    ensures ContainsAny(m, RETRIABLE_WORDS)
            <==> || Contains(m, "502 bad gateway") || Contains(m, "503") || Contains(m, "504")
                 || Contains(m, "server response 5") || Contains(m, "temporarily unavailable")
                 || Contains(m, "fetch failed") || Contains(m, "enotfound") || Contains(m, "econnreset")
                 || Contains(m, "etimedout") || Contains(m, "replacement fee too low")
  {
    var words := RETRIABLE_WORDS;
    assert words[0] == "502 bad gateway" && words[1] == "503" && words[2] == "504";
    assert words[3] == "server response 5" && words[4] == "temporarily unavailable" && words[5] == "fetch failed";
    assert words[6] == "enotfound" && words[7] == "econnreset" && words[8] == "etimedout";
    assert words[9] == "replacement fee too low" && |words| == 10;
  }

  /** Which words make a failure ambiguous. */
  lemma AmbiguousAre(demo: bool, error: string)
    ensures ClassifyBid(demo, error).ambiguous
            <==> || Has(error, "timeout") || Has(error, "502 bad gateway") || Has(error, "503") || Has(error, "504")
                 || Has(error, "server response 5") || Has(error, "temporarily unavailable")
                 || Has(error, "fetch failed") || Has(error, "enotfound") || Has(error, "econnreset")
                 || Has(error, "etimedout") || Has(error, "replacement fee too low")
                 || (!IsFinal(error) && !IsShort(error)
                     && (|| Has(error, "nonce") || Has(error, "gateway") || Has(error, "bad gateway")
                         || Has(error, "network")))
  {
    ReasonOf(error);
    RetriableWordsAre(Lower(error));
  }

  // ---- GUARD transfers ----

  const NETWORK_WORDS := [
    "enotfound", "name resolution failed", "all nodes are unhealthy", "network connectivity", "fetch failed",
    "timed out", "timeout", "bad gateway", "server response 502", "server response 503", "server response 504",
    "gateway", "temporarily unavailable", "econnreset", "etimedout", "429"]

  predicate NetworkLike(error: string) {
    ContainsAny(Lower(error), NETWORK_WORDS)
  }

  datatype TransferFailure =
    | OperatorInsufficient | EstimateOrRpcFailure | TransferNonceConflict | NetworkFailure | UnknownFailure

  function ClassifyTransfer(error: string): TransferFailure {
    var m := Lower(error);
    if Contains(m, "insufficient funds") then OperatorInsufficient
    else if Contains(m, "execution reverted") && Contains(m, "require(false)") && Contains(m, "estimategas")
    then EstimateOrRpcFailure
    else if Contains(m, "nonce too low") || Contains(m, "replacement fee too low") || Contains(m, "already known")
    then TransferNonceConflict
    else if NetworkLike(error) then NetworkFailure
    else UnknownFailure
  }

  predicate Retryable(failure: TransferFailure) {
    failure.EstimateOrRpcFailure? || failure.TransferNonceConflict? || failure.NetworkFailure?
  }

  /** A transfer that fails for lack of funds is never retried, even if its message also reads
      like a network fault. */
  lemma InsufficientFundsNeverRetried(before: string, word: string, after: string)
    requires Lower(word) == "insufficient funds"
    ensures !Retryable(ClassifyTransfer(before + word + after))
  {
    LowerOfInfix(before, word, after);
    ContainsInfix(Lower(before), Lower(word), Lower(after));
  }

  lemma NetworkWordsAre(m: string)
    ensures ContainsAny(m, NETWORK_WORDS)
            <==> || Contains(m, "enotfound") || Contains(m, "name resolution failed")
                 || Contains(m, "all nodes are unhealthy") || Contains(m, "network connectivity")
                 || Contains(m, "fetch failed") || Contains(m, "timed out") || Contains(m, "timeout")
                 || Contains(m, "bad gateway") || Contains(m, "server response 502")
                 || Contains(m, "server response 503") || Contains(m, "server response 504")
                 || Contains(m, "gateway") || Contains(m, "temporarily unavailable") || Contains(m, "econnreset")
                 || Contains(m, "etimedout") || Contains(m, "429")
  {
    var words := NETWORK_WORDS;
    assert words[0] == "enotfound" && words[1] == "name resolution failed" && words[2] == "all nodes are unhealthy";
    assert words[3] == "network connectivity" && words[4] == "fetch failed" && words[5] == "timed out";
    assert words[6] == "timeout" && words[7] == "bad gateway" && words[8] == "server response 502";
    assert words[9] == "server response 503" && words[10] == "server response 504" && words[11] == "gateway";
    assert words[12] == "temporarily unavailable" && words[13] == "econnreset" && words[14] == "etimedout";
    assert words[15] == "429" && |words| == 16;
  }

  /** Which words make a failed transfer worth a retry. */
  lemma RetryableAre(error: string)
    ensures Retryable(ClassifyTransfer(error))
            <==> && !Has(error, "insufficient funds")
                 && (|| (Has(error, "execution reverted") && Has(error, "require(false)") && Has(error, "estimategas"))
                     || Has(error, "nonce too low") || Has(error, "replacement fee too low")
                     || Has(error, "already known") || NetworkLike(error))
    ensures NetworkLike(error)
            <==> || Has(error, "enotfound") || Has(error, "name resolution failed")
                 || Has(error, "all nodes are unhealthy") || Has(error, "network connectivity")
                 || Has(error, "fetch failed") || Has(error, "timed out") || Has(error, "timeout")
                 || Has(error, "bad gateway") || Has(error, "server response 502")
                 || Has(error, "server response 503") || Has(error, "server response 504") || Has(error, "gateway")
                 || Has(error, "temporarily unavailable") || Has(error, "econnreset") || Has(error, "etimedout")
                 || Has(error, "429")
  {
    NetworkWordsAre(Lower(error));
  }

  lemma {:induction false} LongerIsNotContained(text: string, word: string)
    requires |word| > |text|
    ensures !Contains(text, word)
    decreases |text|
  {
    if text == [] {
    } else {
      LongerIsNotContained(text[1..], word);
    }
  }

  /** A plain timeout of a transfer is retried. */
  lemma TimeoutIsRetried()
    ensures Retryable(ClassifyTransfer("timeout"))
  {
    var text := "timeout";
    assert Lower(text) == text;
    LongerIsNotContained(text, "insufficient funds");
    LongerIsNotContained(text, "execution reverted");
    LongerIsNotContained(text, "nonce too low");
    LongerIsNotContained(text, "replacement fee too low");
    LongerIsNotContained(text, "already known");
    assert NETWORK_WORDS[6] == text;
    assert Contains(text, text);
  }
}
