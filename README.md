# NeuraProof income-proof engine in Dafny

NeuraProof is a browser application. A user connects a wallet, scans its
inbound payments into an income profile and mints that profile as an on-chain
income-proof token; anyone can then verify such a token. This project models
the logic under the interface. That logic has six parts:

- **The income engine** (`MockData`):
  - the mock payment feed (six months back, two to four payments each, newest first);
  - the aggregation into total, average per calendar month, number of payers and a payment-frequency class;
  - the construction of a proof record;
  - the jurisdiction and network tables.
- **The application store** (`Store`): one object with a field per piece of shared state and a setter per field. The wallet is merged, the proof registry is append-only, and notifications are appended and removed by id.
- **The mint flow** (`MintProof`):
  - the jurisdiction gate and the wallet and income guards;
  - token ids allocated as registry length plus one;
  - the `idle → confirming → minting → success` steps, with the minting flag up exactly during the middle two;
  - the reset back to idle.
- **The verification screen** (`Verify`):
  - the blank-query guard;
  - the found rule (more than two characters);
  - the token id read from the query with JavaScript `parseInt` semantics, falling back to 1;
  - the resets of the search box.
- **The wallet helpers** (`Wallet`): the shortened address and the hexadecimal chain id.
- **The navigation bar** (`Navigation`): which screens are enabled, which one is highlighted, and what a click does.

`JsNumber` models the parts of the JavaScript language these depend on:

- `String.prototype.trim` (ECMA-262, section 22.1.3.32), with the white-space and line-terminator sets of sections 12.2 and 12.3;
- `Number.prototype.toString(radix)` for integers (section 21.1.3.6);
- `parseInt` (section 19.2.5).

The model has no randomness and no clock of its own. It takes these as parameters:

- `Math.random()` draws, as reals in [0, 1) in the order the source takes them. The draw behind each payment's `txHash` is the one exception: the hash text is a parameter of its own;
- clock readings, as `Millis` for instants and `CalendarDate` for the date the feed is generated on.

The store and the two screens are classes whose methods change their fields.
The engine's loops are methods with invariants. Each is proved against
specification functions (`TotalAmount`, `MonthKeys`, `Payers`,
`ClassifyRate`, `SortNewestFirst`), and lemmas state the properties of those functions.

The frequency thresholds are compared without division: `count / months >= 0.8`
is `5 * count >= 4 * months`, and `RateThresholds` proves that the two forms agree.
With no months the source divides 0 by 0. The result, NaN, fails every
comparison, so an empty feed is irregular.

Two remarks on how the code behaves:

- Only months that hold a payment are counted, so a non-empty feed has at least one payment per counted month. Its rate is therefore at least 1, and it is never classed `irregular` (`IrregularOnlyWhenEmpty`).
- The found rule tests the untrimmed query, so `"  a"` is found.

## Model

| member | source | states |
|---|---|---|
| JsNumber.TrimStart | src/components/Verify.tsx:27 | the result is a suffix of the input, everything before it is white space, and it does not start with white space |
| JsNumber.TrimEnd | src/components/Verify.tsx:27 | the result is a prefix of the input, everything after it is white space, and it does not end with white space |
| JsNumber.Trim | src/components/Verify.tsx:27 | `trim()` is no longer than its input and neither starts nor ends with white space; dropping exactly the white space at each end is stated by `TrimStart` and `TrimEnd` |
| JsNumber.TrimEmptyIffBlank | src/components/Verify.tsx:27 | `trim()` gives the empty string exactly when the input is all white space (both directions) |
| JsNumber.NatDigits | src/utils/wallet.ts:48 | `toString(radix)` of a natural number is at least one digit of that radix, with no leading zero unless the number is 0 |
| JsNumber.NumberToStringDigits | src/utils/wallet.ts:48 | `toString(radix)` writes only digits of the radix, after a '-' when the number is negative |
| JsNumber.ParseInt | src/components/Verify.tsx:52 | an invalid radix gives NaN, and so does input that is nothing but white space |
| JsNumber.ParseSigned | src/components/Verify.tsx:52 | after the white space: an invalid radix or empty input gives NaN, and a negative result needs a leading '-' |
| JsNumber.ParseMagnitude | src/components/Verify.tsx:52 | after the sign: a number needs a first character that is a digit of the radix (10 when absent); such a character gives a number unless a "0x" prefix follows |
| JsNumber.DigitPrefixLength | src/components/Verify.tsx:52 | parseInt reads the longest run of digits: everything before the end is a digit, the character at the end is not |
| JsNumber.NatDigitsRoundTrip | src/utils/wallet.ts:48 | reading back the digits `toString(radix)` writes gives the number |
| JsNumber.ParseIntLeadingDecimal | src/components/Verify.tsx:52 | `parseInt` without a radix reads white space, an optional sign and the leading decimal digits, and ignores whatever follows |
| JsNumber.ParseIntLeadingHex | src/components/Verify.tsx:52 | with no radix or radix 16, white space, a sign, "0x" or "0X" and hex digits read as the signed hexadecimal value, whatever follows the digits |
| JsNumber.ParseIntNoDigits | src/components/Verify.tsx:52 | input that starts with no white space, sign or digit gives NaN |
| JsNumber.DecimalRoundTrip | src/components/Verify.tsx:52 | `parseInt(String(n))` is n for every integer n |
| JsNumber.HexRoundTrip | src/utils/wallet.ts:30 | `parseInt("0x" + n.toString(16), 16)` is n for every natural n |
| JsNumber.PrefixedHex | src/utils/wallet.ts:30 | with radix 16, "0x" followed by hex digits reads as the value of those digits |
| JsNumber.HexOfNegativeIsNaN | src/utils/wallet.ts:48 | for a negative n that string parses to NaN |
| MockData.RandomBelow | src/utils/mockData.ts:28-33 | `Math.floor(Math.random() * n)` is an index below n |
| MockData.JurisdictionTablesDisjoint | src/utils/mockData.ts:118-132 | no code is both permitted and blocked |
| MockData.PaymentDateAsWritten | src/utils/mockData.ts:35-37 | `setMonth` keeps the day of the month, so the payment lands one month late whenever today's day is past the end of the target month |
| MockData.MonthRolloverCollapsesMonths | src/utils/mockData.ts:35-37 | on 31 March 2024 the six months back land in March, March, January, December, December and October: four calendar months |
| MockData.PaymentDate | src/utils/mockData.ts:35-37 | the payment date lies exactly `back` months before today, on the drawn day |
| MockData.DaysInMonth | src/utils/mockData.ts:35-37 | a month has 28 to 31 days, the bound the rollover of `setMonth` is measured against |
| MockData.TxIdInjective | src/utils/mockData.ts:40 | distinct (month, index) pairs give distinct ids `tx-<month>-<i>` |
| MockData.AdjacentToNewestFirst | src/utils/mockData.ts:51 | a list ordered between neighbours is ordered between every pair |
| MockData.InsertNewestFirst | src/utils/mockData.ts:51 | inserting keeps the multiset plus the new element and keeps a newest-first list newest first |
| MockData.SortNewestFirst | src/utils/mockData.ts:51 | the sort is a permutation of its input, newest first |
| MockData.InsertedFrom | src/utils/mockData.ts:51 | every element of an insertion is the inserted payment or one of the list |
| MockData.InsertKeepsIdsDistinct | src/utils/mockData.ts:51 | inserting a fresh id keeps the ids distinct |
| MockData.SortKeepsIdsDistinct | src/utils/mockData.ts:51 | sorting keeps the ids distinct |
| MockData.Payment | src/utils/mockData.ts:31-47 | one payment from four draws: amount 1500..6499, day 1..28, the wallet as payee, a listed employer as payer, a listed memo, id `tx-<month>-<i>`, dated in the month `month` months back |
| MockData.FreshPaymentId | src/utils/mockData.ts:40 | an unused (month, i) gives an id no earlier payment carries |
| MockData.GenerateMockTransactions | src/utils/mockData.ts:4-52 | 12 to 24 payments; each has amount 1500..6499, day 1..28, the wallet as payee, a known employer as payer, a known memo, and id `tx-<month>-<i>` in its month; the ids are distinct; the list is newest first; each of the six months back holds a payment |
| MockData.SortedFeed | src/utils/mockData.ts:27-51 | sorting the pushed payments keeps their number, their properties, their distinct ids and their month coverage |
| MockData.MonthKeysSnoc | src/utils/mockData.ts:61-62 | one more payment adds its (year, month) key to the set of months |
| MockData.PayersSnoc | src/utils/mockData.ts:58-63 | one more payment adds its payer to the set of payers |
| MockData.MonthTotalOfAbsentMonth | src/utils/mockData.ts:62 | a month with no payment totals 0, so a month's running total starts from 0 |
| MockData.MonthCountBounds | src/utils/mockData.ts:66 | there are at most as many months as payments, and none exactly when there are no payments |
| MockData.MonthKey | src/utils/mockData.ts:61 | the key is (year, month) with the month in 0..11, and it determines the month number, so two payments share a key exactly when they are in the same calendar month |
| MockData.SumAmounts | src/utils/mockData.ts:56 | the `reduce` gives the sum of all amounts |
| MockData.TallyStep | src/utils/mockData.ts:60-64 | one more payment updates the month table to the keys and totals of the longer list: its month gets its amount added to the old total or to 0 |
| MockData.TallyMonthsAndPayers | src/utils/mockData.ts:57-64 | the month table has exactly one key per calendar month holding a payment, each mapped to that month's total, and the payer set is the set of all payers |
| MockData.AverageOf | src/utils/mockData.ts:67 | with months, the average times the number of months is the total; with none it is 0 |
| MockData.ClassifyRate | src/utils/mockData.ts:73-81 | the four classes partition the rates: weekly from 4 up, bi-weekly in [2, 4), monthly in [0.8, 2), irregular below 0.8 |
| MockData.FrequencyOf | src/utils/mockData.ts:69-81 | the class of count / months is weekly exactly when count >= 4·months (with a positive count when there are no months, the +Infinity rate), and irregular exactly when there are no payments or count < 0.8·months; the middle classes are given by `FrequencyCrossMultiplied` |
| MockData.FrequencyCrossMultiplied | src/utils/mockData.ts:69-81 | the class of count / months is the first-match chain on 4·months, 2·months and 0.8·months taken over the integers; with no months, a positive count is weekly and a zero count irregular |
| MockData.CalculateIncomeMetrics | src/utils/mockData.ts:55-92 | the total is the sum of the amounts; the count is the input length; the payer count is the number of distinct payers; the average is the total over the number of distinct months, or 0 when there are none; the class is the first-match classification of count over months, irregular for no payments; the input is returned as given and `lastUpdated` is the clock |
| MockData.RateThresholds | src/utils/mockData.ts:70-81 | comparing count / months with 4, 2 and 0.8 is comparing count with 4·months, 2·months and 0.8·months |
| MockData.IrregularOnlyWhenEmpty | src/utils/mockData.ts:66-81 | a non-empty feed has at least one month and is never classified irregular |
| MockData.ClassifyMonotone | src/utils/mockData.ts:73-81 | more payments over the same months never give a less frequent class |
| MockData.HexDigitsOf | src/utils/mockData.ts:100-102 | one hex digit per draw, the digit of `floor(r * 16)` |
| MockData.TokenURI | src/utils/mockData.ts:113 | the URI is `ipfs://QmNeuraProof` followed by at least one character, all decimal digits for a non-negative id |
| MockData.TokenURINamesToken | src/utils/mockData.ts:113 | the URI is `ipfs://QmNeuraProof` followed by the id, and the id reads back from it |
| MockData.GenerateMockNFT | src/utils/mockData.ts:95-115 | the record copies the token id, wallet and income figures, is valid, carries the token URI of its id, and its hash is "0x" and 64 lower-case hex digits, one per draw |
| Store.MergeWallet | src/store/useStore.ts:50-52 | each wallet field is the patch's when the patch supplies it and the old one otherwise |
| Store.MergeEmptyIsIdentity | src/store/useStore.ts:50-52 | merging an empty patch changes nothing |
| Store.MergeIdempotent | src/store/useStore.ts:50-52 | merging the same patch twice is merging it once |
| Store.MergeComposes | src/store/useStore.ts:50-52 | two merges in a row are one merge of the later patch over the earlier |
| Store.RemoveById | src/store/useStore.ts:87-89 | the result keeps exactly the toasts whose id differs, and no more than there were |
| Store.RemoveByIdIdempotent | src/store/useStore.ts:87-89 | removing an id twice is removing it once |
| Store.RemoveAbsentId | src/store/useStore.ts:87-89 | removing an id no toast carries changes nothing |
| Store.RemoveByIdAppend | src/store/useStore.ts:87-89 | the filter distributes over concatenation, so it keeps the order of the others |
| Store.StampedToast | src/store/useStore.ts:85 | the toast keeps the given kind, title and message, and its id is the decimal digits of the clock reading |
| Store.StampedToastFields | src/store/useStore.ts:84-86 | the toast carries the given kind, title and message, and its id reads back as the clock reading `Date.now().toString()` was made from |
| Store.StampedToastIdsDiffer | src/store/useStore.ts:84-86 | toasts stamped at different clock readings have different ids |
| Store.AddThenRemoveToast | src/store/useStore.ts:84-89 | a toast that was added and then removed by its own id leaves the list as it was |
| Store.AppStore.constructor | src/store/useStore.ts:44-93 | the initial store: wallet disconnected with balance "0", no income, no proofs, no toasts, no result, dashboard view, jurisdiction "US" |
| Store.AppStore.SetWallet | src/store/useStore.ts:50-52 | the wallet becomes the merge of the patch over the old wallet |
| Store.AppStore.DisconnectWallet | src/store/useStore.ts:53-56 | the wallet is reset and the income cleared; proofs, toasts, view and jurisdiction stay |
| Store.AppStore.SetIncomeData | src/store/useStore.ts:60 | the income becomes the given value |
| Store.AppStore.SetIsScanning | src/store/useStore.ts:62 | the scanning flag becomes the given value |
| Store.AppStore.AddMintedNFT | src/store/useStore.ts:66-68 | the registry grows by the given record at its end; the earlier records stay in place |
| Store.AppStore.SetIsMinting | src/store/useStore.ts:70 | the minting flag becomes the given value |
| Store.AppStore.SetVerificationResult | src/store/useStore.ts:74 | the result becomes the given value |
| Store.AppStore.SetIsVerifying | src/store/useStore.ts:76 | the verifying flag becomes the given value |
| Store.AppStore.SetCurrentView | src/store/useStore.ts:80 | the view becomes the given one |
| Store.AppStore.AddToast | src/store/useStore.ts:84-86 | exactly one toast is appended, stamped with the clock |
| Store.AppStore.RemoveToast | src/store/useStore.ts:87-89 | the toasts become the old ones without that id |
| Store.AppStore.SetSelectedJurisdiction | src/store/useStore.ts:93 | the jurisdiction becomes the given code |
| MintProof.FirstIndexWithCode | src/components/MintProof.tsx:38 | the position of the first entry with the code: no earlier entry has it, and the table length when none does |
| MintProof.FindByCode | src/components/MintProof.tsx:38 | none exactly when no entry has the code; otherwise the entry at the first position that has it |
| MintProof.SelectedJurisdictionData | src/components/MintProof.tsx:38 | a found entry is a permitted one with the selected code; nothing is found exactly when the code is none of US, UK, EU, CA, AU, SG, JP |
| MintProof.IsBlocked | src/components/MintProof.tsx:39 | blocked exactly for the codes KP, IR and CU |
| MintProof.MintButtonDisabled | src/components/MintProof.tsx:372 | the button is disabled exactly while minting or for a blocked code |
| MintProof.CanMint | src/components/MintProof.tsx:42 | a null and an empty address both stop the mint; a mint that goes ahead has income data and a jurisdiction that leaves the button enabled |
| MintProof.PermittedNeverBlocked | src/components/MintProof.tsx:38-39 | a code found in the permitted table is never blocked, and a blocked code is never found there |
| MintProof.DefaultJurisdictionPermitted | src/store/useStore.ts:92 | the initial selection "US" is the first permitted entry and is not blocked |
| MintProof.SequentialAppend | src/components/MintProof.tsx:54-55 | appending id length + 1 keeps the registry's ids 1, 2, ... |
| MintProof.SequentialIdsUnique | src/components/MintProof.tsx:54-55 | sequential ids are positive, strictly increasing and never reused, and the last equals the count |
| MintProof.RegistryAfter | src/components/MintProof.tsx:54-55 | the registry after n successful mints from the empty one, each appending the record `CompleteMint` appends, holds n records |
| MintProof.LastMint | src/components/MintProof.tsx:54-55 | the last of n mints appends the record with id n for its wallet to the registry of the first n - 1 |
| MintProof.MintsFromEmpty | src/components/MintProof.tsx:54-55 | n mints from an empty registry give the ids 1..n in order, every id in 1..n is present, and the i-th record is for the i-th mint's wallet |
| MintProof.MintPanel.constructor | src/components/MintProof.tsx:34-35 | the screen starts idle with no record shown, consistent with a store that is not minting |
| MintProof.MintPanel.BeginMint | src/components/MintProof.tsx:44-45 | the step becomes confirming and the minting flag goes up |
| MintProof.MintPanel.ConfirmationElapsed | src/components/MintProof.tsx:49 | confirming moves to minting; the flag stays up |
| MintProof.MintPanel.CompleteMint | src/components/MintProof.tsx:54-64 | the record with id length + 1 is registered and shown, the step is success, the flag is down, and the success toast names the id |
| MintProof.MintPanel.HandleMint | src/components/MintProof.tsx:41-65 | with no address (null or empty), no income or a blocked jurisdiction nothing changes; otherwise exactly one record is appended, carrying the next id, the wallet and the income, and a sequential registry stays sequential |
| MintProof.MintPanel.ClickMint | src/components/MintProof.tsx:370-372 | a disabled button (minting or blocked), or a press that fails `handleMint`'s address and income guard, changes nothing, the minting flag included; any other press leaves exactly `handleMint`'s success state: one record with the next id appended, shown, step "success", flag down, success toast; a sequential registry stays sequential |
| MintProof.MintPanel.ResetMint | src/components/MintProof.tsx:73-76 | back to idle with no record shown; the registry is untouched |
| MintProof.MintedRecordDescribesWallet | src/components/MintProof.tsx:54 | the minted record names the next id, the wallet, and the income figures it was minted from |
| Verify.IsBlankQuery | src/components/Verify.tsx:27 | a query is blank exactly when every character is white space |
| Verify.IsFound | src/components/Verify.tsx:48 | a query of at most two characters is never found, and one whose trimmed form is longer than two always is |
| Verify.VerifyButtonDisabled | src/components/Verify.tsx:162 | the button is disabled exactly while verifying or for an all-white-space query |
| Verify.TokenIdFromQuery | src/components/Verify.tsx:52 | the id is never 0: it is the parsed integer when that is a non-zero number and 1 otherwise |
| Verify.TokenIdOfNumeral | src/components/Verify.tsx:52 | a query that spells a non-zero id in decimal gives that id |
| Verify.TokenIdOfLeadingDecimal | src/components/Verify.tsx:52 | leading white space and a non-digit tail are ignored, and a sign is applied |
| Verify.TokenIdOfLeadingHex | src/components/Verify.tsx:52 | a query with a "0x" or "0X" prefix after the white space and sign gives the signed hexadecimal value ("0x1A" is 26) |
| Verify.TokenIdOfText | src/components/Verify.tsx:52 | a query that does not start with a digit, sign or white space gives 1 |
| Verify.ReportedTokenId | src/components/Verify.tsx:51-53 | a token-id search reports the id read from the query; the other searches report a drawn id in 1..100 |
| Verify.VerifyPanel.constructor | src/components/Verify.tsx:23-24 | the screen starts on the token-id tab with an empty box |
| Verify.VerifyPanel.SetSearchValue | src/components/Verify.tsx:139 | the box holds what was typed |
| Verify.VerifyPanel.SelectTab | src/components/Verify.tsx:111-115 | a tab press sets the search type, empties the box and clears the result |
| Verify.VerifyPanel.ClearSearch | src/components/Verify.tsx:74-77 | the box is emptied and the result cleared; the tab stays |
| Verify.VerifyPanel.BeginVerify | src/components/Verify.tsx:26-37 | a blank query only appends the warning toast, leaving the flag and the old result; otherwise the flag goes up and the result is cleared |
| Verify.VerifyPanel.CompleteVerify | src/components/Verify.tsx:40-71 | a query longer than two characters gives a valid proof for the mock wallet with the reported id and a well-formed hash, and a success toast; a shorter one gives no result and an error toast; the flag goes down |
| Verify.VerifyPanel.HandleVerify | src/components/Verify.tsx:26-72 | a blank query only adds the warning toast; otherwise the flag ends down and a found query leaves a valid record for the mock wallet with the reported token id, a well-formed 0x + 64-hex verification hash and the success toast, while a query not found leaves no result and the error toast |
| Verify.BlankQueriesNeverSearched | src/components/Verify.tsx:162 | an all-white-space query is blank and disables the verify button |
| Wallet.ShortenAddress | src/utils/wallet.ts:90-93 | empty stays empty; otherwise the first min(6, n) characters, "...", and the last min(4, n) |
| Wallet.ShortenedLength | src/utils/wallet.ts:92 | an address of six characters or more shortens to 13 characters |
| Wallet.ShortAddressRepeated | src/utils/wallet.ts:92 | an address shorter than four characters appears on both sides of "..." |
| Wallet.ChainIdHex | src/utils/wallet.ts:48 | the chain id sent is "0x" and at least one more character, all hex digits for a non-negative id |
| Wallet.ParseChainId | src/utils/wallet.ts:30 | a blank reply reads as NaN, and a "0x"-prefixed reply never reads as a negative id |
| Wallet.PrefixedNeverNegative | src/utils/wallet.ts:30 | after "0x" a '-' is no hex digit, so `parseInt(…, 16)` of a prefixed string is never negative |
| Wallet.ChainIdRoundTrip | src/utils/wallet.ts:30-48 | the hex chain id sent at line 48 parses back at line 30 to the same id when the id is not negative, and to NaN when it is |
| Wallet.NeuraTestnetChainIdHex | src/utils/wallet.ts:48 | the test network 267 is sent as "0x10b" and read back as 267 |
| Wallet.HexOf267 | src/utils/mockData.ts:136 | `(267).toString(16)` is "10b" |
| Wallet.UpperCaseChainId | src/utils/wallet.ts:30 | "0x10B" also reads back as 267 |
| Navigation.IsDisabled | src/components/Navigation.tsx:32 | an item is disabled exactly when no wallet is connected and it is the dashboard, mint or history item |
| Navigation.VerifyNeverDisabled | src/components/Navigation.tsx:32 | the verify item is enabled whether or not a wallet is connected |
| Navigation.DisabledExactlyWhenDisconnected | src/components/Navigation.tsx:12-32 | connected: every item enabled; disconnected: exactly the items other than verify disabled |
| Navigation.ExactlyOneActive | src/components/Navigation.tsx:12-31 | exactly one item, the current view's, is highlighted |
| Navigation.ClickNavItem | src/components/Navigation.tsx:37 | a click on a disabled item keeps the view; on an enabled one sets the view to it |

## Findings

| source | as written | input that shows it | evidently intended | confidence | as-written member | corrected member |
|---|---|---|---|---|---|---|
| src/utils/mockData.ts:35-37 | the copy of today's date is moved back with `setMonth` before `setDate(day)`, while it still carries today's day of the month; a day the target month lacks runs over into the next month | today 31 March 2024, month 1: "31 February" becomes 2 March, so that month's payments are dated March, like month 0's; "31 November" becomes 1 December in the same way, and the feed covers four calendar months (March, January, December, October) instead of six | each of the six iterations dates its payments in its own calendar month, `month` months before today | not executed | MockData.PaymentDateAsWritten | MockData.PaymentDate |

## Left out

- `Math.random()`, `Date.now()` and `new Date()` are parameters. A single `now` stands for the several clock readings one handler takes.
- Calendar arithmetic beyond the month rollover is not modelled: time zones and the time of day are out. A payment's timestamp is its (year, month, day), which is all that the aggregation and the ordering read.
- MockData.GenerateMockTransactions: the month arithmetic is the corrected one (see Findings). It does not state how many payments each month gets, only that each month has one and that the total is 12 to 24.
- MockData.GenerateMockTransactions: each payment's `txHash` is `0x` followed by a supplied string. `Math.random().toString(16)` of a float is not modelled, so the fifth draw each payment takes (src/utils/mockData.ts:46) is not part of the draw sequence either.
- MockData.SortNewestFirst: the order among payments of the same date (the sort is stable) is not stated; only the newest-first order and the permutation are.
- The month key is the pair (year, month) rather than the string `${year}-${month}`. The string has a sign only on the year, so distinct pairs give distinct strings and the number of keys is the same.
- Numbers are unbounded integers and exact reals. Precision past 2^53, exponent notation from `toString` and negative zero are not modelled.
- Strings are sequences of Unicode characters, not UTF-16 code units. `length` and `slice` of characters outside the Basic Multilingual Plane differ.
- Wallet I/O is not modelled: `connectWallet`, `switchToNeuraTestnet` and `getBalance` talk to the browser wallet. Only the chain-id encoding and decoding they use are modelled.
- `CONTRACT_ADDRESSES` (src/utils/mockData.ts:148-152) is not modelled: nothing in the modelled code reads it. The verify screen writes out the proof contract's address again as its mock wallet (`Verify.MockAddress`).
- `formatCurrency` and `formatDate` wrap the `Intl` formatters and are not modelled.
- The delays of `handleMint` and `handleVerify` are not modelled. Each handler is one transition, so a second click during a delay and the stale `mintedNFTs` length it would read are out.
- The toast auto-dismiss timer, the scan progress interval and the copy-to-clipboard state are timers and are not modelled.
- Two toasts added in the same millisecond get the same id, and removing one then removes both. `AddThenRemoveToast` assumes ids are fresh.
- There is no tamper check on the verification hash: it is random, not derived from the record.
- Rendering and styling are not modelled: JSX, animations and the jurisdiction dropdown's open/closed state.
