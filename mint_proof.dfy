/**
 * The mint flow of src/components/MintProof.tsx: the jurisdiction gate, the
 * wallet and income guards, the step machine shown while a proof is minted,
 * and the allocation of token ids from the length of the registry.
 *
 * The two simulated delays split `handleMint` into three steps; the model
 * runs them one after the other, as one transition.
 */
module MintProof {
  import opened Wrappers
  import opened Types
  import opened JsNumber
  import opened MockData
  import opened Store

  // ----- Jurisdiction lookups -------------------------------------------------

  predicate HasCode(table: seq<Jurisdiction>, code: string) {
    exists j <- table :: j.code == code
  }

  /** The position of the first entry with the code, or the table length when there is none. */
  function FirstIndexWithCode(table: seq<Jurisdiction>, code: string): (k: nat)
    ensures k <= |table|
    ensures forall i :: 0 <= i < k ==> table[i].code != code
    ensures k < |table| ==> table[k].code == code
  {
    if table == [] then 0
    else if table[0].code == code then 0
    else 1 + FirstIndexWithCode(table[1..], code)
  }

  /** `table.find(j => j.code === code)`: the first entry with that code. */
  function FindByCode(table: seq<Jurisdiction>, code: string): (r: Option<Jurisdiction>)
    ensures r.None? <==> !HasCode(table, code)
    ensures r.Some? ==> FirstIndexWithCode(table, code) < |table| && r.value == table[FirstIndexWithCode(table, code)]
  {
    var k := FirstIndexWithCode(table, code);
    if k < |table| then Some(table[k]) else None
  }

  /** `selectedJurisdictionData`: the permitted entry with the selected code, if there is one. */
  function SelectedJurisdictionData(selected: string): (r: Option<Jurisdiction>)
    ensures r.Some? ==> r.value in PermittedJurisdictions && r.value.code == selected
    ensures r.None? <==> selected !in {"US", "UK", "EU", "CA", "AU", "SG", "JP"}
  {
    FindByCode(PermittedJurisdictions, selected)
  }

  /** `isBlocked`: `BLOCKED_JURISDICTIONS.some(j => j.code === selected)`. */
  function IsBlocked(selected: string): (b: bool)
    ensures b <==> selected in {"KP", "IR", "CU"}
  {
    HasCode(BlockedJurisdictions, selected)
  }

  /** Choosing a code from the permitted table never blocks minting; choosing one from the blocked table always does. */
  lemma PermittedNeverBlocked(selected: string)
    ensures SelectedJurisdictionData(selected).Some? ==> !IsBlocked(selected)
    ensures IsBlocked(selected) ==> SelectedJurisdictionData(selected) == None
  {
    JurisdictionTablesDisjoint();
  }

  /** The initial selection "US" is permitted. */
  lemma DefaultJurisdictionPermitted()
    ensures SelectedJurisdictionData("US") == Some(PermittedJurisdictions[0]) && !IsBlocked("US")
  {
    PermittedNeverBlocked("US");
  }

  // ----- The mint -------------------------------------------------------------

  datatype MintStep = Idle | Confirming | Minting | Success

  /** The mint button: `disabled={isMinting || isBlocked}`. */
  function MintButtonDisabled(isMinting: bool, selected: string): (b: bool)
    ensures b <==> isMinting || selected in {"KP", "IR", "CU"}
  {
    isMinting || IsBlocked(selected)
  }

  /** The guard of `handleMint`: `!wallet.address` holds for `null` and for the empty address. */
  function CanMint(wallet: WalletState, incomeData: Option<IncomeData>, selected: string): (b: bool)
    ensures (wallet.address == None || wallet.address == Some("")) ==> !b
    ensures b ==> incomeData.Some? && !MintButtonDisabled(false, selected)
  {
    wallet.address.Some? && wallet.address.value != "" && incomeData.Some? && !IsBlocked(selected)
  }

  function MintedMessage(tokenId: int): string {
    "Your income proof NFT #" + NumberToString(tokenId, 10) + " has been minted"
  }

  /** The registry holds token ids 1, 2, ... in list order. */
  predicate SequentialIds(nfts: seq<ProofRecord>) {
    forall i :: 0 <= i < |nfts| ==> nfts[i].tokenId == i + 1
  }

  /** Appending the id `length + 1` keeps the registry sequential. */
  lemma SequentialAppend(nfts: seq<ProofRecord>, nft: ProofRecord)
    requires SequentialIds(nfts) && nft.tokenId == |nfts| + 1
    ensures SequentialIds(nfts + [nft])
  {
  }

  /** In a sequential registry ids are positive, strictly increasing, never reused, and the last is the length. */
  lemma SequentialIdsUnique(nfts: seq<ProofRecord>)
    requires SequentialIds(nfts)
    ensures forall i, j :: 0 <= i < j < |nfts| ==> 0 < nfts[i].tokenId < nfts[j].tokenId
    ensures nfts != [] ==> nfts[|nfts| - 1].tokenId == |nfts|
  {
  }

  predicate HasTokenId(nfts: seq<ProofRecord>, id: int) {
    exists r <- nfts :: r.tokenId == id
  }

  /** What one successful mint is made from: the wallet, its income, the hash draws and the clock. */
  datatype MintRequest = MintRequest(address: string, income: IncomeData, hashDraws: seq<real>, now: Millis)

  predicate WellFormedRequests(requests: seq<MintRequest>) {
    forall i :: 0 <= i < |requests| ==> |requests[i].hashDraws| == 64 && UnitInterval(requests[i].hashDraws)
  }

  /**
   * The registry after the given successful mints, starting from the empty
   * one: each appends what `CompleteMint` appends, the record whose id is the
   * registry length plus one.
   */
  function RegistryAfter(requests: seq<MintRequest>): (registry: seq<ProofRecord>)
    requires WellFormedRequests(requests)
    ensures |registry| == |requests|
  {
    if requests == [] then []
    else
      var previous := RegistryAfter(requests[..|requests| - 1]);
      var q := requests[|requests| - 1];
      previous + [GenerateMockNFT(|previous| + 1, q.address, q.income, q.hashDraws, q.now)]
  }

  /**
   * n mints from an empty registry give the ids 1 to n in order, each record
   * for the wallet of its own mint: by induction over the mints.
   */
  lemma {:induction false} MintsFromEmpty(requests: seq<MintRequest>)
    requires WellFormedRequests(requests)
    ensures SequentialIds(RegistryAfter(requests))
    ensures forall id :: 1 <= id <= |requests| ==> HasTokenId(RegistryAfter(requests), id)
    ensures forall i :: 0 <= i < |requests| ==> RegistryAfter(requests)[i].walletAddress == requests[i].address
  {
    if requests != [] {
      var earlier := requests[..|requests| - 1];
      LastMint(requests);
      MintsFromEmpty(earlier);
      var previous := RegistryAfter(earlier);
      var registry := RegistryAfter(requests);
      assert registry == previous + [registry[|previous|]];
      SequentialAppend(previous, registry[|previous|]);
      forall id | 1 <= id <= |requests|
        ensures HasTokenId(registry, id)
      {
        assert registry[id - 1] in registry;
      }
    }
  }

  /** The last of a series of mints appends the record for its wallet with id n to the registry of the first n - 1. */
  lemma LastMint(requests: seq<MintRequest>)
    requires WellFormedRequests(requests) && requests != []
    ensures WellFormedRequests(requests[..|requests| - 1])
    ensures var previous := RegistryAfter(requests[..|requests| - 1]);
      && |RegistryAfter(requests)| == |previous| + 1
      && RegistryAfter(requests)[..|previous|] == previous
      && RegistryAfter(requests)[|previous|].tokenId == |previous| + 1
      && RegistryAfter(requests)[|previous|].walletAddress == requests[|requests| - 1].address
  {
    var earlier := requests[..|requests| - 1];
    assert forall i :: 0 <= i < |earlier| ==> earlier[i] == requests[i];
  }

  /** The local state of the mint screen, over the shared store. */
  class MintPanel {
    var mintStep: MintStep
    var mintedNFT: Option<ProofRecord>
    const store: AppStore

    /** The minting flag of the store is up exactly while a mint is under way. */
    ghost predicate StepConsistent()
      reads this, store
    {
      store.isMinting <==> (mintStep == Confirming || mintStep == Minting)
    }

    constructor (store: AppStore)
      ensures this.store == store && mintStep == Idle && mintedNFT == None
      ensures !store.isMinting ==> StepConsistent()
    {
      this.store := store;
      mintStep := Idle;
      mintedNFT := None;
    }

    /** The first part of `handleMint`, up to the first delay. */
    method BeginMint()
      modifies this`mintStep, store`isMinting
      ensures mintStep == Confirming && store.isMinting && StepConsistent()
    {
      mintStep := Confirming;
      store.SetIsMinting(true);
    }

    /** After the confirmation delay. */
    method ConfirmationElapsed()
      requires mintStep == Confirming && StepConsistent()
      modifies this`mintStep
      ensures mintStep == Minting && StepConsistent()
    {
      mintStep := Minting;
    }

    /**
     * After the minting delay: the next token id is the registry length plus
     * one; the record is registered, shown, and announced.
     */
    method CompleteMint(address: string, income: IncomeData, hashDraws: seq<real>, now: Millis)
      requires |hashDraws| == 64 && UnitInterval(hashDraws)
      requires mintStep == Minting && StepConsistent()
      modifies this`mintStep, this`mintedNFT, store`mintedNFTs, store`isMinting, store`toasts
      ensures var nft := GenerateMockNFT(|old(store.mintedNFTs)| + 1, address, income, hashDraws, now);
        && store.mintedNFTs == old(store.mintedNFTs) + [nft]
        && mintedNFT == Some(nft)
        && store.toasts == old(store.toasts) + [StampedToast(SuccessToast, "NFT Minted Successfully!", MintedMessage(nft.tokenId), now)]
      ensures mintStep == Success && !store.isMinting && StepConsistent()
    {
      var nft := GenerateMockNFT(|store.mintedNFTs| + 1, address, income, hashDraws, now);
      store.AddMintedNFT(nft);
      mintedNFT := Some(nft);
      mintStep := Success;
      store.SetIsMinting(false);
      store.AddToast(SuccessToast, "NFT Minted Successfully!", MintedMessage(nft.tokenId), now);
    }

    /**
     * `handleMint`. Without an address, without income data or in a blocked
     * jurisdiction nothing changes; otherwise the step machine runs
     * idle -> confirming -> minting -> success and exactly one record is
     * registered, with the next token id.
     */
    method HandleMint(hashDraws: seq<real>, now: Millis)
      requires |hashDraws| == 64 && UnitInterval(hashDraws)
      modifies this`mintStep, this`mintedNFT, store`mintedNFTs, store`isMinting, store`toasts
      ensures !old(CanMint(store.wallet, store.incomeData, store.selectedJurisdiction)) ==>
        && mintStep == old(mintStep) && mintedNFT == old(mintedNFT)
        && store.mintedNFTs == old(store.mintedNFTs) && store.isMinting == old(store.isMinting)
        && store.toasts == old(store.toasts)
      ensures old(CanMint(store.wallet, store.incomeData, store.selectedJurisdiction)) ==>
        var nft := GenerateMockNFT(|old(store.mintedNFTs)| + 1, old(store.wallet.address.value),
                                   old(store.incomeData.value), hashDraws, now);
        && store.mintedNFTs == old(store.mintedNFTs) + [nft]
        && mintedNFT == Some(nft)
        && mintStep == Success && !store.isMinting
        && store.toasts == old(store.toasts) + [StampedToast(SuccessToast, "NFT Minted Successfully!", MintedMessage(nft.tokenId), now)]
      ensures SequentialIds(old(store.mintedNFTs)) ==> SequentialIds(store.mintedNFTs)
    {
      if !CanMint(store.wallet, store.incomeData, store.selectedJurisdiction) {
        return;
      }
      var address := store.wallet.address.value;
      var income := store.incomeData.value;
      BeginMint();
      ConfirmationElapsed();
      ghost var before := store.mintedNFTs;
      CompleteMint(address, income, hashDraws, now);
      if SequentialIds(before) {
        SequentialAppend(before, mintedNFT.value);
      }
    }

    /**
     * A press of the mint button: nothing while it is disabled or while
     * `handleMint`'s guard fails; otherwise one full mint.
     */
    method ClickMint(hashDraws: seq<real>, now: Millis)
      requires |hashDraws| == 64 && UnitInterval(hashDraws)
      modifies this`mintStep, this`mintedNFT, store`mintedNFTs, store`isMinting, store`toasts
      ensures old(MintButtonDisabled(store.isMinting, store.selectedJurisdiction)
                  || !CanMint(store.wallet, store.incomeData, store.selectedJurisdiction)) ==>
        && mintStep == old(mintStep) && mintedNFT == old(mintedNFT)
        && store.mintedNFTs == old(store.mintedNFTs) && store.isMinting == old(store.isMinting)
        && store.toasts == old(store.toasts)
      ensures old(!MintButtonDisabled(store.isMinting, store.selectedJurisdiction)
                  && CanMint(store.wallet, store.incomeData, store.selectedJurisdiction)) ==>
        var nft := GenerateMockNFT(|old(store.mintedNFTs)| + 1, old(store.wallet.address.value),
                                   old(store.incomeData.value), hashDraws, now);
        && store.mintedNFTs == old(store.mintedNFTs) + [nft]
        && mintedNFT == Some(nft)
        && mintStep == Success && !store.isMinting
        && store.toasts == old(store.toasts) + [StampedToast(SuccessToast, "NFT Minted Successfully!", MintedMessage(nft.tokenId), now)]
      ensures old(store.mintedNFTs) <= store.mintedNFTs && |store.mintedNFTs| <= |old(store.mintedNFTs)| + 1
      ensures SequentialIds(old(store.mintedNFTs)) ==> SequentialIds(store.mintedNFTs)
    {
      if !MintButtonDisabled(store.isMinting, store.selectedJurisdiction) {
        HandleMint(hashDraws, now);
      }
    }

    /** `resetMint` ("Mint Another"): back to idle; the registry keeps the record. */
    method ResetMint()
      modifies this`mintStep, this`mintedNFT
      ensures mintStep == Idle && mintedNFT == None
      ensures store.mintedNFTs == old(store.mintedNFTs)
    {
      mintStep := Idle;
      mintedNFT := None;
    }
  }

  /** The minted record carries the wallet and the income it was minted from. */
  lemma MintedRecordDescribesWallet(mintedCount: nat, address: string, income: IncomeData, hashDraws: seq<real>, now: Millis)
    requires |hashDraws| == 64 && UnitInterval(hashDraws)
    ensures var nft := GenerateMockNFT(mintedCount + 1, address, income, hashDraws, now);
      && nft.tokenId == mintedCount + 1 && nft.walletAddress == address
      && nft.averageMonthlyIncome == income.averageMonthlyIncome
      && nft.paymentFrequency == income.paymentFrequency && nft.employerCount == income.employerCount
      && ParseInt(TokenURI(nft.tokenId)[|TokenURIPrefix|..], 0) == Some(mintedCount + 1)
  {
    TokenURINamesToken(mintedCount + 1);
  }
}
