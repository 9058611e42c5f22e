/**
 * The application store of src/store/useStore.ts: one object holding the
 * wallet, the scanned income, the minted proofs, the last verification, the
 * current screen, the pending notifications and the chosen jurisdiction.
 * Every setter of the source replaces one or two fields and keeps the rest.
 */
module Store {
  import opened Wrappers
  import opened Types
  import opened JsNumber

  /**
   * `Partial<WalletState>`: each field either absent (None) or present with a
   * value. The address and chain id may be present as `null`, hence the
   * nested option.
   */
  datatype WalletPatch = WalletPatch(
    address: Option<Option<string>>,
    isConnected: Option<bool>,
    chainId: Option<Option<int>>,
    balance: Option<string>)

  const EmptyPatch := WalletPatch(None, None, None, None)

  /** `{ ...state.wallet, ...patch }`: a field present in the patch wins. */
  function MergeWallet(w: WalletState, patch: WalletPatch): (r: WalletState)
    ensures r.address == (if patch.address.Some? then patch.address.value else w.address)
    ensures r.isConnected == (if patch.isConnected.Some? then patch.isConnected.value else w.isConnected)
    ensures r.chainId == (if patch.chainId.Some? then patch.chainId.value else w.chainId)
    ensures r.balance == (if patch.balance.Some? then patch.balance.value else w.balance)
  {
    WalletState(
      if patch.address.Some? then patch.address.value else w.address,
      if patch.isConnected.Some? then patch.isConnected.value else w.isConnected,
      if patch.chainId.Some? then patch.chainId.value else w.chainId,
      if patch.balance.Some? then patch.balance.value else w.balance)
  }

  function OrElse<T>(later: Option<T>, earlier: Option<T>): Option<T> {
    if later.Some? then later else earlier
  }

  /** Two spreads in a row are one spread of the later patch over the earlier. */
  function ComposePatches(first: WalletPatch, second: WalletPatch): WalletPatch {
    WalletPatch(
      OrElse(second.address, first.address),
      OrElse(second.isConnected, first.isConnected),
      OrElse(second.chainId, first.chainId),
      OrElse(second.balance, first.balance))
  }

  lemma MergeEmptyIsIdentity(w: WalletState)
    ensures MergeWallet(w, EmptyPatch) == w
  {
  }

  lemma MergeIdempotent(w: WalletState, patch: WalletPatch)
    ensures MergeWallet(MergeWallet(w, patch), patch) == MergeWallet(w, patch)
  {
  }

  lemma MergeComposes(w: WalletState, first: WalletPatch, second: WalletPatch)
    ensures MergeWallet(MergeWallet(w, first), second) == MergeWallet(w, ComposePatches(first, second))
  {
  }

  /** The wallet of a store nobody has connected: no address, no chain, balance "0". */
  const DisconnectedWallet := WalletState(None, false, None, "0")

  /** `toasts.filter((t) => t.id !== id)`. */
  function RemoveById(toasts: seq<Toast>, id: string): (r: seq<Toast>)
    ensures |r| <= |toasts|
    ensures forall t <- r :: t in toasts && t.id != id
    ensures forall t <- toasts :: t.id != id ==> t in r
  {
    if toasts == [] then []
    else if toasts[0].id != id then [toasts[0]] + RemoveById(toasts[1..], id)
    else RemoveById(toasts[1..], id)
  }

  lemma {:induction false} RemoveByIdIdempotent(toasts: seq<Toast>, id: string)
    ensures RemoveById(RemoveById(toasts, id), id) == RemoveById(toasts, id)
  {
    if toasts != [] {
      RemoveByIdIdempotent(toasts[1..], id);
    }
  }

  /** Removing an id nobody carries changes nothing. */
  lemma {:induction false} RemoveAbsentId(toasts: seq<Toast>, id: string)
    requires forall t <- toasts :: t.id != id
    ensures RemoveById(toasts, id) == toasts
  {
    if toasts != [] {
      RemoveAbsentId(toasts[1..], id);
      assert toasts == [toasts[0]] + toasts[1..];
    }
  }

  /** The filter works element by element: it distributes over concatenation. */
  lemma {:induction false} RemoveByIdAppend(a: seq<Toast>, b: seq<Toast>, id: string)
    ensures RemoveById(a + b, id) == RemoveById(a, id) + RemoveById(b, id)
  {
    if a != [] {
      assert (a + b)[1..] == a[1..] + b;
      RemoveByIdAppend(a[1..], b, id);
    } else {
      assert a + b == b;
    }
  }

  /** The toast `addToast` appends: the given one, with `Date.now().toString()` as its id. */
  function StampedToast(kind: ToastKind, title: string, message: string, now: Millis): (t: Toast)
    ensures t.kind == kind && t.title == title && t.message == message
    ensures now >= 0 ==> |t.id| >= 1 && AllDigits(t.id, 10)
  {
    NumberToStringDigits(now, 10);
    Toast(NumberToString(now, 10), kind, title, message)
  }

  /** A stamped toast carries what it was given, and its id reads back as the clock reading. */
  lemma StampedToastFields(kind: ToastKind, title: string, message: string, now: Millis)
    ensures var t := StampedToast(kind, title, message, now);
      t.kind == kind && t.title == title && t.message == message && ParseInt(t.id, 0) == Some(now)
  {
    DecimalRoundTrip(now);
  }

  /** Toasts stamped at different times have different ids. */
  lemma StampedToastIdsDiffer(a: Toast, b: Toast, nowA: Millis, nowB: Millis)
    requires a == StampedToast(a.kind, a.title, a.message, nowA)
    requires b == StampedToast(b.kind, b.title, b.message, nowB)
    requires nowA != nowB
    ensures a.id != b.id
  {
    StampedToastFields(a.kind, a.title, a.message, nowA);
    StampedToastFields(b.kind, b.title, b.message, nowB);
  }

  class AppStore {
    var wallet: WalletState
    var incomeData: Option<IncomeData>
    var isScanning: bool
    var mintedNFTs: seq<ProofRecord>
    var isMinting: bool
    var verificationResult: Option<ProofRecord>
    var isVerifying: bool
    var currentView: View
    var toasts: seq<Toast>
    var selectedJurisdiction: string

    /** The initial state of the store. */
    constructor ()
      ensures wallet == DisconnectedWallet && incomeData == None && !isScanning
      ensures mintedNFTs == [] && !isMinting && verificationResult == None && !isVerifying
      ensures currentView == DashboardView && toasts == [] && selectedJurisdiction == "US"
    {
      wallet := DisconnectedWallet;
      incomeData := None;
      isScanning := false;
      mintedNFTs := [];
      isMinting := false;
      verificationResult := None;
      isVerifying := false;
      currentView := DashboardView;
      toasts := [];
      selectedJurisdiction := "US";
    }

    method SetWallet(patch: WalletPatch)
      modifies this`wallet
      ensures wallet == MergeWallet(old(wallet), patch)
    {
      wallet := MergeWallet(wallet, patch);
    }

    /** Forgets the wallet and, with it, the income scanned for it. */
    method DisconnectWallet()
      modifies this`wallet, this`incomeData
      ensures wallet == DisconnectedWallet && incomeData == None
      ensures mintedNFTs == old(mintedNFTs) && toasts == old(toasts)
      ensures currentView == old(currentView) && selectedJurisdiction == old(selectedJurisdiction)
    {
      wallet := DisconnectedWallet;
      incomeData := None;
    }

    method SetIncomeData(data: Option<IncomeData>)
      modifies this`incomeData
      ensures incomeData == data
    {
      incomeData := data;
    }

    method SetIsScanning(scanning: bool)
      modifies this`isScanning
      ensures isScanning == scanning
    {
      isScanning := scanning;
    }

    /** Appends one proof; the earlier ones keep their places. */
    method AddMintedNFT(nft: ProofRecord)
      modifies this`mintedNFTs
      ensures mintedNFTs == old(mintedNFTs) + [nft]
    {
      mintedNFTs := mintedNFTs + [nft];
    }

    method SetIsMinting(minting: bool)
      modifies this`isMinting
      ensures isMinting == minting
    {
      isMinting := minting;
    }

    method SetVerificationResult(result: Option<ProofRecord>)
      modifies this`verificationResult
      ensures verificationResult == result
    {
      verificationResult := result;
    }

    method SetIsVerifying(verifying: bool)
      modifies this`isVerifying
      ensures isVerifying == verifying
    {
      isVerifying := verifying;
    }

    method SetCurrentView(view: View)
      modifies this`currentView
      ensures currentView == view
    {
      currentView := view;
    }

    /** Appends a notification whose id is the clock reading `now` in decimal. */
    method AddToast(kind: ToastKind, title: string, message: string, now: Millis)
      modifies this`toasts
      ensures toasts == old(toasts) + [StampedToast(kind, title, message, now)]
    {
      toasts := toasts + [StampedToast(kind, title, message, now)];
    }

    /** Drops every notification with this id, keeping the order of the others. */
    method RemoveToast(id: string)
      modifies this`toasts
      ensures toasts == RemoveById(old(toasts), id)
    {
      toasts := RemoveById(toasts, id);
    }

    method SetSelectedJurisdiction(jurisdiction: string)
      modifies this`selectedJurisdiction
      ensures selectedJurisdiction == jurisdiction
    {
      selectedJurisdiction := jurisdiction;
    }
  }

  /** A toast added and then dismissed by its id is gone, and the others are as they were. */
  lemma AddThenRemoveToast(toasts: seq<Toast>, kind: ToastKind, title: string, message: string, now: Millis)
    requires forall t <- toasts :: t.id != StampedToast(kind, title, message, now).id
    ensures RemoveById(toasts + [StampedToast(kind, title, message, now)], StampedToast(kind, title, message, now).id) == toasts
  {
    var t := StampedToast(kind, title, message, now);
    RemoveByIdAppend(toasts, [t], t.id);
    RemoveAbsentId(toasts, t.id);
  }
}
