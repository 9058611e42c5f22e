/**
 * The pure helpers of src/utils/wallet.ts: the shortened form of an address
 * shown in the interface, and the hexadecimal chain id exchanged with the
 * wallet provider.
 */
module Wallet {
  import opened Wrappers
  import opened JsNumber
  import opened MockData

  function Min(a: int, b: int): int {
    if a <= b then a else b
  }

  /**
   * `shortenAddress`: the empty address stays empty; otherwise the first six
   * characters, "...", and the last four (`slice` takes what there is of a
   * shorter string).
   */
  function ShortenAddress(address: string): (r: string)
    ensures address == "" ==> r == ""
    ensures address != "" ==>
      && |r| == Min(6, |address|) + 3 + Min(4, |address|)
      && r[..Min(6, |address|)] == address[..Min(6, |address|)]
      && r[Min(6, |address|)..Min(6, |address|) + 3] == "..."
      && r[Min(6, |address|) + 3..] == address[|address| - Min(4, |address|)..]
  {
    if address == "" then ""
    else
      var head := address[..Min(6, |address|)];
      var tail := address[|address| - Min(4, |address|)..];
      assert (head + "..." + tail)[..|head|] == head;
      assert (head + "..." + tail)[|head|..|head| + 3] == "...";
      assert (head + "..." + tail)[|head| + 3..] == tail;
      head + "..." + tail
  }

  /** An address of six characters or more shortens to thirteen, keeping its first six and last four. */
  lemma ShortenedLength(address: string)
    requires |address| >= 6
    ensures |ShortenAddress(address)| == 13
    ensures ShortenAddress(address) == address[..6] + "..." + address[|address| - 4..]
  {
    var r := ShortenAddress(address);
    assert r == r[..6] + r[6..9] + r[9..];
  }

  /** An address shorter than four characters is repeated on both sides. */
  lemma ShortAddressRepeated(address: string)
    requires 0 < |address| < 4
    ensures ShortenAddress(address) == address + "..." + address
  {
    var r := ShortenAddress(address);
    assert address[..|address|] == address && address[0..] == address;
    assert r == r[..|address|] + r[|address|..|address| + 3] + r[|address| + 3..];
  }

  /** The chain id sent to the wallet: `0x${chainId.toString(16)}`. */
  function ChainIdHex(chainId: int): (hex: string)
    ensures |hex| >= 3 && hex[..2] == "0x"
    ensures chainId >= 0 ==> AllDigits(hex[2..], 16)
  {
    NumberToStringDigits(chainId, 16);
    var hex := "0x" + NumberToString(chainId, 16);
    assert hex[2..] == NumberToString(chainId, 16);
    hex
  }

  /** The chain id read from the wallet: `parseInt(chainId, 16)`, NaN as None. */
  function ParseChainId(hex: string): (id: Option<int>)
    ensures AllWhiteSpace(hex) ==> id == None
    ensures |hex| >= 2 && hex[..2] == "0x" && id.Some? ==> id.value >= 0
  {
    PrefixedNeverNegative(hex);
    ParseInt(hex, 16)
  }

  /** After a "0x" prefix a '-' is no digit, so a prefixed reply never reads as negative. */
  lemma PrefixedNeverNegative(hex: string)
    ensures |hex| >= 2 && hex[..2] == "0x" && ParseInt(hex, 16).Some? ==> ParseInt(hex, 16).value >= 0
  {
    if |hex| >= 2 && hex[..2] == "0x" {
      assert hex[0] == '0';
      TrimStartSkipsBlank("", hex);
      assert "" + hex == hex;
    }
  }

  /** Encoding a chain id and reading it back gives the same id; a negative one reads back as NaN. */
  lemma ChainIdRoundTrip(chainId: int)
    ensures chainId >= 0 ==> ParseChainId(ChainIdHex(chainId)) == Some(chainId)
    ensures chainId < 0 ==> ParseChainId(ChainIdHex(chainId)) == None
  {
    if chainId >= 0 {
      HexRoundTrip(chainId);
    } else {
      HexOfNegativeIsNaN(chainId);
    }
  }

  /** The test network: 267 is sent as "0x10b" and read back as 267. */
  lemma NeuraTestnetChainIdHex()
    ensures ChainIdHex(NeuraTestnetChainId) == "0x10b"
    ensures ParseChainId("0x10b") == Some(NeuraTestnetChainId)
  {
    HexOf267();
    assert ChainIdHex(267) == "0x" + "10b" == "0x10b";
    HexRoundTrip(267);
  }

  lemma HexOf267()
    ensures NumberToString(267, 16) == "10b"
  {
    DivMod(267, 16);
    DivMod(16, 16);
    assert NatDigits(1, 16) == "1";
    assert NatDigits(16, 16) == "10";
  }

  /** The digits of a chain id a provider returns are read in either case: "0x10B" is 267 as well. */
  lemma UpperCaseChainId()
    ensures ParseChainId("0x10B") == Some(NeuraTestnetChainId)
  {
    var upper := "0x10B";
    var digits := "10B";
    TrimStartSkipsBlank("", upper);
    assert "" + upper == upper;
    assert upper[2..] == digits;
    DigitPrefixOfDigits(digits, "", 16);
    assert digits + "" == digits && digits[..3] == digits;
    assert DigitsValue("1", 16) == 1 by { assert "1"[..0] == ""; }
    assert DigitsValue("10", 16) == 16 by { assert "10"[..1] == "1"; }
    assert DigitsValue(digits, 16) == 267 by { assert digits[..2] == "10"; }
    assert ParseMagnitude(upper, 16) == Some(267);
  }
}
