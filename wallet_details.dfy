/** The strings the wallet menu derives from the connected account: the
    block-explorer link, the shortened address and the network labels. */
module WalletDetails {
  import opened Nullable

  const MainnetExplorer: string := "https://starkscan.co/contract/"
  const TestnetExplorer: string := "https://testnet.starkscan.co/contract/"

  // ---------------------------------------------------------------------
  // Explorer link
  // ---------------------------------------------------------------------

  /** `getExplorerLink`: the network's contract page prefix followed by the
      address, which ends the link unchanged. */
  function ExplorerLink(isMainnet: bool, address: string): (link: string)
    ensures |link| >= |address| && link[|link| - |address|..] == address
    ensures link[..|link| - |address|] == if isMainnet then MainnetExplorer else TestnetExplorer
  {
    var prefix := if isMainnet then MainnetExplorer else TestnetExplorer;
    assert (prefix + address)[|prefix|..] == address;
    prefix + address
  }

  /** Reads a link back into its network and address, if it is one. */
  function ParseExplorerLink(link: string): Option<(bool, string)> {
    if |link| >= |MainnetExplorer| && link[..|MainnetExplorer|] == MainnetExplorer then
      Some((true, link[|MainnetExplorer|..]))
    else if |link| >= |TestnetExplorer| && link[..|TestnetExplorer|] == TestnetExplorer then
      Some((false, link[|TestnetExplorer|..]))
    else None
  }

  /** The link determines both the network and the address. */
  lemma {:induction false} ExplorerLinkRoundTrip(isMainnet: bool, address: string)
    ensures ParseExplorerLink(ExplorerLink(isMainnet, address)) == Some((isMainnet, address))
  {
    var link := ExplorerLink(isMainnet, address);
    if isMainnet {
      assert link[..|MainnetExplorer|] == MainnetExplorer;
    } else {
      assert link[..|TestnetExplorer|] == TestnetExplorer;
      assert link[8] != MainnetExplorer[8];
    }
  }

  /** Distinct accounts or networks never share a link. */
  lemma ExplorerLinkInjective(m1: bool, a1: string, m2: bool, a2: string)
    requires ExplorerLink(m1, a1) == ExplorerLink(m2, a2)
    ensures m1 == m2 && a1 == a2
  {
    ExplorerLinkRoundTrip(m1, a1);
    ExplorerLinkRoundTrip(m2, a2);
  }

  // ---------------------------------------------------------------------
  // Shortened address
  // ---------------------------------------------------------------------

  function Min(a: int, b: int): int {
    if a <= b then a else b
  }

  /** How `String.prototype.slice` reads an index: a negative one counts
      from the end; the result is clamped to [0, len]. */
  function SliceIndex(len: nat, i: int): (k: nat)
    ensures k <= len
    ensures 0 <= i ==> k == Min(i, len)
    ensures i < 0 ==> k == if len + i < 0 then 0 else len + i
  {
    if i < 0 then (if len + i < 0 then 0 else len + i)
    else if i > len then len else i
  }

  /** `s.slice(start, end)`: the characters between the two normalised
      indices, or nothing when they cross. The result is the contiguous run
      of `s` that starts at the normalised start. */
  function Slice(s: string, start: int, end: int): (r: string)
    ensures var from, to := SliceIndex(|s|, start), SliceIndex(|s|, end);
            |r| == (if from < to then to - from else 0)
            && forall k :: 0 <= k < |r| ==> r[k] == s[from + k]
  {
    var from := SliceIndex(|s|, start);
    var to := SliceIndex(|s|, end);
    if from < to then s[from..to] else ""
  }

  /** `s.slice(start)`: the suffix from the normalised index. */
  function SliceFrom(s: string, start: int): (r: string)
    ensures r == s[SliceIndex(|s|, start)..]
  {
    Slice(s, start, |s|)
  }

  /** `displayAddress`: the first eight characters, an ellipsis and the last
      eight; a shorter address is shown whole on both sides. */
  function DisplayAddress(address: string): (shown: string)
    ensures shown == address[..Min(8, |address|)] + "..." + address[|address| - Min(8, |address|)..]
    ensures |address| >= 16 ==>
              |shown| == 19 && shown[..8] == address[..8] && shown[8..11] == "..."
              && shown[11..] == address[|address| - 8..]
  {
    var head := Slice(address, 0, 8);
    var tail := SliceFrom(address, -8);
    assert head == address[..Min(8, |address|)];
    assert tail == address[|address| - Min(8, |address|)..];
    head + "..." + tail
  }

  /** An address of at most eight characters appears twice. */
  lemma ShortAddressShownTwice(address: string)
    requires |address| <= 8
    ensures DisplayAddress(address) == address + "..." + address
  {
    assert address[..|address|] == address;
    assert address[0..] == address;
  }

  // ---------------------------------------------------------------------
  // Network labels
  // ---------------------------------------------------------------------

  /** The wallet's network enumeration and its display values. */
  datatype Network = Mainnet | Testnet

  /** The enumeration's display values differ per network. */
  function NetworkName(n: Network): (name: string)
    ensures name == "Mainnet" <==> n == Mainnet
    ensures name == "Testnet" <==> n == Testnet
  {
    match n
    case Mainnet => "Mainnet"
    case Testnet => "Testnet"
  }

  /** The label of the current network. */
  function NetworkLabel(isMainnet: bool): (shownName: string)
    ensures shownName == "Mainnet" <==> isMainnet
    ensures shownName == "Testnet" <==> !isMainnet
  {
    NetworkName(if isMainnet then Mainnet else Testnet)
  }

  /** The text of the switch action: it always names the other network. */
  function SwitchActionText(isMainnet: bool): (text: string)
    ensures text == "Switch to " + NetworkLabel(!isMainnet)
    ensures text != "Switch to " + NetworkLabel(isMainnet)
  {
    var other := NetworkName(if isMainnet then Testnet else Mainnet);
    assert ("Switch to " + other)[10..] == other;
    "Switch to " + other
  }
}
