/**
 * The wallet hook: `shortenAddress`, `disconnectWallet`, and `connectWallet`'s chain of
 * validations, each failing with an error message. The browser wallet is a parameter.
 */
module UseWallet {
  import opened JsValues

  function Min(a: int, b: int): int {
    if a < b then a else b
  }

  function Max(a: int, b: int): int {
    if a < b then b else a
  }

  /** A slice index as `String.prototype.slice` resolves it: negative counts from the end, then clamped to the string. */
  function SliceIndex(i: int, n: nat): (k: nat)
    ensures k <= n
  {
    if i < 0 then Max(n + i, 0) else Min(i, n)
  }

  /** `s.slice(start, end)`. */
  function Slice(s: string, start: int, end: int): (r: string)
    ensures |r| == Max(SliceIndex(end, |s|) - SliceIndex(start, |s|), 0)
  {
    var from, to := SliceIndex(start, |s|), SliceIndex(end, |s|);
    if from < to then s[from..to] else ""
  }

  /** `shortenAddress`: '' for an empty address, else `${address.slice(0, 15)}...${address.slice(-5)}`. */
  function ShortenAddress(address: string): (r: string)
    ensures address == "" ==> r == ""
    ensures address != "" ==>
      var n := |address|;
      && |r| == Min(15, n) + 3 + Min(5, n)
      && r[..Min(15, n)] == address[..Min(15, n)]
      && r[Min(15, n)..Min(15, n) + 3] == "..."
      && r[Min(15, n) + 3..] == address[n - Min(5, n)..]
  {
    if address == "" then "" else Slice(address, 0, 15) + "..." + Slice(address, -5, |address|)
  }

  /** The shortened form is empty exactly for the empty address. */
  lemma ShortenEmptyIff(address: string)
    ensures ShortenAddress(address) == "" <==> address == ""
  {
  }

  /** For addresses of at least 20 characters, the shortened form determines the first 15 and the last 5. */
  lemma ShortenKeepsEnds(a: string, b: string)
    requires |a| >= 20 && |b| >= 20
    requires ShortenAddress(a) == ShortenAddress(b)
    ensures a[..15] == b[..15] && a[|a| - 5..] == b[|b| - 5..]
  {
    var r := ShortenAddress(a);
    assert r[..15] == a[..15] && r[18..] == a[|a| - 5..];
  }

  // ----- connectWallet -----

  /** A thrown value: an `Error` with its message, or anything else. */
  datatype Thrown = ErrorInstance(message: string) | NonError

  /** The message shown for a thrown value. */
  function ErrorText(t: Thrown): (r: string)
    ensures t.ErrorInstance? ==> r == t.message
    ensures t.NonError? ==> r == "Failed to connect to wallet. Please try again."
  {
    match t
    case ErrorInstance(message) => message
    case NonError => "Failed to connect to wallet. Please try again."
  }

  /** The outcome of an awaited wallet call: a value, or a throw. */
  datatype Call<T> = Returns(value: T) | Throws(error: Thrown)

  datatype Asset = Asset(unit: string, quantity: string)

  /** An enabled wallet, described by what its `getRewardAddresses` and `getBalance` calls do (None: a falsy result). */
  datatype BrowserWallet = BrowserWallet(
    name: string,
    rewardAddresses: Call<Option<seq<string>>>,
    balance: Call<Option<seq<Asset>>>)

  /** `BrowserWallet.enable(name)`: a wallet, a falsy result (None), or a throw. */
  type Enabler = string -> Call<Option<BrowserWallet>>

  /** The ADA amount of a quantity, `parseInt(quantity) / 1_000_000`, floating point and left abstract. */
  type AdaOf = string -> real

  datatype WalletInfo = WalletInfo(name: string, icon: string)

  /** The hook's state. */
  datatype WalletState = WalletState(
    connectedWallet: Option<BrowserWallet>,
    walletAddress: string,
    walletBalance: Option<real>,
    errorMessage: string,
    showWalletList: bool,
    availableWallets: seq<WalletInfo>)

  /** The catch block: the error message is set and nothing else. */
  function Fail(s: WalletState, t: Thrown): WalletState {
    s.(errorMessage := ErrorText(t))
  }

  /**
   * The state after `connectWallet(name)`: each setter takes effect as its step is reached, so a
   * failure keeps the updates made before it.
   */
  function Connect(s: WalletState, name: string, enable: Enabler, adaOf: AdaOf): (t: WalletState)
    ensures t.showWalletList == s.showWalletList && t.availableWallets == s.availableWallets
    ensures t.connectedWallet != s.connectedWallet ==> name != "" && enable(name).Returns? && t.connectedWallet == enable(name).value
  {
    if name == "" then Fail(s, ErrorInstance("No wallet name provided"))
    else
      match enable(name)
      case Throws(e) => Fail(s, e)
      case Returns(None) => Fail(s, ErrorInstance("Failed to enable wallet"))
      case Returns(Some(wallet)) =>
        var s1 := s.(connectedWallet := Some(wallet));
        match wallet.rewardAddresses
        case Throws(e) => Fail(s1, e)
        case Returns(addresses) =>
          if addresses.None? || |addresses.value| == 0 then Fail(s1, ErrorInstance("No addresses found"))
          else
            var s2 := s1.(walletAddress := addresses.value[0]);
            match wallet.balance
            case Throws(e) => Fail(s2, e)
            case Returns(balance) =>
              if balance.None? || |balance.value| == 0 then Fail(s2, ErrorInstance("Failed to get balance"))
              else s2.(walletBalance := Some(adaOf(balance.value[0].quantity)))
  }

  /** An empty wallet name fails first: only the error message changes, and the wallet is never enabled. */
  lemma ConnectWithoutName(s: WalletState, enable1: Enabler, enable2: Enabler, adaOf: AdaOf)
    ensures Connect(s, "", enable1, adaOf) == s.(errorMessage := "No wallet name provided")
    ensures Connect(s, "", enable1, adaOf) == Connect(s, "", enable2, adaOf)
  {
  }

  /** When enabling throws, the error's text is reported and nothing else changes. */
  lemma ConnectEnableThrows(s: WalletState, name: string, enable: Enabler, adaOf: AdaOf)
    requires name != "" && enable(name).Throws?
    ensures Connect(s, name, enable, adaOf) == s.(errorMessage := ErrorText(enable(name).error))
  {
  }

  /**
   * With an enabled wallet, the address is the first reward address; an empty or missing list
   * fails with 'No addresses found' after the wallet has already been stored.
   */
  lemma ConnectAddress(s: WalletState, name: string, enable: Enabler, adaOf: AdaOf, w: BrowserWallet)
    requires name != "" && enable(name) == Returns(Some(w)) && w.rewardAddresses.Returns?
    ensures var t := Connect(s, name, enable, adaOf);
      var addresses := w.rewardAddresses.value;
      && t.connectedWallet == Some(w)
      && (addresses.Some? && |addresses.value| > 0 ==> t.walletAddress == addresses.value[0])
      && (addresses.None? || |addresses.value| == 0 ==>
            t.walletAddress == s.walletAddress && t.errorMessage == "No addresses found" && t.walletBalance == s.walletBalance)
  {
  }

  /**
   * The later exits of the chain: each keeps the updates made before it.
   * A falsy enable result sets only 'Failed to enable wallet'. A throw from `getRewardAddresses`
   * follows the stored wallet. A throw from `getBalance`, or a missing or empty balance, follows
   * the stored wallet and address.
   */
  lemma ConnectLaterFailures(s: WalletState, name: string, enable: Enabler, adaOf: AdaOf, w: BrowserWallet)
    requires name != ""
    ensures enable(name) == Returns(None) ==>
      Connect(s, name, enable, adaOf) == s.(errorMessage := "Failed to enable wallet")
    ensures enable(name) == Returns(Some(w)) && w.rewardAddresses.Throws? ==>
      Connect(s, name, enable, adaOf) == s.(connectedWallet := Some(w), errorMessage := ErrorText(w.rewardAddresses.error))
    ensures && enable(name) == Returns(Some(w))
            && w.rewardAddresses.Returns? && w.rewardAddresses.value.Some? && |w.rewardAddresses.value.value| > 0
            && w.balance.Throws? ==>
      Connect(s, name, enable, adaOf) ==
        s.(connectedWallet := Some(w), walletAddress := w.rewardAddresses.value.value[0],
           errorMessage := ErrorText(w.balance.error))
    ensures && enable(name) == Returns(Some(w))
            && w.rewardAddresses.Returns? && w.rewardAddresses.value.Some? && |w.rewardAddresses.value.value| > 0
            && w.balance.Returns? && (w.balance.value.None? || |w.balance.value.value| == 0) ==>
      Connect(s, name, enable, adaOf) ==
        s.(connectedWallet := Some(w), walletAddress := w.rewardAddresses.value.value[0],
           errorMessage := "Failed to get balance")
  {
  }

  /** A connection that gets through every step leaves the error message alone and sets wallet, address and balance. */
  lemma ConnectSucceeds(s: WalletState, name: string, enable: Enabler, adaOf: AdaOf,
                        w: BrowserWallet, addresses: seq<string>, assets: seq<Asset>)
    requires name != "" && enable(name) == Returns(Some(w))
    requires w.rewardAddresses == Returns(Some(addresses)) && |addresses| > 0
    requires w.balance == Returns(Some(assets)) && |assets| > 0
    ensures Connect(s, name, enable, adaOf) ==
      s.(connectedWallet := Some(w), walletAddress := addresses[0], walletBalance := Some(adaOf(assets[0].quantity)))
  {
  }

  /** The hook's state variables and its two wallet actions. */
  class WalletSession {
    var connectedWallet: Option<BrowserWallet>
    var walletAddress: string
    var walletBalance: Option<real>
    var errorMessage: string
    var showWalletList: bool
    var availableWallets: seq<WalletInfo>

    function State(): WalletState
      reads this
    {
      WalletState(connectedWallet, walletAddress, walletBalance, errorMessage, showWalletList, availableWallets)
    }

    /** The initial `useState` values. */
    constructor ()
      ensures State() == WalletState(None, "", None, "", false, [])
    {
      connectedWallet, walletAddress, walletBalance := None, "", None;
      errorMessage, showWalletList, availableWallets := "", false, [];
    }

    /** The mount effect: `setAvailableWallets(await BrowserWallet.getAvailableWallets())`; nothing else changes. */
    method OnWalletsFetched(wallets: seq<WalletInfo>)
      modifies this
      ensures State() == old(State()).(availableWallets := wallets)
    {
      availableWallets := wallets;
    }

    /** `disconnectWallet`: wallet, address and balance reset; error, list visibility and wallets untouched. */
    method DisconnectWallet()
      modifies this
      ensures State() == old(State()).(connectedWallet := None, walletAddress := "", walletBalance := None)
      ensures ShortenAddress(walletAddress) == ""
    {
      connectedWallet := None;
      walletAddress := "";
      walletBalance := None;
    }

    /** `connectWallet(name)`. */
    method ConnectWallet(name: string, enable: Enabler, adaOf: AdaOf)
      modifies this
      ensures State() == Connect(old(State()), name, enable, adaOf)
    {
      if name == "" {
        errorMessage := ErrorText(ErrorInstance("No wallet name provided"));
        return;
      }
      var enabled := enable(name);
      if enabled.Throws? {
        errorMessage := ErrorText(enabled.error);
        return;
      }
      if enabled.value.None? {
        errorMessage := ErrorText(ErrorInstance("Failed to enable wallet"));
        return;
      }
      var wallet := enabled.value.value;
      connectedWallet := Some(wallet);
      if wallet.rewardAddresses.Throws? {
        errorMessage := ErrorText(wallet.rewardAddresses.error);
        return;
      }
      var usedAddresses := wallet.rewardAddresses.value;
      if usedAddresses.None? || |usedAddresses.value| == 0 {
        errorMessage := ErrorText(ErrorInstance("No addresses found"));
        return;
      }
      walletAddress := usedAddresses.value[0];
      if wallet.balance.Throws? {
        errorMessage := ErrorText(wallet.balance.error);
        return;
      }
      var balance := wallet.balance.value;
      if balance.None? || |balance.value| == 0 {
        errorMessage := ErrorText(ErrorInstance("Failed to get balance"));
        return;
      }
      walletBalance := Some(adaOf(balance.value[0].quantity));
    }
  }
}
