/**
 * The connect-and-refresh engine of the price dashboard page.
 *
 * The page holds four pieces of state (the price map, the loading flag, the
 * connection flag and the network name) and reports failures to a toast sink.
 * Every call that leaves the page (the injected wallet object, the account
 * request, the network query, the contract read) is a parameter here: the
 * methods receive the outcome that call would have had.
 */
module IndexPage {
  import opened Wrappers

  // ---------------------------------------------------------------------------
  // Configuration
  // ---------------------------------------------------------------------------

  /** The contract's prices are fixed-point integers with this many decimals. */
  const PriceDecimals: nat := 8

  /** Chain id of the Sepolia test network in the EIP-155 numbering. */
  const SepoliaChainId: int := 11155111
  const SepoliaName: string := "Sepolia"

  /** One entry of the fixed asset table. */
  datatype Asset = Asset(symbol: string, name: string)

  /** The asset table; its order is the fetch order and the display order. */
  const CryptoData: seq<Asset> :=
    [Asset("BTC", "Bitcoin"), Asset("ETH", "Ethereum"), Asset("LINK", "Chainlink")]

  /** A notification handed to the toast sink. */
  datatype Toast = Toast(title: string, description: string, variant: string)

  const Destructive: string := "destructive"
  const FetchErrorTitle: string := "Error fetching prices"
  const ConnectErrorTitle: string := "Connection Error"
  const InstallMetaMask: string := "Please install MetaMask"
  const WrongNetwork: string := "Please connect to Sepolia network"

  // ---------------------------------------------------------------------------
  // Fixed-point scaling and fetchPrice
  // ---------------------------------------------------------------------------

  function Pow10(n: nat): (r: nat)
    ensures r >= 1
  {
    if n == 0 then 1 else 10 * Pow10(n - 1)
  }

  lemma Pow10OfPriceDecimals()
    ensures Pow10(PriceDecimals) == 100000000
  {
  }

  /** The exact decimal value of a fixed-point integer with `decimals` decimals. */
  function FormatUnits(value: int, decimals: nat): (r: real)
    ensures r * (Pow10(decimals) as real) == value as real
  {
    value as real / Pow10(decimals) as real
  }

  /**
   * The price of one symbol, given the outcome of its contract read: the raw
   * integer scaled down by 10^8, or 0 when the read failed. A failure never
   * escapes.
   */
  function FetchPrice(call: Option<int>): (price: real)
    ensures call.Some? ==> price * 100000000.0 == call.value as real
    ensures call.None? ==> price == 0.0
  {
    match call
    case Some(raw) => Pow10OfPriceDecimals(); FormatUnits(raw, PriceDecimals)
    case None => 0.0
  }

  lemma FetchPriceExample()
    ensures FetchPrice(Some(12345000000)) == 123.45
    ensures FetchPrice(None) == 0.0
  {
  }

  // ---------------------------------------------------------------------------
  // The price map that one refresh builds
  // ---------------------------------------------------------------------------

  ghost function SymbolsOf(assets: seq<Asset>): set<string>
  {
    set a | a in assets :: a.symbol
  }

  ghost predicate DistinctSymbols(assets: seq<Asset>)
  {
    forall i, j :: 0 <= i < j < |assets| ==> assets[i].symbol != assets[j].symbol
  }

  /**
   * The map a sequential refresh builds: starting from the empty map, each
   * asset in order is assigned the price its contract read produced
   * (`calls[i]` answers the read for `assets[i]`).
   */
  function BuildPrices(assets: seq<Asset>, calls: seq<Option<int>>): (m: map<string, real>)
    requires |calls| == |assets|
    ensures m.Keys == SymbolsOf(assets)
    decreases |assets|
  {
    if |assets| == 0 then map[]
    else
      var n := |assets| - 1;
      assert assets == assets[..n] + [assets[n]];
      BuildPrices(assets[..n], calls[..n])[assets[n].symbol := FetchPrice(calls[n])]
  }

  /** Building over one more asset adds exactly that asset's price. */
  lemma BuildPricesStep(assets: seq<Asset>, calls: seq<Option<int>>, i: nat)
    requires |calls| == |assets| && i < |assets|
    ensures BuildPrices(assets[..i + 1], calls[..i + 1])
         == BuildPrices(assets[..i], calls[..i])[assets[i].symbol := FetchPrice(calls[i])]
  {
    assert assets[..i + 1][..i] == assets[..i];
    assert calls[..i + 1][..i] == calls[..i];
  }

  /** With distinct symbols, each symbol maps to its own read's price. */
  lemma {:induction false} BuildPricesAt(assets: seq<Asset>, calls: seq<Option<int>>, i: nat)
    requires |calls| == |assets| && DistinctSymbols(assets) && i < |assets|
    ensures BuildPrices(assets, calls)[assets[i].symbol] == FetchPrice(calls[i])
    decreases |assets|
  {
    var n := |assets| - 1;
    if i < n {
      BuildPricesAt(assets[..n], calls[..n], i);
    }
  }

  /** With distinct symbols, a refresh over N assets has exactly N entries. */
  lemma {:induction false} BuildPricesSize(assets: seq<Asset>, calls: seq<Option<int>>)
    requires |calls| == |assets| && DistinctSymbols(assets)
    ensures |BuildPrices(assets, calls)| == |assets|
    decreases |assets|
  {
    if |assets| > 0 {
      var n := |assets| - 1;
      BuildPricesSize(assets[..n], calls[..n]);
      var before := BuildPrices(assets[..n], calls[..n]);
      assert assets[n].symbol !in before.Keys;
      assert BuildPrices(assets, calls).Keys == before.Keys + {assets[n].symbol};
    }
  }

  /** One symbol's read failing zeroes that symbol's price and no other. */
  lemma FailureIsIsolated(assets: seq<Asset>, calls: seq<Option<int>>, failed: nat, other: nat)
    requires |calls| == |assets| && DistinctSymbols(assets)
    requires failed < |assets| && other < |assets| && failed != other
    ensures BuildPrices(assets, calls[failed := None])[assets[failed].symbol] == 0.0
    ensures BuildPrices(assets, calls[failed := None])[assets[other].symbol]
         == BuildPrices(assets, calls)[assets[other].symbol]
  {
    BuildPricesAt(assets, calls[failed := None], failed);
    BuildPricesAt(assets, calls[failed := None], other);
    BuildPricesAt(assets, calls, other);
  }

  /** One refresh over the asset table yields exactly BTC, ETH and LINK, each from its own read. */
  lemma CryptoPrices(calls: seq<Option<int>>)
    requires |calls| == |CryptoData|
    ensures BuildPrices(CryptoData, calls).Keys == {"BTC", "ETH", "LINK"}
    ensures BuildPrices(CryptoData, calls)["BTC"] == FetchPrice(calls[0])
    ensures BuildPrices(CryptoData, calls)["ETH"] == FetchPrice(calls[1])
    ensures BuildPrices(CryptoData, calls)["LINK"] == FetchPrice(calls[2])
  {
    CryptoSymbols();
    BuildPricesAt(CryptoData, calls, 0);
    BuildPricesAt(CryptoData, calls, 1);
    BuildPricesAt(CryptoData, calls, 2);
  }

  lemma CryptoSymbols()
    ensures SymbolsOf(CryptoData) == {"BTC", "ETH", "LINK"}
    ensures DistinctSymbols(CryptoData)
  {
  }

  // ---------------------------------------------------------------------------
  // The connection gate
  // ---------------------------------------------------------------------------

  /**
   * The error connectWallet reports, if any: the checks run in order (wallet
   * present, account request, network query, chain id), and the first one to
   * fail supplies the message.
   */
  function ConnectError(hasProvider: bool, accounts: Outcome<()>, network: Outcome<int>): (err: Option<string>)
    ensures err.None? <==> hasProvider && accounts.Ok? && network.Ok? && network.value == SepoliaChainId
    ensures !hasProvider ==> err == Some(InstallMetaMask)
    ensures hasProvider && accounts.Thrown? ==> err == Some(accounts.message)
    ensures hasProvider && accounts.Ok? && network.Thrown? ==> err == Some(network.message)
    ensures hasProvider && accounts.Ok? && network.Ok? && network.value != SepoliaChainId
            ==> err == Some(WrongNetwork)
  {
    if !hasProvider then Some(InstallMetaMask)
    else if accounts.Thrown? then Some(accounts.message)
    else if network.Thrown? then Some(network.message)
    else if network.value != SepoliaChainId then Some(WrongNetwork)
    else None
  }

  // ---------------------------------------------------------------------------
  // The component state
  // ---------------------------------------------------------------------------

  class Dashboard {
    var prices: map<string, real>
    var isLoading: bool
    var isConnected: bool
    var networkName: string
    var toasts: seq<Toast>
    /** Every map ever passed to setPrices, oldest first. */
    ghost var published: seq<map<string, real>>

    /**
     * The connection flag and the network name move together; every
     * published map is complete (one entry per asset of the table); the
     * current prices are the last published map, or empty before the first.
     */
    ghost predicate Valid()
      reads this
    {
      (isConnected ==> networkName == SepoliaName) &&
      (!isConnected ==> networkName == "") &&
      (forall k :: 0 <= k < |published| ==> published[k].Keys == SymbolsOf(CryptoData)) &&
      prices == (if published == [] then map[] else published[|published| - 1])
    }

    /** The state when the page mounts. */
    constructor ()
      ensures Valid()
      ensures prices == map[] && isLoading && !isConnected && networkName == ""
      ensures toasts == [] && published == []
    {
      prices := map[];
      isLoading := true;
      isConnected := false;
      networkName := "";
      toasts := [];
      published := [];
    }

    /**
     * Refresh every price. Without a wallet object it reports an error and
     * leaves the prices alone; otherwise it reads the assets one at a time
     * into a fresh map and publishes that map once. Either way it ends with
     * the loading flag cleared.
     */
    method FetchAllPrices(hasProvider: bool, calls: seq<Option<int>>)
      requires Valid()
      requires |calls| == |CryptoData|
      modifies this
      ensures Valid()
      ensures !isLoading
      ensures isConnected == old(isConnected) && networkName == old(networkName)
      ensures hasProvider ==>
                prices == BuildPrices(CryptoData, calls) &&
                published == old(published) + [prices] &&
                toasts == old(toasts)
      ensures !hasProvider ==>
                prices == old(prices) &&
                published == old(published) &&
                toasts == old(toasts) + [Toast(FetchErrorTitle, InstallMetaMask, Destructive)]
    {
      isLoading := true;
      if !hasProvider {
        toasts := toasts + [Toast(FetchErrorTitle, InstallMetaMask, Destructive)];
      } else {
        var newPrices: map<string, real> := map[];
        var i := 0;
        while i < |CryptoData|
          invariant 0 <= i <= |CryptoData|
          invariant newPrices == BuildPrices(CryptoData[..i], calls[..i])
          invariant isLoading && prices == old(prices) && published == old(published)
          invariant isConnected == old(isConnected) && networkName == old(networkName)
          invariant toasts == old(toasts)
        {
          var price := FetchPrice(calls[i]);
          newPrices := newPrices[CryptoData[i].symbol := price];
          BuildPricesStep(CryptoData, calls, i);
          i := i + 1;
        }
        assert CryptoData[..i] == CryptoData && calls[..i] == calls;
        prices := newPrices;
        published := published + [newPrices];
      }
      isLoading := false;
    }

    /**
     * Connect to the wallet: only a present wallet that grants the accounts
     * and reports the Sepolia chain id makes the page connected, and then a
     * refresh runs. Any other outcome is reported as a connection error and
     * changes nothing else.
     */
    method ConnectWallet(hasProvider: bool, accounts: Outcome<()>, network: Outcome<int>,
                         calls: seq<Option<int>>)
      requires Valid()
      requires |calls| == |CryptoData|
      modifies this
      ensures Valid()
      ensures ConnectError(hasProvider, accounts, network).None? ==>
                isConnected && networkName == SepoliaName && !isLoading &&
                prices == BuildPrices(CryptoData, calls) &&
                published == old(published) + [prices] &&
                toasts == old(toasts)
      ensures ConnectError(hasProvider, accounts, network).Some? ==>
                isConnected == old(isConnected) && networkName == old(networkName) &&
                isLoading == old(isLoading) && prices == old(prices) &&
                published == old(published) &&
                toasts == old(toasts) +
                  [Toast(ConnectErrorTitle, ConnectError(hasProvider, accounts, network).value, Destructive)]
    {
      var failure := ConnectError(hasProvider, accounts, network);
      if failure.Some? {
        toasts := toasts + [Toast(ConnectErrorTitle, failure.value, Destructive)];
      } else {
        isConnected := true;
        networkName := SepoliaName;
        FetchAllPrices(true, calls);
      }
    }
  }

  // ---------------------------------------------------------------------------
  // Scenarios
  // ---------------------------------------------------------------------------

  /** A wallet on chain 1 (mainnet) is refused and the page stays disconnected. */
  method MainnetIsRefused(calls: seq<Option<int>>) returns (connected: bool, name: string, notes: seq<Toast>)
    requires |calls| == |CryptoData|
    ensures !connected && name == ""
    ensures notes == [Toast("Connection Error", "Please connect to Sepolia network", "destructive")]
  {
    var page := new Dashboard();
    page.ConnectWallet(true, Ok(()), Ok(1), calls);
    connected, name, notes := page.isConnected, page.networkName, page.toasts;
  }

  /** Connecting on Sepolia with the BTC read failing: BTC shows 0, the others their real prices. */
  method SepoliaWithFailingBtc() returns (connected: bool, loading: bool, shown: map<string, real>)
    ensures connected && !loading
    ensures shown.Keys == {"BTC", "ETH", "LINK"}
    ensures shown["BTC"] == 0.0 && shown["ETH"] == 2500.0 && shown["LINK"] == 15.5
  {
    var page := new Dashboard();
    var calls := [None, Some(250000000000), Some(1550000000)];
    page.ConnectWallet(true, Ok(()), Ok(SepoliaChainId), calls);
    CryptoPrices(calls);
    connected, loading, shown := page.isConnected, page.isLoading, page.prices;
  }
}
