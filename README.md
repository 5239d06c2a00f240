# Crypto price oracle dashboard — connect-and-refresh engine

This project models the engine of the dashboard page in `src/pages/Index.tsx`.
The page connects to a browser wallet and refuses every network except Sepolia
(chain id 11155111). It then reads one price per asset from a read-only
contract. The assets are BTC, ETH and LINK, read in that order.

The page's state is the class `IndexPage.Dashboard`. Its fields are the price map
`prices`, the flags `isLoading` and `isConnected`, the string `networkName`, and
the list of toast notifications emitted so far. A ghost field `published` records
every map handed to `setPrices`. The class invariant `Valid()` says three things:
- every published map has exactly one entry per asset of the table;
- `prices` is always the last published map, or empty before the first refresh;
- `isConnected` holds exactly when `networkName` is `"Sepolia"`.
So no partially built map is ever shown.

Every call that leaves the page is a parameter that gives its outcome:
- whether `window.ethereum` exists (`hasProvider`);
- whether `eth_requestAccounts` resolved, or the message it threw (`accounts`);
- the chain id `getNetwork` reported, or the message it threw (`network`);
- the contract's answer to each `getLatestPrice(symbol)` read, in call order (`calls`).

A failed read is `None`; a successful one is `Some(raw)`.

Prices are exact `real` values: a raw contract integer `r` becomes `r / 10^8`,
as `formatUnits(price, 8)` computes it.

The connection state is only `isConnected`/`networkName`. There is no
intermediate or failed state and no disconnect. Refreshes have no in-flight
guard. A refresh needs only a wallet object, not a connection.

`isLoading` starts true. A failed connection therefore leaves it true until the
first timer tick runs a refresh (see `Dashboard.constructor` and `Dashboard.ConnectWallet`).

## Model

| member | source | states |
|---|---|---|
| `IndexPage.Pow10OfPriceDecimals` | src/pages/Index.tsx:31 | the 8-decimal scale used for contract prices is exactly 100000000 |
| `IndexPage.FormatUnits` | src/pages/Index.tsx:31 | the decimal value of a fixed-point integer, multiplied back by 10^decimals, gives the integer again (exact, no rounding) |
| `IndexPage.FetchPrice` | src/pages/Index.tsx:27-36 | a successful read of raw integer r yields the price p with p * 10^8 = r; a failed read yields 0 and does not propagate |
| `IndexPage.FetchPriceExample` | src/pages/Index.tsx:29-34 | raw 12345000000 becomes exactly 123.45; a failed read becomes 0 |
| `IndexPage.BuildPrices` | src/pages/Index.tsx:46-52 | the map a sequential refresh builds has as keys exactly the symbols of the asset table |
| `IndexPage.BuildPricesStep` | src/pages/Index.tsx:49-52 | one loop iteration adds the next asset's price to the partial map and changes nothing else |
| `IndexPage.BuildPricesAt` | src/pages/Index.tsx:49-52 | with distinct symbols, the i-th asset's symbol maps to the price of the i-th read |
| `IndexPage.BuildPricesSize` | src/pages/Index.tsx:46-52 | with distinct symbols, a refresh over N assets yields exactly N entries |
| `IndexPage.FailureIsIsolated` | src/pages/Index.tsx:32-35 | one symbol's read failing sets that symbol's price to 0 and leaves every other symbol's price as it would have been |
| `IndexPage.CryptoSymbols` | src/pages/Index.tsx:14-18 | the asset table's symbols are BTC, ETH and LINK, all distinct |
| `IndexPage.CryptoPrices` | src/pages/Index.tsx:14-18 | a refresh over the table yields keys exactly BTC, ETH, LINK, read first, second and third |
| `IndexPage.ConnectError` | src/pages/Index.tsx:66-89 | the connection succeeds if and only if a wallet exists, the account request resolves, the network query resolves and the chain id is 11155111; otherwise it reports the first failing check's message: "Please install MetaMask", the message the account request threw, the message the network query threw, or "Please connect to Sepolia network" |
| `IndexPage.Dashboard.constructor` | src/pages/Index.tsx:21-25 | the page mounts with no prices, loading, disconnected, no network name and no notifications |
| `IndexPage.Dashboard.FetchAllPrices` | src/pages/Index.tsx:38-64 | without a wallet, prices stay the same and one "Error fetching prices" / "Please install MetaMask" toast is added; with one, the complete map from the reads is published once and no toast is added; loading is false afterwards; connection flag and network name never change |
| `IndexPage.Dashboard.ConnectWallet` | src/pages/Index.tsx:66-90 | when the gate passes: connected, network "Sepolia", and a full refresh has published the reads' map; otherwise one "Connection Error" toast carrying the failure message is added and connection, network name, loading flag and prices are unchanged (no refresh runs) |
| `IndexPage.MainnetIsRefused` | src/pages/Index.tsx:72-78 | a wallet on chain 1 leaves the page disconnected with one "Please connect to Sepolia network" connection error |
| `IndexPage.SepoliaWithFailingBtc` | src/pages/Index.tsx:28-35 | connecting on Sepolia while the BTC read fails shows BTC at 0 and ETH and LINK at their scaled raw values |

## Left out

- The wallet object, the ethers `Web3Provider` and `Contract` construction, the account dialog and the contract read are outside calls. Only their outcomes are modelled, as parameters. Building the provider and the contract is assumed not to throw.
- Because of that, the fallback description "Please make sure you're connected to Sepolia network" (src/pages/Index.tsx:58) is never used in the model. The only error that reaches that handler is "Please install MetaMask", and its message is not empty.
- `Number(...)` (src/pages/Index.tsx:31) and `toFixed(2)` (src/pages/Index.tsx:123) are floating-point conversions. The model keeps the exact decimal value instead.
- The contract returns an `int256`. The model accepts any integer, because no behaviour of the page depends on the bound.
- The 30-second `setInterval` timer and its cleanup (src/pages/Index.tsx:92-96) are left out. A timer tick or a Refresh click (src/pages/Index.tsx:108) is just another call to `Dashboard.FetchAllPrices`.
- The mount effect's initial `connectWallet()` is left out for the same reason: it is a call to `Dashboard.ConnectWallet`.
- Dashboard.ConnectWallet: the refresh it starts without awaiting (src/pages/Index.tsx:82) is modelled as running to completion before the method returns. Interleaving with other refreshes is not modelled.
- `console.log`/`console.error` output and the rendering of toasts are left out. Only each toast's title, description and variant are recorded.
- The random "price change" figures (src/pages/Index.tsx:124) are display noise, and `PriceCard`/`NetworkStatus` are presentation only. Neither is part of this model.
