# Wallet discovery and connection — a Dafny model

This project models how the property-listing front end finds browser wallet
extensions and connects to MetaMask:

- **Discovery** (`discoverProviders`). It registers a listener for EIP-6963
  `eip6963:announceProvider` events, dispatches `eip6963:requestProvider`,
  collects announcements for a fixed window and then removes the listener.
  After that it reads the legacy EIP-1193 `window.ethereum` slot. A
  multiplexed slot contributes each of its `providers`; any other slot
  contributes itself. Legacy entries carry no info.
- **Selection** (`getMetaMaskProvider`). It picks the first entry whose flags
  say `isMetaMask` and not `isPhantom`. Failing that, it picks the first entry
  whose EIP-6963 info has rdns `io.metamask`. Otherwise there is no provider.
- **Handshake** (`connectMetaMaskWallet`). It fails with the not-found message
  when nothing is selected. Otherwise it requests `eth_requestAccounts`, then
  `eth_chainId`. Provider errors are translated: code -32002 (EIP-1474
  "Resource unavailable"), code 4001 (EIP-1193 "User Rejected Request"), and
  anything else becomes the error's own message or "Failed to connect wallet.".
- **Wallets modal**. It shows only the entries whose info name is exactly
  "MetaMask". It renders nothing when closed, a not-installed notice when no
  entry is kept, and one row with a connect button per kept entry. Its connect
  handler calls `onConnected` and then `onClose`, or alerts the error.
- **App state**. It holds the favorites toggle, `onConnected`, the modal's
  open flag and the initial values of the component's state.

Modules: `Wrappers` (Option, Result); `Lists` (`find` and `filter` with their
facts); `Wallet` (src/config/wallet.ts); `WalletsModal`
(src/components/Modals/Wallets.tsx); `App` (src/App.tsx).

How the environment is represented:

- The browser window is the class `Wallet.Window`. Its field `announceListener`
  says whether the announce listener is registered. Its field `signals` logs
  the add-listener, request and remove-listener operations in order.
- The announcements that arrive inside the window are an input sequence, in
  arrival order.
- The `window.ethereum` slot is an optional input value.
- A provider's `request` is an oracle. Each `Provider` value carries the
  settled answer it gives to `eth_requestAccounts` and to `eth_chainId`.
- The handshake's result is a `Run`: the outcome plus the list of requests
  issued, in order.

Notes on the code:

- The flag check at src/config/wallet.ts:54 runs over every entry, announced
  ones included, not only legacy (no-info) ones.
  `Wallet.FlaggedAnnouncementBeatsRdns` shows an announced, flagged entry
  beating an rdns entry.
- `onConnected` with an empty account list stores `accounts[0]`, which is
  `undefined`. The model therefore keeps `defaultAddress` as an
  `Option<string>` and places no precondition on `AppState.OnConnected`.

Reference definitions: `Wallet.LegacyEntries` (the legacy probe,
src/config/wallet.ts:36-45), `Wallet.Discovery` (the discovery result,
src/config/wallet.ts:19-48) and `WalletsModal.Render` (the render decision,
src/components/Modals/Wallets.tsx:22-91) are the functions that the
discovery, legacy and rendering rows below characterise.

## Model

| member | source | states |
|---|---|---|
| Lists.Find | src/config/wallet.ts:54-56 | `find` returns nothing exactly when no element matches; otherwise it returns an element that matches and that no earlier element precedes as a match |
| Lists.Filter | src/components/Modals/Wallets.tsx:37-39 | `filter` keeps only elements satisfying the predicate and never lengthens the list |
| Wallet.Window.constructor | src/config/wallet.ts:28 | a window starts with no announce listener and an empty signal log |
| Wallet.Window.DiscoverProviders | src/config/wallet.ts:19-48 | the result is the announcements in arrival order followed by the legacy entries; afterwards the listener is unregistered; the log gains exactly add-listener, request, remove-listener, in that order |
| Wallet.Window.GetMetaMaskProvider | src/config/wallet.ts:50-60 | the result is the selection over a fresh discovery, and the listener is gone afterwards |
| Wallet.Window.ConnectMetaMaskWallet | src/config/wallet.ts:62-87 | the result is the handshake against the provider selected from a fresh discovery |
| Wallet.DiscoveryOfNothing | src/config/wallet.ts:20-47 | no announcements and no legacy slot give an empty discovery |
| Wallet.DiscoveryLayout | src/config/wallet.ts:20-47 | the discovery's prefix is exactly the announcements; its suffix is the legacy entries, none of which has info |
| Wallet.LegacyMultiplexed | src/config/wallet.ts:38-41 | a slot with N sub-providers contributes exactly those N providers, in order, each without info |
| Wallet.LegacySingle | src/config/wallet.ts:38-44 | a slot with a missing or empty sub-provider list contributes exactly itself, without info |
| Wallet.SelectMetaMask | src/config/wallet.ts:53-59 | any selected provider is the provider of some discovered entry |
| Wallet.SelectFirstFlagged | src/config/wallet.ts:54 | the first entry (over the whole list) flagged MetaMask and not Phantom is selected |
| Wallet.SelectFirstAnnounced | src/config/wallet.ts:56 | when no entry is so flagged, the first entry with rdns `io.metamask` is selected |
| Wallet.SelectNone | src/config/wallet.ts:57-59 | selection yields nothing exactly when no entry qualifies by either test |
| Wallet.ImpersonatorLoses | src/config/wallet.ts:54-56 | a legacy entry flagged both MetaMask and Phantom loses to an rdns `io.metamask` entry, whatever that entry's own flags, in either order |
| Wallet.FlaggedAnnouncementBeatsRdns | src/config/wallet.ts:54 | the flag check covers announced entries and takes priority over rdns |
| Wallet.Translate | src/config/wallet.ts:78-85 | the error translation: code -32002 gives the already-pending error, code 4001 the rejected error, and these hold only for those codes; any other code or no code gives the error's non-empty message, else "Failed to connect wallet."; the error is never NotFound and its message is never empty |
| Wallet.Handshake | src/config/wallet.ts:63-86 | no provider gives the not-found error and issues no request; otherwise `eth_requestAccounts` comes first and `eth_chainId` is issued exactly when accounts resolved; success happens exactly when both resolve and carries the provider, accounts and chain id unchanged; every failure has a non-empty message |
| Wallet.HandshakeErrorSource | src/config/wallet.ts:70-86 | the single error raised is the translation of the first rejected request's error |
| Wallet.ConnectWithNoProviders | src/config/wallet.ts:65-67 | with nothing discovered, the connection fails with the exact not-found message and issues no request |
| Wallet.ConnectAnnouncedMetaMask | src/config/wallet.ts:56-74 | one announced rdns `io.metamask` wallet whose requests resolve to ["0xABC"] and "0x1" connects with exactly those values |
| Wallet.ConnectErrorMessages | src/config/wallet.ts:78-85 | codes -32002 and 4001 produce the exact specified messages; code 7 with "boom" yields "boom"; an empty message without a code yields the default |
| WalletsModal.FilteredProviders | src/components/Modals/Wallets.tsx:37-39 | every kept entry has info whose name is exactly "MetaMask" |
| WalletsModal.FilteredIsNameFilter | src/components/Modals/Wallets.tsx:38-39 | the has-info filter is subsumed by the name filter |
| WalletsModal.FilteredKeepsOrder | src/components/Modals/Wallets.tsx:37-39 | the kept list is an order-preserving subsequence of the providers |
| WalletsModal.FilteredCount | src/components/Modals/Wallets.tsx:38-39 | every entry named "MetaMask" is kept as often as it occurs; every other entry, including each entry without info, is dropped |
| WalletsModal.FilteredIdempotent | src/components/Modals/Wallets.tsx:37-39 | filtering twice equals filtering once |
| WalletsModal.LegacyEntriesNeverListed | src/components/Modals/Wallets.tsx:37-39 | the modal's list over a discovery equals its list over the announcements alone |
| WalletsModal.ClosedRendersNothing | src/components/Modals/Wallets.tsx:22 | a closed modal renders nothing, whatever the providers |
| WalletsModal.NotInstalledExactly | src/components/Modals/Wallets.tsx:54-56 | an open modal shows the not-installed notice exactly when no entry is named "MetaMask" |
| WalletsModal.ListedItems | src/components/Modals/Wallets.tsx:68-91 | the rows are the kept entries in order, each named "MetaMask"; each button is disabled exactly when connected and reads "Connected" then, "Connect" otherwise |
| WalletsModal.HandleConnectWallet | src/components/Modals/Wallets.tsx:24-32 | on success `onConnected(accounts)` is called and then `onClose`; on failure the only effect is an alert of the error's message, and `onClose` is called exactly on success |
| WalletsModal.LegacyMetaMaskShownAsNotInstalled | src/components/Modals/Wallets.tsx:37-56 | a legacy-only MetaMask is selected for connection while the modal reports it as not installed |
| App.ToggleFavorite | src/App.tsx:50-56 | toggling flips the membership of the toggled id and leaves every other id's membership unchanged |
| App.ToggleRemoves | src/App.tsx:52-53 | toggling a present id removes every occurrence of it and keeps every other id, with its multiplicity, in the original order |
| App.ToggleAppends | src/App.tsx:52-54 | toggling an absent id appends it at the end, growing the list by exactly one |
| App.ToggleTwice | src/App.tsx:52-54 | toggling an absent id twice gives back the original list |
| App.AppState.constructor | src/App.tsx:22-27 | the initial state: not connected, empty address, favorites ["1","4"], no providers, modal closed |
| App.AppState.OnConnected | src/App.tsx:45-48 | the session becomes connected with the first account as address (undefined when there is none), nothing else changes |
| App.AppState.HandleToggleFavorite | src/App.tsx:50-56 | the favorites become the toggled list, nothing else changes |
| App.AppState.HandleGetProviders | src/App.tsx:29-33 | the modal opens and the providers become a fresh discovery; the listener is unregistered afterwards and the window log gains add-listener, request, remove-listener |
| App.AppState.CloseModal | src/App.tsx:118 | the modal closes, nothing else changes |
| App.AppState.HandleConnectWallet | src/App.tsx:35-43 | a successful connection records the session; a failed one alerts the error's message and leaves the session unchanged; either way the discovery's listener is unregistered afterwards and the window log gains add-listener, request, remove-listener |

## Left out

- The 200 ms wait and the real event dispatch are not modelled. The announcements that arrive inside the window are an input sequence, so late announcers and the race between concurrent discoveries are not represented.
- The global `window.ethereum` read is not modelled; the slot is a parameter.
- Promise and async semantics of `request` are not modelled; each provider gives one fixed answer per method. A synchronous throw from `request` is treated like a rejection, as the `catch` block does.
- The `on` and `removeListener` provider fields are not modelled; the core never calls them.
- An announcement whose `detail.provider` is missing is not modelled. The flag check would throw a TypeError on it; the model assumes every entry has a provider.
- Non-boolean `isMetaMask`/`isPhantom` values, a non-numeric error `code` and a non-string `message` are not modelled; flags are booleans with absent meaning false.
- The optional `isConnected` prop is a boolean in the model, absent meaning false, as App always passes one.
- `console` output is not modelled. `alert` is modelled as the returned or listed message.
- React rendering, batching of state updates, routing and `navigate`, JSX markup and CSS are not modelled. State updates are applied immediately, in program order.
- The `truncate-eth-address` library is not modelled (foreign code). The model only records whether the address line is shown.
- Icon and uuid display metadata are not modelled, apart from `uuid` being part of the info.
