/** The wallets modal (src/components/Modals/Wallets.tsx): which discovered
    wallets it lists, what it renders, and what its connect button does. */
module WalletsModal {
  import opened Wrappers
  import Lists
  import opened Wallet

  // ---------------------------------------------------------------------
  // The display filter
  // ---------------------------------------------------------------------

  /** First filter: the entry has info. */
  predicate HasInfo(d: Discovered)
  {
    d.info.Some?
  }

  /** Second filter: the info's name is exactly "MetaMask". */
  predicate NamedMetaMask(d: Discovered)
  {
    d.info.Some? && d.info.value.name == Some("MetaMask")
  }

  /** `filteredProviders`: the two filters, applied in turn. */
  function FilteredProviders(providers: seq<Discovered>): (kept: seq<Discovered>)
    ensures forall i :: 0 <= i < |kept| ==> kept[i].info.Some? && kept[i].info.value.name == Some("MetaMask")
  {
    Lists.Filter(Lists.Filter(providers, HasInfo), NamedMetaMask)
  }

  /** The first filter is subsumed by the second. */
  lemma FilteredIsNameFilter(providers: seq<Discovered>)
    ensures FilteredProviders(providers) == Lists.Filter(providers, NamedMetaMask)
  {
    Lists.FilterThenStricter(providers, HasInfo, NamedMetaMask);
  }

  /** The kept list preserves the input order. */
  lemma FilteredKeepsOrder(providers: seq<Discovered>)
    ensures Lists.IsSubsequence(FilteredProviders(providers), providers)
  {
    FilteredIsNameFilter(providers);
    Lists.FilterIsSubsequence(providers, NamedMetaMask);
  }

  /** Every entry named "MetaMask" is kept as often as it occurs; every
      other entry, in particular every entry without info, is dropped. */
  lemma FilteredCount(providers: seq<Discovered>, d: Discovered)
    ensures multiset(FilteredProviders(providers))[d] ==
      if NamedMetaMask(d) then multiset(providers)[d] else 0
  {
    FilteredIsNameFilter(providers);
    Lists.FilterCount(providers, NamedMetaMask, d);
  }

  lemma FilteredIdempotent(providers: seq<Discovered>)
    ensures FilteredProviders(FilteredProviders(providers)) == FilteredProviders(providers)
  {
    var kept := FilteredProviders(providers);
    FilteredIsNameFilter(providers);
    FilteredIsNameFilter(kept);
    Lists.FilterIdempotent(providers, NamedMetaMask);
  }

  /** Legacy entries never reach the list: the modal shows only what was
      announced. */
  lemma LegacyEntriesNeverListed(announcements: seq<Discovered>, ethereum: Option<Provider>)
    ensures FilteredProviders(Discovery(announcements, ethereum)) == FilteredProviders(announcements)
  {
    var legacy := LegacyEntries(ethereum);
    FilteredIsNameFilter(announcements + legacy);
    FilteredIsNameFilter(announcements);
    Lists.FilterAppend(announcements, legacy, NamedMetaMask);
    Lists.FilterDropsAll(legacy, NamedMetaMask);
  }

  // ---------------------------------------------------------------------
  // Rendering
  // ---------------------------------------------------------------------

  /** The props the modal reads (`isConnected` absent is `false`). */
  datatype Props = Props(isOpen: bool, providers: seq<Discovered>, address: Option<string>, isConnected: bool)

  /** One list item: the wallet, its displayed name, whether the address line
      is shown, and the connect button's label and disabled state. */
  datatype Row = Row(wallet: Discovered, name: Option<string>, showsAddress: bool, buttonText: string, disabled: bool)

  /** What the modal renders: nothing, the not-installed notice, or a list. */
  datatype View = Nothing | NotInstalled | WalletList(rows: seq<Row>)

  function NameOf(d: Discovered): Option<string>
  {
    if d.info.Some? then d.info.value.name else None
  }

  function ItemOf(d: Discovered, address: Option<string>, isConnected: bool): Row
  {
    Row(d, NameOf(d), address.Some? && address.value != "",
        if isConnected then "Connected" else "Connect", isConnected)
  }

  /** The component's render. The `if (providers)` guard always holds: an
      array is truthy even when empty. */
  function Render(props: Props): View
  {
    if !props.isOpen then Nothing
    else
      var filtered := FilteredProviders(props.providers);
      if |filtered| == 0 then NotInstalled
      else WalletList(seq(|filtered|, i requires 0 <= i < |filtered| =>
                           ItemOf(filtered[i], props.address, props.isConnected)))
  }

  /** A closed modal renders nothing, whatever the providers. */
  lemma ClosedRendersNothing(props: Props)
    requires !props.isOpen
    ensures Render(props) == Nothing
  {
  }

  /** An open modal shows the not-installed notice exactly when no entry is
      named "MetaMask". */
  lemma NotInstalledExactly(props: Props)
    requires props.isOpen
    ensures Render(props) == NotInstalled <==>
      forall i :: 0 <= i < |props.providers| ==> !NamedMetaMask(props.providers[i])
  {
    var ps := props.providers;
    if forall i :: 0 <= i < |ps| ==> !NamedMetaMask(ps[i]) {
      FilteredIsNameFilter(ps);
      Lists.FilterDropsAll(ps, NamedMetaMask);
    } else {
      var i :| 0 <= i < |ps| && NamedMetaMask(ps[i]);
      FilteredCount(ps, ps[i]);
      assert ps[i] in multiset(ps);
    }
  }

  /** The listed items are the kept entries, in order, each named
      "MetaMask", each button labelled "Connected" and disabled exactly when
      connected, "Connect" and enabled otherwise. */
  lemma ListedItems(props: Props)
    requires Render(props).WalletList?
    ensures var rows := Render(props).rows;
      && |rows| == |FilteredProviders(props.providers)|
      && forall i :: 0 <= i < |rows| ==>
           && rows[i].wallet == FilteredProviders(props.providers)[i]
           && rows[i].name == Some("MetaMask")
           && rows[i].disabled == props.isConnected
           && rows[i].buttonText == (if props.isConnected then "Connected" else "Connect")
  {
  }

  // ---------------------------------------------------------------------
  // The connect button
  // ---------------------------------------------------------------------

  /** The callbacks `handleConnectWallet` invokes, in order. */
  datatype Effect = CallOnConnected(accounts: seq<string>) | CallOnClose | ShowAlert(message: string)

  /** `handleConnectWallet`, given how `connectMetaMaskWallet` settled. */
  function HandleConnectWallet(outcome: Result<Connection, ConnectionError>): (effects: seq<Effect>)
    ensures CallOnClose in effects <==> outcome.Success?
    ensures outcome.Success? ==> effects == [CallOnConnected(outcome.value.accounts), CallOnClose]
    ensures outcome.Failure? ==> effects == [ShowAlert(outcome.error.Message())]
  {
    match outcome
    case Success(connection) => [CallOnConnected(connection.accounts), CallOnClose]
    case Failure(error) => [ShowAlert(error.Message())]
  }

  /** A legacy-only MetaMask is selectable for connection yet the modal
      reports it as not installed: the two identification policies differ. */
  lemma LegacyMetaMaskShownAsNotInstalled(eth: Provider, address: Option<string>, isConnected: bool)
    requires eth.isMetaMask && !eth.isPhantom && eth.providers.None?
    ensures SelectMetaMask(Discovery([], Some(eth))) == Some(eth)
    ensures Render(Props(true, Discovery([], Some(eth)), address, isConnected)) == NotInstalled
  {
  }
}
