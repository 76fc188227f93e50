/** Wallet discovery, MetaMask selection and the connection handshake
    (src/config/wallet.ts). */
module Wallet {
  import opened Wrappers
  import Lists

  // ---------------------------------------------------------------------
  // Data model
  // ---------------------------------------------------------------------

  /** The two EIP-1193 request methods the handshake issues. */
  datatype RpcMethod = EthRequestAccounts | EthChainId

  /** What a failing `request` throws: an EIP-1193 provider error, whose
      `code` and `message` may each be missing (a thrown `undefined` is the
      error with neither). */
  datatype RpcError = RpcError(code: Option<int>, message: Option<string>)

  /** The settled outcome of one `request` call. */
  datatype Answer<T> = Resolved(value: T) | Rejected(error: RpcError)

  /** An injected EIP-1193 provider. `handle` stands for the object's
      identity; a missing `isMetaMask`/`isPhantom` flag is `false`; `providers`
      is the optional list of a multiplexed injection. The provider's
      `request` is an oracle: the fixed answer it gives to each method. */
  datatype Provider = Provider(
    handle: nat,
    isMetaMask: bool,
    isPhantom: bool,
    providers: Option<seq<Provider>>,
    requestAccounts: Answer<seq<string>>,
    chainId: Answer<string>)

  /** EIP-6963 provider info as the core reads it. */
  datatype Info = Info(rdns: Option<string>, uuid: Option<string>, name: Option<string>)

  /** One discovered wallet: a provider and, for announced ones, its info. */
  datatype Discovered = Discovered(provider: Provider, info: Option<Info>)

  // ---------------------------------------------------------------------
  // Discovery (EIP-6963 announcements, then the legacy window.ethereum)
  // ---------------------------------------------------------------------

  /** The entries contributed by the legacy `window.ethereum` slot. */
  function LegacyEntries(ethereum: Option<Provider>): seq<Discovered>
  {
    match ethereum
    case None => []
    case Some(eth) =>
      if eth.providers.Some? && |eth.providers.value| > 0 then Untagged(eth.providers.value)
      else [Discovered(eth, None)]
  }

  /** Each provider of `ps`, in order, without info. */
  function Untagged(ps: seq<Provider>): seq<Discovered>
  {
    seq(|ps|, i requires 0 <= i < |ps| => Discovered(ps[i], None))
  }

  /** What one discovery returns, given the announcements that arrived
      inside the window (in arrival order) and the legacy slot. */
  function Discovery(announcements: seq<Discovered>, ethereum: Option<Provider>): seq<Discovered>
  {
    announcements + LegacyEntries(ethereum)
  }

  /** The order-relevant operations discovery performs on the window. */
  datatype Signal = AddAnnounceListener | RequestProvider | RemoveAnnounceListener

  /** The browser window as discovery sees it: whether the
      "eip6963:announceProvider" listener is registered, and the log of
      listener and dispatch operations. */
  class Window {
    var announceListener: bool
    var signals: seq<Signal>

    constructor ()
      ensures !announceListener && signals == []
    {
      announceListener := false;
      signals := [];
    }

    /** `discoverProviders`. The announcements delivered while the listener
        is registered are `announcements`; the legacy slot is `ethereum`. */
    method DiscoverProviders(announcements: seq<Discovered>, ethereum: Option<Provider>)
      returns (found: seq<Discovered>)
      modifies this
      ensures found == Discovery(announcements, ethereum)
      ensures !announceListener
      ensures signals == old(signals) + [AddAnnounceListener, RequestProvider, RemoveAnnounceListener]
    {
      found := [];
      announceListener := true;
      signals := signals + [AddAnnounceListener];
      signals := signals + [RequestProvider];
      // The timeout window: the window delivers each announcement to the
      // listener only while it is registered (the guard below), and the
      // listener appends it.
      for i := 0 to |announcements|
        invariant announceListener
        invariant found == announcements[..i]
      {
        if announceListener {
          found := found + [announcements[i]];
        }
      }
      announceListener := false;
      signals := signals + [RemoveAnnounceListener];

      if ethereum.Some? {
        var eth := ethereum.value;
        if eth.providers.Some? && |eth.providers.value| > 0 {
          var ps := eth.providers.value;
          for j := 0 to |ps|
            invariant found == announcements + Untagged(ps[..j])
          {
            assert Untagged(ps[..j + 1]) == Untagged(ps[..j]) + [Discovered(ps[j], None)];
            found := found + [Discovered(ps[j], None)];
          }
          assert ps[..|ps|] == ps;
        } else {
          found := found + [Discovered(eth, None)];
        }
      }
    }

    /** `getMetaMaskProvider`: a fresh discovery followed by selection. */
    method GetMetaMaskProvider(announcements: seq<Discovered>, ethereum: Option<Provider>)
      returns (provider: Option<Provider>)
      modifies this
      ensures provider == SelectMetaMask(Discovery(announcements, ethereum))
      ensures !announceListener
      ensures signals == old(signals) + [AddAnnounceListener, RequestProvider, RemoveAnnounceListener]
    {
      var providers := DiscoverProviders(announcements, ethereum);
      provider := SelectMetaMask(providers);
    }

    /** `connectMetaMaskWallet`: select a provider, then run the handshake. */
    method ConnectMetaMaskWallet(announcements: seq<Discovered>, ethereum: Option<Provider>)
      returns (run: Run)
      modifies this
      ensures run == Handshake(SelectMetaMask(Discovery(announcements, ethereum)))
      ensures !announceListener
      ensures signals == old(signals) + [AddAnnounceListener, RequestProvider, RemoveAnnounceListener]
    {
      var provider := GetMetaMaskProvider(announcements, ethereum);
      run := Handshake(provider);
    }
  }

  /** With nothing announced and no legacy slot, discovery finds nothing. */
  lemma DiscoveryOfNothing()
    ensures Discovery([], None) == []
  {
  }

  /** Announcements come first, unchanged and in arrival order; the legacy
      entries follow, and none of them has info. */
  lemma DiscoveryLayout(announcements: seq<Discovered>, ethereum: Option<Provider>)
    ensures var found := Discovery(announcements, ethereum);
      && found[..|announcements|] == announcements
      && found[|announcements|..] == LegacyEntries(ethereum)
      && forall i :: |announcements| <= i < |found| ==> found[i].info == None
  {
  }

  /** A multiplexed legacy slot contributes its N sub-providers, in order,
      each without info. */
  lemma LegacyMultiplexed(eth: Provider)
    requires eth.providers.Some? && |eth.providers.value| > 0
    ensures var legacy := LegacyEntries(Some(eth));
      && |legacy| == |eth.providers.value|
      && forall i :: 0 <= i < |legacy| ==> legacy[i] == Discovered(eth.providers.value[i], None)
  {
  }

  /** A legacy slot with a missing or empty sub-provider list contributes
      exactly itself, without info. */
  lemma LegacySingle(eth: Provider)
    requires eth.providers.None? || eth.providers.value == []
    ensures LegacyEntries(Some(eth)) == [Discovered(eth, None)]
  {
  }

  // ---------------------------------------------------------------------
  // Selection
  // ---------------------------------------------------------------------

  /** The provider's own flags claim MetaMask and do not claim Phantom. */
  predicate ClaimsMetaMask(d: Discovered)
  {
    d.provider.isMetaMask && !d.provider.isPhantom
  }

  /** The entry's EIP-6963 info carries MetaMask's reverse-domain name. */
  predicate AnnouncesMetaMask(d: Discovered)
  {
    d.info.Some? && d.info.value.rdns == Some("io.metamask")
  }

  /** The selection over a discovered list: the first entry claiming
      MetaMask by flags, else the first announcing MetaMask's rdns. */
  function SelectMetaMask(providers: seq<Discovered>): (selected: Option<Provider>)
    ensures selected.Some? ==> exists i :: 0 <= i < |providers| && providers[i].provider == selected.value
  {
    var mm := match Lists.Find(providers, ClaimsMetaMask)
              case Some(d) => Some(d)
              case None => Lists.Find(providers, AnnouncesMetaMask);
    match mm
    case Some(d) => Some(d.provider)
    case None => None
  }

  /** The first entry claiming MetaMask by flags wins, wherever it is in the
      list and whatever other entries announce. */
  lemma SelectFirstFlagged(providers: seq<Discovered>, i: nat)
    requires i < |providers| && ClaimsMetaMask(providers[i])
    requires forall j :: 0 <= j < i ==> !ClaimsMetaMask(providers[j])
    ensures SelectMetaMask(providers) == Some(providers[i].provider)
  {
  }

  /** Only when no entry claims MetaMask by flags does the first entry
      announcing rdns "io.metamask" win. */
  lemma SelectFirstAnnounced(providers: seq<Discovered>, i: nat)
    requires forall j :: 0 <= j < |providers| ==> !ClaimsMetaMask(providers[j])
    requires i < |providers| && AnnouncesMetaMask(providers[i])
    requires forall j :: 0 <= j < i ==> !AnnouncesMetaMask(providers[j])
    ensures SelectMetaMask(providers) == Some(providers[i].provider)
  {
  }

  /** Selection yields nothing exactly when no entry qualifies either way. */
  lemma SelectNone(providers: seq<Discovered>)
    ensures SelectMetaMask(providers) == None <==>
      forall j :: 0 <= j < |providers| ==> !ClaimsMetaMask(providers[j]) && !AnnouncesMetaMask(providers[j])
  {
  }

  // ---------------------------------------------------------------------
  // Handshake and error translation
  // ---------------------------------------------------------------------

  /** A successful connection. */
  datatype Connection = Connection(provider: Provider, accounts: seq<string>, chainId: string)

  /** The error taxonomy; the source throws only the message. */
  datatype ConnectionError = NotFound | AlreadyPending | UserRejected | Unknown(text: string)
  {
    function Message(): string
    {
      match this
      case NotFound => "MetaMask provider not found. If you have multiple wallets, disable others or open MetaMask."
      case AlreadyPending => "A connection request is already pending in MetaMask. Please open the extension and complete it."
      case UserRejected => "Request rejected in MetaMask."
      case Unknown(text) => text
    }
  }

  /** EIP-1474 "Resource unavailable": a request is already pending. */
  const ResourceUnavailable: int := -32002
  /** EIP-1193 "User Rejected Request". */
  const UserRejectedRequest: int := 4001
  const DefaultFailure: string := "Failed to connect wallet."

  /** The catch block: a provider error becomes exactly one connection error. */
  function Translate(err: RpcError): (e: ConnectionError)
    ensures e != NotFound && e.Message() != ""
    ensures e == AlreadyPending <==> err.code == Some(ResourceUnavailable)
    ensures e == UserRejected <==> err.code == Some(UserRejectedRequest)
    ensures e.Unknown? ==>
      e.Message() == if err.message.Some? && err.message.value != "" then err.message.value else DefaultFailure
  {
    if err.code == Some(ResourceUnavailable) then AlreadyPending
    else if err.code == Some(UserRejectedRequest) then UserRejected
    else Unknown(if err.message.Some? && err.message.value != "" then err.message.value else DefaultFailure)
  }

  /** One handshake: its outcome and the requests it issued, in order. */
  datatype Run = Run(outcome: Result<Connection, ConnectionError>, issued: seq<RpcMethod>)

  /** The handshake against the selected provider (None: nothing selected). */
  function Handshake(selected: Option<Provider>): (run: Run)
    ensures run.issued <= [EthRequestAccounts, EthChainId]
    ensures selected.None? <==> run.issued == []
    ensures run.outcome == Failure(NotFound) <==> selected.None?
    ensures EthChainId in run.issued <==> selected.Some? && selected.value.requestAccounts.Resolved?
    ensures run.outcome.Success? <==>
      selected.Some? && selected.value.requestAccounts.Resolved? && selected.value.chainId.Resolved?
    ensures run.outcome.Success? ==>
      run.outcome.value == Connection(selected.value, selected.value.requestAccounts.value, selected.value.chainId.value)
    ensures run.outcome.Failure? ==> run.outcome.error.Message() != ""
  {
    match selected
    case None => Run(Failure(NotFound), [])
    case Some(provider) =>
      match provider.requestAccounts
      case Rejected(err) => Run(Failure(Translate(err)), [EthRequestAccounts])
      case Resolved(accounts) =>
        match provider.chainId
        case Rejected(err) => Run(Failure(Translate(err)), [EthRequestAccounts, EthChainId])
        case Resolved(chainId) => Run(Success(Connection(provider, accounts, chainId)), [EthRequestAccounts, EthChainId])
  }

  /** The error of a failed handshake is the translation of the first
      rejected request's error. */
  lemma HandshakeErrorSource(provider: Provider)
    ensures var run := Handshake(Some(provider));
      && (provider.requestAccounts.Rejected? ==>
            run.outcome == Failure(Translate(provider.requestAccounts.error)))
      && (provider.requestAccounts.Resolved? && provider.chainId.Rejected? ==>
            run.outcome == Failure(Translate(provider.chainId.error)))
  {
  }

  // ---------------------------------------------------------------------
  // Scenarios
  // ---------------------------------------------------------------------

  /** A legacy entry whose flags claim MetaMask and Phantom at once loses to an
      entry announcing rdns "io.metamask", in either order. */
  lemma ImpersonatorLoses(announced: Discovered, impersonator: Discovered)
    requires AnnouncesMetaMask(announced)
    requires impersonator.info == None && impersonator.provider.isMetaMask && impersonator.provider.isPhantom
    ensures SelectMetaMask([announced, impersonator]) == Some(announced.provider)
    ensures SelectMetaMask([impersonator, announced]) == Some(announced.provider)
  {
  }

  /** The flag check runs over announced entries too: an announced entry
      whose flags claim MetaMask beats an earlier rdns-announced one. */
  lemma FlaggedAnnouncementBeatsRdns(announced: Discovered, flagged: Discovered)
    requires AnnouncesMetaMask(announced) && !ClaimsMetaMask(announced)
    requires flagged.info.Some? && ClaimsMetaMask(flagged)
    ensures SelectMetaMask([announced, flagged]) == Some(flagged.provider)
  {
    SelectFirstFlagged([announced, flagged], 1);
  }

  /** No provider anywhere: the connection fails with the not-found message
      and issues no request. */
  lemma ConnectWithNoProviders()
    ensures var run := Handshake(SelectMetaMask(Discovery([], None)));
      && run.issued == []
      && run.outcome.Failure?
      && run.outcome.error.Message() ==
           "MetaMask provider not found. If you have multiple wallets, disable others or open MetaMask."
  {
  }

  /** One wallet announced with rdns "io.metamask" whose requests resolve:
      the connection carries that provider, its accounts and chain id. */
  lemma ConnectAnnouncedMetaMask(provider: Provider, info: Info)
    requires info.rdns == Some("io.metamask")
    requires provider.requestAccounts == Resolved(["0xABC"]) && provider.chainId == Resolved("0x1")
    ensures Handshake(SelectMetaMask(Discovery([Discovered(provider, Some(info))], None))).outcome ==
      Success(Connection(provider, ["0xABC"], "0x1"))
  {
  }

  /** The three error rows, as seen by a caller of the handshake. */
  lemma ConnectErrorMessages(provider: Provider, message: Option<string>)
    ensures provider.requestAccounts == Rejected(RpcError(Some(-32002), message)) ==>
      Handshake(Some(provider)).outcome.error.Message() ==
        "A connection request is already pending in MetaMask. Please open the extension and complete it."
    ensures provider.requestAccounts == Rejected(RpcError(Some(4001), message)) ==>
      Handshake(Some(provider)).outcome.error.Message() == "Request rejected in MetaMask."
    ensures provider.requestAccounts == Rejected(RpcError(Some(7), Some("boom"))) ==>
      Handshake(Some(provider)).outcome.error == Unknown("boom")
    ensures provider.requestAccounts == Rejected(RpcError(None, Some(""))) ==>
      Handshake(Some(provider)).outcome.error.Message() == "Failed to connect wallet."
  {
  }
}
