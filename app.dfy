/** The application state around the wallet core (src/App.tsx): favorites,
    the connected session and the wallets modal. */
module App {
  import opened Wrappers
  import Lists
  import opened Wallet

  /** The predicate `id => id !== propertyId`. */
  function IsNot(propertyId: string): string -> bool
  {
    id => id != propertyId
  }

  /** The `handleToggleFavorite` updater. */
  function ToggleFavorite(prev: seq<string>, propertyId: string): (next: seq<string>)
    ensures propertyId in next <==> propertyId !in prev
    ensures forall id :: id != propertyId ==> (id in next <==> id in prev)
  {
    if propertyId in prev then
      var next := Lists.Filter(prev, IsNot(propertyId));
      assert forall id :: id in next <==> id in prev && id != propertyId by {
        forall id ensures id in next <==> id in prev && id != propertyId {
          Lists.FilterMembership(prev, IsNot(propertyId), id);
        }
      }
      next
    else prev + [propertyId]
  }

  /** Toggling a present id removes every occurrence of it and keeps every
      other id, as often as it occurred and in its original order. */
  lemma ToggleRemoves(prev: seq<string>, propertyId: string)
    requires propertyId in prev
    ensures var next := ToggleFavorite(prev, propertyId);
      && multiset(next)[propertyId] == 0
      && (forall id :: id != propertyId ==> multiset(next)[id] == multiset(prev)[id])
      && Lists.IsSubsequence(next, prev)
  {
    var next := ToggleFavorite(prev, propertyId);
    Lists.FilterIsSubsequence(prev, IsNot(propertyId));
    forall id ensures multiset(next)[id] == if id == propertyId then 0 else multiset(prev)[id] {
      Lists.FilterCount(prev, IsNot(propertyId), id);
    }
  }

  /** Toggling an absent id appends it at the end. */
  lemma ToggleAppends(prev: seq<string>, propertyId: string)
    requires propertyId !in prev
    ensures var next := ToggleFavorite(prev, propertyId);
      && |next| == |prev| + 1 && next[..|prev|] == prev && next[|prev|] == propertyId
  {
  }

  /** Toggling an absent id twice gives back the original list. */
  lemma ToggleTwice(prev: seq<string>, propertyId: string)
    requires propertyId !in prev
    ensures ToggleFavorite(ToggleFavorite(prev, propertyId), propertyId) == prev
  {
    var keep := IsNot(propertyId);
    Lists.FilterAppend(prev, [propertyId], keep);
    Lists.FilterKeepsAll(prev, keep);
    assert Lists.Filter([propertyId], keep) == [];
  }

  /** The `AppContent` component's state. `defaultAddress` is `None` when it
      was set from an empty account list (`accounts[0]` is `undefined`). */
  class AppState {
    var walletConnected: bool
    var defaultAddress: Option<string>
    var providers: seq<Discovered>
    var favorites: seq<string>
    var isOpen: bool

    /** The initial values of the `useState` hooks. */
    constructor ()
      ensures !walletConnected && defaultAddress == Some("")
      ensures providers == [] && favorites == ["1", "4"] && !isOpen
    {
      walletConnected := false;
      defaultAddress := Some("");
      providers := [];
      favorites := ["1", "4"];
      isOpen := false;
    }

    /** `onConnected`: the session becomes connected with the first account. */
    method OnConnected(accounts: seq<string>)
      modifies this
      ensures walletConnected
      ensures defaultAddress == if |accounts| > 0 then Some(accounts[0]) else None
      ensures providers == old(providers) && favorites == old(favorites) && isOpen == old(isOpen)
    {
      walletConnected := true;
      defaultAddress := if |accounts| > 0 then Some(accounts[0]) else None;
    }

    /** `handleToggleFavorite`. */
    method HandleToggleFavorite(propertyId: string)
      modifies this
      ensures favorites == ToggleFavorite(old(favorites), propertyId)
      ensures walletConnected == old(walletConnected) && defaultAddress == old(defaultAddress)
      ensures providers == old(providers) && isOpen == old(isOpen)
    {
      favorites := ToggleFavorite(favorites, propertyId);
    }

    /** `handleGetProviders`: open the modal, then store a fresh discovery. */
    method HandleGetProviders(window: Window, announcements: seq<Discovered>, ethereum: Option<Provider>)
      modifies this, window
      ensures isOpen && providers == Discovery(announcements, ethereum)
      ensures !window.announceListener
      ensures window.signals == old(window.signals) + [AddAnnounceListener, RequestProvider, RemoveAnnounceListener]
      ensures walletConnected == old(walletConnected) && defaultAddress == old(defaultAddress)
      ensures favorites == old(favorites)
    {
      isOpen := true;
      var found := window.DiscoverProviders(announcements, ethereum);
      providers := found;
    }

    /** The modal's `onClose`. */
    method CloseModal()
      modifies this
      ensures !isOpen
      ensures walletConnected == old(walletConnected) && defaultAddress == old(defaultAddress)
      ensures providers == old(providers) && favorites == old(favorites)
    {
      isOpen := false;
    }

    /** `handleConnectWallet`: connect, and on success record the session;
        on failure the state is unchanged and the message is alerted. */
    method HandleConnectWallet(window: Window, announcements: seq<Discovered>, ethereum: Option<Provider>)
      returns (alert: Option<string>)
      modifies this, window
      ensures var run := Handshake(SelectMetaMask(Discovery(announcements, ethereum)));
        && (run.outcome.Success? ==>
              alert == None && walletConnected &&
              defaultAddress == (if |run.outcome.value.accounts| > 0 then Some(run.outcome.value.accounts[0]) else None))
        && (run.outcome.Failure? ==>
              alert == Some(run.outcome.error.Message()) &&
              walletConnected == old(walletConnected) && defaultAddress == old(defaultAddress))
      ensures providers == old(providers) && favorites == old(favorites) && isOpen == old(isOpen)
      ensures !window.announceListener
      ensures window.signals == old(window.signals) + [AddAnnounceListener, RequestProvider, RemoveAnnounceListener]
    {
      var run := window.ConnectMetaMaskWallet(announcements, ethereum);
      match run.outcome
      case Success(connection) =>
        OnConnected(connection.accounts);
        alert := None;
      case Failure(error) =>
        alert := Some(error.Message());
    }
  }
}
