/** The frontend's session controller: wallet connection state and the lobby operations, each
    of which reports `(page, isLoading, payload)` notifications to a single registered callback
    around its calls into the middleware. Middleware replies and the presence of an injected
    wallet provider (`window.ethereum`) are parameters of the methods; the controller's
    observable behaviour is recorded in a ghost trace of events. */
module SessionController {
  import opened Wrappers
  import LobbyHelpers
  import Middleware

  /** The application's pages. */
  datatype Page = Landing | MainMenu | CreateLobby | OpenLobbies | Game | MyGames

  /** The route string each page stands for. */
  function Route(p: Page): (r: string)
    ensures |r| > 0 && r[0] == '/'
  {
    match p
    case Landing => "/login"
    case MainMenu => "/"
    case CreateLobby => "/create_lobby"
    case OpenLobbies => "/open_lobbies"
    case Game => "/game"
    case MyGames => "/my_games"
  }

  /** Distinct pages have distinct routes. */
  lemma RoutesDistinct(p: Page, q: Page)
    requires Route(p) == Route(q)
    ensures p == q
  {
  }

  /** One invocation of the callback: destination page (`null` keeps the current one),
      loading flag and lobby payload. */
  datatype Notification = Notification(page: Option<Page>, isLoading: bool,
                                       payload: Option<LobbyHelpers.Lobby>)

  /** What the controller does that can be observed from outside: a callback invocation, a
      wallet login together with the address it returned (if it succeeded), or any other
      middleware call. */
  datatype Event =
    | Notified(n: Notification)
    | WalletLogin(address: Option<string>)
    | Requested(call: Middleware.Call)

  const Loading: Event := Notified(Notification(None, true, None))
  const Idle: Event := Notified(Notification(None, false, None))
  const LandingIdle: Notification := Notification(Some(Landing), false, None)

  // Messages of the errors the controller throws.
  const CallbackNotSet := "Callback is not set"
  /** What the JavaScript engine throws when `connectWallet` invokes an unset callback. */
  const NotAFunction := "this.callback is not a function"
  const CouldNotGetLobbyState := "Could not get lobby state"
  const CouldNotSearchLobby := "Could not search lobby"
  const CouldNotCreateLobby := "Could not create lobby"
  const CouldNotJoinLobby := "Could not join lobby"
  const CouldNotDownloadJoinedLobby := "Could not download lobby state from join lobby"
  const CouldNotCloseLobby := "Could not close lobby"
  const CouldNotGetOpenLobbies := "Could not get open lobbies"
  const CouldNotGetMatchExecutor := "Could not get match executor"

  /** Page size `searchLobby` asks the middleware for. */
  const SearchPageSize := 1

  predicate IsLogin(e: Event) {
    e.WalletLogin? && e.address.Some?
  }

  /** The address returned by the latest successful wallet login of a trace. */
  function LastAddress(t: seq<Event>): Option<string> {
    if |t| == 0 then None
    else if IsLogin(t[|t| - 1]) then t[|t| - 1].address
    else LastAddress(t[..|t| - 1])
  }

  /** `LastAddress` is the address of a successful login that no later successful login
      follows, and it is `None` exactly when the trace holds no successful login. */
  lemma {:induction false} LastAddressIsLatestLogin(t: seq<Event>)
    ensures var r := LastAddress(t);
            r.Some? ==> exists i :: 0 <= i < |t| && t[i] == WalletLogin(r) &&
                          forall j :: i < j < |t| ==> !IsLogin(t[j])
    ensures LastAddress(t).None? <==> forall i :: 0 <= i < |t| ==> !IsLogin(t[i])
  {
    if |t| > 0 && !IsLogin(t[|t| - 1]) {
      var s := t[..|t| - 1];
      LastAddressIsLatestLogin(s);
      assert forall i :: 0 <= i < |s| ==> s[i] == t[i];
    }
  }

  /** The latest notification of a trace. */
  function LastNotification(t: seq<Event>): Option<Notification> {
    if |t| == 0 then None
    else if t[|t| - 1].Notified? then Some(t[|t| - 1].n)
    else LastNotification(t[..|t| - 1])
  }

  /** `LastNotification` is a notification of the trace that no later one follows, and it is
      `None` exactly when the trace holds no notification. */
  lemma {:induction false} LastNotificationIsLatest(t: seq<Event>)
    ensures var r := LastNotification(t);
            r.Some? ==> exists i :: 0 <= i < |t| && t[i] == Notified(r.value) &&
                          forall j :: i < j < |t| ==> !t[j].Notified?
    ensures LastNotification(t).None? <==> forall i :: 0 <= i < |t| ==> !t[i].Notified?
  {
    if |t| > 0 && !t[|t| - 1].Notified? {
      var s := t[..|t| - 1];
      LastNotificationIsLatest(s);
      assert forall i :: 0 <= i < |s| ==> s[i] == t[i];
    }
  }

  /** The user interface is not left showing a spinner: the latest notification, if any, has
      `isLoading` false. */
  ghost predicate Settled(t: seq<Event>) {
    LastNotification(t).None? || !LastNotification(t).value.isLoading
  }

  lemma {:induction false} LastAddressAppend(t: seq<Event>, u: seq<Event>)
    ensures LastAddress(t + u) == if LastAddress(u).Some? then LastAddress(u) else LastAddress(t)
    decreases |u|
  {
    if |u| == 0 {
      assert t + u == t;
    } else {
      var v := u[..|u| - 1];
      assert (t + u)[..|t + u| - 1] == t + v;
      assert (t + u)[|t + u| - 1] == u[|u| - 1];
      LastAddressAppend(t, v);
    }
  }

  lemma {:induction false} LastNotificationAppend(t: seq<Event>, u: seq<Event>)
    ensures LastNotification(t + u) ==
              if LastNotification(u).Some? then LastNotification(u) else LastNotification(t)
    decreases |u|
  {
    if |u| == 0 {
      assert t + u == t;
    } else {
      var v := u[..|u| - 1];
      assert (t + u)[..|t + u| - 1] == t + v;
      assert (t + u)[|t + u| - 1] == u[|u| - 1];
      LastNotificationAppend(t, v);
    }
  }

  /** JavaScript truthiness of `userAddress`: neither `null` nor the empty string. */
  predicate Connected(address: Option<string>) {
    address.Some? && address.value != ""
  }

  function LoginAddress(login: Middleware.Reply<string>): Option<string> {
    if login.Succeeded? then Some(login.result) else None
  }

  /** The stored address after a wallet login with reply `login`. */
  function AfterLogin(address: Option<string>, login: Middleware.Reply<string>): Option<string> {
    if login.Succeeded? then Some(login.result) else address
  }

  /** The stored address after the wallet check that opens every lobby operation. */
  function AfterEnforce(address: Option<string>, login: Middleware.Reply<string>): Option<string> {
    if Connected(address) then address else AfterLogin(address, login)
  }

  /** The events of the wallet check once the callback is known to be set: a Landing
      notification when there is no wallet provider, then a silent login when no address is
      stored. */
  function Enforced(provider: bool, address: Option<string>, login: Middleware.Reply<string>)
    : seq<Event>
  {
    (if provider then [] else [Notified(LandingIdle)]) +
    (if Connected(address) then [] else [WalletLogin(LoginAddress(login))])
  }

  /** The events of a read operation: wallet check, loading on, the call, loading off. */
  function Fetched(provider: bool, address: Option<string>, login: Middleware.Reply<string>,
                   call: Middleware.Call): seq<Event>
  {
    Enforced(provider, address, login) + [Loading, Requested(call), Idle]
  }

  class MainController {
    var userAddress: Option<string>
    var hasCallback: bool
    ghost var trace: seq<Event>

    /** The stored address is the one the latest successful wallet login returned. */
    ghost predicate Valid()
      reads this
    {
      userAddress == LastAddress(trace)
    }

    constructor ()
      ensures Valid() && userAddress == None && !hasCallback && trace == []
    {
      userAddress := None;
      hasCallback := false;
      trace := [];
    }

    /** The user interface assigns the public `callback` field. */
    method RegisterCallback()
      modifies this`hasCallback
      ensures hasCallback
    {
      hasCallback := true;
    }

    /** `this.callback(page, isLoading, payload)`. */
    method Notify(page: Option<Page>, isLoading: bool, payload: Option<LobbyHelpers.Lobby>)
      requires Valid() && hasCallback
      modifies this`trace
      ensures Valid()
      ensures trace == old(trace) + [Notified(Notification(page, isLoading, payload))]
      ensures LastNotification(trace) == Some(Notification(page, isLoading, payload))
    {
      ghost var before := trace;
      var e := Notified(Notification(page, isLoading, payload));
      trace := trace + [e];
      LastAddressAppend(before, [e]);
      LastNotificationAppend(before, [e]);
    }

    /** Issuing a middleware call other than the wallet login. */
    method Request(call: Middleware.Call)
      requires Valid()
      modifies this`trace
      ensures Valid()
      ensures trace == old(trace) + [Requested(call)]
      ensures LastNotification(trace) == LastNotification(old(trace))
    {
      ghost var before := trace;
      trace := trace + [Requested(call)];
      LastAddressAppend(before, [Requested(call)]);
      LastNotificationAppend(before, [Requested(call)]);
    }

    method CheckCallback() returns (r: Outcome<string>)
      ensures r.Fail? <==> !hasCallback
      ensures r.Fail? ==> r.error == CallbackNotSet
    {
      if !hasCallback {
        return Fail(CallbackNotSet);
      }
      return Pass;
    }

    /** Best-effort wallet check: never fails for want of a wallet, only for want of a
        callback. */
    method EnforceWalletConnected(provider: bool, login: Middleware.Reply<string>)
      returns (r: Outcome<string>)
      requires Valid()
      modifies this`userAddress, this`trace
      ensures Valid()
      ensures r.Fail? <==> !hasCallback
      ensures !hasCallback ==>
                r.error == CallbackNotSet && trace == old(trace) && userAddress == old(userAddress)
      ensures hasCallback ==>
                trace == old(trace) + Enforced(provider, old(userAddress), login) &&
                userAddress == AfterEnforce(old(userAddress), login)
      ensures LastNotification(trace) ==
                if hasCallback && !provider then Some(LandingIdle) else old(LastNotification(trace))
    {
      r := CheckCallback();
      if r.Fail? {
        return;
      }
      if !provider {
        Notify(Some(Landing), false, None);
      }
      if !Connected(userAddress) {
        SilentConnectWallet(login);
      }
    }

    /** Log in to the injected wallet and store the address on success; never notifies. */
    method SilentConnectWallet(login: Middleware.Reply<string>)
      requires Valid()
      modifies this`userAddress, this`trace
      ensures Valid()
      ensures trace == old(trace) + [WalletLogin(LoginAddress(login))]
      ensures userAddress == AfterLogin(old(userAddress), login)
      ensures LastNotification(trace) == LastNotification(old(trace))
    {
      ghost var before := trace;
      var e := WalletLogin(LoginAddress(login));
      trace := trace + [e];
      LastAddressAppend(before, [e]);
      LastNotificationAppend(before, [e]);
      if login.Succeeded? {
        userAddress := Some(login.result);
      }
    }

    /** Interactive login: Landing with loading on, then MainMenu on success or Landing with
        loading off on failure. It does not check the callback first. */
    method ConnectWallet(login: Middleware.Reply<string>) returns (r: Outcome<string>)
      requires Valid()
      modifies this`userAddress, this`trace
      ensures Valid()
      ensures r.Fail? <==> !hasCallback
      ensures !hasCallback ==>
                r.error == NotAFunction && trace == old(trace) && userAddress == old(userAddress)
      ensures hasCallback ==>
                userAddress == AfterLogin(old(userAddress), login) &&
                trace == old(trace) +
                  [Notified(Notification(Some(Landing), true, None)),
                   WalletLogin(LoginAddress(login)),
                   Notified(Notification(Some(if login.Succeeded? then MainMenu else Landing),
                                         false, None))]
      ensures hasCallback ==> Settled(trace)
    {
      if !hasCallback {
        return Fail(NotAFunction);
      }
      Notify(Some(Landing), true, None);
      SilentConnectWallet(login);
      if login.Succeeded? {
        Notify(Some(MainMenu), false, None);
      } else {
        Notify(Some(Landing), false, None);
      }
      return Pass;
    }

    /** The NFTs of a wallet, or `None` (JavaScript `undefined`) when the middleware fails. */
    method FetchNfts(address: string, reply: Middleware.Reply<seq<int>>)
      returns (r: Option<seq<int>>)
      requires Valid()
      modifies this`trace
      ensures Valid()
      ensures trace == old(trace) + [Requested(Middleware.GetNftsForWallet(address))]
      ensures r.Some? <==> reply.Succeeded?
      ensures r.Some? ==> r.value == reply.result
    {
      Request(Middleware.GetNftsForWallet(address));
      if reply.Failed? {
        return None;
      }
      return Some(reply.result);
    }

    method LoadLobbyState(provider: bool, login: Middleware.Reply<string>,
                          reply: Middleware.Reply<LobbyHelpers.Lobby>, lobbyId: string)
      returns (r: Result<LobbyHelpers.Lobby, string>)
      requires Valid()
      modifies this`userAddress, this`trace
      ensures Valid()
      ensures !hasCallback ==>
                r == Failure(CallbackNotSet) && trace == old(trace) && userAddress == old(userAddress)
      ensures hasCallback ==>
                userAddress == AfterEnforce(old(userAddress), login) &&
                trace == old(trace) + Fetched(provider, old(userAddress), login,
                                              Middleware.GetLobbyState(lobbyId))
      ensures hasCallback ==>
                r == if reply.Succeeded? then Success(reply.result) else Failure(CouldNotGetLobbyState)
      ensures hasCallback ==> Settled(trace)
    {
      var ok := EnforceWalletConnected(provider, login);
      if ok.Fail? {
        return Failure(ok.error);
      }
      Notify(None, true, None);
      Request(Middleware.GetLobbyState(lobbyId));
      Notify(None, false, None);
      if reply.Failed? {
        return Failure(CouldNotGetLobbyState);
      }
      return Success(reply.result);
    }

    method LoadLobbyRaw(provider: bool, login: Middleware.Reply<string>,
                        reply: Middleware.Reply<LobbyHelpers.Lobby>, lobbyId: string)
      returns (r: Result<LobbyHelpers.Lobby, string>)
      requires Valid()
      modifies this`userAddress, this`trace
      ensures Valid()
      ensures !hasCallback ==>
                r == Failure(CallbackNotSet) && trace == old(trace) && userAddress == old(userAddress)
      ensures hasCallback ==>
                userAddress == AfterEnforce(old(userAddress), login) &&
                trace == old(trace) + Fetched(provider, old(userAddress), login,
                                              Middleware.GetLobbyRaw(lobbyId))
      ensures hasCallback ==>
                r == if reply.Succeeded? then Success(reply.result) else Failure(CouldNotGetLobbyState)
      ensures hasCallback ==> LastNotification(trace) == Some(Notification(None, false, None))
    {
      var ok := EnforceWalletConnected(provider, login);
      if ok.Fail? {
        return Failure(ok.error);
      }
      Notify(None, true, None);
      Request(Middleware.GetLobbyRaw(lobbyId));
      Notify(None, false, None);
      if reply.Failed? {
        return Failure(CouldNotGetLobbyState);
      }
      return Success(reply.result);
    }

    method SearchLobby(provider: bool, login: Middleware.Reply<string>,
                       reply: Middleware.Reply<seq<LobbyHelpers.Lobby>>,
                       nftId: int, query: string, page: int)
      returns (r: Result<seq<LobbyHelpers.Lobby>, string>)
      requires Valid()
      modifies this`userAddress, this`trace
      ensures Valid()
      ensures !hasCallback ==>
                r == Failure(CallbackNotSet) && trace == old(trace) && userAddress == old(userAddress)
      ensures hasCallback ==>
                userAddress == AfterEnforce(old(userAddress), login) &&
                trace == old(trace) + Fetched(provider, old(userAddress), login,
                                              Middleware.GetLobbySearch(nftId, query, page, SearchPageSize))
      ensures hasCallback ==>
                r == if reply.Succeeded? then Success(reply.result) else Failure(CouldNotSearchLobby)
      ensures hasCallback ==> Settled(trace)
    {
      var ok := EnforceWalletConnected(provider, login);
      if ok.Fail? {
        return Failure(ok.error);
      }
      Notify(None, true, None);
      Request(Middleware.GetLobbySearch(nftId, query, page, SearchPageSize));
      Notify(None, false, None);
      if reply.Failed? {
        return Failure(CouldNotSearchLobby);
      }
      return Success(reply.result);
    }

    /** Create a lobby, then show the Game page with the lobby re-read by the id the creation
        returned. `reloadProvider`, `reloadLogin` and `reloaded` are what the nested
        `loadLobbyRaw` sees: the provider probe is read again there. */
    method CreateLobby(provider: bool, login: Middleware.Reply<string>,
                       created: Middleware.Reply<string>,
                       reloadProvider: bool, reloadLogin: Middleware.Reply<string>,
                       reloaded: Middleware.Reply<LobbyHelpers.Lobby>,
                       creatorNftId: int, numOfRounds: int, roundLength: int, timePerPlayer: int,
                       isHidden: bool := false, isPractice: bool := false)
      returns (r: Outcome<string>)
      requires Valid()
      modifies this`userAddress, this`trace
      ensures Valid()
      ensures !hasCallback ==>
                r == Fail(CallbackNotSet) && trace == old(trace) && userAddress == old(userAddress)
      ensures hasCallback ==>
                var first := AfterEnforce(old(userAddress), login);
                var started := old(trace) + Enforced(provider, old(userAddress), login) +
                  [Loading, Requested(Middleware.CreateLobby(creatorNftId, numOfRounds, roundLength,
                                                             timePerPlayer, isHidden, isPractice))];
                if created.Failed? then
                  r == Fail(CouldNotCreateLobby) && userAddress == first && trace == started + [Idle]
                else
                  var reread := started + Fetched(reloadProvider, first, reloadLogin,
                                                 Middleware.GetLobbyRaw(created.result));
                  userAddress == AfterEnforce(first, reloadLogin) &&
                  if reloaded.Failed? then
                    r == Fail(CouldNotGetLobbyState) && trace == reread
                  else
                    r == Pass &&
                    trace == reread + [Notified(Notification(Some(Game), false, Some(reloaded.result)))]
      ensures hasCallback ==> Settled(trace)
    {
      ghost var before, address := trace, userAddress;
      var ok := EnforceWalletConnected(provider, login);
      if ok.Fail? {
        return ok;
      }
      var call := Middleware.CreateLobby(creatorNftId, numOfRounds, roundLength, timePerPlayer,
                                         isHidden, isPractice);
      Notify(None, true, None);
      Request(call);
      ghost var started := trace;
      assert started == before + Enforced(provider, address, login) + [Loading, Requested(call)];
      if created.Failed? {
        Notify(None, false, None);
        return Fail(CouldNotCreateLobby);
      }
      var lobbyRaw := LoadLobbyRaw(reloadProvider, reloadLogin, reloaded, created.result);
      if lobbyRaw.Failure? {
        return Fail(lobbyRaw.error);
      }
      Notify(Some(Game), false, Some(lobbyRaw.value));
      return Pass;
    }

    /** Join a lobby, then read it back; each of the two calls can fail on its own. */
    method JoinLobby(provider: bool, login: Middleware.Reply<string>,
                     joined: Middleware.Reply<()>, reloaded: Middleware.Reply<LobbyHelpers.Lobby>,
                     nftId: int, lobbyId: string)
      returns (r: Outcome<string>)
      requires Valid()
      modifies this`userAddress, this`trace
      ensures Valid()
      ensures !hasCallback ==>
                r == Fail(CallbackNotSet) && trace == old(trace) && userAddress == old(userAddress)
      ensures hasCallback ==>
                var started := old(trace) + Enforced(provider, old(userAddress), login) +
                              [Loading, Requested(Middleware.JoinLobby(nftId, lobbyId))];
                var reread := started + [Requested(Middleware.GetLobbyRaw(lobbyId))];
                userAddress == AfterEnforce(old(userAddress), login) &&
                if joined.Failed? then
                  r == Fail(CouldNotJoinLobby) && trace == started + [Idle]
                else if reloaded.Failed? then
                  r == Fail(CouldNotDownloadJoinedLobby) && trace == reread + [Idle]
                else
                  r == Pass &&
                  trace == reread + [Notified(Notification(Some(Game), false, Some(reloaded.result)))]
      ensures hasCallback ==> Settled(trace)
    {
      var ok := EnforceWalletConnected(provider, login);
      if ok.Fail? {
        return ok;
      }
      Notify(None, true, None);
      Request(Middleware.JoinLobby(nftId, lobbyId));
      if joined.Failed? {
        Notify(None, false, None);
        return Fail(CouldNotJoinLobby);
      }
      Request(Middleware.GetLobbyRaw(lobbyId));
      if reloaded.Failed? {
        Notify(None, false, None);
        return Fail(CouldNotDownloadJoinedLobby);
      }
      Notify(Some(Game), false, Some(reloaded.result));
      return Pass;
    }

    /** Resume a lobby the user already joined: show the Game page with its state. */
    method MoveToJoinedLobby(provider: bool, login: Middleware.Reply<string>,
                             reply: Middleware.Reply<LobbyHelpers.Lobby>, lobbyId: string)
      returns (r: Outcome<string>)
      requires Valid()
      modifies this`userAddress, this`trace
      ensures Valid()
      ensures !hasCallback ==>
                r == Fail(CallbackNotSet) && trace == old(trace) && userAddress == old(userAddress)
      ensures hasCallback ==>
                var started := old(trace) + Enforced(provider, old(userAddress), login) +
                              [Loading, Requested(Middleware.GetLobbyState(lobbyId))];
                userAddress == AfterEnforce(old(userAddress), login) &&
                if reply.Failed? then
                  r == Fail(CouldNotJoinLobby) && trace == started + [Idle]
                else
                  r == Pass &&
                  trace == started + [Notified(Notification(Some(Game), false, Some(reply.result)))]
      ensures hasCallback ==> Settled(trace)
    {
      var ok := EnforceWalletConnected(provider, login);
      if ok.Fail? {
        return ok;
      }
      Notify(None, true, None);
      Request(Middleware.GetLobbyState(lobbyId));
      if reply.Failed? {
        Notify(None, false, None);
        return Fail(CouldNotJoinLobby);
      }
      Notify(Some(Game), false, Some(reply.result));
      return Pass;
    }

    /** Close a lobby and go back to the main menu. */
    method CloseLobby(provider: bool, login: Middleware.Reply<string>,
                      closed: Middleware.Reply<()>, nftId: int, lobbyId: string)
      returns (r: Outcome<string>)
      requires Valid()
      modifies this`userAddress, this`trace
      ensures Valid()
      ensures !hasCallback ==>
                r == Fail(CallbackNotSet) && trace == old(trace) && userAddress == old(userAddress)
      ensures hasCallback ==>
                var started := old(trace) + Enforced(provider, old(userAddress), login) +
                              [Loading, Requested(Middleware.CloseLobby(nftId, lobbyId))];
                userAddress == AfterEnforce(old(userAddress), login) &&
                if closed.Failed? then
                  r == Fail(CouldNotCloseLobby) && trace == started + [Idle]
                else
                  r == Pass && trace == started + [Notified(Notification(Some(MainMenu), false, None))]
      ensures hasCallback ==> Settled(trace)
    {
      var ok := EnforceWalletConnected(provider, login);
      if ok.Fail? {
        return ok;
      }
      Notify(None, true, None);
      Request(Middleware.CloseLobby(nftId, lobbyId));
      if closed.Failed? {
        Notify(None, false, None);
        return Fail(CouldNotCloseLobby);
      }
      Notify(Some(MainMenu), false, None);
      return Pass;
    }

    method GetOpenLobbies(provider: bool, login: Middleware.Reply<string>,
                          reply: Middleware.Reply<seq<LobbyHelpers.Lobby>>,
                          nftId: int, page: int := 0, limit: int := 100)
      returns (r: Result<seq<LobbyHelpers.Lobby>, string>)
      requires Valid()
      modifies this`userAddress, this`trace
      ensures Valid()
      ensures !hasCallback ==>
                r == Failure(CallbackNotSet) && trace == old(trace) && userAddress == old(userAddress)
      ensures hasCallback ==>
                userAddress == AfterEnforce(old(userAddress), login) &&
                trace == old(trace) + Fetched(provider, old(userAddress), login,
                                              Middleware.GetOpenLobbies(nftId, page, limit))
      ensures hasCallback ==>
                r == if reply.Succeeded? then Success(reply.result) else Failure(CouldNotGetOpenLobbies)
      ensures hasCallback ==> Settled(trace)
    {
      var ok := EnforceWalletConnected(provider, login);
      if ok.Fail? {
        return Failure(ok.error);
      }
      Notify(None, true, None);
      Request(Middleware.GetOpenLobbies(nftId, page, limit));
      Notify(None, false, None);
      if reply.Failed? {
        return Failure(CouldNotGetOpenLobbies);
      }
      return Success(reply.result);
    }

    /** The user's games. Its failure carries the same message as `GetOpenLobbies`. */
    method GetMyGames(provider: bool, login: Middleware.Reply<string>,
                      reply: Middleware.Reply<seq<Middleware.UserLobbyMatch>>,
                      nftId: int, page: int := 0, limit: int := 100)
      returns (r: Result<seq<Middleware.UserLobbyMatch>, string>)
      requires Valid()
      modifies this`userAddress, this`trace
      ensures Valid()
      ensures !hasCallback ==>
                r == Failure(CallbackNotSet) && trace == old(trace) && userAddress == old(userAddress)
      ensures hasCallback ==>
                userAddress == AfterEnforce(old(userAddress), login) &&
                trace == old(trace) + Fetched(provider, old(userAddress), login,
                                              Middleware.GetUserLobbiesMatches(nftId, page, limit))
      ensures hasCallback ==>
                r == if reply.Succeeded? then Success(reply.result) else Failure(CouldNotGetOpenLobbies)
      ensures hasCallback ==> Settled(trace)
    {
      var ok := EnforceWalletConnected(provider, login);
      if ok.Fail? {
        return Failure(ok.error);
      }
      Notify(None, true, None);
      Request(Middleware.GetUserLobbiesMatches(nftId, page, limit));
      Notify(None, false, None);
      if reply.Failed? {
        return Failure(CouldNotGetOpenLobbies);
      }
      return Success(reply.result);
    }

    method GetMatchExecutor(provider: bool, login: Middleware.Reply<string>,
                            reply: Middleware.Reply<Middleware.MatchExecutor>,
                            lobbyId: string, matchWithinLobby: int)
      returns (r: Result<Middleware.MatchExecutor, string>)
      requires Valid()
      modifies this`userAddress, this`trace
      ensures Valid()
      ensures !hasCallback ==>
                r == Failure(CallbackNotSet) && trace == old(trace) && userAddress == old(userAddress)
      ensures hasCallback ==>
                userAddress == AfterEnforce(old(userAddress), login) &&
                trace == old(trace) + Fetched(provider, old(userAddress), login,
                                              Middleware.GetMatchExecutor(lobbyId, matchWithinLobby))
      ensures hasCallback ==>
                r == if reply.Succeeded? then Success(reply.result) else Failure(CouldNotGetMatchExecutor)
      ensures hasCallback ==> Settled(trace)
    {
      var ok := EnforceWalletConnected(provider, login);
      if ok.Fail? {
        return Failure(ok.error);
      }
      Notify(None, true, None);
      Request(Middleware.GetMatchExecutor(lobbyId, matchWithinLobby));
      Notify(None, false, None);
      if reply.Failed? {
        return Failure(CouldNotGetMatchExecutor);
      }
      return Success(reply.result);
    }

    /** The page to start on: the main menu exactly when a wallet provider is present. */
    method InitialState(provider: bool) returns (p: Page)
      ensures p == MainMenu <==> provider
      ensures !provider ==> p == Landing
    {
      return if provider then MainMenu else Landing;
    }
  }
}
