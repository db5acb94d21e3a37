# paima-dice lobby session, modelled in Dafny

This project models two parts of the paima-dice game client:

- **The lobby helpers of the middleware** (`lobby_helpers.dfy`, module `LobbyHelpers`). These are
  the predicates "did this NFT join this lobby", "did this NFT create it" and "was it closed",
  evaluated over a lobby envelope that may lack its inner lobby. The module also holds the
  round-timing calculator. It turns a round's start block, its length and the current block
  into the remaining blocks and seconds. When the round end is already past, it clamps to zero
  and reports the diagnostic `CALCULATED_ROUND_END_IN_PAST`.
- **The frontend's `MainController`** (`main_controller.dfy`, module `SessionController`). This is
  a class holding the stored wallet address. Each lobby operation (`loadLobbyState` through
  `getMatchExecutor`) checks that the UI callback is set and makes sure a wallet is connected.
  It then reports "loading" to the callback, calls the middleware, and either reports a terminal
  `(page, isLoading, payload)` triple or throws. `connectWallet`, `silentConnectWallet`,
  `fetchNfts` and `initialState` skip the callback check and the wallet check.

`middleware.dfy` (module `Middleware`) lists the middleware calls the controller issues and the
uniform `{success: true, ...} | {success: false, errorCode}` reply. `wrappers.dfy` holds
`Option`, `Result` and `Outcome`.

How the model is built:

- The middleware is not modelled. Every reply it would give is a parameter of the controller
  method that awaits it. `createLobby` awaits a nested `loadLobbyRaw`, so it also takes that
  call's provider probe, login reply and lobby reply. The provider is read again there.
- The wallet provider probe (`window.ethereum !== undefined`) is a boolean parameter `provider`.
- What the controller does that can be seen from outside is recorded in a ghost `trace`. A trace
  event is a callback invocation (`Notified`), a wallet login with the address it returned
  (`WalletLogin`), or another middleware call with its arguments (`Requested`).
- Every method states the exact events it appends, in order, for every combination of replies.
  It also states the new `userAddress` and the value it returns or the error it throws.
  Thrown errors are `Failure`/`Fail` values carrying the source's message.
- The class invariant `Valid()` says that the stored address is the one returned by the latest
  successful wallet login (`LastAddress`). So the address is set only by a successful login.
- `Settled(trace)` says the latest notification does not have `isLoading` true. Every lobby
  operation ensures it whenever the callback is set, on success and on every failure path. It
  is not a class invariant, because `createLobby` calls `loadLobbyRaw` while its own loading
  notification is still the latest one.
- JavaScript's `!this.userAddress` is true for `null` and for the empty string. `Connected`
  models both cases.

Behaviours of the code worth noting:

- With no wallet provider, `enforceWalletConnected` notifies `(Landing, false, null)` and then
  carries on. It does not abort.
- Error messages are not distinct per operation. `getMyGames` throws "Could not get open
  lobbies", the same message as `getOpenLobbies`. `moveToJoinedLobby` throws "Could not join
  lobby", the same message as `joinLobby`.
- `connectWallet` does not check the callback. With no callback, its first `this.callback(...)`
  throws a `TypeError` before the login. The model returns `Fail(NotAFunction)` and changes
  nothing.
- A failure of the `loadLobbyRaw` nested in `createLobby` surfaces as "Could not get lobby
  state". It is not a create error.

## Model

| member | source | states |
|---|---|---|
| `LobbyHelpers.FindPlayer` | paima-dice/middleware/src/helpers/utility-functions.ts:11-12 | like `Array.find`, returns the first player holding the NFT id; `None` exactly when no player holds it |
| `LobbyHelpers.UserJoinedLobby` | paima-dice/middleware/src/helpers/utility-functions.ts:6-13 | false for an envelope without a lobby; otherwise true iff some player's `nftId` equals the argument |
| `LobbyHelpers.UserCreatedLobby` | paima-dice/middleware/src/helpers/utility-functions.ts:15-28 | true iff the envelope has a lobby whose creator is present, not null, and equal to the NFT id; false for a missing lobby, a missing creator or a null creator |
| `LobbyHelpers.LobbyWasClosed` | paima-dice/middleware/src/helpers/utility-functions.ts:30-37 | false without an inner lobby; otherwise true iff `lobby_state` is "closed" |
| `LobbyHelpers.CalculateRoundEnd` | paima-dice/middleware/src/helpers/utility-functions.ts:39-67 | blocks and seconds are never negative; a round end not in the past gives `blocks = end - current` and `seconds = blocks * BLOCK_TIME`; a round end in the past gives `{0, 0}` and reports CALCULATED_ROUND_END_IN_PAST first; each diagnostic is reported exactly once, and only when its condition holds; an unusable block time takes the catch path, giving `{0, 0}` with INTERNAL_INVALID_DEPLOYMENT |
| `LobbyHelpers.RoundEndCountsDown` | paima-dice/middleware/src/helpers/utility-functions.ts:46-55 | one block later the remaining blocks drop by one, or stay at zero |
| `SessionController.Route` | paima-dice/frontend/src/MainController.ts:12-19 | every page's route is a non-empty path starting with '/' |
| `SessionController.RoutesDistinct` | paima-dice/frontend/src/MainController.ts:12-19 | distinct pages have distinct routes |
| `SessionController.LastAddressIsLatestLogin` | paima-dice/frontend/src/MainController.ts:54-77 | the address the class invariant ties to `userAddress` was returned by a successful login that no later successful login follows; it is null iff no login succeeded |
| `SessionController.LastAddressAppend` | paima-dice/frontend/src/MainController.ts:60-62 | appending events keeps the stored address unless the appended events contain a successful login, whose address then wins |
| `SessionController.LastNotificationIsLatest` | paima-dice/frontend/src/MainController.ts:26-30 | the latest notification is a callback invocation of the trace that no later invocation follows |
| `SessionController.LastNotificationAppend` | paima-dice/frontend/src/MainController.ts:26-30 | after appending events, the latest notification is the last appended one, or the earlier one if none was appended |
| `SessionController.MainController.constructor` | paima-dice/frontend/src/MainController.ts:24-30 | a new controller has no address, no callback and an empty trace |
| `SessionController.MainController.RegisterCallback` | paima-dice/frontend/src/MainController.ts:26-30 | after the UI assigns the callback, it is set |
| `SessionController.MainController.Notify` | paima-dice/frontend/src/MainController.ts:26-30 | invoking the callback appends exactly that notification, which becomes the latest |
| `SessionController.MainController.Request` | paima-dice/frontend/src/MainController.ts:90 | issuing a middleware call appends it and leaves the latest notification unchanged |
| `SessionController.MainController.CheckCallback` | paima-dice/frontend/src/MainController.ts:32-36 | fails with "Callback is not set" iff no callback is set |
| `SessionController.MainController.EnforceWalletConnected` | paima-dice/frontend/src/MainController.ts:38-46 | with no callback, fails and leaves address and trace unchanged; otherwise it never fails, notifies `(Landing, false, null)` iff there is no provider, and then does a silent login iff the address is null or empty |
| `SessionController.MainController.SilentConnectWallet` | paima-dice/frontend/src/MainController.ts:54-63 | does one wallet login and no notification; stores the returned address on success and keeps the old one on failure |
| `SessionController.MainController.ConnectWallet` | paima-dice/frontend/src/MainController.ts:65-78 | notifies `(Landing, true, null)` and logs in; on success stores the address and notifies `(MainMenu, false, null)`; on failure keeps the address and notifies `(Landing, false, null)`; never leaves `isLoading` true |
| `SessionController.MainController.FetchNfts` | paima-dice/frontend/src/MainController.ts:80-85 | one call and no notification; the tokens on success, undefined (`None`) on failure |
| `SessionController.MainController.LoadLobbyState` | paima-dice/frontend/src/MainController.ts:87-97 | no callback: throws "Callback is not set" with no call made; otherwise wallet check, then `(null, true, null)`, the call, and `(null, false, null)` whatever the reply; then the lobby, or a throw on failure |
| `SessionController.MainController.LoadLobbyRaw` | paima-dice/frontend/src/MainController.ts:99-109 | same shape as `LoadLobbyState` with `getLobbyRaw`; its latest notification is `(null, false, null)` |
| `SessionController.MainController.SearchLobby` | paima-dice/frontend/src/MainController.ts:111-125 | same shape; the search call has page size 1; returns the lobbies, or throws "Could not search lobby" |
| `SessionController.MainController.CreateLobby` | paima-dice/frontend/src/MainController.ts:127-160 | a failed creation notifies `(null, false, null)` and throws with no Game notification; otherwise it runs `loadLobbyRaw` on the returned lobby id, and on success ends with `(Game, false, lobby)` carrying that re-read lobby; the nested read probes the provider and logs in again on its own inputs; never leaves `isLoading` true |
| `SessionController.MainController.JoinLobby` | paima-dice/frontend/src/MainController.ts:162-177 | a failed join and a failed read-back each notify `(null, false, null)` and throw a distinct message; success ends with `(Game, false, read-back lobby)` |
| `SessionController.MainController.MoveToJoinedLobby` | paima-dice/frontend/src/MainController.ts:179-189 | success ends with `(Game, false, lobby state)`; failure notifies `(null, false, null)` and then throws |
| `SessionController.MainController.CloseLobby` | paima-dice/frontend/src/MainController.ts:191-201 | success ends with `(MainMenu, false, null)`; failure notifies `(null, false, null)` and then throws |
| `SessionController.MainController.GetOpenLobbies` | paima-dice/frontend/src/MainController.ts:203-217 | read-operation shape with page 0 and limit 100 by default; lobbies, or a throw |
| `SessionController.MainController.GetMyGames` | paima-dice/frontend/src/MainController.ts:219-237 | read-operation shape with page 0 and limit 100 by default; the games, or a throw of "Could not get open lobbies" |
| `SessionController.MainController.GetMatchExecutor` | paima-dice/frontend/src/MainController.ts:239-255 | read-operation shape; the opaque executor, or a throw of "Could not get match executor" |
| `SessionController.MainController.InitialState` | paima-dice/frontend/src/MainController.ts:257-260 | returns MainMenu iff a wallet provider is present, Landing otherwise |

## Left out

- SessionController.MainController.InitialState: the un-awaited `silentConnectWallet()` it starts is not modelled. Its effect on the address lands at an unknown later point.
- Concurrency: interleaved invocations on one controller are not modelled. Every operation runs to completion before the next one starts. Rejected promises from the SDK are not modelled either.
- The middleware itself (wallet login, lobby reads and writes, NFT listing, match executors): its replies are method parameters. `errorCode` is carried but never inspected, as in the code.
- Payload contents: `LobbyState` and `IGetLobbyByIdResult` are both the `Lobby` snapshot the lobby helpers read. `MatchExecutor` and the user-games rows are opaque types.
- The callback holding a value that is neither null nor a function is not modelled. The callback is either set or unset.
- `console.log` calls and the logging inside `buildEndpointErrorFxn` are not modelled. Diagnostics of `calculateRoundEnd` are returned as a list of codes.
- Floating-point `BLOCK_TIME`: the block time is a natural number. The unreachable `catch` of `calculateRoundEnd` is the input `None` ("block time unusable").
- An envelope whose `lobby` property is present but `null` is not modelled. `userJoinedLobby` and `userCreatedLobby` would throw on it. A found lobby always has a `players` sequence.
- `trading-cards/frontend/src/pages/CreateLobby.tsx` is a React page with no logic of its own. It is not part of this model.
