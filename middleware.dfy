/** The dice middleware as the session controller sees it: the calls it issues and the uniform
    `{success: true, ...} | {success: false, errorCode}` reply. What the middleware does with a
    call is not modelled; its answers are inputs of the controller's methods. */
module Middleware {

  /** A reply envelope; the controller never looks at `errorCode`. */
  datatype Reply<+T> = Succeeded(result: T) | Failed(errorCode: int)

  /** The match executor handle returned by `getMatchExecutor`; its internals are opaque. */
  type MatchExecutor

  /** One row of `getUserLobbiesMatches`; its contents are opaque. */
  type UserLobbyMatch

  /** A middleware call other than the wallet login, with its arguments. */
  datatype Call =
    | GetNftsForWallet(address: string)
    | GetLobbyState(lobbyId: string)
    | GetLobbyRaw(lobbyId: string)
    | GetLobbySearch(nftId: int, query: string, page: int, count: int)
    | CreateLobby(creatorNftId: int, numOfRounds: int, roundLength: int, timePerPlayer: int,
                  isHidden: bool, isPractice: bool)
    | JoinLobby(nftId: int, lobbyId: string)
    | CloseLobby(nftId: int, lobbyId: string)
    | GetOpenLobbies(nftId: int, page: int, limit: int)
    | GetUserLobbiesMatches(nftId: int, page: int, limit: int)
    | GetMatchExecutor(lobbyId: string, matchWithinLobby: int)
}
