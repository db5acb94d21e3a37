/** The lobby helpers of the dice middleware: three predicates over a lobby envelope and the
    round-timing calculator. */
module LobbyHelpers {
  import opened Wrappers

  datatype Player = Player(nftId: int)

  /** A property of a JavaScript object that may be absent, present but `null`, or set. */
  datatype Field<+T> = Missing | Null | Present(value: T)

  /** The inner lobby of an envelope: its creator's NFT id, its players and its
      `lobby_state` string ("open", "active", "finished", "closed", ...). */
  datatype Lobby = Lobby(creator: Field<int>, players: seq<Player>, state: string)

  /** The wrapper the middleware returns around a lobby: it may lack the `lobby` property. */
  datatype Envelope = NotFound | Found(lobby: Lobby)

  /** `players.find(player => player.nftId === nftId)`: the first player holding `nftId`. */
  function FindPlayer(players: seq<Player>, nftId: int): (r: Option<Player>)
    ensures r.Some? ==> r.value.nftId == nftId
    ensures r.Some? ==> exists i :: 0 <= i < |players| && players[i] == r.value &&
                          forall j :: 0 <= j < i ==> players[j].nftId != nftId
    ensures r.None? <==> forall i :: 0 <= i < |players| ==> players[i].nftId != nftId
  {
    if |players| == 0 then None
    else if players[0].nftId == nftId then Some(players[0])
    else
      var r := FindPlayer(players[1..], nftId);
      assert forall i :: 1 <= i < |players| ==> players[i] == players[1..][i - 1];
      r
  }

  /** Did the holder of `nftId` join this lobby? */
  function UserJoinedLobby(nftId: int, envelope: Envelope): (r: bool)
    ensures envelope.NotFound? ==> !r
    ensures envelope.Found? ==>
              (r <==> exists i :: 0 <= i < |envelope.lobby.players| &&
                                  envelope.lobby.players[i].nftId == nftId)
  {
    match envelope
    case NotFound => false
    case Found(lobby) => FindPlayer(lobby.players, nftId).Some?
  }

  /** Did the holder of `nftId` create this lobby? An absent or `null` creator answers no. */
  function UserCreatedLobby(nftId: int, envelope: Envelope): (r: bool)
    ensures r <==> envelope.Found? && envelope.lobby.creator.Present? &&
                   envelope.lobby.creator.value == nftId
  {
    match envelope
    case NotFound => false
    case Found(lobby) =>
      match lobby.creator
      case Missing => false
      case Null => false
      case Present(creator) => creator == nftId
  }

  /** Is the lobby's state the string "closed"? */
  function LobbyWasClosed(envelope: Envelope): (r: bool)
    ensures envelope.NotFound? ==> !r
    ensures envelope.Found? ==> (r <==> envelope.lobby.state == "closed")
  {
    match envelope
    case NotFound => false
    case Found(lobby) => lobby.state == "closed"
  }

  /** The diagnostics `calculateRoundEnd` reports through its endpoint error function. */
  datatype ErrorCode = CalculatedRoundEndInPast | InternalInvalidDeployment

  /** Remaining time of a round, in blocks and in seconds. */
  datatype RoundEnd = RoundEnd(blocks: int, seconds: int)

  /** What `calculateRoundEnd` returns, with the diagnostics it emitted, in order. */
  datatype Timing = Timing(end: RoundEnd, diagnostics: seq<ErrorCode>)

  /** Remaining blocks and seconds until `roundStart + roundLength`, seen at block `current`.
      `blockTime` is the configured seconds per block; `None` stands for a deployment whose
      block time is unusable, which takes the `catch` path. */
  function CalculateRoundEnd(roundStart: int, roundLength: int, current: int,
                             blockTime: Option<nat>): (t: Timing)
    ensures t.end.blocks >= 0 && t.end.seconds >= 0
    ensures blockTime.Some? && roundStart + roundLength >= current ==>
              t.end.blocks == roundStart + roundLength - current &&
              t.end.seconds == t.end.blocks * blockTime.value
    ensures roundStart + roundLength < current || blockTime.None? ==> t.end == RoundEnd(0, 0)
    ensures CalculatedRoundEndInPast in t.diagnostics <==> roundStart + roundLength < current
    ensures InternalInvalidDeployment in t.diagnostics <==> blockTime.None?
    ensures |t.diagnostics| > 0 && roundStart + roundLength < current ==>
              t.diagnostics[0] == CalculatedRoundEndInPast
    ensures |t.diagnostics| == (if roundStart + roundLength < current then 1 else 0) +
                               (if blockTime.None? then 1 else 0)
  {
    var inPast := roundStart + roundLength < current;
    var roundEnd := if inPast then current else roundStart + roundLength;
    var past := if inPast then [CalculatedRoundEndInPast] else [];
    match blockTime
    case Some(secsPerBlock) =>
      var blocksToEnd := roundEnd - current;
      Timing(RoundEnd(blocksToEnd, blocksToEnd * secsPerBlock), past)
    case None =>
      Timing(RoundEnd(0, 0), past + [InternalInvalidDeployment])
  }

  /** The countdown goes down by one block per block until it reaches zero. */
  lemma RoundEndCountsDown(roundStart: int, roundLength: int, current: int,
                            blockTime: nat)
    ensures var now := CalculateRoundEnd(roundStart, roundLength, current, Some(blockTime));
            var next := CalculateRoundEnd(roundStart, roundLength, current + 1, Some(blockTime));
            next.end.blocks == if now.end.blocks == 0 then 0 else now.end.blocks - 1
  {
  }
}
