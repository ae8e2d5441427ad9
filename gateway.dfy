/**
 * The game object `g` that the client hands to `onGameLoaded`, seen from the
 * script: an external collaborator whose calls are only recorded, in order,
 * in a trace. Its answers (the player's coordinates, the attention info) are
 * supplied from outside whenever the script asks for them.
 */
module Gateway {

  /** What `getPlayerCoords` returns. */
  datatype Coords = Coords(x: int, y: int)

  /** What `getCharAttentionInfo` returns. */
  datatype AttentionInfo = AttentionInfo(max: int, used: int)

  /** One observable step of the script: a call on `g`, or the blocking `sleep`. */
  datatype Action =
    | GetPlayerCoords
    | GoTo(x: int, y: int)
    | PickItem(id: int)
    | TravelToHearthFire
    | GetCharAttentionInfo
    | StudyCurio(name: string)
    | Sleep(millis: nat)
}
