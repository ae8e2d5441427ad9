/** The script's classification helpers: pure lookups over hard-coded tables. */
module Policy {

  import opened Wrappers
  import opened Gateway

  /** The animals `isAggr` names. */
  const AggressiveAnimals: set<string> := {"badger", "lynx", "bat", "bear", "boar"}

  /** The `mws` table inside `getMentalWeight`. */
  const MentalWeights: map<string, int> := map["dandelion" := 1]

  /** `isAggr(animal)`: true for exactly the five listed animals. */
  function IsAggr(animal: string): (r: bool)
    ensures r <==> animal in AggressiveAnimals
  {
    animal == "badger" || animal == "lynx" || animal == "bat" || animal == "bear" || animal == "boar"
  }

  /**
   * `getMentalWeight(curioName)`: the weight of a known curio, and
   * `undefined` (None) for every other curio name.
   */
  function GetMentalWeight(curioName: string): (r: Option<int>)
    ensures r.Some? <==> curioName == "dandelion"
    ensures r.Some? ==> r.value == 1
  {
    if curioName in MentalWeights then Some(MentalWeights[curioName]) else None
  }

  /**
   * The test `freeAttention >= mw` with `freeAttention = max - used`.
   * In JavaScript a comparison against `undefined` is false, so an unknown
   * curio never has room.
   */
  function HasRoomFor(info: AttentionInfo, mw: Option<int>): (r: bool)
    ensures r ==> mw.Some?
    ensures mw.Some? ==> (r <==> info.used + mw.value <= info.max)
  {
    match mw
    case None => false
    case Some(weight) => info.max - info.used >= weight
  }
}
