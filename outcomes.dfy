/** Result types shared by the board and the player actions. */
module Outcomes {

  datatype Option<+T> = None | Some(value: T)

  /** Why an action did not complete. */
  datatype Failure =
    | UnknownLocation        // no node or pathway with that id
    | LocationOccupied       // node or pathway already taken
    | InsufficientResources  // the ledger cannot pay the cost
    | DistanceRule           // a neighbouring node is occupied
    | NoConnectedRoad        // no owned pathway touches the target
    | NoConnectedSettlement  // no owned settlement at either end of the pathway
    | CannotUpgrade          // the node holds a City or has no Settlement
    | NotCurrentTurn         // the turn-active flag is not set
    | SelfTrade              // the trade partner is the initiator
    | TradeRefused           // one side cannot pay its part of the trade
    | UnknownResource        // a trade names no resource kind
    | DeckExhausted          // the shared deck has no card left
    | NoCardGiven            // activation was asked for with no card
    | CardNotHeld            // the card's held count is zero
    | NoOwner                // a property was asked for its owner before it had one

  /**
   * How an action ended. The source has two failure styles: a message printed
   * before returning without effect (Reported) and a thrown exception (Thrown).
   */
  datatype Outcome<+T> = Ok(value: T) | Reported(why: Failure) | Thrown(why: Failure)
}
