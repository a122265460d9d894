/** The turn state machine of the game manager. */
module Turns {

  /** Declared in this order; the opponent's loop compares states with `<`. */
  datatype GameState = Init | TurnPlayer | TurnCPU | GameEnded

  /** The enum's underlying value. */
  function Ordinal(s: GameState): nat {
    match s
    case Init => 0
    case TurnPlayer => 1
    case TurnCPU => 2
    case GameEnded => 3
  }

  /** `s < t` on the enum. */
  predicate Before(s: GameState, t: GameState) {
    Ordinal(s) < Ordinal(t)
  }

  /** AdvanceTurn's conditional: the player's turn passes to the CPU, and any
      other state, Init and GameEnded included, becomes the player's turn. */
  function NextTurn(s: GameState): (r: GameState)
    ensures r == TurnCPU <==> s == TurnPlayer
    ensures r == TurnPlayer <==> s != TurnPlayer
  {
    if s == TurnPlayer then TurnCPU else TurnPlayer
  }

  /** Two turn changes from either turn state come back to it. */
  lemma AdvanceTwice(s: GameState)
    requires s == TurnPlayer || s == TurnCPU
    ensures NextTurn(NextTurn(s)) == s
  {
  }

  /** Two turn changes from any state other than the player's turn land on
      the CPU's turn: from Init and GameEnded the first change already opens
      the player's turn. */
  lemma AdvanceSettles(s: GameState)
    ensures NextTurn(NextTurn(s)) == (if s == TurnPlayer then TurnPlayer else TurnCPU)
  {
  }

  /** The outer loop test `state < GameEnded` holds in every state but the
      last. */
  lemma OnlyEndStops(s: GameState)
    ensures Before(s, GameEnded) <==> s != GameEnded
  {
  }

  /** The wait loop `state < TurnCPU` ends exactly in the CPU turn or after
      the game has ended. */
  lemma WaitEnds(s: GameState)
    ensures !Before(s, TurnCPU) <==> s == TurnCPU || s == GameEnded
  {
  }

  /** The enum order is a strict total order. */
  lemma BeforeTotal(s: GameState, t: GameState)
    ensures !Before(s, s)
    ensures s != t ==> Before(s, t) != Before(t, s)
  {
  }

  class GameManager {
    var gameState: GameState

    /** The field initialiser: the game starts in Init. */
    constructor ()
      ensures gameState == Init
    {
      gameState := Init;
    }

    /** Opens the player's turn from any state. */
    method StartGame()
      modifies this
      ensures gameState == TurnPlayer
    {
      gameState := TurnPlayer;
    }

    /** Hands the turn over. */
    method AdvanceTurn()
      modifies this
      ensures gameState == NextTurn(old(gameState))
      ensures old(gameState) == TurnPlayer ==> gameState == TurnCPU
      ensures old(gameState) != TurnPlayer ==> gameState == TurnPlayer
    {
      gameState := if gameState == TurnPlayer then TurnCPU else TurnPlayer;
    }

    /** Ends the game from any state. */
    method EndGame()
      modifies this
      ensures gameState == GameEnded
    {
      gameState := GameEnded;
    }
  }
}
