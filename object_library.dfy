/** The two collaborators the engine imports from ObjectLibrary. Their source is not
    part of this model; they are modelled only as far as the engine relies on them:
    a player owns a banked total that can be reset and added to, and a die shows one
    of six faces whose values are 1 to 6, `One` being the face with value 1. */
module ObjectLibrary {

  /** The two fixed player slots. */
  datatype Identifier = One | Two

  /** The six faces of a die. */
  datatype Die = One | Two | Three | Four | Five | Six
  {
    /** The number of pips on the face; only `Die.One` shows a 1. */
    function Value(): (v: nat)
      ensures 1 <= v <= 6
      ensures v == 1 <==> this == Die.One
    {
      match this
      case One => 1
      case Two => 2
      case Three => 3
      case Four => 4
      case Five => 5
      case Six => 6
    }
  }

  /** Every face, in order: the set a random draw chooses from. */
  const AllFaces: seq<Die> := [Die.One, Die.Two, Die.Three, Die.Four, Die.Five, Die.Six]

  /** The face showing a given number of pips: the inverse of `Value`, so that a roll
      of "face f with 1 <= f <= 6" and a roll of a `Die` are the same thing. */
  function FromFace(face: int): (d: Die)
    requires 1 <= face <= 6
    ensures d.Value() == face
    ensures d in AllFaces
  {
    AllFaces[face - 1]
  }

  /** `FromFace` undoes `Value`: no two faces share a value. */
  lemma FromFaceValue(d: Die)
    ensures FromFace(d.Value()) == d
  {
  }

  /** A player: its slot and its banked total, updated in place by the engine. */
  class Player {
    const id: Identifier
    var totalPoints: int

    constructor (id: Identifier)
      ensures this.id == id && totalPoints == 0
    {
      this.id := id;
      totalPoints := 0;
    }

    method ResetTotalPoints()
      modifies this
      ensures totalPoints == 0
    {
      totalPoints := 0;
    }

    method UpdateScore(points: int)
      modifies this
      ensures totalPoints == old(totalPoints) + points
    {
      totalPoints := totalPoints + points;
    }
  }
}
