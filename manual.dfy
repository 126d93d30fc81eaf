/** ManualImpl (src/service/operate/direction/impl/manualImpl.ts): the
    direction chosen from the state of the four cursor keys. */
module Manual {
  import opened Grid
  import opened World

  /** Which cursor keys are held down. */
  datatype Keys = Keys(right: bool, left: bool, down: bool, up: bool)

  predicate AnyDown(k: Keys)
  {
    k.right || k.left || k.down || k.up
  }

  /** getManualDirection: RIGHT before LEFT before DOWN before UP, NONE
      when no key is held. */
  function GetManualDirection(k: Keys): (d: Direction)
    ensures k.right ==> d == RIGHT
    ensures !k.right && k.left ==> d == LEFT
    ensures !k.right && !k.left && k.down ==> d == DOWN
    ensures d == UP <==> (k.up && !k.right && !k.left && !k.down)
    ensures d == NONE <==> !AnyDown(k)
  {
    if k.right then RIGHT
    else if k.left then LEFT
    else if k.down then DOWN
    else if k.up then UP
    else NONE
  }

  /** The direction chosen is always one whose key is held down. */
  lemma ChosenKeyIsDown(k: Keys)
    ensures GetManualDirection(k) == RIGHT ==> k.right
    ensures GetManualDirection(k) == LEFT ==> k.left
    ensures GetManualDirection(k) == DOWN ==> k.down
    ensures GetManualDirection(k) == UP ==> k.up
  {
  }

  /** getDirection: the strategy entry point; it ignores the character and
      the map and answers from the keys alone. */
  function GetDirection(k: Keys, character: CharView, m: MapView): (d: Direction)
    ensures d == GetManualDirection(k)
  {
    GetManualDirection(k)
  }

  lemma DirectionIgnoresState(k: Keys, c1: CharView, m1: MapView, c2: CharView, m2: MapView)
    ensures GetDirection(k, c1, m1) == GetDirection(k, c2, m2)
  {
  }
}
