/** The button table the keyboard listeners maintain and the simulation step polls. */
module Input {

  /** The five named buttons of the game's button table. */
  datatype Button = Up | Down | Left | Right | Fire

  /** The table itself: a button absent from the map has no entry in the table. */
  type Buttons = map<Button, bool>

  /** Whether a button is pressed; a button without an entry counts as released. */
  function Btn(buttons: Buttons, b: Button): (r: bool)
    ensures b !in buttons ==> !r
    ensures b in buttons ==> (r <==> buttons[b])
  {
    b in buttons && buttons[b]
  }

  /** True when none of the four direction buttons is pressed. */
  predicate NoDirection(buttons: Buttons)
  {
    !Btn(buttons, Up) && !Btn(buttons, Down) && !Btn(buttons, Left) && !Btn(buttons, Right)
  }
}
