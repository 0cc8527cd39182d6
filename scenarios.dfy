/**
 * Consequences of the step rules over one or several steps: the order in
 * which the direction buttons act on the one shared facing, the Fire
 * press-edge over held and released presses, culling at the stage bounds,
 * and the step with no input.
 */
module Scenarios {
  import opened Input
  import opened Rules

  /**
   * Up and Down together with no horizontal button: Up acts first, so from
   * North the player moves up and Down then only turns it South; from any
   * other facing both presses only turn, leaving the vertical speed as it was.
   */
  lemma UpDownTogether(p: PlayerState, buttons: Buttons)
    requires Btn(buttons, Up) && Btn(buttons, Down)
    requires !Btn(buttons, Left) && !Btn(buttons, Right)
    ensures Resolve(p, buttons).facing == South
    ensures Resolve(p, buttons).dy == if p.facing == North then -p.speed else p.dy
    ensures Resolve(p, buttons).dx == 0.0
  {
  }

  /** Up and Left together from South: both presses only turn, ending East with the entry velocity kept. */
  lemma UpLeftFromSouth(p: PlayerState, buttons: Buttons)
    requires p.facing == South
    requires Btn(buttons, Up) && Btn(buttons, Left)
    requires !Btn(buttons, Down) && !Btn(buttons, Right)
    ensures Resolve(p, buttons).facing == East
    ensures Resolve(p, buttons).dx == p.dx && Resolve(p, buttons).dy == p.dy
  {
  }

  /**
   * Holding only Up from South: the first step turns North without touching
   * the vertical speed; the second moves up at the player's speed.
   */
  lemma TurnThenMove(s: WorldState, buttons: Buttons)
    requires s.player.facing == South
    requires Btn(buttons, Up) && !Btn(buttons, Down) && !Btn(buttons, Left) && !Btn(buttons, Right)
    ensures var s1 := Step(s, buttons);
      s1.player.facing == North && s1.player.dy == s.player.dy && s1.player.dx == 0.0 &&
      var s2 := Step(s1, buttons);
      s2.player.facing == North && s2.player.dy == -s.player.speed &&
      s2.player.y == s1.player.y - s.player.speed && s2.player.x == s1.player.x
  {
  }

  /**
   * Fire held over three steps from a released state appends a bullet on the
   * first step only.
   */
  lemma HoldFire(s0: WorldState, buttons: Buttons)
    requires !s0.player.firing && Btn(buttons, Fire)
    ensures FireEdge(s0.player, buttons)
    ensures var s1 := Step(s0, buttons);
      !FireEdge(s1.player, buttons) &&
      var s2 := Step(s1, buttons);
      !FireEdge(s2.player, buttons)
  {
  }

  /** After a step with Fire released, pressing Fire again is a press-edge. */
  lemma ReleaseThenFire(s: WorldState, released: Buttons, pressed: Buttons)
    requires !Btn(released, Fire) && Btn(pressed, Fire)
    ensures FireEdge(Step(s, released).player, pressed)
  {
  }

  /**
   * Up and Down together only turn a player already moving down: facing South
   * after a Down-only step, the player keeps its downward speed.
   */
  lemma UpDownKeepsDownward(s: WorldState, downOnly: Buttons, upDown: Buttons)
    requires Btn(downOnly, Down) && !Btn(downOnly, Up) && !Btn(downOnly, Left) && !Btn(downOnly, Right)
    requires s.player.facing == South
    requires Btn(upDown, Up) && Btn(upDown, Down) && !Btn(upDown, Left) && !Btn(upDown, Right)
    ensures Step(Step(s, downOnly), upDown).player.dy == s.player.speed
  {
  }

  /** Exactly one bullet joins the list on a press-edge: the step adds one to the old list before culling. */
  lemma FireAppendsOne(s: WorldState, buttons: Buttons)
    requires FireEdge(s.player, buttons)
    requires forall i :: 0 <= i < |s.bullets| ==> !OffStage(s.bullets[i].x, s.bullets[i].y) && !s.bullets[i].dead
    requires !OffStage(Spawn(Resolve(s.player, buttons)).x, Spawn(Resolve(s.player, buttons)).y)
    ensures |Step(s, buttons).bullets| == |s.bullets| + 1
  {
    StepBullets(s, buttons);
    var culled := CullAll(s.bullets);
    assert forall i :: 0 <= i < |culled| ==> !culled[i].dead;
    LiveIdentity(culled);
    var nb := Cull(Spawn(Resolve(s.player, buttons)));
    LiveIdentity([nb]);
  }

  /** A bullet left of the stage is marked dead, still advances once, and does not survive the filter. */
  lemma LeftOfStage(b: Bullet)
    requires b.x < 0.0
    ensures Cull(b).dead && Cull(b).x == b.x + b.dx && Cull(b).y == b.y + b.dy
    ensures Live([Cull(b)]) == []
  {
  }

  /** The stage bounds are inclusive: a live bullet anywhere on the stage, its edges and corners included, is kept. */
  lemma EdgesStayLive(b: Bullet)
    requires !b.dead
    requires 0.0 <= b.x <= StageW && 0.0 <= b.y <= StageH
    ensures Live([Cull(b)]) == [Cull(b)]
  {
  }

  /**
   * With no button pressed and no bullets, a step stops the player where it
   * is and clears the firing flag; further such steps change nothing.
   */
  lemma IdleStep(s: WorldState, buttons: Buttons)
    requires NoDirection(buttons) && !Btn(buttons, Fire)
    requires s.bullets == []
    ensures Step(s, buttons) == WorldState(s.player.(dx := 0.0, dy := 0.0, firing := false), [])
    ensures Step(Step(s, buttons), buttons) == Step(s, buttons)
  {
  }
}
