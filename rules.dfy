/**
 * The rules of one simulation step, as functions on values: how the direction
 * buttons turn or move the player, how a Fire press spawns a bullet, and how
 * bullets are culled, advanced and filtered.  The imperative step in module
 * Game is proved to compute exactly `Step`.
 */
module Rules {
  import opened Input

  /** Stage size in pixels; bullets are culled against it. */
  const StageW: real := 800.0
  const StageH: real := 480.0

  /** Speed of every bullet, in pixels per step. */
  const BulletSpeed: real := 10.0

  datatype Direction = North | South | East | West

  /**
   * The unit heading the game associates with a direction.  North is -y and
   * South +y; East is -x and West +x (the game's own convention, used alike
   * for moving, for the spawn offset and for the bullet velocity).
   */
  function HeadingX(d: Direction): real
  {
    match d
    case East => -1.0
    case West => 1.0
    case _ => 0.0
  }

  function HeadingY(d: Direction): real
  {
    match d
    case North => -1.0
    case South => 1.0
    case _ => 0.0
  }

  predicate Vertical(d: Direction)
  {
    d == North || d == South
  }

  /** The player record; w and h are the player's width and height. */
  datatype PlayerState = PlayerState(
    x: real, y: real, dx: real, dy: real,
    w: real, h: real, speed: real,
    facing: Direction, firing: bool)

  /** A bullet; `dead` marks it for removal at the end of the step. */
  datatype Bullet = Bullet(x: real, y: real, dx: real, dy: real, dead: bool)

  /** The part of the world the step changes: the player and the ordered bullet list. */
  datatype WorldState = WorldState(player: PlayerState, bullets: seq<Bullet>)

  /**
   * One pressed direction button: a player not facing `d` turns to face it and
   * keeps its velocity; a player already facing `d` sets the velocity on d's
   * axis to move along d at its speed.
   */
  function Press(p: PlayerState, d: Direction): (r: PlayerState)
    ensures r.facing == d
    ensures p.facing != d ==> r == p.(facing := d)
    ensures p.facing == d && Vertical(d) ==> r == p.(dy := p.speed * HeadingY(d))
    ensures p.facing == d && !Vertical(d) ==> r == p.(dx := p.speed * HeadingX(d))
  {
    if p.facing != d then p.(facing := d)
    else
      match d
      case North => p.(dy := -p.speed)
      case South => p.(dy := p.speed)
      case East => p.(dx := -p.speed)
      case West => p.(dx := p.speed)
  }

  function PressIf(p: PlayerState, pressed: bool, d: Direction): PlayerState
  {
    if pressed then Press(p, d) else p
  }

  /** The facing a step ends with: that of the last pressed direction button in the order Up, Down, Left, Right. */
  function LastPressed(facing: Direction, buttons: Buttons): Direction
  {
    if Btn(buttons, Right) then West
    else if Btn(buttons, Left) then East
    else if Btn(buttons, Down) then South
    else if Btn(buttons, Up) then North
    else facing
  }

  /** The four direction buttons applied in the fixed order Up, Down, Left, Right to one shared facing. */
  function Steer(p: PlayerState, buttons: Buttons): (r: PlayerState)
    ensures r == p.(facing := r.facing, dx := r.dx, dy := r.dy)
    ensures r.facing == LastPressed(p.facing, buttons)
    ensures !Btn(buttons, Up) && !Btn(buttons, Down) ==> r.dy == p.dy
    ensures !Btn(buttons, Left) && !Btn(buttons, Right) ==> r.dx == p.dx
    // Only the first pressed button in the order can move the player, and only if it already faced that way.
    ensures r.dy ==
      if Btn(buttons, Up) && p.facing == North then -p.speed
      else if Btn(buttons, Down) && !Btn(buttons, Up) && p.facing == South then p.speed
      else p.dy
    ensures r.dx ==
      if Btn(buttons, Left) && !Btn(buttons, Up) && !Btn(buttons, Down) && p.facing == East then -p.speed
      else if Btn(buttons, Right) && !Btn(buttons, Left) && !Btn(buttons, Up) && !Btn(buttons, Down) && p.facing == West then p.speed
      else p.dx
  {
    var p1 := PressIf(p, Btn(buttons, Up), North);
    var p2 := PressIf(p1, Btn(buttons, Down), South);
    var p3 := PressIf(p2, Btn(buttons, Left), East);
    PressIf(p3, Btn(buttons, Right), West)
  }

  function ResetAxes(p: PlayerState, buttons: Buttons): PlayerState
  {
    var p1 := if !Btn(buttons, Up) && !Btn(buttons, Down) then p.(dy := 0.0) else p;
    if !Btn(buttons, Left) && !Btn(buttons, Right) then p1.(dx := 0.0) else p1
  }

  /**
   * Steering followed by the axis reset: the player does not coast on an axis
   * neither of whose buttons is pressed.
   */
  function Resolve(p: PlayerState, buttons: Buttons): (r: PlayerState)
    ensures r == p.(facing := r.facing, dx := r.dx, dy := r.dy)
    ensures r.facing == LastPressed(p.facing, buttons)
    ensures !Btn(buttons, Up) && !Btn(buttons, Down) ==> r.dy == 0.0
    ensures !Btn(buttons, Left) && !Btn(buttons, Right) ==> r.dx == 0.0
    ensures (Btn(buttons, Up) || Btn(buttons, Down)) ==> r.dy == Steer(p, buttons).dy
    ensures (Btn(buttons, Left) || Btn(buttons, Right)) ==> r.dx == Steer(p, buttons).dx
  {
    ResetAxes(Steer(p, buttons), buttons)
  }

  /** The bullet fired by a player: offset by its width (or height) along its facing, moving along it at bullet speed. */
  function Spawn(p: PlayerState): (b: Bullet)
    ensures b.x == p.x + p.w * HeadingX(p.facing) && b.y == p.y + p.h * HeadingY(p.facing)
    ensures b.dx == BulletSpeed * HeadingX(p.facing) && b.dy == BulletSpeed * HeadingY(p.facing)
    ensures !b.dead
  {
    match p.facing
    case North => Bullet(p.x, p.y - p.h, 0.0, -10.0, false)
    case South => Bullet(p.x, p.y + p.h, 0.0, 10.0, false)
    case East => Bullet(p.x - p.w, p.y, -10.0, 0.0, false)
    case West => Bullet(p.x + p.w, p.y, 10.0, 0.0, false)
  }

  /** A Fire press-edge: Fire is pressed and was not already held on entry. */
  predicate FireEdge(p: PlayerState, buttons: Buttons)
  {
    Btn(buttons, Fire) && !p.firing
  }

  /**
   * The firing rule: on a press-edge exactly one bullet is appended; the
   * firing flag ends up equal to whether Fire is pressed.
   */
  function FireStep(s: WorldState, buttons: Buttons): (r: WorldState)
    ensures r.player == s.player.(firing := Btn(buttons, Fire))
    ensures FireEdge(s.player, buttons) ==> r.bullets == s.bullets + [Spawn(s.player)]
    ensures !FireEdge(s.player, buttons) ==> r.bullets == s.bullets
  {
    var edge := FireEdge(s.player, buttons);
    var p := if edge then s.player.(firing := true) else s.player;
    var bs := if edge then s.bullets + [Spawn(p)] else s.bullets;
    var p' := if !Btn(buttons, Fire) then p.(firing := false) else p;
    WorldState(p', bs)
  }

  /** Outside the stage; the bounds themselves belong to the stage. */
  predicate OffStage(x: real, y: real)
  {
    x < 0.0 || x > StageW || y < 0.0 || y > StageH
  }

  /** One bullet's update: marked dead if off stage before it moves, then advanced by its velocity whether dead or not. */
  function Cull(b: Bullet): (r: Bullet)
    ensures r.dead <==> b.dead || OffStage(b.x, b.y)
    ensures r.x == b.x + b.dx && r.y == b.y + b.dy
    ensures r.dx == b.dx && r.dy == b.dy
  {
    var d1 := if b.x < 0.0 || b.x > StageW then true else b.dead;
    var d2 := if b.y < 0.0 || b.y > StageH then true else d1;
    Bullet(b.x + b.dx, b.y + b.dy, b.dx, b.dy, d2)
  }

  /** Every bullet of the list updated by `Cull`, in order. */
  function CullAll(bs: seq<Bullet>): (r: seq<Bullet>)
    ensures |r| == |bs|
    ensures forall i :: 0 <= i < |bs| ==> r[i] == Cull(bs[i])
  {
    if bs == [] then [] else [Cull(bs[0])] + CullAll(bs[1..])
  }

  /** The bullets not marked dead, in their original order. */
  function Live(bs: seq<Bullet>): (r: seq<Bullet>)
    ensures |r| <= |bs|
    ensures forall i :: 0 <= i < |r| ==> !r[i].dead && r[i] in bs
  {
    if bs == [] then []
    else (if bs[0].dead then [] else [bs[0]]) + Live(bs[1..])
  }

  /**
   * One simulation step: steer and reset the axes, fire, update every bullet
   * (the new one included), advance the player once by its final velocity,
   * and keep the live bullets.
   */
  function Step(s: WorldState, buttons: Buttons): (r: WorldState)
    ensures r.player.w == s.player.w && r.player.h == s.player.h && r.player.speed == s.player.speed
    ensures r.player.firing == Btn(buttons, Fire)
    ensures |r.bullets| <= |s.bullets| + 1
    ensures FireEdge(s.player, buttons) || |r.bullets| <= |s.bullets|
    ensures forall i :: 0 <= i < |r.bullets| ==> !r.bullets[i].dead
  {
    var f := FireStep(WorldState(Resolve(s.player, buttons), s.bullets), buttons);
    var q := f.player;
    WorldState(q.(x := q.x + q.dx, y := q.y + q.dy), Live(CullAll(f.bullets)))
  }

  /** Filtering distributes over concatenation, so it keeps the relative order of what it keeps. */
  lemma {:induction false} LiveConcat(a: seq<Bullet>, b: seq<Bullet>)
    ensures Live(a + b) == Live(a) + Live(b)
  {
    if a == [] {
      assert a + b == b;
    } else {
      assert (a + b)[1..] == a[1..] + b;
      LiveConcat(a[1..], b);
    }
  }

  /** A bullet survives the filter exactly when it is in the list and not marked dead. */
  lemma {:induction false} LiveMember(bs: seq<Bullet>, b: Bullet)
    ensures b in Live(bs) <==> b in bs && !b.dead
  {
    if bs != [] {
      LiveMember(bs[1..], b);
      assert bs == [bs[0]] + bs[1..];
    }
  }

  /** A list with no dead bullet passes the filter unchanged. */
  lemma {:induction false} LiveIdentity(bs: seq<Bullet>)
    requires forall i :: 0 <= i < |bs| ==> !bs[i].dead
    ensures Live(bs) == bs
  {
    if bs != [] {
      LiveIdentity(bs[1..]);
      assert bs == [bs[0]] + bs[1..];
    }
  }

  /** Updating the bullets one by one distributes over concatenation. */
  lemma CullAllConcat(a: seq<Bullet>, b: seq<Bullet>)
    ensures CullAll(a + b) == CullAll(a) + CullAll(b)
  {
    var whole, parts := CullAll(a + b), CullAll(a) + CullAll(b);
    forall i | 0 <= i < |whole|
      ensures whole[i] == parts[i]
    {
      if i < |a| {
        assert (a + b)[i] == a[i];
      } else {
        assert (a + b)[i] == b[i - |a|];
      }
    }
  }

  /**
   * The bullet list after a step: the surviving old bullets in their order,
   * then the bullet spawned this step (with the final facing) if it survives.
   */
  lemma StepBullets(s: WorldState, buttons: Buttons)
    ensures Step(s, buttons).bullets ==
      Live(CullAll(s.bullets)) +
      (if FireEdge(s.player, buttons) then Live([Cull(Spawn(Resolve(s.player, buttons)))]) else [])
  {
    var p := Resolve(s.player, buttons);
    if FireEdge(s.player, buttons) {
      assert FireEdge(p, buttons);
      CullAllConcat(s.bullets, [Spawn(p)]);
      LiveConcat(CullAll(s.bullets), CullAll([Spawn(p)]));
      assert CullAll([Spawn(p)]) == [Cull(Spawn(p))];
    } else {
      assert Live(CullAll(s.bullets)) + [] == Live(CullAll(s.bullets));
    }
  }

  /** The player after a step: resolved velocity and facing, advanced once by that velocity, firing following the button. */
  lemma StepPlayer(s: WorldState, buttons: Buttons)
    ensures var q := Resolve(s.player, buttons);
      Step(s, buttons).player == q.(x := q.x + q.dx, y := q.y + q.dy, firing := Btn(buttons, Fire))
  {
  }
}
