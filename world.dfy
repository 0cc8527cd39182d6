/**
 * The mutable world: one player object whose fields the step updates in
 * place, the ordered bullet list, and the tile map.
 */
module Game {
  import opened Input
  import opened TileMaps
  import opened Rules

  /** The player object; every field is updated in place by the step. */
  class Player {
    var x: real
    var y: real
    var dx: real
    var dy: real
    var w: real
    var h: real
    var speed: real
    var facing: Direction
    var firing: bool

    constructor (x: real, y: real, dx: real, dy: real, w: real, h: real,
                 speed: real, facing: Direction, firing: bool)
      ensures State() == PlayerState(x, y, dx, dy, w, h, speed, facing, firing)
    {
      this.x, this.y, this.dx, this.dy := x, y, dx, dy;
      this.w, this.h, this.speed := w, h, speed;
      this.facing, this.firing := facing, firing;
    }

    /**
     * One pressed direction button: turn toward `d` if not facing it,
     * otherwise move along `d` at the player's speed.
     */
    method TurnOrMove(d: Direction)
      modifies this
      ensures State() == Press(old(State()), d)
    {
      if facing != d {
        facing := d;
      } else {
        match d
        case North => dy := -speed;
        case South => dy := speed;
        case East => dx := -speed;
        case West => dx := speed;
      }
    }

    /**
     * The direction buttons in the order Up, Down, Left, Right, then the
     * reset of every axis neither of whose buttons is pressed.
     */
    method ApplyDirections(buttons: Buttons)
      modifies this
      ensures State() == Resolve(old(State()), buttons)
    {
      ghost var q0 := State();
      if Btn(buttons, Up) {
        TurnOrMove(North);
      }
      ghost var q1 := State();
      assert q1 == PressIf(q0, Btn(buttons, Up), North);
      if Btn(buttons, Down) {
        TurnOrMove(South);
      }
      ghost var q2 := State();
      assert q2 == PressIf(q1, Btn(buttons, Down), South);
      if Btn(buttons, Left) {
        TurnOrMove(East);
      }
      ghost var q3 := State();
      assert q3 == PressIf(q2, Btn(buttons, Left), East);
      if Btn(buttons, Right) {
        TurnOrMove(West);
      }
      assert State() == Steer(q0, buttons);
      if !Btn(buttons, Up) && !Btn(buttons, Down) {
        dy := 0.0;
      }
      if !Btn(buttons, Left) && !Btn(buttons, Right) {
        dx := 0.0;
      }
    }

    /**
     * The Fire button: on a press-edge the player starts firing and a bullet
     * leaves it along its facing, appended to `bs`; releasing Fire stops firing.
     */
    method HandleFire(buttons: Buttons, bs: seq<Bullet>) returns (r: seq<Bullet>)
      modifies this
      ensures State() == FireStep(WorldState(old(State()), bs), buttons).player
      ensures r == FireStep(WorldState(old(State()), bs), buttons).bullets
    {
      r := bs;
      if Btn(buttons, Fire) && !firing {
        firing := true;
        match facing
        case North => r := r + [Bullet(x, y - h, 0.0, -10.0, false)];
        case South => r := r + [Bullet(x, y + h, 0.0, 10.0, false)];
        case East => r := r + [Bullet(x - w, y, -10.0, 0.0, false)];
        case West => r := r + [Bullet(x + w, y, 10.0, 0.0, false)];
      }
      if !Btn(buttons, Fire) {
        firing := false;
      }
    }

    /** The player's fields as a value. */
    function State(): PlayerState
      reads this
    {
      PlayerState(x, y, dx, dy, w, h, speed, facing, firing)
    }
  }

  /**
   * The bullet loop of the step: each bullet is marked dead if it is off
   * stage, then advanced by its velocity, dead or not.
   */
  method AdvanceBullets(bs: seq<Bullet>) returns (r: seq<Bullet>)
    ensures r == CullAll(bs)
  {
    r := bs;
    var i := 0;
    while i < |r|
      invariant 0 <= i <= |r| == |bs|
      invariant forall k :: 0 <= k < i ==> r[k] == Cull(bs[k])
      invariant forall k :: i <= k < |r| ==> r[k] == bs[k]
    {
      var b := r[i];
      if b.x < 0.0 || b.x > StageW {
        b := b.(dead := true);
      }
      if b.y < 0.0 || b.y > StageH {
        b := b.(dead := true);
      }
      b := b.(x := b.x + b.dx, y := b.y + b.dy);
      r := r[i := b];
      i := i + 1;
    }
  }

  class World {
    const player: Player
    var bullets: seq<Bullet>
    const tileMap: TileMap

    /** No bullet in the list is marked dead: true after `Init` and after every `Update`, whatever the list held before. */
    predicate Valid()
      reads this
    {
      forall i :: 0 <= i < |bullets| ==> !bullets[i].dead
    }

    /** The part of the world the step changes, as a value. */
    function State(): WorldState
      reads this, player
    {
      WorldState(player.State(), bullets)
    }

    /**
     * The initial world: the player at (20, 20) at rest, width and height 10,
     * speed 1.8, facing North and not firing; no bullets; a 50 by 30 map of Floor.
     */
    constructor Init()
      ensures State() == WorldState(PlayerState(20.0, 20.0, 0.0, 0.0, 10.0, 10.0, 1.8, North, false), [])
      ensures Valid()
      ensures tileMap.w == 50 && tileMap.h == 30 && tileMap.Valid()
      ensures tileMap.tiles[..] == Range(50 * 30, Floor)
      ensures fresh(player) && fresh(tileMap) && fresh(tileMap.tiles)
    {
      player := new Player(20.0, 20.0, 0.0, 0.0, 10.0, 10.0, 1.8, North, false);
      bullets := [];
      tileMap := new TileMap(50, 30);
    }

    /** One simulation step, in place; the tile map is not touched. */
    method Update(buttons: Buttons)
      modifies this, player
      ensures State() == Step(old(State()), buttons)
      ensures Valid()
    {
      ghost var s0 := State();
      ghost var f := FireStep(WorldState(Resolve(s0.player, buttons), s0.bullets), buttons);
      assert Step(s0, buttons) ==
        WorldState(f.player.(x := f.player.x + f.player.dx, y := f.player.y + f.player.dy), Live(CullAll(f.bullets)));
      var p := player;
      var playerBullets := bullets;

      p.ApplyDirections(buttons);
      playerBullets := p.HandleFire(buttons, playerBullets);

      playerBullets := AdvanceBullets(playerBullets);

      player.x := player.x + player.dx;
      player.y := player.y + player.dy;

      bullets := Live(playerBullets);
    }
  }
}
