/** The `Server` class of server.rb as an object that changes in place: the world is a
    `width` by `height` array of cells, and the state store is three maps, one for the role
    lists and one each for the position and orientation entries. Every command method is proved
    to do what the GameState function of the same name says, and to keep its invariant. The
    socket is left out: `handle` is given the request's frames and returns the reply's. */
module GameServer {
  import opened Outcomes
  import opened Text
  import opened Frames
  import opened GameRules
  import opened GameState
  import GameLaws

  class Server {
    /** `edge`, drawn once when the server is made. */
    const edge: string
    /** `world`, `width` rows of `height` cells. */
    const world: array2<seq<string>>
    var roles: Roles
    var positions: map<Key, Cell>
    var orientations: map<Key, string>

    /** The world as nested lists. */
    ghost function Grid(): seq<seq<seq<string>>>
      reads world
    {
      seq(world.Length0, x requires 0 <= x < world.Length0 reads world =>
        seq(world.Length1, y requires 0 <= y < world.Length1 reads world => world[x, y]))
    }

    ghost function State(): Game
      reads this, world
    {
      Game(world.Length0, world.Length1, edge, roles, positions, orientations, Grid())
    }

    ghost predicate Valid()
      reads this, world
    {
      Inv(State())
    }

    /** `Server.new(width:, height:)` with `edge` as the edge's draw. */
    constructor (width: nat, height: nat, edge: string)
      requires edge in EDGES
      ensures State() == Initial(width, height, edge) && Valid()
      ensures fresh(world)
    {
      this.edge := edge;
      world := new seq<string>[width, height]((x, y) => []);
      roles := map[];
      positions := map[];
      orientations := map[];
      new;
      ghost var empty := Initial(width, height, edge).world;
      forall x | 0 <= x < width ensures Grid()[x] == empty[x] {
        assert forall y :: 0 <= y < height ==> Grid()[x][y] == [] == empty[x][y];
      }
    }

    /** `world[x][y] = contents`. */
    method SetWorld(x: int, y: int, contents: seq<string>)
      requires 0 <= x < world.Length0 && 0 <= y < world.Length1
      modifies world
      ensures State() == SetCell(old(State()), (x, y), contents)
    {
      ghost var before := Grid();
      world[x, y] := contents;
      ghost var after := before[x := before[x][y := contents]];
      forall i | 0 <= i < world.Length0 ensures Grid()[i] == after[i] {
        assert forall j :: 0 <= j < world.Length1 ==> Grid()[i][j] == after[i][j];
      }
    }

    /** `position!(token, x, y)`. */
    method PlaceToken(token: string, x: int, y: int) returns (placed: bool)
      requires 0 <= x < world.Length0 && 0 <= y < world.Length1
      modifies this, world
      ensures var r := Place(old(State()), token, (x, y));
        placed == r.Some? && State() == (if placed then r.value else old(State()))
    {
      if world[x, y] != [] {
        return false;
      }
      positions := positions[KeyOf(roles, token) := (x, y)];
      SetWorld(x, y, [token]);
      placed := true;
    }

    /** `spawn!(token)`: draws until `position!` succeeds. */
    method Spawn(token: string, draws: seq<Cell>)
      requires Shaped(State()) && Draws(State(), draws)
      modifies this, world
      ensures State() == GameState.Spawn(old(State()), token, draws)
    {
      var i := 0;
      while true
        invariant 0 <= i < |draws| && HasFreeFrom(State(), draws, i)
        invariant State() == old(State())
        invariant GameState.Spawn(State(), token, draws) == SpawnFrom(State(), token, draws, i)
        decreases |draws| - i
      {
        var placed := PlaceToken(token, draws[i].0, draws[i].1);
        if placed {
          return;
        }
        i := i + 1;
      }
    }

    /** `orientation(token)`, `draw` choosing the orientation when none is stored. */
    method Orientation(token: string, draw: nat) returns (o: string)
      requires Valid()
      modifies this
      ensures (o, State()) == GameState.Orientation(old(State()), token, draw)
    {
      var k := KeyOf(roles, token);
      if k in orientations {
        return orientations[k];
      }
      o := ORIENTATIONS[draw % |ORIENTATIONS|];
      orientations := orientations[k := o];
    }

    /** `reposition!(token, x, y)`. */
    method Reposition(token: string, x: int, y: int) returns (moved: bool)
      requires Valid() && ValidToken(roles, token)
      modifies this, world
      ensures var r := GameState.Reposition(old(State()), token, (x, y));
        moved == r.Some? && State() == (if moved then r.value else old(State()))
    {
      if OutsideWorld(x, y, world.Length0, world.Length1) {
        return false;
      }
      var (ox, oy) := positions[KeyOf(roles, token)];
      moved := PlaceToken(token, x, y);
      if !moved {
        return;
      }
      SetWorld(ox, oy, Without(world[ox, oy], token));
    }

    method List(role: string) returns (reply: Message)
      ensures reply == GameState.List(State(), role)
    {
      if Upper(role) !in ROLES {
        return Reject("Unrecognized Role");
      }
      reply := Respond(["LIST"] + Listed(roles, Lower(role)));
    }

    /** `join(role)`, `token` being the fresh UUID. */
    method Join(role: string, token: string, draws: seq<Cell>, fixed: bool) returns (reply: Message)
      requires Valid() && (Upper(role) in ROLES ==> Draws(State(), draws))
      modifies this, world
      ensures Step(State(), reply) == GameState.Join(old(State()), role, token, draws, fixed) && Valid()
    {
      if Upper(role) !in ROLES {
        return Reject("Unrecognized Role");
      }
      var key := if fixed then Lower(role) else role;
      roles := roles[key := Listed(roles, key) + [token]];
      Spawn(token, draws);
      reply := Respond(["WELCOME", token]);
      GameLaws.JoinPreservesInv(old(State()), role, token, draws, fixed);
    }

    /** `move(token, direction, distance = 1)`. */
    method Move(token: string, direction: string, distance: Option<string>, draw: nat, fixed: bool) returns (reply: Message)
      requires Valid()
      modifies this, world
      ensures Step(State(), reply) == GameState.Move(old(State()), token, direction, distance, draw, fixed) && Valid()
    {
      var n := Distance(distance);
      if !ValidToken(roles, token) {
        return Reject("Invalid Token");
      }
      if !DirectionPasses(direction, fixed) {
        return Reject("Invalid Direction");
      }
      if n < 1 {
        return Reject("Inconceivable Request");
      }
      var role := RoleOf(roles, token);
      if (role == Some("ACTOR") && n > 1) || (role == Some("OBSERVER") && n > 2) {
        return Reject("Slow Your Roll Bro");
      }
      reply := Travel(token, direction, n, draw);
    }

    /** The part of `move` after its checks. */
    method Travel(token: string, direction: string, n: int, draw: nat) returns (reply: Message)
      requires Valid() && ValidToken(roles, token)
      modifies this, world
      ensures Step(State(), reply) == GameState.Travel(old(State()), token, direction, n, draw) && Valid()
    {
      ghost var g := State();
      GameLaws.TravelMoves(g, token, direction, n, draw);
      var o := Orientation(token, draw);
      ghost var g1 := State();
      if Upper(direction) !in DIRECTIONS {
        return Reject(CONTRACT_VIOLATION);
      }
      GameLaws.TravelSteps(g, token, direction, n, draw);
      var (dx, dy) := Delta(RelativeDirection(o, Upper(direction)));
      var (px, py) := positions[KeyOf(roles, token)];
      assert (px, py) == Position(g1, token);
      var moved := Reposition(token, px + dx * n, py + dy * n);
      ghost var r := GameState.Reposition(g1, token, (px + dx * n, py + dy * n));
      assert moved == r.Some? && State() == (if moved then r.value else g1);
      reply := if moved then Respond(["OK"]) else Reject("You cannot move there");
    }

    /** `attack(token, direction)`. */
    method Attack(token: string, direction: string, draw: nat, fixed: bool) returns (reply: Message)
      requires Valid()
      modifies this
      ensures Step(State(), reply) == GameState.Attack(old(State()), token, direction, draw, fixed) && Valid()
    {
      if !ValidToken(roles, token) {
        return Reject(if fixed then "Invalid Token" else "Not Implemented");
      }
      if !DirectionPasses(direction, fixed) {
        return Reject("Invalid Direction");
      }
      reply := Strike(token, direction, draw);
    }

    /** The part of `attack` after its checks. */
    method Strike(token: string, direction: string, draw: nat) returns (reply: Message)
      requires Valid() && ValidToken(roles, token)
      modifies this
      ensures Step(State(), reply) == GameState.Strike(old(State()), token, direction, draw) && Valid()
    {
      var o := Orientation(token, draw);
      if Upper(direction) !in DIRECTIONS {
        return Reject(CONTRACT_VIOLATION);
      }
      var (dx, dy) := Delta(RelativeDirection(o, Upper(direction)));
      var (px, py) := positions[KeyOf(roles, token)];
      var (tx, ty) := (px + dx, py + dy);
      if OutsideWorld(tx, ty, world.Length0, world.Length1) {
        return Respond([if edge == "WALL" then "HIT" else "MISS"]);
      }
      var space := world[tx, ty];
      if space == [] || forall i :: 0 <= i < |space| ==> Intangible(roles, space[i]) {
        reply := Respond(["MISS"]);
      } else {
        reply := Respond(["HIT"]);
      }
    }

    /** `feel(token, direction)`. */
    method Feel(token: string, direction: string, draw: nat, fixed: bool) returns (reply: Message)
      requires Valid()
      modifies this
      ensures Step(State(), reply) == GameState.Feel(old(State()), token, direction, draw, fixed) && Valid()
    {
      if !ValidToken(roles, token) {
        return Reject("Invalid Token");
      }
      if !DirectionPasses(direction, fixed) {
        return Reject("Invalid Direction");
      }
      reply := Touch(token, direction, draw);
    }

    /** The part of `feel` after its checks. */
    method Touch(token: string, direction: string, draw: nat) returns (reply: Message)
      requires Valid() && ValidToken(roles, token)
      modifies this
      ensures Step(State(), reply) == GameState.Touch(old(State()), token, direction, draw) && Valid()
    {
      var o := Orientation(token, draw);
      if Upper(direction) !in DIRECTIONS {
        return Reject(CONTRACT_VIOLATION);
      }
      var (dx, dy) := Delta(RelativeDirection(o, Upper(direction)));
      var (px, py) := positions[KeyOf(roles, token)];
      var (fx, fy) := (px + dx, py + dy);
      if OutsideWorld(fx, fy, world.Length0, world.Length1) {
        return Respond(["FEELS-LIKE", edge]);
      }
      reply := Respond(["FEELS-LIKE"] + Uniq(RolesIn(roles, world[fx, fy])));
    }

    /** `handle(request)`: `protocol, command, *payload = request.to_a`, the two checks, then
        `public_send` with the ArgumentError and NoMethodError rescues. */
    method Handle(request: Message, token: string, draws: seq<Cell>, draw: nat, fixed: bool) returns (reply: Message)
      requires Valid() && (Spawns(request) ==> Draws(State(), draws))
      modifies this, world
      ensures Step(State(), reply) == GameState.Handle(old(State()), request, token, draws, draw, fixed) && Valid()
    {
      if request == [] {
        return Reject(CONTRACT_VIOLATION);
      }
      if !Acceptable(request[0]) {
        return Reject("Unacceptable Protocol");
      }
      if |request| < 2 {
        return Reject(CONTRACT_VIOLATION);
      }
      if !Recognized(request[1]) {
        return Reject("Unrecognized Command");
      }
      var name := Normalize(request[1]);
      var args := request[2..];
      var n := |args|;
      if name == "commands" {
        reply := if n == 0 then GameState.Commands() else Reject(ArityMessage(n, 0, 0, true));
      } else if name == "join" {
        if n == 1 {
          reply := Join(args[0], token, draws, fixed);
        } else {
          reply := Reject(ArityMessage(n, 1, 1, true));
        }
      } else if name == "list" {
        if n == 1 {
          reply := List(args[0]);
        } else {
          reply := Reject(ArityMessage(n, 1, 1, true));
        }
      } else if name == "jack_in" {
        reply := if n == 0 then GameState.JackIn() else Reject(ArityMessage(n, 0, 0, true));
      } else if name == "move" {
        if n == 2 {
          reply := Move(args[0], args[1], None, draw, fixed);
        } else if n == 3 {
          reply := Move(args[0], args[1], Some(args[2]), draw, fixed);
        } else {
          reply := Reject(ArityMessage(n, 2, 3, true));
        }
      } else if name == "feel" {
        if n == 1 {
          reply := Feel(args[0], "FORWARD", draw, fixed);
        } else if n == 2 {
          reply := Feel(args[0], args[1], draw, fixed);
        } else {
          reply := Reject(ArityMessage(n, 1, 2, false));
        }
      } else if name == "attack" {
        if n == 2 {
          reply := Attack(args[0], args[1], draw, fixed);
        } else {
          reply := Reject(ArityMessage(n, 2, 2, true));
        }
      } else {
        reply := Reject("Not Implemented");
      }
    }
  }
}
