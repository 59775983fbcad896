/** The game server of server.rb as functions on a value of its state: the role lists, positions
    and orientations its state store holds, and the world grid of cells, each cell the list of
    tokens standing on it. Each command is a function from the state before it to the state after
    it and the one reply it sends. The random draws (the fresh token, the spawn cells and the new
    orientation) are parameters. The flag `fixed` selects between the code as written (false)
    and the corrections of four defects (true): `join` stores the token under the down-cased
    role; `attack` calls `invalid_token!`, not the undefined `invald_token!`; `attack` calls
    `invalid_direction!`, not the undefined `invalid_direction`; and `valid_direction?` compares
    with `casecmp(...).zero?`. */
module GameState {
  import opened Outcomes
  import opened Text
  import opened Frames
  import opened GameRules

  /** A world cell: the row (`x`, below `width`) and the column (`y`, below `height`). */
  type Cell = (int, int)

  /** The key of a per-token entry of the state store, `"#{role token}/#{token}/position"` or
      `".../orientation"`: the role text the token has when the key is built (empty when it has
      none) and the token. */
  datatype Key = Key(role: string, token: string)

  /** The store is split by the kind of its keys: the role lists under "actors" and
      "observers" (or whatever `join` was given), and the position and orientation entries. */
  datatype Game = Game(
    width: nat,
    height: nat,
    edge: string,
    roles: Roles,
    positions: map<Key, Cell>,
    orientations: map<Key, string>,
    world: seq<seq<seq<string>>>)

  /** A request's effect: the state after it and the reply it sends. */
  datatype Step = Step(game: Game, reply: Message)

  /** The state after `orientation(token)` and the way the token then faces, if the direction
      passes `relative_direction`'s Direction contract. */
  datatype Heading = Heading(game: Game, facing: Option<string>)

  /** `respond_with(*frames)`. */
  function Respond(frames: seq<string>): Message {
    [PROTOCOL] + frames
  }

  /** `reject(context)`. */
  function Reject(context: string): Message {
    Respond(["WTF", context])
  }

  // ---------------------------------------------------------------- the world

  /** `world` is `width` rows of `height` cells. */
  predicate Shaped(g: Game) {
    |g.world| == g.width && forall x :: 0 <= x < |g.world| ==> |g.world[x]| == g.height
  }

  predicate InWorld(g: Game, c: Cell) {
    !OutsideWorld(c.0, c.1, g.width, g.height)
  }

  function CellAt(g: Game, c: Cell): seq<string>
    requires Shaped(g) && InWorld(g, c)
  {
    g.world[c.0][c.1]
  }

  predicate Free(g: Game, c: Cell) {
    Shaped(g) && InWorld(g, c) && CellAt(g, c) == []
  }

  /** `world[x][y] = contents`: that cell changes and no other. */
  function SetCell(g: Game, c: Cell, contents: seq<string>): (r: Game)
    requires Shaped(g) && InWorld(g, c)
    ensures Shaped(r) && r == r.(world := r.world) && r.(world := g.world) == g
    ensures CellAt(r, c) == contents
    ensures forall d :: InWorld(g, d) && d != c ==> CellAt(r, d) == CellAt(g, d)
  {
    g.(world := g.world[c.0 := g.world[c.0][c.1 := contents]])
  }

  // ---------------------------------------------------------------- roles

  /** The role lists of the state store, by key. */
  type Roles = map<string, seq<string>>

  /** `state.fetch(key, [])`. */
  function Listed(roles: Roles, key: string): seq<string> {
    if key in roles then roles[key] else []
  }

  /** `role(token)`: the first role whose down-cased list holds the token, less its final S. */
  function RoleOf(roles: Roles, token: string): Option<string> {
    if token in Listed(roles, "actors") then Some("ACTOR")
    else if token in Listed(roles, "observers") then Some("OBSERVER")
    else None
  }

  /** `"#{role token}"`: nil interpolates as the empty string. */
  function RoleText(roles: Roles, token: string): string {
    if RoleOf(roles, token).Some? then RoleOf(roles, token).value else ""
  }

  /** `valid?(token)`. */
  predicate ValidToken(roles: Roles, token: string) {
    token in Listed(roles, "actors") || token in Listed(roles, "observers")
  }

  function KeyOf(roles: Roles, token: string): Key {
    Key(RoleText(roles, token), token)
  }

  /** `INTANGIBLE.include? role(token)`. */
  predicate Intangible(roles: Roles, token: string) {
    RoleOf(roles, token).Some? && RoleOf(roles, token).value in INTANGIBLE
  }

  /** The token has a position in the world and stands on that cell. */
  predicate Placed(g: Game, token: string)
    requires Shaped(g)
  {
    && KeyOf(g.roles, token) in g.positions
    && InWorld(g, g.positions[KeyOf(g.roles, token)])
    && token in CellAt(g, g.positions[KeyOf(g.roles, token)])
  }

  /** What the server keeps true between requests: the world has its shape, the edge is one of
      the two it can draw, every valid token is placed, and every stored orientation is one of
      the four. */
  ghost predicate Inv(g: Game) {
    && Shaped(g)
    && g.edge in EDGES
    && (forall t :: ValidToken(g.roles, t) ==> Placed(g, t))
    && (forall k :: k in g.orientations ==> g.orientations[k] in ORIENTATIONS)
  }

  /** `position(token)` for a valid token; its `spawn!` fallback is never reached then. */
  function Position(g: Game, token: string): (c: Cell)
    requires Inv(g) && ValidToken(g.roles, token)
    ensures InWorld(g, c) && token in CellAt(g, c)
  {
    g.positions[KeyOf(g.roles, token)]
  }

  /** `orientation(token)`: the stored orientation, or else `draw` picks one, which is stored. */
  function Orientation(g: Game, token: string, draw: nat): (r: (string, Game))
    requires Inv(g)
    ensures r.0 in ORIENTATIONS && Inv(r.1)
    ensures r.1 == g.(orientations := r.1.orientations)
    ensures KeyOf(r.1.roles, token) in r.1.orientations && r.1.orientations[KeyOf(r.1.roles, token)] == r.0
    ensures KeyOf(g.roles, token) in g.orientations ==> r == (g.orientations[KeyOf(g.roles, token)], g)
    ensures forall k :: k in g.orientations ==> k in r.1.orientations && r.1.orientations[k] == g.orientations[k]
  {
    var k := KeyOf(g.roles, token);
    if k in g.orientations then (g.orientations[k], g)
    else
      var o := ORIENTATIONS[draw % |ORIENTATIONS|];
      var g1 := g.(orientations := g.orientations[k := o]);
      LayoutUnchanged(g, g1);
      (o, g1)
  }

  /** A state that differs only in its orientations places every token as before. */
  lemma LayoutUnchanged(g: Game, g1: Game)
    requires Shaped(g) && g1 == g.(orientations := g1.orientations)
    ensures Shaped(g1)
    ensures forall t :: ValidToken(g1.roles, t) == ValidToken(g.roles, t) && KeyOf(g1.roles, t) == KeyOf(g.roles, t)
    ensures forall t :: Placed(g1, t) == Placed(g, t)
  {
  }

  /** `relative_direction(orientation(token), direction.upcase)`. The orientation is drawn and
      stored before the Direction contract is checked. */
  function Face(g: Game, token: string, direction: string, draw: nat): (h: Heading)
    requires Inv(g)
    ensures Inv(h.game) && h.game == Orientation(g, token, draw).1
    ensures h.facing.Some? <==> Upper(direction) in DIRECTIONS
    ensures h.facing.Some? ==> h.facing.value in ORIENTATIONS
  {
    var (o, g1) := Orientation(g, token, draw);
    if Upper(direction) in DIRECTIONS then Heading(g1, Some(RelativeDirection(o, Upper(direction))))
    else Heading(g1, None)
  }

  /** The cell `distance` steps away from the token in the way it faces. */
  function Ahead(g: Game, token: string, facing: string, distance: int): Cell
    requires Inv(g) && ValidToken(g.roles, token) && facing in ORIENTATIONS
  {
    var p := Position(g, token);
    var (dx, dy) := Delta(facing);
    (p.0 + dx * distance, p.1 + dy * distance)
  }

  // ---------------------------------------------------------------- placing tokens

  /** `add_to(role, token)`: appends the token to the list stored under `role`. */
  function AddTo(g: Game, role: string, token: string): (r: Game)
    ensures r == g.(roles := r.roles)
    ensures Listed(r.roles, role) == Listed(g.roles, role) + [token]
    ensures forall k :: k != role ==> Listed(r.roles, k) == Listed(g.roles, k)
  {
    g.(roles := g.roles[role := Listed(g.roles, role) + [token]])
  }

  /** `position!(token, x, y)`: nil on an occupied cell; else the position is stored and the
      token pushed onto the cell. */
  function Place(g: Game, token: string, c: Cell): (r: Option<Game>)
    requires Shaped(g) && InWorld(g, c)
    ensures r.Some? <==> CellAt(g, c) == []
    ensures r.Some? ==>
      && Shaped(r.value)
      && r.value == SetCell(g, c, [token]).(positions := g.positions[KeyOf(g.roles, token) := c])
  {
    if CellAt(g, c) != [] then None
    else Some(SetCell(g, c, [token]).(positions := g.positions[KeyOf(g.roles, token) := c]))
  }

  predicate AllInWorld(g: Game, draws: seq<Cell>) {
    forall i :: 0 <= i < |draws| ==> InWorld(g, draws[i])
  }

  predicate HasFreeFrom(g: Game, draws: seq<Cell>, k: nat) {
    exists i :: k <= i < |draws| && Free(g, draws[i])
  }

  /** The spawn draws `rand(width), rand(height)`, in the order they are made: all in the world,
      one of them free. */
  predicate Draws(g: Game, draws: seq<Cell>) {
    AllInWorld(g, draws) && HasFreeFrom(g, draws, 0)
  }

  /** `spawn!(token)` from the `k`th draw on: it retries until `position!` succeeds. */
  function SpawnFrom(g: Game, token: string, draws: seq<Cell>, k: nat): (r: Game)
    requires Shaped(g) && AllInWorld(g, draws) && HasFreeFrom(g, draws, k)
    ensures exists i ::
      && k <= i < |draws| && Free(g, draws[i])
      && (forall j :: k <= j < i ==> !Free(g, draws[j]))
      && Place(g, token, draws[i]) == Some(r)
    decreases |draws| - k
  {
    if Free(g, draws[k]) then Place(g, token, draws[k]).value
    else SpawnFrom(g, token, draws, k + 1)
  }

  /** `spawn!(token)`: the token is placed on the first free cell drawn. */
  function Spawn(g: Game, token: string, draws: seq<Cell>): Game
    requires Shaped(g) && Draws(g, draws)
  {
    SpawnFrom(g, token, draws, 0)
  }

  /** `array - [token]`: every copy of the token removed. */
  function Without(xs: seq<string>, token: string): (r: seq<string>)
    ensures forall x :: x in r <==> x in xs && x != token
  {
    if xs == [] then []
    else
      var rest := Without(xs[1..], token);
      assert forall x :: x in xs <==> x == xs[0] || x in xs[1..];
      if xs[0] == token then rest else [xs[0]] + rest
  }

  /** `reposition!(token, x, y)`: nil outside the world or on an occupied cell; else the token is
      placed there and taken off its old cell. */
  function Reposition(g: Game, token: string, c: Cell): Option<Game>
    requires Inv(g) && ValidToken(g.roles, token)
  {
    if !InWorld(g, c) then None
    else
      var o := Position(g, token);
      var placed := Place(g, token, c);
      if placed.None? then None
      else Some(SetCell(placed.value, o, Without(CellAt(placed.value, o), token)))
  }

  /** `uniq`: first occurrences, in order. */
  function Uniq(xs: seq<string>): (r: seq<string>)
    ensures forall x :: x in r <==> x in xs
    ensures forall i, j :: 0 <= i < j < |r| ==> r[i] != r[j]
  {
    if xs == [] then []
    else
      var init := xs[..|xs| - 1];
      var r := Uniq(init);
      assert xs == init + [xs[|xs| - 1]];
      if xs[|xs| - 1] in r then r else r + [xs[|xs| - 1]]
  }

  /** `space.map { |t| role t }`, each nil sent as the empty string. */
  function RolesIn(roles: Roles, space: seq<string>): (r: seq<string>)
    ensures |r| == |space| && forall i :: 0 <= i < |space| ==> r[i] == RoleText(roles, space[i])
  {
    seq(|space|, i requires 0 <= i < |space| => RoleText(roles, space[i]))
  }

  // ---------------------------------------------------------------- commands

  /** `valid_direction?` as written, or as corrected. */
  predicate DirectionPasses(direction: string, fixed: bool) {
    if fixed then ValidDirectionFixed(direction) else ValidDirection(direction)
  }

  function Commands(): Message {
    Respond(["COMMANDS"] + COMMANDS)
  }

  /** `jack_in`: the debugging console it opens is not modelled; it replies DONE. */
  function JackIn(): Message {
    Respond(["DONE"])
  }

  /** `list(role)`: `state.fetch(role.downcase)` gives nil for a role nobody joined, and the
      splat of nil adds no frames. */
  function List(g: Game, role: string): Message {
    if Upper(role) !in ROLES then Reject("Unrecognized Role")
    else Respond(["LIST"] + Listed(g.roles, Lower(role)))
  }

  /** `join(role)` with `token` as the fresh UUID. Only an accepted role spawns, so only then
      must the draws hold a free cell. */
  function Join(g: Game, role: string, token: string, draws: seq<Cell>, fixed: bool): Step
    requires Inv(g) && (Upper(role) in ROLES ==> Draws(g, draws))
  {
    if Upper(role) !in ROLES then Step(g, Reject("Unrecognized Role"))
    else Step(Enrol(g, if fixed then Lower(role) else role, token, draws), Respond(["WELCOME", token]))
  }

  /** `add_to(key, token)` and then `spawn!(token)`. */
  function Enrol(g: Game, key: string, token: string, draws: seq<Cell>): Game
    requires Inv(g) && Draws(g, draws)
  {
    Spawn(AddTo(g, key, token), token, draws)
  }

  /** What the failing direction check of `attack` calls: as written `invalid_direction`, which
      names neither a method nor a local variable, so Ruby raises NameError; corrected,
      `invalid_direction!`. */
  function InvalidDirectionCall(fixed: bool): (r: Outcome<Message>)
    ensures r.Returned? <==> fixed
    ensures fixed ==> r.value == Reject("Invalid Direction")
  {
    if fixed then Returned(Reject("Invalid Direction")) else Raised(NAME_ERROR)
  }

  /** The exceptions `handle` rescues: ArgumentError (a ContractError is one) and NoMethodError.
      NameError is the superclass of NoMethodError and is not rescued. */
  predicate HandleRescues(error: string) {
    error == ARGUMENT_ERROR || error == NO_METHOD_ERROR
  }

  /** `attack(token, direction)`. As written the failing direction check is never reached,
      because `valid_direction?` passes every direction. */
  function Attack(g: Game, token: string, direction: string, draw: nat, fixed: bool): Step
    requires Inv(g)
  {
    if !ValidToken(g.roles, token) then Step(g, Reject(if fixed then "Invalid Token" else "Not Implemented"))
    else if !DirectionPasses(direction, fixed) then
      if fixed then Step(g, InvalidDirectionCall(true).value)
      else ValidDirectionAcceptsAll(direction); assert false; Step(g, Reject("Invalid Direction"))
    else Strike(g, token, direction, draw)
  }

  /** The part of `attack` after its checks: turn, then strike the next cell. */
  function Strike(g: Game, token: string, direction: string, draw: nat): Step
    requires Inv(g) && ValidToken(g.roles, token)
  {
    var h := Face(g, token, direction, draw);
    if h.facing.None? then Step(h.game, Reject(CONTRACT_VIOLATION))
    else Step(h.game, Respond([Impact(h.game, token, h.facing.value)]))
  }

  /** HIT or MISS on the next cell: past the edge a wall is hit and the void missed; inside, a
      cell is missed when it is empty or holds only intangible tokens. */
  function Impact(g: Game, token: string, facing: string): string
    requires Inv(g) && ValidToken(g.roles, token) && facing in ORIENTATIONS
  {
    var t := Ahead(g, token, facing, 1);
    if !InWorld(g, t) then (if g.edge == "WALL" then "HIT" else "MISS")
    else
      var space := CellAt(g, t);
      if space == [] then "MISS"
      else if forall i :: 0 <= i < |space| ==> Intangible(g.roles, space[i]) then "MISS"
      else "HIT"
  }

  /** The distance `move` reads: `distance.to_i`, 1 when the frame is absent. */
  function Distance(distance: Option<string>): int {
    if distance.None? then 1 else ToI(distance.value)
  }

  /** `move(token, direction, distance = 1)`. */
  function Move(g: Game, token: string, direction: string, distance: Option<string>, draw: nat, fixed: bool): Step
    requires Inv(g)
  {
    var n := Distance(distance);
    if !ValidToken(g.roles, token) then Step(g, Reject("Invalid Token"))
    else if !DirectionPasses(direction, fixed) then Step(g, Reject("Invalid Direction"))
    else if n < 1 then Step(g, Reject("Inconceivable Request"))
    else if (RoleOf(g.roles, token) == Some("ACTOR") && n > 1) || (RoleOf(g.roles, token) == Some("OBSERVER") && n > 2) then
      Step(g, Reject("Slow Your Roll Bro"))
    else Travel(g, token, direction, n, draw)
  }

  /** The part of `move` after its checks: turn, then `reposition!` `n` steps ahead. */
  function Travel(g: Game, token: string, direction: string, n: int, draw: nat): Step
    requires Inv(g) && ValidToken(g.roles, token)
  {
    var h := Face(g, token, direction, draw);
    if h.facing.None? then Step(h.game, Reject(CONTRACT_VIOLATION))
    else
      var moved := Reposition(h.game, token, Ahead(h.game, token, h.facing.value, n));
      if moved.None? then Step(h.game, Reject("You cannot move there"))
      else Step(moved.value, Respond(["OK"]))
  }

  /** `feel(token, direction = 'FORWARD')`. */
  function Feel(g: Game, token: string, direction: string, draw: nat, fixed: bool): Step
    requires Inv(g)
  {
    if !ValidToken(g.roles, token) then Step(g, Reject("Invalid Token"))
    else if !DirectionPasses(direction, fixed) then Step(g, Reject("Invalid Direction"))
    else Touch(g, token, direction, draw)
  }

  /** The part of `feel` after its checks: turn, then report the next cell. */
  function Touch(g: Game, token: string, direction: string, draw: nat): Step
    requires Inv(g) && ValidToken(g.roles, token)
  {
    var h := Face(g, token, direction, draw);
    if h.facing.None? then Step(h.game, Reject(CONTRACT_VIOLATION))
    else Step(h.game, Respond(["FEELS-LIKE"] + Sensed(h.game, token, h.facing.value)))
  }

  /** What `feel` reports of the next cell: the edge past the world, else the distinct roles of
      its occupants. */
  function Sensed(g: Game, token: string, facing: string): seq<string>
    requires Inv(g) && ValidToken(g.roles, token) && facing in ORIENTATIONS
  {
    var f := Ahead(g, token, facing, 1);
    if !InWorld(g, f) then [g.edge] else Uniq(RolesIn(g.roles, CellAt(g, f)))
  }

  /** A call of `join` with one argument naming a role it accepts: the only call that spawns. */
  predicate Joins(name: string, args: seq<string>) {
    name == "join" && |args| == 1 && Upper(args[0]) in ROLES
  }

  /** A request `handle` hands to such a call of `join`. */
  predicate Spawns(request: Message) {
    |request| >= 2 && Acceptable(request[0]) && Recognized(request[1]) && Joins(Normalize(request[1]), request[2..])
  }

  /** `public_send(name, *args)` for the seven handlers; a wrong number of arguments raises an
      ArgumentError, whose message is sent back. */
  function Dispatch(g: Game, name: string, args: seq<string>, token: string, draws: seq<Cell>, draw: nat, fixed: bool): Step
    requires Inv(g) && (Joins(name, args) ==> Draws(g, draws))
  {
    var n := |args|;
    if name == "commands" then
      Step(g, if n == 0 then Commands() else Reject(ArityMessage(n, 0, 0, true)))
    else if name == "join" then
      if n == 1 then Join(g, args[0], token, draws, fixed) else Step(g, Reject(ArityMessage(n, 1, 1, true)))
    else if name == "list" then
      Step(g, if n == 1 then List(g, args[0]) else Reject(ArityMessage(n, 1, 1, true)))
    else if name == "jack_in" then
      Step(g, if n == 0 then JackIn() else Reject(ArityMessage(n, 0, 0, true)))
    else if name == "move" then
      if n == 2 then Move(g, args[0], args[1], None, draw, fixed)
      else if n == 3 then Move(g, args[0], args[1], Some(args[2]), draw, fixed)
      else Step(g, Reject(ArityMessage(n, 2, 3, true)))
    else if name == "feel" then
      if n == 1 then Feel(g, args[0], "FORWARD", draw, fixed)
      else if n == 2 then Feel(g, args[0], args[1], draw, fixed)
      else Step(g, Reject(ArityMessage(n, 1, 2, false)))
    else if name == "attack" then
      if n == 2 then Attack(g, args[0], args[1], draw, fixed) else Step(g, Reject(ArityMessage(n, 2, 2, true)))
    else Step(g, Reject("Not Implemented"))
  }

  /** `handle(request)`. A missing protocol or command frame is nil, which breaks the String
      contract of `acceptable?` or `recognized?`; the ContractError is an ArgumentError, and so
      is answered like one. */
  function Handle(g: Game, request: Message, token: string, draws: seq<Cell>, draw: nat, fixed: bool): Step
    requires Inv(g) && (Spawns(request) ==> Draws(g, draws))
  {
    if request == [] then Step(g, Reject(CONTRACT_VIOLATION))
    else if !Acceptable(request[0]) then Step(g, Reject("Unacceptable Protocol"))
    else if |request| < 2 then Step(g, Reject(CONTRACT_VIOLATION))
    else if !Recognized(request[1]) then Step(g, Reject("Unrecognized Command"))
    else Dispatch(g, Normalize(request[1]), request[2..], token, draws, draw, fixed)
  }

  /** The state a server starts in: an empty store and an empty world. */
  function Initial(width: nat, height: nat, edge: string): (g: Game)
    requires edge in EDGES
    ensures Inv(g) && forall t :: !ValidToken(g.roles, t)
  {
    Game(width, height, edge, map[], map[], map[], seq(width, x => seq(height, y => [])))
  }
}
