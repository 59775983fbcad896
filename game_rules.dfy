/** The pure rules of the game server in server.rb: its constants, the compass arithmetic of
    `relative_direction`, the unit moves, the bounds test and the request checks. */
module GameRules {
  import opened Text

  const PROTOCOL := "GameProtocol/1.0"
  const COMMANDS: seq<string> := ["COMMANDS", "JOIN", "LIST", "JACK-IN", "MOVE", "FEEL", "ATTACK"]
  const ROLES: seq<string> := ["ACTORS", "OBSERVERS"]
  const ORIENTATIONS: seq<string> := ["NORTH", "EAST", "SOUTH", "WEST"]
  const DIRECTIONS: seq<string> := ["FORWARD", "BACKWARD", "LEFT", "RIGHT"]
  const INTANGIBLE: seq<string> := ["VOID", "OBSERVER"]

  /** The two things `edge` can draw. */
  const EDGES: seq<string> := ["WALL", "VOID"]

  /** The world size when the options give none. */
  const DEFAULT_WIDTH := 10
  const DEFAULT_HEIGHT := 15

  /** `OFFSET[direction]`. */
  function Offset(direction: string): (r: int)
    requires direction in DIRECTIONS
    ensures -2 <= r <= 1
  {
    if direction == "FORWARD" then 0
    else if direction == "LEFT" then -1
    else if direction == "RIGHT" then 1
    else -2
  }

  /** `ORIENTATIONS.index(orientation)`. */
  function OrientationIndex(orientation: string): (i: nat)
    requires orientation in ORIENTATIONS
    ensures i < |ORIENTATIONS| && ORIENTATIONS[i] == orientation
  {
    if orientation == "NORTH" then 0
    else if orientation == "EAST" then 1
    else if orientation == "SOUTH" then 2
    else 3
  }

  /** `ORIENTATIONS.cycle.take ORIENTATIONS.size * 3`. */
  const COMPASS: seq<string> := ORIENTATIONS + ORIENTATIONS + ORIENTATIONS

  /** The compass position `relative_direction` reads. */
  function CompassIndex(orientation: string, direction: string): (k: int)
    requires orientation in ORIENTATIONS && direction in DIRECTIONS
    ensures 0 <= k < |COMPASS|
  {
    |ORIENTATIONS| + OrientationIndex(orientation) + Offset(direction)
  }

  /** `relative_direction(orientation, direction)`: the orientation after turning. */
  function RelativeDirection(orientation: string, direction: string): (r: string)
    requires orientation in ORIENTATIONS && direction in DIRECTIONS
    ensures r in ORIENTATIONS
  {
    COMPASS[CompassIndex(orientation, direction)]
  }

  /** `MOVES[orientation]`: the step, as a change of the row and then of the column. */
  function Delta(orientation: string): (int, int)
    requires orientation in ORIENTATIONS
  {
    if orientation == "NORTH" then (-1, 0)
    else if orientation == "SOUTH" then (1, 0)
    else if orientation == "WEST" then (0, -1)
    else (0, 1)
  }

  /** `outside_world?(x, y)`. */
  predicate OutsideWorld(x: int, y: int, width: int, height: int) {
    x < 0 || x >= width || y < 0 || y >= height
  }

  /** `acceptable?(protocol)`. */
  predicate Acceptable(protocol: string) {
    CaseEq(protocol, PROTOCOL)
  }

  /** `recognized?(command)`: the upper-cased name is in COMMANDS, exactly. */
  predicate Recognized(command: string) {
    Upper(command) in COMMANDS
  }

  /** The method names `handle` sends a recognised command to. */
  const HANDLERS: seq<string> := ["commands", "join", "list", "jack_in", "move", "feel", "attack"]

  /** `valid_direction?(direction)` as written: `any?` keeps a direction whenever its block is
      truthy, and `casecmp` returns an Integer (never nil for two strings), which Ruby treats as
      true whatever its value. */
  predicate ValidDirection(direction: string) {
    exists i :: 0 <= i < |DIRECTIONS| && Truthy(CaseCmp(DIRECTIONS[i], direction))
  }

  /** Ruby truthiness of an Integer: only nil and false are falsy. */
  predicate Truthy(value: int) {
    true
  }

  /** The evidently intended `valid_direction?`: `casecmp(direction).zero?`. */
  predicate ValidDirectionFixed(direction: string) {
    exists i :: 0 <= i < |DIRECTIONS| && CaseCmp(DIRECTIONS[i], direction) == 0
  }

  // ---------------------------------------------------------------- properties

  /** `relative_direction` is a rotation over the four orientations: the offset is added to the
      orientation's index modulo four. */
  lemma RelativeDirectionRotates(orientation: string, direction: string)
    requires orientation in ORIENTATIONS && direction in DIRECTIONS
    ensures RelativeDirection(orientation, direction)
      == ORIENTATIONS[(OrientationIndex(orientation) + Offset(direction)) % |ORIENTATIONS|]
  {
    var k := CompassIndex(orientation, direction);
    assert COMPASS[k] == ORIENTATIONS[k % 4];
  }

  /** FORWARD keeps the orientation, RIGHT turns clockwise, LEFT anticlockwise, BACKWARD about. */
  lemma Turns(orientation: string)
    requires orientation in ORIENTATIONS
    ensures var i := OrientationIndex(orientation);
      && RelativeDirection(orientation, "FORWARD") == orientation
      && RelativeDirection(orientation, "RIGHT") == ORIENTATIONS[(i + 1) % 4]
      && RelativeDirection(orientation, "LEFT") == ORIENTATIONS[(i + 3) % 4]
      && RelativeDirection(orientation, "BACKWARD") == ORIENTATIONS[(i + 2) % 4]
  {
    RelativeDirectionRotates(orientation, "FORWARD");
    RelativeDirectionRotates(orientation, "RIGHT");
    RelativeDirectionRotates(orientation, "LEFT");
    RelativeDirectionRotates(orientation, "BACKWARD");
  }

  /** A left turn undoes a right turn, and turning about twice comes back. */
  lemma TurnsUndo(orientation: string)
    requires orientation in ORIENTATIONS
    ensures RelativeDirection(orientation, "RIGHT") in ORIENTATIONS
    ensures RelativeDirection(orientation, "BACKWARD") in ORIENTATIONS
    ensures RelativeDirection(RelativeDirection(orientation, "RIGHT"), "LEFT") == orientation
    ensures RelativeDirection(RelativeDirection(orientation, "BACKWARD"), "BACKWARD") == orientation
  {
    Turns(orientation);
    var r := RelativeDirection(orientation, "RIGHT");
    var b := RelativeDirection(orientation, "BACKWARD");
    Turns(r);
    Turns(b);
  }

  /** Every move is one step along one axis, and turning about reverses it. */
  lemma StepsAreUnits(orientation: string)
    requires orientation in ORIENTATIONS
    ensures var (dx, dy) := Delta(orientation); (dx == 0) != (dy == 0) && -1 <= dx <= 1 && -1 <= dy <= 1
    ensures var back := RelativeDirection(orientation, "BACKWARD");
      back in ORIENTATIONS && Delta(back) == (-Delta(orientation).0, -Delta(orientation).1)
  {
    Turns(orientation);
  }

  /** A recognised command is sent to one of the seven handler methods. */
  lemma RecognizedHandlers(command: string)
    requires Recognized(command)
    ensures Normalize(command) in HANDLERS
  {
    var i :| 0 <= i < |COMMANDS| && COMMANDS[i] == Upper(command);
    LowerOfUpper(command);
    assert Lower(command) == Lower(COMMANDS[i]);
    assert Normalize("COMMANDS") == "commands";
    assert Normalize("JOIN") == "join";
    assert Normalize("LIST") == "list";
    assert Normalize("JACK-IN") == "jack_in";
    assert Normalize("MOVE") == "move";
    assert Normalize("FEEL") == "feel";
    assert Normalize("ATTACK") == "attack";
  }

  /** As written, `valid_direction?` accepts every string. */
  lemma ValidDirectionAcceptsAll(direction: string)
    ensures ValidDirection(direction)
  {
    assert Truthy(CaseCmp(DIRECTIONS[0], direction));
  }

  /** The intended check accepts exactly the four directions, in any case. */
  lemma ValidDirectionFixedIff(direction: string)
    ensures ValidDirectionFixed(direction) <==> Upper(direction) in DIRECTIONS
  {
    if ValidDirectionFixed(direction) {
      var i :| 0 <= i < |DIRECTIONS| && CaseCmp(DIRECTIONS[i], direction) == 0;
      CaseEqIffUpper(DIRECTIONS[i], direction);
      DirectionsUpper(i);
    }
    if Upper(direction) in DIRECTIONS {
      var i :| 0 <= i < |DIRECTIONS| && DIRECTIONS[i] == Upper(direction);
      UpperIdempotent(direction);
      CaseEqIffUpper(DIRECTIONS[i], direction);
      assert 0 <= i < |DIRECTIONS| && CaseCmp(DIRECTIONS[i], direction) == 0;
    }
  }

  lemma DirectionsUpper(i: int)
    requires 0 <= i < |DIRECTIONS|
    ensures Upper(DIRECTIONS[i]) == DIRECTIONS[i]
  {
    assert Upper("FORWARD") == "FORWARD";
    assert Upper("BACKWARD") == "BACKWARD";
    assert Upper("LEFT") == "LEFT";
    assert Upper("RIGHT") == "RIGHT";
  }

  /** Every command `commands` advertises is recognised, and is sent to the handler of the same
      position in HANDLERS. */
  lemma AdvertisedCommandsRecognized(i: int)
    requires 0 <= i < |COMMANDS|
    ensures Recognized(COMMANDS[i]) && Normalize(COMMANDS[i]) == HANDLERS[i]
  {
    assert Upper("COMMANDS") == "COMMANDS" && Normalize("COMMANDS") == "commands";
    assert Upper("JOIN") == "JOIN" && Normalize("JOIN") == "join";
    assert Upper("LIST") == "LIST" && Normalize("LIST") == "list";
    assert Upper("JACK-IN") == "JACK-IN" && Normalize("JACK-IN") == "jack_in";
    assert Upper("MOVE") == "MOVE" && Normalize("MOVE") == "move";
    assert Upper("FEEL") == "FEEL" && Normalize("FEEL") == "feel";
    assert Upper("ATTACK") == "ATTACK" && Normalize("ATTACK") == "attack";
  }

  /** A role that passes the ROLES check down-cases to one of the two keys the server reads. */
  lemma RoleKeys(role: string)
    requires Upper(role) in ROLES
    ensures Lower(role) == "actors" || Lower(role) == "observers"
    ensures Lower(role) == "actors" <==> Upper(role) == "ACTORS"
  {
    LowerOfUpper(role);
    assert Lower("ACTORS") == "actors";
    assert Lower("OBSERVERS") == "observers";
  }
}
