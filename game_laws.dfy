/** What the game server of server.rb keeps and promises, proved about the functions of
    GameState: the state invariant across every request, what a move and a join do, the agreement
    of `attack` with `feel`, and the four defects of the code as written next to their
    corrections. */
module GameLaws {
  import opened Outcomes
  import opened Text
  import opened Frames
  import opened GameRules
  import opened GameState

  // ---------------------------------------------------------------- placing keeps everyone placed

  /** `position!` on a free cell places its token there and leaves every other placed token
      where it stood. */
  lemma PlaceKeepsOthers(g: Game, token: string, c: Cell)
    requires Free(g, c)
    ensures var r := Place(g, token, c).value;
      && r.roles == g.roles && r.orientations == g.orientations
      && Placed(r, token) && r.positions[KeyOf(r.roles, token)] == c && CellAt(r, c) == [token]
      && forall t :: t != token && Placed(g, t) ==> Placed(r, t) && r.positions[KeyOf(r.roles, t)] == g.positions[KeyOf(g.roles, t)]
  {
    var r := Place(g, token, c).value;
    forall t | t != token && Placed(g, t)
      ensures Placed(r, t) && r.positions[KeyOf(r.roles, t)] == g.positions[KeyOf(g.roles, t)]
    {
      assert KeyOf(r.roles, t) == KeyOf(g.roles, t) != KeyOf(g.roles, token);
      var p := g.positions[KeyOf(g.roles, t)];
      assert t in CellAt(g, p);
      assert p != c;
    }
  }

  /** Every valid token but `token` is placed. */
  ghost predicate PlacedExcept(g: Game, token: string)
    requires Shaped(g)
  {
    forall t :: ValidToken(g.roles, t) && t != token ==> Placed(g, t)
  }

  /** `add_to` files one token and changes the role of no other. */
  lemma AddToKeepsOthers(g: Game, key: string, token: string)
    requires Inv(g)
    ensures Shaped(AddTo(g, key, token)) && PlacedExcept(AddTo(g, key, token), token)
  {
    var g1 := AddTo(g, key, token);
    forall t | ValidToken(g1.roles, t) && t != token ensures Placed(g1, t) {
      assert ValidToken(g.roles, t) && KeyOf(g1.roles, t) == KeyOf(g.roles, t);
    }
  }

  /** Placing the one token not yet placed completes the invariant. */
  lemma PlaceCompletes(g: Game, token: string, c: Cell)
    requires Free(g, c) && PlacedExcept(g, token) && g.edge in EDGES
    requires forall k :: k in g.orientations ==> g.orientations[k] in ORIENTATIONS
    ensures Inv(Place(g, token, c).value)
  {
    PlaceKeepsOthers(g, token, c);
  }

  /** `add_to` and `spawn!` keep the invariant: the token is placed alone on the first free
      cell drawn, and nobody else moves. */
  lemma EnrolPlaces(g: Game, key: string, token: string, draws: seq<Cell>)
    requires Inv(g) && Draws(g, draws)
    ensures var r := Enrol(g, key, token, draws);
      && Inv(r) && r.roles == AddTo(g, key, token).roles && r.orientations == g.orientations
      && r.positions[KeyOf(r.roles, token)] in draws
      && Free(g, r.positions[KeyOf(r.roles, token)]) && CellAt(r, r.positions[KeyOf(r.roles, token)]) == [token]
  {
    var g1 := AddTo(g, key, token);
    AddToKeepsOthers(g, key, token);
    var r := Spawn(g1, token, draws);
    var i :| 0 <= i < |draws| && Free(g1, draws[i]) && Place(g1, token, draws[i]) == Some(r);
    PlaceKeepsOthers(g1, token, draws[i]);
    PlaceCompletes(g1, token, draws[i]);
  }

  /** `join` keeps the invariant, whatever the role and however it is stored. */
  lemma JoinPreservesInv(g: Game, role: string, token: string, draws: seq<Cell>, fixed: bool)
    requires Inv(g) && (Upper(role) in ROLES ==> Draws(g, draws))
    ensures Inv(Join(g, role, token, draws, fixed).game)
  {
    if Upper(role) in ROLES {
      EnrolPlaces(g, if fixed then Lower(role) else role, token, draws);
    }
  }

  /** `reposition!` that succeeds puts the token on the target cell alone, takes it off the cell
      it left, keeps the invariant and moves nobody else. */
  lemma RepositionMoves(g: Game, token: string, c: Cell)
    requires Inv(g) && ValidToken(g.roles, token) && Reposition(g, token, c).Some?
    ensures var r := Reposition(g, token, c).value;
      && Inv(r) && r.roles == g.roles && r.orientations == g.orientations
      && Position(r, token) == c && CellAt(r, c) == [token]
      && token !in CellAt(r, Position(g, token))
      && forall t :: ValidToken(g.roles, t) && t != token ==> Position(r, t) == Position(g, t)
  {
    var o := Position(g, token);
    assert Free(g, c);
    PlaceKeepsOthers(g, token, c);
    var g1 := Place(g, token, c).value;
    assert o != c;
    var r := SetCell(g1, o, Without(CellAt(g1, o), token));
    assert r == Reposition(g, token, c).value;
    forall t | ValidToken(r.roles, t) ensures Placed(r, t) {
      assert ValidToken(g.roles, t);
      if t != token {
        var p := g.positions[KeyOf(g.roles, t)];
        assert r.positions[KeyOf(r.roles, t)] == p;
        assert p != c;
      }
    }
  }

  /** The acting part of `move`: on OK the token stands alone `n` cells along the way it now
      faces, off the cell it left, with everybody else where they were; otherwise only the
      orientation drawn for it has changed. The invariant holds either way. */
  lemma TravelMoves(g: Game, token: string, direction: string, n: int, draw: nat)
    requires Inv(g) && ValidToken(g.roles, token)
    ensures var s := Travel(g, token, direction, n, draw); var (o, g1) := Orientation(g, token, draw);
      && Inv(s.game) && ValidToken(s.game.roles, token)
      && s.game.orientations == g1.orientations && s.game.roles == g.roles
      && (s.reply == Respond(["OK"]) ==>
        && Upper(direction) in DIRECTIONS
        && var facing := RelativeDirection(o, Upper(direction));
        && Position(s.game, token) == (Position(g, token).0 + Delta(facing).0 * n, Position(g, token).1 + Delta(facing).1 * n)
        && CellAt(s.game, Position(s.game, token)) == [token]
        && token !in CellAt(s.game, Position(g, token))
        && forall t :: ValidToken(g.roles, t) && t != token ==> Position(s.game, t) == Position(g, t))
      && (s.reply != Respond(["OK"]) ==> s.game == g1)
  {
    var h := Face(g, token, direction, draw);
    LayoutUnchanged(g, h.game);
    if h.facing.Some? {
      var c := Ahead(h.game, token, h.facing.value, n);
      if Reposition(h.game, token, c).Some? {
        RepositionMoves(h.game, token, c);
        assert Position(h.game, token) == Position(g, token);
      }
    }
  }

  /** `move` keeps the invariant. */
  lemma MovePreservesInv(g: Game, token: string, direction: string, distance: Option<string>, draw: nat, fixed: bool)
    requires Inv(g)
    ensures Inv(Move(g, token, direction, distance, draw, fixed).game)
  {
    if ValidToken(g.roles, token) {
      TravelMoves(g, token, direction, Distance(distance), draw);
    }
  }

  /** Every request keeps the invariant; the draws need hold a free cell only for a join. */
  lemma HandlePreservesInv(g: Game, request: Message, token: string, draws: seq<Cell>, draw: nat, fixed: bool)
    requires Inv(g) && (Spawns(request) ==> Draws(g, draws))
    ensures Inv(Handle(g, request, token, draws, draw, fixed).game)
  {
    if |request| >= 2 && Acceptable(request[0]) && Recognized(request[1]) {
      var name := Normalize(request[1]);
      var args := request[2..];
      if name == "join" && |args| == 1 {
        JoinPreservesInv(g, args[0], token, draws, fixed);
      } else if name == "move" && |args| == 2 {
        MovePreservesInv(g, args[0], args[1], None, draw, fixed);
      } else if name == "move" && |args| == 3 {
        MovePreservesInv(g, args[0], args[1], Some(args[2]), draw, fixed);
      }
    }
  }

  /** Only a join spawns, so any other request is answered alike whatever the spawn draws. */
  lemma OnlyJoinDraws(g: Game, request: Message, token: string, draws: seq<Cell>, others: seq<Cell>, draw: nat, fixed: bool)
    requires Inv(g) && !Spawns(request)
    ensures Handle(g, request, token, draws, draw, fixed) == Handle(g, request, token, others, draw, fixed)
  {
  }

  // ---------------------------------------------------------------- single requests

  /** The commands `commands` advertises are exactly the ones `handle` recognises, each sent to
      its own handler. */
  lemma CommandsAreHandled()
    ensures Commands()[..2] == [PROTOCOL, "COMMANDS"] && Commands()[2..] == COMMANDS
    ensures forall i :: 2 <= i < |Commands()| ==> Recognized(Commands()[i]) && Normalize(Commands()[i]) in HANDLERS
  {
    forall i | 2 <= i < |Commands()|
      ensures Recognized(Commands()[i]) && Normalize(Commands()[i]) in HANDLERS
    {
      assert Commands()[i] == COMMANDS[i - 2];
      AdvertisedCommandsRecognized(i - 2);
    }
  }

  /** A move answered OK: the token was valid, the distance within its role's limit, and the
      acting part moved it as TravelMoves states. */
  lemma MoveSucceeds(g: Game, token: string, direction: string, distance: Option<string>, draw: nat, fixed: bool)
    requires Inv(g)
    requires Move(g, token, direction, distance, draw, fixed).reply == Respond(["OK"])
    ensures var n := Distance(distance);
      && ValidToken(g.roles, token)
      && 1 <= n && (RoleOf(g.roles, token) == Some("ACTOR") ==> n == 1) && (RoleOf(g.roles, token) == Some("OBSERVER") ==> n <= 2)
      && Move(g, token, direction, distance, draw, fixed) == Travel(g, token, direction, n, draw)
  {
  }

  /** `distance.to_i` reads past a `0d` prefix, so a distance of "0d1" is a distance of 1 and
      goes on to the move itself. */
  lemma PrefixedDistance()
    ensures Distance(Some("0d1")) == 1
  {
    assert "0d1"[2..] == "1";
    ToIDecimalPrefix("0d1", "1");
    assert DigitsValue("1") == 1;
  }

  /** Facing one of the four directions, `move` tries the cell `n` steps along the heading the
      token turns to. */
  lemma TravelSteps(g: Game, token: string, direction: string, n: int, draw: nat)
    requires Inv(g) && ValidToken(g.roles, token) && Upper(direction) in DIRECTIONS
    ensures var (o, g1) := Orientation(g, token, draw);
      && ValidToken(g1.roles, token)
      && var (dx, dy) := Delta(RelativeDirection(o, Upper(direction)));
      && var p := Position(g1, token);
      && var r := Reposition(g1, token, (p.0 + dx * n, p.1 + dy * n));
      && Travel(g, token, direction, n, draw)
         == (if r.Some? then Step(r.value, Respond(["OK"])) else Step(g1, Reject("You cannot move there")))
  {
    var h := Face(g, token, direction, draw);
    LayoutUnchanged(g, h.game);
  }

  /** An attack hits exactly when the feel of the same cell reports something that is not
      intangible: a wall past the edge, or an occupant that is not an observer. */
  lemma ImpactMatchesSensed(g: Game, token: string, facing: string)
    requires Inv(g) && ValidToken(g.roles, token) && facing in ORIENTATIONS
    ensures var felt := Sensed(g, token, facing);
      && (Impact(g, token, facing) == "HIT" || Impact(g, token, facing) == "MISS")
      && (Impact(g, token, facing) == "HIT" <==> exists x :: x in felt && x !in INTANGIBLE)
  {
    var t := Ahead(g, token, facing, 1);
    var felt := Sensed(g, token, facing);
    if InWorld(g, t) {
      var space := CellAt(g, t);
      var roles := RolesIn(g.roles, space);
      if exists x :: x in felt && x !in INTANGIBLE {
        var x :| x in felt && x !in INTANGIBLE;
        var j :| 0 <= j < |space| && roles[j] == x;
        assert !Intangible(g.roles, space[j]);
      }
      if exists j :: 0 <= j < |space| && !Intangible(g.roles, space[j]) {
        var j :| 0 <= j < |space| && !Intangible(g.roles, space[j]);
        assert roles[j] in felt;
      }
    } else {
      assert felt == [g.edge];
    }
  }

  /** The acting parts of `attack` and `feel` turn the token the same way, and the attack hits
      exactly when the feel reports something that is not intangible. */
  lemma StrikeMatchesTouch(g: Game, token: string, direction: string, draw: nat)
    requires Inv(g) && ValidToken(g.roles, token) && Upper(direction) in DIRECTIONS
    ensures var a := Strike(g, token, direction, draw);
      var f := Touch(g, token, direction, draw);
      && a.game == f.game
      && |a.reply| == 2 && a.reply[0] == PROTOCOL && (a.reply[1] == "HIT" || a.reply[1] == "MISS")
      && |f.reply| >= 2 && f.reply[0] == PROTOCOL && f.reply[1] == "FEELS-LIKE"
      && (a.reply[1] == "HIT" <==> exists x :: x in f.reply[2..] && x !in INTANGIBLE)
  {
    var h := Face(g, token, direction, draw);
    var facing := h.facing.value;
    ImpactMatchesSensed(h.game, token, facing);
    var felt := Sensed(h.game, token, facing);
    FacedActs(g, token, direction, draw);
    var r := Respond(["FEELS-LIKE"] + felt);
    assert r[0] == PROTOCOL && r[1] == "FEELS-LIKE" && r[2..] == felt;
  }

  /** Facing one of the four directions, `attack` reports the impact and `feel` what it senses. */
  lemma FacedActs(g: Game, token: string, direction: string, draw: nat)
    requires Inv(g) && ValidToken(g.roles, token) && Upper(direction) in DIRECTIONS
    ensures var h := Face(g, token, direction, draw);
      && h.facing.Some? && ValidToken(h.game.roles, token)
      && Strike(g, token, direction, draw) == Step(h.game, Respond([Impact(h.game, token, h.facing.value)]))
      && Touch(g, token, direction, draw) == Step(h.game, Respond(["FEELS-LIKE"] + Sensed(h.game, token, h.facing.value)))
  {
  }

  /** `attack` and `feel` of a valid token in one of the four directions (in any case) agree,
      as written and corrected alike. */
  lemma AttackMatchesFeel(g: Game, token: string, direction: string, draw: nat, fixed: bool)
    requires Inv(g) && ValidToken(g.roles, token) && Upper(direction) in DIRECTIONS
    ensures Attack(g, token, direction, draw, fixed) == Strike(g, token, direction, draw)
    ensures Feel(g, token, direction, draw, fixed) == Touch(g, token, direction, draw)
  {
    ValidDirectionFixedIff(direction);
    ValidDirectionAcceptsAll(direction);
  }

  /** The orientation is drawn once: later requests see the first draw whatever they draw. */
  lemma OrientationKept(g: Game, token: string, first: nat, later: nat)
    requires Inv(g)
    ensures var (o, g1) := Orientation(g, token, first); Orientation(g1, token, later) == (o, g1)
  {
  }

  // ---------------------------------------------------------------- defects and their corrections

  /** As written, joining as "ACTORS" (any role not already in lower case) is welcomed, but the
      token is filed under the role as given, where `valid?`, `role` and `list` never look: the
      new token is not valid and no list shows it. */
  lemma JoinCaseAsWritten(g: Game, role: string, token: string, draws: seq<Cell>)
    requires Inv(g) && Draws(g, draws)
    requires Upper(role) in ROLES && role != Lower(role) && !ValidToken(g.roles, token)
    ensures var s := Join(g, role, token, draws, false);
      && s.reply == Respond(["WELCOME", token])
      && !ValidToken(s.game.roles, token)
      && List(s.game, role) == List(g, role)
  {
    RoleKeys(role);
    assert Lower("actors") == "actors" && Lower("observers") == "observers";
    assert role != "actors" && role != "observers";
    EnrolPlaces(g, role, token, draws);
  }

  /** "ACTORS" meets the requirements of JoinCaseAsWritten. */
  lemma JoinCaseExample()
    ensures Upper("ACTORS") in ROLES && "ACTORS" != Lower("ACTORS")
  {
    assert Upper("ACTORS") == "ACTORS";
    assert Lower("ACTORS")[0] == 'a';
  }

  /** Corrected, a join in any case makes the fresh token valid with the role asked for, lists it
      last under that role, and places it alone on a cell that was free. */
  lemma JoinFixedValid(g: Game, role: string, token: string, draws: seq<Cell>)
    requires Inv(g) && Draws(g, draws)
    requires Upper(role) in ROLES && !ValidToken(g.roles, token)
    ensures var s := Join(g, role, token, draws, true);
      && s.reply == Respond(["WELCOME", token])
      && Inv(s.game) && ValidToken(s.game.roles, token)
      && RoleOf(s.game.roles, token) == Some(if Upper(role) == "ACTORS" then "ACTOR" else "OBSERVER")
      && List(s.game, role) == Respond(["LIST"] + Listed(g.roles, Lower(role)) + [token])
      && Position(s.game, token) in draws
      && Free(g, Position(s.game, token)) && CellAt(s.game, Position(s.game, token)) == [token]
  {
    RoleKeys(role);
    EnrolPlaces(g, Lower(role), token, draws);
  }

  /** As written, an attack with an unknown token calls the undefined `invald_token!`; the
      NoMethodError is answered "Not Implemented". */
  lemma AttackInvalidTokenAsWritten(g: Game, token: string, direction: string, uuid: string, draws: seq<Cell>, draw: nat)
    requires Inv(g) && !ValidToken(g.roles, token)
    ensures Handle(g, [PROTOCOL, "ATTACK", token, direction], uuid, draws, draw, false) == Step(g, Reject("Not Implemented"))
  {
    AttackRouted(g, token, direction, uuid, draws, draw, false);
  }

  /** Corrected, it is answered "Invalid Token", as `move` and `feel` answer it. */
  lemma AttackInvalidTokenFixed(g: Game, token: string, direction: string, uuid: string, draws: seq<Cell>, draw: nat)
    requires Inv(g) && !ValidToken(g.roles, token)
    ensures Handle(g, [PROTOCOL, "ATTACK", token, direction], uuid, draws, draw, true) == Step(g, Reject("Invalid Token"))
    ensures Handle(g, [PROTOCOL, "FEEL", token, direction], uuid, draws, draw, true) == Step(g, Reject("Invalid Token"))
  {
    AttackRouted(g, token, direction, uuid, draws, draw, true);
    FeelRouted(g, token, direction, uuid, draws, draw, true);
  }

  lemma AttackRouted(g: Game, token: string, direction: string, uuid: string, draws: seq<Cell>, draw: nat, fixed: bool)
    requires Inv(g)
    ensures Handle(g, [PROTOCOL, "ATTACK", token, direction], uuid, draws, draw, fixed) == Attack(g, token, direction, draw, fixed)
  {
    var request := [PROTOCOL, "ATTACK", token, direction];
    assert Acceptable(request[0]);
    AdvertisedCommandsRecognized(6);
    assert request[2..] == [token, direction];
  }

  lemma FeelRouted(g: Game, token: string, direction: string, uuid: string, draws: seq<Cell>, draw: nat, fixed: bool)
    requires Inv(g)
    ensures Handle(g, [PROTOCOL, "FEEL", token, direction], uuid, draws, draw, fixed) == Feel(g, token, direction, draw, fixed)
  {
    var request := [PROTOCOL, "FEEL", token, direction];
    assert Acceptable(request[0]);
    AdvertisedCommandsRecognized(5);
    assert request[2..] == [token, direction];
  }

  /** As written, `valid_direction?` lets every direction through: an unknown one draws and
      stores an orientation for the token and is then answered with the ContractError of
      `relative_direction`. */
  lemma UnknownDirectionAsWritten(g: Game, token: string, direction: string, distance: Option<string>, draw: nat)
    requires Inv(g) && ValidToken(g.roles, token) && Upper(direction) !in DIRECTIONS
    requires Distance(distance) == 1
    ensures Move(g, token, direction, distance, draw, false) == Step(Orientation(g, token, draw).1, Reject(CONTRACT_VIOLATION))
    ensures Feel(g, token, direction, draw, false) == Step(Orientation(g, token, draw).1, Reject(CONTRACT_VIOLATION))
    ensures Attack(g, token, direction, draw, false) == Step(Orientation(g, token, draw).1, Reject(CONTRACT_VIOLATION))
  {
    ValidDirectionAcceptsAll(direction);
  }

  /** As written, the failing direction check of `attack` raises a NameError, which `handle`
      does not rescue, so it would end `listen`. Only `valid_direction?` keeps it unreached: a
      direction such as "UP", which the corrected check refuses, would reach it. */
  lemma InvalidDirectionEscapes()
    ensures InvalidDirectionCall(false) == Raised(NAME_ERROR) && !HandleRescues(NAME_ERROR)
    ensures ValidDirection("UP") && !ValidDirectionFixed("UP")
  {
    ValidDirectionAcceptsAll("UP");
    ValidDirectionFixedIff("UP");
    assert Upper("UP") == "UP";
  }

  /** Corrected, an unknown direction is answered "Invalid Direction" and changes nothing;
      `attack` answers it with the corrected `invalid_direction!`. */
  lemma UnknownDirectionFixed(g: Game, token: string, direction: string, distance: Option<string>, draw: nat)
    requires Inv(g) && ValidToken(g.roles, token) && Upper(direction) !in DIRECTIONS
    ensures Move(g, token, direction, distance, draw, true) == Step(g, Reject("Invalid Direction"))
    ensures Feel(g, token, direction, draw, true) == Step(g, Reject("Invalid Direction"))
    ensures Attack(g, token, direction, draw, true) == Step(g, Reject("Invalid Direction"))
    ensures Attack(g, token, direction, draw, true) == Step(g, InvalidDirectionCall(true).value)
  {
    ValidDirectionFixedIff(direction);
  }
}
