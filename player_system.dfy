/**
 * The player system: grounding by counting the contacts of each player's
 * feet sensor with level geometry, the jump flag driven by the UP key, and
 * the per-tick movement controller.
 *
 * Box2D is not modelled. Whether a contact involves a given fixture is the
 * injected test `matches`; the body is a log of the commands the controller
 * issues (impulse, velocity set, transform) next to the snapshot of position,
 * velocity and angle it reads; the held keys are an injected snapshot.
 */
module Agents {
  import opened Input

  /** A Box2D fixture, by identity. */
  type FixtureId = int

  /** A Box2D contact as the listener sees it: which contact, and whether its fixtures touch. */
  datatype Contact = Contact(id: int, touching: bool)

  /** The test "this contact involves this fixture" the listener applies. */
  type FixtureMatch = (Contact, FixtureId) -> bool

  // ---------------------------------------------------------------------------
  // Grounding

  /** The grounding state of one player: its counter, its flag, and the friction of its body fixture. */
  datatype Grounding = Grounding(feetContacts: int, grounded: bool, friction: real)

  /** `beginContact` on a contact with the player's feet sensor. */
  function OnFeetBegin(g: Grounding, groundFriction: real): (r: Grounding)
  {
    var n := g.feetContacts + 1;
    Grounding(n, n > 0, groundFriction)
  }

  /** `endContact` on a contact with the player's feet sensor. */
  function OnFeetEnd(g: Grounding): (r: Grounding)
  {
    var n := g.feetContacts - 1;
    Grounding(n, n > 0, if n > 0 then g.friction else 0.0)
  }

  /** A contact callback delivered to the listener. */
  datatype ContactEvent = Begin(contact: Contact) | End(contact: Contact)

  /** How one player's grounding reacts to one callback: only a contact with its feet sensor counts. */
  function OnContact(g: Grounding, e: ContactEvent, feetSensor: FixtureId, groundFriction: real,
                     matches: FixtureMatch): (r: Grounding)
  {
    if !matches(e.contact, feetSensor) then g
    else match e
      case Begin(_) => OnFeetBegin(g, groundFriction)
      case End(_) => OnFeetEnd(g)
  }

  /** A sequence of callbacks, in delivery order. */
  function Replay(g: Grounding, events: seq<ContactEvent>, feetSensor: FixtureId, groundFriction: real,
                  matches: FixtureMatch): (r: Grounding)
    decreases |events|
  {
    if events == [] then g
    else Replay(OnContact(g, events[0], feetSensor, groundFriction, matches), events[1..],
                feetSensor, groundFriction, matches)
  }

  /** The callbacks of one kind that involve the feet sensor. */
  function Matched(events: seq<ContactEvent>, begins: bool, feetSensor: FixtureId, matches: FixtureMatch): (n: nat)
    decreases |events|
  {
    if events == [] then 0
    else
      (if events[0].Begin? == begins && matches(events[0].contact, feetSensor) then 1 else 0)
      + Matched(events[1..], begins, feetSensor, matches)
  }

  /**
   * The state the listener maintains: `grounded` is exactly "the counter is
   * positive", and a grounded player's fixture has the ground friction.
   */
  ghost predicate Consistent(g: Grounding, groundFriction: real)
  {
    && g.grounded == (g.feetContacts > 0)
    && (g.grounded ==> g.friction == groundFriction)
  }

  /**
   * After any sequence of callbacks the counter is the initial one plus the
   * feet-sensor begins minus the feet-sensor ends, with no clamp; as soon as
   * one of them has been seen, `grounded` is "the counter is positive";
   * callbacks that do not involve the feet sensor change nothing; and the
   * consistency of the state is preserved.
   */
  lemma {:induction false} ReplayCounts(g: Grounding, events: seq<ContactEvent>, feetSensor: FixtureId,
                                        groundFriction: real, matches: FixtureMatch)
    ensures var r := Replay(g, events, feetSensor, groundFriction, matches);
      var begins := Matched(events, true, feetSensor, matches);
      var ends := Matched(events, false, feetSensor, matches);
      && r.feetContacts == g.feetContacts + begins - ends
      && (begins + ends > 0 ==> (r.grounded <==> r.feetContacts > 0))
      && (begins + ends == 0 ==> r == g)
      && (Consistent(g, groundFriction) ==> Consistent(r, groundFriction))
    decreases |events|
  {
    if events != [] {
      var g' := OnContact(g, events[0], feetSensor, groundFriction, matches);
      ReplayCounts(g', events[1..], feetSensor, groundFriction, matches);
    }
  }

  /** Two begins and one end leave the player grounded with the ground friction. */
  lemma BeginBeginEndStaysGrounded(c: Contact, feetSensor: FixtureId, friction: real, groundFriction: real,
                                   matches: FixtureMatch)
    requires matches(c, feetSensor)
    ensures var r := Replay(Grounding(0, false, friction), [Begin(c), Begin(c), End(c)],
                            feetSensor, groundFriction, matches);
      r == Grounding(1, true, groundFriction)
  {
    var evs := [Begin(c), Begin(c), End(c)];
    var g0 := Grounding(0, false, friction);
    var g1 := OnFeetBegin(g0, groundFriction);
    var g2 := OnFeetBegin(g1, groundFriction);
    var g3 := OnFeetEnd(g2);
    assert g3 == Grounding(1, true, groundFriction);
    assert evs[1..] == [Begin(c), End(c)] && evs[1..][1..] == [End(c)] && evs[1..][1..][1..] == [];
    assert Replay(g3, [], feetSensor, groundFriction, matches) == g3;
    assert Replay(g2, [End(c)], feetSensor, groundFriction, matches) == g3;
    assert Replay(g1, [Begin(c), End(c)], feetSensor, groundFriction, matches) == g3;
  }

  /** An end without a matching begin drives the counter below zero: the player is airborne with no friction. */
  lemma UnmatchedEndGoesNegative(c: Contact, feetSensor: FixtureId, friction: real, groundFriction: real,
                                 matches: FixtureMatch)
    requires matches(c, feetSensor)
    ensures var r := Replay(Grounding(0, false, friction), [End(c)], feetSensor, groundFriction, matches);
      r == Grounding(-1, false, 0.0)
  {
    assert [End(c)][1..] == [];
  }

  // ---------------------------------------------------------------------------
  // Movement

  datatype Vec = Vec(x: real, y: real)

  /** A command the controller issues to the player's body. */
  datatype BodyCommand =
    | ApplyLinearImpulse(impulse: Vec, point: Vec, wake: bool)
    | SetLinearVelocity(velocity: Vec)
    | SetTransform(position: Vec, angle: real)

  /** Which of LEFT and RIGHT are held during this tick (`Gdx.input.isKeyPressed`). */
  datatype KeyState = KeyState(left: bool, right: bool)

  /** The player's movement tunables. */
  datatype Tuning = Tuning(maxVelocityX: real, maxVelocityJumpX: real, horizontalImpulse: real,
                           verticalImpulse: real)

  function Abs(x: real): (a: real) { if x < 0.0 then -x else x }

  /** `Math.signum`. */
  function Signum(x: real): (sign: real) { if x > 0.0 then 1.0 else if x < 0.0 then -1.0 else 0.0 }

  /** The horizontal speed cap: on the ground and in the air. */
  function SpeedCap(grounded: bool, t: Tuning): (cap: real)
  {
    if grounded then t.maxVelocityX else t.maxVelocityJumpX
  }

  /** Horizontal movement: LEFT is checked first, RIGHT only when LEFT is not held. */
  function HorizontalCommands(keys: KeyState, position: Vec, velocity: Vec, cap: real, t: Tuning): (h: seq<BodyCommand>)
  {
    var moving := Abs(velocity.x) >= 0.5;
    if keys.left then
      (if Abs(velocity.x) < cap then [ApplyLinearImpulse(Vec(-t.horizontalImpulse, 0.0), position, true)] else [])
      + (if moving && Signum(velocity.x) > 0.0 then [SetLinearVelocity(Vec(0.0, velocity.y))] else [])
    else if keys.right then
      (if Abs(velocity.x) < cap then [ApplyLinearImpulse(Vec(t.horizontalImpulse, 0.0), position, true)] else [])
      + (if moving && Signum(velocity.x) < 0.0 then [SetLinearVelocity(Vec(0.0, velocity.y))] else [])
    else []
  }

  /** Jumping: stop vertical motion, lift the body by 0.1, push it up. */
  function JumpCommands(fires: bool, position: Vec, velocity: Vec, angle: real, t: Tuning): (cmds: seq<BodyCommand>)
  {
    if fires then
      [SetLinearVelocity(Vec(velocity.x, 0.0)),
       SetTransform(Vec(position.x, position.y + 0.1), angle),
       ApplyLinearImpulse(Vec(0.0, t.verticalImpulse), position, true)]
    else []
  }

  /** `Math.signum(x) * cap`, written out by the sign of x. */
  function CapToward(x: real, cap: real): (v: real)
  {
    if x > 0.0 then cap else if x < 0.0 then -cap else 0.0
  }

  /** The clamped speed is the signum product, and its size is the cap whenever x moves and the cap is not negative. */
  lemma CapTowardIsSignedCap(x: real, cap: real)
    ensures CapToward(x, cap) == Signum(x) * cap
    ensures cap >= 0.0 && x != 0.0 ==> Abs(CapToward(x, cap)) == cap
  {
  }

  /** The horizontal clamp, on the velocity read at the start of the tick. */
  function ClampCommands(velocity: Vec, cap: real): (cmds: seq<BodyCommand>)
  {
    if Abs(velocity.x) > cap then [SetLinearVelocity(Vec(CapToward(velocity.x, cap), velocity.y))] else []
  }

  /** Every command `processEntity` issues in one tick, in order. */
  function MovementCommands(grounded: bool, jump: bool, keys: KeyState, position: Vec, velocity: Vec,
                            angle: real, t: Tuning): (cmds: seq<BodyCommand>)
  {
    var cap := SpeedCap(grounded, t);
    HorizontalCommands(keys, position, velocity, cap, t)
    + JumpCommands(grounded && jump, position, velocity, angle, t)
    + ClampCommands(velocity, cap)
  }

  /**
   * The jump fires exactly when the player is grounded and a jump is pending:
   * only then is the body moved, and then with the velocity's vertical part
   * zeroed first, a lift of 0.1, and an upward impulse of `verticalImpulse`;
   * otherwise only the horizontal commands and the clamp are issued.
   */
  lemma JumpFiresExactlyWhenGroundedAndPending(grounded: bool, jump: bool, keys: KeyState, position: Vec,
                                               velocity: Vec, angle: real, t: Tuning)
    ensures var cmds := MovementCommands(grounded, jump, keys, position, velocity, angle, t);
      (exists i :: 0 <= i < |cmds| && cmds[i].SetTransform?) <==> grounded && jump
    ensures grounded && jump ==>
      var cap := SpeedCap(grounded, t);
      MovementCommands(grounded, jump, keys, position, velocity, angle, t)
        == HorizontalCommands(keys, position, velocity, cap, t)
           + [SetLinearVelocity(Vec(velocity.x, 0.0)),
              SetTransform(Vec(position.x, position.y + 0.1), angle),
              ApplyLinearImpulse(Vec(0.0, t.verticalImpulse), position, true)]
           + ClampCommands(velocity, cap)
    ensures !(grounded && jump) ==>
      var cap := SpeedCap(grounded, t);
      MovementCommands(grounded, jump, keys, position, velocity, angle, t)
        == HorizontalCommands(keys, position, velocity, cap, t) + ClampCommands(velocity, cap)
  {
    var cap := SpeedCap(grounded, t);
    var hc := HorizontalCommands(keys, position, velocity, cap, t);
    var jc := JumpCommands(grounded && jump, position, velocity, angle, t);
    var cc := ClampCommands(velocity, cap);
    var cmds := hc + jc + cc;
    assert forall i :: 0 <= i < |hc| ==> !hc[i].SetTransform?;
    assert forall i :: 0 <= i < |cc| ==> !cc[i].SetTransform?;
    if grounded && jump {
      assert cmds[|hc| + 1] == jc[1];
    } else {
      forall i | 0 <= i < |cmds|
        ensures !cmds[i].SetTransform?
      {
        assert cmds[i] == if i < |hc| then hc[i] else cc[i - |hc|];
      }
    }
  }

  /**
   * Horizontal pushes: a key impulse is applied only below the speed cap, to
   * the left for LEFT and to the right for RIGHT; pressing against a motion
   * of at least 0.5 zeroes the horizontal velocity, and nothing else does;
   * and LEFT wins over RIGHT. At most one impulse and one stop are issued,
   * the impulse first, so the stop cancels the impulse's horizontal effect.
   */
  lemma HorizontalRule(keys: KeyState, position: Vec, velocity: Vec, cap: real, t: Tuning)
    ensures var h := HorizontalCommands(keys, position, velocity, cap, t);
      && ((exists i :: 0 <= i < |h| && h[i].ApplyLinearImpulse?) <==> (keys.left || keys.right) && Abs(velocity.x) < cap)
      && (forall i :: 0 <= i < |h| && h[i].ApplyLinearImpulse? ==>
            h[i].impulse == Vec(if keys.left then -t.horizontalImpulse else t.horizontalImpulse, 0.0))
      && (SetLinearVelocity(Vec(0.0, velocity.y)) in h <==>
            (keys.left && velocity.x >= 0.5) || (!keys.left && keys.right && velocity.x <= -0.5))
      && (keys.left ==> h == HorizontalCommands(KeyState(true, false), position, velocity, cap, t))
      && (!keys.left && !keys.right ==> h == [])
      && |h| <= 2
      && (forall i :: 0 <= i < |h| ==> h[i].ApplyLinearImpulse? || h[i] == SetLinearVelocity(Vec(0.0, velocity.y)))
      && (|h| == 2 ==> h[0].ApplyLinearImpulse? && h[1].SetLinearVelocity?)
  {
    var h := HorizontalCommands(keys, position, velocity, cap, t);
    if (keys.left || keys.right) && Abs(velocity.x) < cap {
      assert h[0].ApplyLinearImpulse?;
    }
  }

  /**
   * The clamp: when the horizontal speed read at the start of the tick exceeds
   * the cap, one command is appended after the horizontal and jump commands,
   * and it sets the velocity to the cap in the same direction, keeping the
   * vertical velocity of that snapshot; otherwise nothing is appended.
   */
  lemma ClampRule(grounded: bool, jump: bool, keys: KeyState, position: Vec, velocity: Vec, angle: real, t: Tuning)
    ensures var cmds := MovementCommands(grounded, jump, keys, position, velocity, angle, t);
      var cap := SpeedCap(grounded, t);
      && (Abs(velocity.x) > cap ==>
            && cmds == HorizontalCommands(keys, position, velocity, cap, t)
                       + JumpCommands(grounded && jump, position, velocity, angle, t)
                       + [SetLinearVelocity(Vec(CapToward(velocity.x, cap), velocity.y))]
            && (cap >= 0.0 ==> Abs(CapToward(velocity.x, cap)) == cap))
      && (Abs(velocity.x) <= cap ==>
            cmds == HorizontalCommands(keys, position, velocity, cap, t)
                    + JumpCommands(grounded && jump, position, velocity, angle, t))
  {
  }

  // ---------------------------------------------------------------------------
  // The player component and the body

  /** The player component of one entity. */
  class Player {
    const feetSensor: FixtureId
    const fixture: FixtureId
    const groundFriction: real
    const tuning: Tuning
    var feetContacts: int
    var grounded: bool
    var jump: bool
    var friction: real   // the friction of `fixture`, written by the contact listener

    function GroundingState(): Grounding
      reads this
    {
      Grounding(feetContacts, grounded, friction)
    }

    constructor (feetSensor: FixtureId, fixture: FixtureId, groundFriction: real, tuning: Tuning, friction: real)
      ensures this.feetSensor == feetSensor && this.fixture == fixture
      ensures this.groundFriction == groundFriction && this.tuning == tuning
      ensures GroundingState() == Grounding(0, false, friction) && !jump
    {
      this.feetSensor := feetSensor;
      this.fixture := fixture;
      this.groundFriction := groundFriction;
      this.tuning := tuning;
      feetContacts := 0;
      grounded := false;
      jump := false;
      this.friction := friction;
    }
  }

  /** The player's Box2D body: the snapshot the controller reads and the log of commands it issues. */
  class Body {
    var position: Vec
    var velocity: Vec
    var angle: real
    var commands: seq<BodyCommand>

    constructor (position: Vec, velocity: Vec, angle: real)
      ensures this.position == position && this.velocity == velocity && this.angle == angle
      ensures commands == []
    {
      this.position := position;
      this.velocity := velocity;
      this.angle := angle;
      commands := [];
    }

    method Issue(c: BodyCommand)
      modifies this`commands
      ensures commands == old(commands) + [c]
    {
      commands := commands + [c];
    }

    /** The horizontal-movement block of `processEntity`, on the snapshot. */
    method MoveHorizontally(keys: KeyState, maxVelocityX: real, t: Tuning)
      modifies this`commands
      ensures commands == old(commands) + HorizontalCommands(keys, position, velocity, maxVelocityX, t)
    {
      var absVelX := Abs(velocity.x);
      var velocitySign := Signum(velocity.x);
      var moving := absVelX >= 0.5;
      if keys.left {
        if absVelX < maxVelocityX {
          Issue(ApplyLinearImpulse(Vec(-t.horizontalImpulse, 0.0), position, true));
        }
        if moving && velocitySign > 0.0 {
          Issue(SetLinearVelocity(Vec(0.0, velocity.y)));
        }
      } else if keys.right {
        if absVelX < maxVelocityX {
          Issue(ApplyLinearImpulse(Vec(t.horizontalImpulse, 0.0), position, true));
        }
        if moving && velocitySign < 0.0 {
          Issue(SetLinearVelocity(Vec(0.0, velocity.y)));
        }
      }
    }

    /** The jumping block of `processEntity`, when it fires. */
    method Jump(fires: bool, t: Tuning)
      modifies this`commands
      ensures commands == old(commands) + JumpCommands(fires, position, velocity, angle, t)
    {
      if fires {
        Issue(SetLinearVelocity(Vec(velocity.x, 0.0)));
        Issue(SetTransform(Vec(position.x, position.y + 0.1), angle));
        Issue(ApplyLinearImpulse(Vec(0.0, t.verticalImpulse), position, true));
      }
    }

    /** The clamp block of `processEntity`. */
    method ClampVelocity(maxVelocityX: real)
      modifies this`commands
      ensures commands == old(commands) + ClampCommands(velocity, maxVelocityX)
    {
      if Abs(velocity.x) > maxVelocityX {
        Issue(SetLinearVelocity(Vec(CapToward(velocity.x, maxVelocityX), velocity.y)));
      } else {
        assert ClampCommands(velocity, maxVelocityX) == [];
      }
    }
  }

  // ---------------------------------------------------------------------------
  // The system

  class PlayerSystem {
    /** The entities of the system's family, through their player components. */
    var players: seq<Player>

    /** Each entity has its own player component. */
    ghost predicate Valid()
      reads this
    {
      forall i, j :: 0 <= i < j < |players| ==> players[i] != players[j]
    }

    constructor (players: seq<Player>)
      requires forall i, j :: 0 <= i < j < |players| ==> players[i] != players[j]
      ensures Valid() && this.players == players
    {
      this.players := players;
    }

    /** `beginContact`: every player whose feet sensor the contact involves gains one contact. */
    method BeginContact(c: Contact, matches: FixtureMatch)
      requires Valid()
      modifies set p | p in players
      ensures forall p :: p in players ==>
        p.GroundingState() == (if matches(c, p.feetSensor) then OnFeetBegin(old(p.GroundingState()), p.groundFriction)
                               else old(p.GroundingState()))
      ensures forall p :: p in players ==> p.jump == old(p.jump)
    {
      var i := 0;
      while i < |players|
        invariant 0 <= i <= |players|
        invariant forall k :: 0 <= k < i ==>
          players[k].GroundingState() ==
            (if matches(c, players[k].feetSensor) then OnFeetBegin(old(players[k].GroundingState()), players[k].groundFriction)
             else old(players[k].GroundingState()))
        invariant forall k :: i <= k < |players| ==> players[k].GroundingState() == old(players[k].GroundingState())
        invariant forall k :: 0 <= k < |players| ==> players[k].jump == old(players[k].jump)
      {
        var player := players[i];
        if matches(c, player.feetSensor) {
          player.feetContacts := player.feetContacts + 1;
          player.grounded := player.feetContacts > 0;
          player.friction := player.groundFriction;
        }
        i := i + 1;
      }
    }

    /** `endContact`: every player whose feet sensor the contact involves loses one contact. */
    method EndContact(c: Contact, matches: FixtureMatch)
      requires Valid()
      modifies set p | p in players
      ensures forall p :: p in players ==>
        p.GroundingState() == (if matches(c, p.feetSensor) then OnFeetEnd(old(p.GroundingState()))
                               else old(p.GroundingState()))
      ensures forall p :: p in players ==> p.jump == old(p.jump)
    {
      var i := 0;
      while i < |players|
        invariant 0 <= i <= |players|
        invariant forall k :: 0 <= k < i ==>
          players[k].GroundingState() ==
            (if matches(c, players[k].feetSensor) then OnFeetEnd(old(players[k].GroundingState()))
             else old(players[k].GroundingState()))
        invariant forall k :: i <= k < |players| ==> players[k].GroundingState() == old(players[k].GroundingState())
        invariant forall k :: 0 <= k < |players| ==> players[k].jump == old(players[k].jump)
      {
        var player := players[i];
        if matches(c, player.feetSensor) {
          player.feetContacts := player.feetContacts - 1;
          player.grounded := player.feetContacts > 0;
          if !player.grounded {
            player.friction := 0.0;
          }
        }
        i := i + 1;
      }
    }

    /**
     * `preSolve`: for each player in turn, `contact.resetFriction()` is called
     * exactly when the contact involves the player's body fixture, the player
     * is grounded and the contact is touching. `resets[k]` says whether it was
     * called for the k-th player. Nothing else changes.
     */
    method PreSolve(c: Contact, matches: FixtureMatch) returns (resets: seq<bool>)
      ensures |resets| == |players|
      ensures forall k :: 0 <= k < |players| ==>
        (resets[k] <==> matches(c, players[k].fixture) && players[k].grounded && c.touching)
    {
      resets := [];
      var i := 0;
      while i < |players|
        invariant 0 <= i <= |players| && |resets| == i
        invariant forall k :: 0 <= k < i ==>
          (resets[k] <==> matches(c, players[k].fixture) && players[k].grounded && c.touching)
      {
        var player := players[i];
        var reset := false;
        if matches(c, player.fixture) {
          if player.grounded && c.touching {
            reset := true;
          }
        }
        resets := resets + [reset];
        i := i + 1;
      }
    }

    /**
     * `processEntity`: from one snapshot of the body and the held keys, issue
     * the movement commands in order and consume a pending jump if it fired.
     */
    method ProcessEntity(player: Player, body: Body, keys: KeyState)
      modifies player`jump, body`commands
      ensures body.commands == old(body.commands)
        + MovementCommands(player.grounded, old(player.jump), keys, body.position, body.velocity, body.angle,
                           player.tuning)
      ensures player.jump == (old(player.jump) && !player.grounded)
    {
      var t := player.tuning;
      var maxVelocityX := if player.grounded then t.maxVelocityX else t.maxVelocityJumpX;
      body.MoveHorizontally(keys, maxVelocityX, t);
      var fires := player.grounded && player.jump;
      if fires {
        player.jump := false;
      }
      body.Jump(fires, t);
      body.ClampVelocity(maxVelocityX);
    }

    /**
     * The system's input callbacks: `keyDown(UP)` sets every player's jump
     * flag, `keyUp(UP)` clears it, every other callback changes nothing, and
     * none reports the event handled.
     */
    method HandleInput(e: InputEvent) returns (handled: bool)
      requires Valid()
      modifies set p | p in players
      ensures !handled
      ensures forall p :: p in players ==>
        p.jump == (if e == KeyDown(KeyCodeUp) then true else if e == KeyUp(KeyCodeUp) then false else old(p.jump))
      ensures forall p :: p in players ==> p.GroundingState() == old(p.GroundingState())
    {
      if e == KeyDown(KeyCodeUp) || e == KeyUp(KeyCodeUp) {
        var value := e.KeyDown?;
        var i := 0;
        while i < |players|
          invariant 0 <= i <= |players|
          invariant forall k :: 0 <= k < i ==> players[k].jump == value
          invariant forall k :: i <= k < |players| ==> players[k].jump == old(players[k].jump)
          invariant forall k :: 0 <= k < |players| ==> players[k].GroundingState() == old(players[k].GroundingState())
        {
          players[i].jump := value;
          i := i + 1;
        }
      }
      return false;
    }
  }
}
