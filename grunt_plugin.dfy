/**
 * The grunt loader plugin: reading a grunt's tunables from the scene
 * properties with defaults, deriving its patrol bounds from its spawn
 * position, choosing the initial state of its state machine from the
 * `initialState` property, and attaching its components to the entity.
 *
 * The properties arrive already parsed: numeric properties as reals and
 * text properties as strings. Assets (skeleton, animation control, physics
 * body) are opaque component payloads.
 */
module Plugins {

  datatype Option<T> = None | Some(value: T)

  /** The scene's custom properties of one grunt item. */
  datatype Properties = Properties(numbers: map<string, real>, texts: map<string, string>)

  /** The grunt component's fields that `load` sets. */
  datatype Grunt = Grunt(
    sightDistance: real,
    walkSpeed: real,
    leftWalkableArea: real,
    rightWalkableArea: real,
    leftAreaWaitSeconds: real,
    rightAreaWaitSeconds: real,
    center: real,
    direction: int)

  /** The AI states the loader can create. */
  datatype State =
    | Patrol(maxX: real, minX: real, speed: real, direction: int, maxXwaitSeconds: real, minXwaitSeconds: real)
    | Sleep

  /** The state-machine component: current state and pending next state, each possibly unset. */
  datatype StateMachine = StateMachine(currentState: Option<State>, nextState: Option<State>)

  /** `map.get(key, default)` on a numeric property. */
  function Number(p: Properties, key: string, default: real): (v: real)
  {
    if key in p.numbers then p.numbers[key] else default
  }

  /** `map.get(key, default)` on a text property. */
  function Text(p: Properties, key: string, default: string): (v: string)
  {
    if key in p.texts then p.texts[key] else default
  }

  /**
   * The grunt component after `load`: each tunable from its property or its
   * default, the center at the entity's x position, and the direction the
   * fresh component starts with.
   */
  function ReadGrunt(p: Properties, center: real, direction: int): (g: Grunt)
  {
    Grunt(
      Number(p, "sightDistance", 7.0),
      Number(p, "walkSpeed", 2.0),
      Number(p, "leftWalkableArea", 0.0),
      Number(p, "rightWalkableArea", 0.0),
      Number(p, "leftAreaWaitSeconds", 1.0),
      Number(p, "rightAreaWaitSeconds", 1.0),
      center,
      direction)
  }

  /** The patrol state built from a grunt. */
  function PatrolFor(g: Grunt): (s: State)
  {
    Patrol(g.center + g.rightWalkableArea, g.center - g.leftWalkableArea, g.walkSpeed, g.direction,
           g.rightAreaWaitSeconds, g.leftAreaWaitSeconds)
  }

  /** The state machine for an `initialState` name: "patrol" and "sleep" start patrolling, "sleep" queues sleep. */
  function ChooseStates(g: Grunt, initialState: string): (sm: StateMachine)
  {
    var state := if initialState == "patrol" || initialState == "sleep" then Some(PatrolFor(g)) else None;
    var next := if initialState == "sleep" then Some(Sleep) else None;
    StateMachine(state, next)
  }

  /** The `initialState` property, "patrol" when absent. */
  function InitialState(p: Properties): (name: string)
  {
    Text(p, "initialState", "patrol")
  }

  /** A property that is absent takes its default; a present one is used as given. */
  lemma ReadGruntDefaults(p: Properties, center: real, direction: int)
    ensures var g := ReadGrunt(p, center, direction);
      && g.sightDistance == (if "sightDistance" in p.numbers then p.numbers["sightDistance"] else 7.0)
      && g.walkSpeed == (if "walkSpeed" in p.numbers then p.numbers["walkSpeed"] else 2.0)
      && g.leftWalkableArea == (if "leftWalkableArea" in p.numbers then p.numbers["leftWalkableArea"] else 0.0)
      && g.rightWalkableArea == (if "rightWalkableArea" in p.numbers then p.numbers["rightWalkableArea"] else 0.0)
      && g.leftAreaWaitSeconds == (if "leftAreaWaitSeconds" in p.numbers then p.numbers["leftAreaWaitSeconds"] else 1.0)
      && g.rightAreaWaitSeconds == (if "rightAreaWaitSeconds" in p.numbers then p.numbers["rightAreaWaitSeconds"] else 1.0)
      && g.center == center && g.direction == direction
    ensures InitialState(p) == (if "initialState" in p.texts then p.texts["initialState"] else "patrol")
  {
  }

  /**
   * The patrol bounds: the walkable area stretches `rightWalkableArea` to
   * the right of the center and `leftWalkableArea` to its left, so it holds
   * the center when both are non-negative; the speed and the direction are
   * the grunt's; the wait times cross over, the right-side wait at `maxX`
   * and the left-side wait at `minX`.
   */
  lemma PatrolBounds(g: Grunt)
    ensures var s := PatrolFor(g);
      && s.maxX - g.center == g.rightWalkableArea
      && g.center - s.minX == g.leftWalkableArea
      && s.maxX - s.minX == g.leftWalkableArea + g.rightWalkableArea
      && (g.leftWalkableArea >= 0.0 && g.rightWalkableArea >= 0.0 ==> s.minX <= g.center <= s.maxX)
      && s.speed == g.walkSpeed && s.direction == g.direction
      && s.maxXwaitSeconds == g.rightAreaWaitSeconds && s.minXwaitSeconds == g.leftAreaWaitSeconds
  {
  }

  /**
   * The initial-state choice: there is a current state exactly for "patrol"
   * and "sleep", and it is then the grunt's patrol; a sleep is pending
   * exactly for "sleep"; nothing else is ever pending.
   */
  lemma ChooseStatesRule(g: Grunt, initialState: string)
    ensures var sm := ChooseStates(g, initialState);
      && (sm.currentState.Some? <==> initialState == "patrol" || initialState == "sleep")
      && (sm.currentState.Some? ==> sm.currentState.value == PatrolFor(g))
      && (sm.nextState.Some? <==> initialState == "sleep")
      && (sm.nextState.Some? ==> sm.nextState.value == Sleep)
  {
  }

  /** With no `initialState` property the grunt patrols with nothing pending. */
  lemma DefaultIsPatrol(p: Properties, center: real, direction: int)
    requires "initialState" !in p.texts
    ensures ChooseStates(ReadGrunt(p, center, direction), InitialState(p))
      == StateMachine(Some(PatrolFor(ReadGrunt(p, center, direction))), None)
  {
  }

  // ---------------------------------------------------------------------------
  // Attaching the components

  /**
   * A component `load` attaches. The physics body, the skeleton and the
   * animation-control data come from assets and are not modelled.
   */
  datatype Component =
    | PhysicsComponent
    | SizeComponent(width: real, height: real)
    | SpineComponent
    | GruntComponent(grunt: Grunt)
    | StateMachineComponent(stateMachine: StateMachine)
    | StateComponent(state: State)
    | AnimationControlComponent

  /** The components in the order `load` adds them; the state slot is missing when no state was chosen. */
  function LoadedComponents(g: Grunt, sm: StateMachine): (cs: seq<Component>)
  {
    [PhysicsComponent, SizeComponent(2.0, 2.0), SpineComponent, GruntComponent(g), StateMachineComponent(sm)]
    + (if sm.currentState.Some? then [StateComponent(sm.currentState.value), AnimationControlComponent] else [])
  }

  /** An entity of the scene: its transform's x position and the components attached to it. */
  class Entity {
    const positionX: real
    var components: seq<Component>

    constructor (positionX: real)
      ensures this.positionX == positionX && components == []
    {
      this.positionX := positionX;
      components := [];
    }

    /** `entity.add`: attaching a null component fails and attaches nothing. */
    method Add(c: Option<Component>) returns (ok: bool)
      modifies this`components
      ensures ok <==> c.Some?
      ensures components == old(components) + (if c.Some? then [c.value] else [])
    {
      if c.Some? {
        components := components + [c.value];
        return true;
      }
      return false;
    }
  }

  /**
   * `load`: builds the grunt and its state machine and attaches the
   * components in order. `completed` is false when no state was chosen: the
   * null state component is refused and `load` stops there.
   */
  method Load(entity: Entity, p: Properties, direction: int) returns (completed: bool, grunt: Grunt, sm: StateMachine)
    modifies entity`components
    ensures grunt == ReadGrunt(p, entity.positionX, direction)
    ensures sm == ChooseStates(grunt, InitialState(p))
    ensures completed <==> sm.currentState.Some?
    ensures entity.components == old(entity.components) + LoadedComponents(grunt, sm)
  {
    grunt := Grunt(
      Number(p, "sightDistance", 7.0),
      Number(p, "walkSpeed", 2.0),
      Number(p, "leftWalkableArea", 0.0),
      Number(p, "rightWalkableArea", 0.0),
      Number(p, "leftAreaWaitSeconds", 1.0),
      Number(p, "rightAreaWaitSeconds", 1.0),
      entity.positionX,
      direction);

    var initialState := Text(p, "initialState", "patrol");
    var state: Option<State> := None;
    if initialState == "patrol" || initialState == "sleep" {
      var patrol := Patrol(grunt.center + grunt.rightWalkableArea, grunt.center - grunt.leftWalkableArea,
                           grunt.walkSpeed, grunt.direction,
                           grunt.rightAreaWaitSeconds, grunt.leftAreaWaitSeconds);
      state := Some(patrol);
    }
    var nextState: Option<State> := None;
    if initialState == "sleep" {
      nextState := Some(Sleep);
    }
    sm := StateMachine(state, nextState);

    var ok;
    ok := entity.Add(Some(PhysicsComponent));
    ok := entity.Add(Some(SizeComponent(2.0, 2.0)));
    ok := entity.Add(Some(SpineComponent));
    ok := entity.Add(Some(GruntComponent(grunt)));
    ok := entity.Add(Some(StateMachineComponent(sm)));
    ok := entity.Add(if state.Some? then Some(StateComponent(state.value)) else None);
    if !ok {
      return false, grunt, sm;
    }
    ok := entity.Add(Some(AnimationControlComponent));
    completed := true;
  }

  /**
   * What `load` attaches: physics, a 2 by 2 size, spine, the grunt, the
   * state machine, then, when a state was chosen, that state and the
   * animation control; for any other `initialState` only the first five.
   */
  lemma LoadedComponentsOrder(g: Grunt, sm: StateMachine)
    ensures var cs := LoadedComponents(g, sm);
      && |cs| == (if sm.currentState.Some? then 7 else 5)
      && cs[0] == PhysicsComponent && cs[1] == SizeComponent(2.0, 2.0) && cs[2] == SpineComponent
      && cs[3] == GruntComponent(g) && cs[4] == StateMachineComponent(sm)
      && (sm.currentState.Some? ==> cs[5] == StateComponent(sm.currentState.value) && cs[6] == AnimationControlComponent)
  {
  }
}
