/**
 * The skeleton enemy (Scripts/Skeleton/EnemyAI.cs): a per-frame state
 * handler over Idle / Roaming / Chasing / Attacking / Death, a distance-based
 * state selection with speed and path changes on the transition edge, a
 * roaming countdown that picks a new wander target, and a rate-limited
 * attack event.
 *
 * The engine is outside the model: every frame supplies `Time.deltaTime`,
 * `Time.time`, the enemy's and the player's position, the distance between
 * them, the random direction and distance, the NavMesh sampler and whether
 * the agent is on the NavMesh. Commands to the NavMeshAgent are recorded in
 * `commands`; raised OnEnemyAttack events in `attackEvents` (by time).
 *
 * The pure functions below (Select, Reselect, RoamSpec, AttackSpec,
 * TickSpec, Run) are the specification: every method of EnemyAI is proved
 * to move its abstract view exactly as they say, and the properties are
 * lemmas about them.
 */
module Skeleton {
  import opened Basics
  import opened Timing

  datatype State = Idle | Roaming | Chasing | Attacking | Death

  /** A call on the NavMeshAgent. */
  datatype AgentCommand = SetDestination(target: Point) | ResetPath | SetSpeed(speed: real)

  /** `_chasingDistance` */
  const ChasingDistance: real := 4.0
  /** `_chasingSpeedMyltiplayer` (2): declared and never read. */
  const ChasingSpeedMyltiplayer: real := 2.0
  /** `_attackingDistance` (2): declared and never read; the selection reads `attackingDistance`. */
  const AttackingDistance: real := 2.0
  /** `_attackRate` */
  const AttackRate: real := 2.0
  /** The maxDistance NavMesh.SamplePosition is given. */
  const SampleRadius: real := 2.0

  /**
   * The selection of GetCurrentState: Roaming, overridden by Chasing when
   * chasing is on and the player is within chasingDistance, overridden in
   * turn by Attacking when attacking is on and the player is within
   * attackingDistance.
   */
  function Select(isChasingEnemy: bool, chasingDistance: real, isAttackingEnemy: bool, attackingDistance: real,
                  distance: real): (r: State)
    ensures r == Attacking <==> isAttackingEnemy && distance <= attackingDistance
    ensures r == Chasing <==>
      isChasingEnemy && distance <= chasingDistance && !(isAttackingEnemy && distance <= attackingDistance)
    ensures r == Roaming <==>
      !(isChasingEnemy && distance <= chasingDistance) && !(isAttackingEnemy && distance <= attackingDistance)
    ensures r != Idle && r != Death
  {
    var afterChase := if isChasingEnemy && distance <= chasingDistance then Chasing else Roaming;
    if isAttackingEnemy && distance <= attackingDistance then Attacking else afterChase
  }

  /** With both checks on and the ranges 4 and 2, a player at 1.5 is attacked, not chased. */
  lemma AttackWinsWhenBothInRange()
    ensures Select(true, 4.0, true, 2.0, 1.5) == Attacking
  {
  }

  /**
   * `_isAttackingEnemy` and `attackingDistance` are never assigned, so
   * with their default values false and 0 Attacking is never selected.
   */
  lemma UnassignedFieldsNeverAttack(isChasingEnemy: bool, distance: real)
    ensures Select(isChasingEnemy, ChasingDistance, false, 0.0, distance) != Attacking
  {
  }

  /**
   * Even with `_isAttackingEnemy` switched on, the never-assigned
   * `attackingDistance` (0) decides, not `_attackingDistance` (2): a player
   * inside the 2-unit range is not attacked.
   */
  lemma SerializedAttackRangeIgnored(isChasingEnemy: bool, distance: real)
    requires 0.0 < distance <= AttackingDistance
    ensures Select(isChasingEnemy, ChasingDistance, true, 0.0, distance) != Attacking
  {
  }

  /** The yaw ChangeFacingDirection gives: 180 exactly when the target is to the left. */
  function FacingYaw(source: Point, target: Point): (yaw: int)
    ensures yaw == 0 || yaw == 180
    ensures yaw == 180 <==> source.x > target.x
  {
    if source.x > target.x then 180 else 0
  }

  /** The per-instance configuration, fixed from Awake on. */
  datatype Config = Config(
    startingState: State,
    roamingDistanceMax: real,
    roamingDistanceMin: real,
    roamingTimerMax: real,
    isChasingEnemy: bool,
    isAttackChasingEnemy: bool,
    isAttackingEnemy: bool,
    attackingDistance: real,
    chasingSpeedMultiplayer: real,
    hasAgent: bool,
    roamingSpeed: real,
    chasingSpeed: real,
    startingPosition: Point)

  /** The fields the enemy updates. */
  datatype View = View(
    currentState: State,
    roamingTimer: real,
    nextAttackTime: real,
    roamPosition: Point,
    rotationY: int,
    agentSpeed: real,
    commands: seq<AgentCommand>,
    attackEvents: seq<real>)

  /** What the engine supplies for one Update. */
  datatype Frame = Frame(
    dt: real,
    time: real,
    position: Point,
    playerPosition: Point,
    distanceToPlayer: real,
    randomDir: Point,
    randomDistance: real,
    sample: (Point, real) -> Option<Point>,
    onNavMesh: bool)

  /**
   * GetCurrentState on view v: the selected state, and the view after the
   * edge effects when the state changes.
   */
  function Reselect(c: Config, v: View, distance: real): (r: (State, View))
    ensures r.0 == Select(c.isChasingEnemy, ChasingDistance, c.isAttackingEnemy, c.attackingDistance, distance)
    ensures r.1.currentState == r.0
    ensures r.1.attackEvents == v.attackEvents && r.1.nextAttackTime == v.nextAttackTime
    ensures r.1.roamPosition == v.roamPosition && r.1.rotationY == v.rotationY
    ensures v.commands <= r.1.commands
  {
    var s := Select(c.isChasingEnemy, ChasingDistance, c.isAttackingEnemy, c.attackingDistance, distance);
    if s == v.currentState then (s, v)
    else if s == Chasing then
      (s, v.(currentState := s, agentSpeed := c.chasingSpeed, commands := v.commands + [ResetPath, SetSpeed(c.chasingSpeed)]))
    else if s == Roaming then
      (s, v.(currentState := s, roamingTimer := 0.0, agentSpeed := c.roamingSpeed,
             commands := v.commands + [SetSpeed(c.roamingSpeed)]))
    else
      (s, v.(currentState := s, commands := v.commands + [ResetPath]))
  }

  /** GetRoamingPosition: the sampled NavMesh point near the random target, else the minimum-distance point. */
  function RoamingPosition(c: Config, f: Frame): (p: Point)
    ensures var target := Add(c.startingPosition, Scale(f.randomDir, f.randomDistance));
      f.sample(target, SampleRadius).Some? ==> p == f.sample(target, SampleRadius).value
    ensures var target := Add(c.startingPosition, Scale(f.randomDir, f.randomDistance));
      f.sample(target, SampleRadius).None? ==> p == Add(c.startingPosition, Scale(f.randomDir, c.roamingDistanceMin))
  {
    var target := Add(c.startingPosition, Scale(f.randomDir, f.randomDistance));
    match f.sample(target, SampleRadius)
    case Some(hit) => hit
    case None => Add(c.startingPosition, Scale(f.randomDir, c.roamingDistanceMin))
  }

  /** Roaming on view v: nothing without an agent; otherwise pick, face and (on the NavMesh) head for a target. */
  function RoamSpec(c: Config, v: View, f: Frame): (w: View)
    ensures !c.hasAgent ==> w == v
    ensures w.currentState == v.currentState && w.roamingTimer == v.roamingTimer && w.agentSpeed == v.agentSpeed
    ensures w.attackEvents == v.attackEvents && w.nextAttackTime == v.nextAttackTime
    ensures c.hasAgent ==> w.roamPosition == RoamingPosition(c, f)
    ensures c.hasAgent ==> w.rotationY == FacingYaw(f.position, w.roamPosition)
    ensures c.hasAgent ==> w.commands == v.commands + (if f.onNavMesh then [SetDestination(w.roamPosition)] else [])
  {
    if !c.hasAgent then v
    else
      var p := RoamingPosition(c, f);
      v.(roamPosition := p, rotationY := FacingYaw(f.position, p),
         commands := v.commands + if f.onNavMesh then [SetDestination(p)] else [])
  }

  /** AttackingTarget on view v at `time`. */
  function AttackSpec(v: View, time: real): (w: View)
    ensures w.attackEvents == v.attackEvents + (if time > v.nextAttackTime then [time] else [])
    ensures w.nextAttackTime == if time > v.nextAttackTime then time + AttackRate else v.nextAttackTime
    ensures w.(attackEvents := v.attackEvents, nextAttackTime := v.nextAttackTime) == v
  {
    if time > v.nextAttackTime then
      v.(attackEvents := v.attackEvents + [time], nextAttackTime := time + AttackRate)
    else v
  }

  /** StateHandler on view v for frame f: the new view and how the frame ended. */
  function TickSpec(c: Config, v: View, f: Frame): (r: (View, TickOutcome))
    ensures r.1.Threw? <==> v.currentState == Attacking || (v.currentState == Chasing && !c.hasAgent)
    ensures v.currentState != Chasing ==> r.0.currentState == v.currentState
    ensures v.commands <= r.0.commands && v.attackEvents <= r.0.attackEvents
  {
    match v.currentState
    case Roaming =>
      var timer := v.roamingTimer - f.dt;
      if timer <= 0.0 then (RoamSpec(c, v.(roamingTimer := timer), f).(roamingTimer := c.roamingTimerMax), Completed)
      else (v.(roamingTimer := timer), Completed)
    case Chasing =>
      if !c.hasAgent then (v, Threw(NullReference))
      else (Reselect(c, v.(commands := v.commands + [SetDestination(f.playerPosition)]), f.distanceToPlayer).1, Completed)
    case Attacking => (AttackSpec(v, f.time), Threw(NotImplemented))
    case Death => (v, Completed)
    case Idle => (v, Completed)
  }

  /** A run of frames; an exception ends only its own frame. */
  function Run(c: Config, v: View, frames: seq<Frame>): (w: View)
    ensures v.commands <= w.commands && v.attackEvents <= w.attackEvents
    decreases |frames|
  {
    if frames == [] then v else Run(c, TickSpec(c, v, frames[0]).0, frames[1..])
  }

  /** The chasing speed Awake derives from the agent's speed. */
  ghost predicate ConfigOk(c: Config) {
    && c.chasingSpeed == c.roamingSpeed * c.chasingSpeedMultiplayer
    && (!c.hasAgent ==> c.roamingSpeed == 0.0)
  }

  /**
   * `_chasingSpeedMultiplayer` is never assigned, so an agent with a
   * positive speed chases at speed 0, not at twice its speed as the unused
   * `_chasingSpeedMyltiplayer` suggests.
   */
  lemma ChasingSpeedIgnoresConstant(c: Config)
    requires ConfigOk(c) && c.chasingSpeedMultiplayer == 0.0 && c.roamingSpeed > 0.0
    ensures c.chasingSpeed == 0.0
    ensures c.chasingSpeed != c.roamingSpeed * ChasingSpeedMyltiplayer
  {
  }

  /**
   * What every reachable view satisfies: OnEnemyAttack times are more than
   * the attack rate apart and the next allowed time follows the last one;
   * the agent runs at the roaming or the chasing speed; nothing is sent to
   * a missing agent; the rotation is 0 or 180.
   */
  ghost predicate Inv(c: Config, v: View) {
    && (v.attackEvents == [] ==> v.nextAttackTime == 0.0)
    && (v.attackEvents != [] ==> v.nextAttackTime == v.attackEvents[|v.attackEvents| - 1] + AttackRate)
    && SpacedMoreThan(v.attackEvents, AttackRate)
    && (c.hasAgent ==> v.agentSpeed == c.roamingSpeed || v.agentSpeed == c.chasingSpeed)
    && (!c.hasAgent ==> v.commands == [])
    && (v.rotationY == 0 || v.rotationY == 180)
  }

  /** GetCurrentState changes nothing when the selected state is the current one. */
  lemma ReselectSameStateChangesNothing(c: Config, v: View, distance: real)
    requires Select(c.isChasingEnemy, ChasingDistance, c.isAttackingEnemy, c.attackingDistance, distance) == v.currentState
    ensures Reselect(c, v, distance).1 == v
  {
  }

  /**
   * On a change of state: the state becomes the selected one; entering
   * Chasing resets the path and sets the chasing speed; entering Roaming
   * zeroes the timer and sets the roaming speed; entering Attacking resets
   * the path and keeps the speed. The attack bookkeeping, the roam target
   * and the rotation are untouched.
   */
  lemma ReselectEdgeEffects(c: Config, v: View, distance: real)
    ensures var (s, w) := Reselect(c, v, distance);
      && s == Select(c.isChasingEnemy, ChasingDistance, c.isAttackingEnemy, c.attackingDistance, distance)
      && w.currentState == s
      && w.nextAttackTime == v.nextAttackTime && w.attackEvents == v.attackEvents
      && w.roamPosition == v.roamPosition && w.rotationY == v.rotationY
      && (s != v.currentState && s == Chasing ==>
            w.commands == v.commands + [ResetPath, SetSpeed(c.chasingSpeed)]
            && w.agentSpeed == c.chasingSpeed && w.roamingTimer == v.roamingTimer)
      && (s != v.currentState && s == Roaming ==>
            w.commands == v.commands + [SetSpeed(c.roamingSpeed)]
            && w.agentSpeed == c.roamingSpeed && w.roamingTimer == 0.0)
      && (s != v.currentState && s == Attacking ==>
            w.commands == v.commands + [ResetPath]
            && w.agentSpeed == v.agentSpeed && w.roamingTimer == v.roamingTimer)
  {
  }

  /**
   * A Roaming frame counts the timer down by dt; when it reaches 0 exactly
   * one roam runs (one SetDestination when there is an agent on the NavMesh)
   * and the timer restarts at roamingTimerMax; otherwise no command is sent.
   * The state stays Roaming either way.
   */
  lemma RoamingFrame(c: Config, v: View, f: Frame)
    requires v.currentState == Roaming
    ensures var (w, outcome) := TickSpec(c, v, f);
      && outcome == Completed && w.currentState == Roaming
      && w.attackEvents == v.attackEvents && w.agentSpeed == v.agentSpeed
      && (v.roamingTimer - f.dt <= 0.0 ==>
            w.roamingTimer == c.roamingTimerMax
            && w.commands == v.commands +
                 (if c.hasAgent && f.onNavMesh then [SetDestination(RoamingPosition(c, f))] else []))
      && (v.roamingTimer - f.dt > 0.0 ==>
            w == v.(roamingTimer := v.roamingTimer - f.dt))
  {
  }

  /** A Chasing frame heads for the player, then runs the selection. */
  lemma ChasingFrame(c: Config, v: View, f: Frame)
    requires v.currentState == Chasing && c.hasAgent
    ensures var (w, outcome) := TickSpec(c, v, f);
      var (s, after) := Reselect(c, v.(commands := v.commands + [SetDestination(f.playerPosition)]), f.distanceToPlayer);
      && outcome == Completed && w == after
      && w.currentState == Select(c.isChasingEnemy, ChasingDistance, c.isAttackingEnemy, c.attackingDistance, f.distanceToPlayer)
      && w.commands[..|v.commands| + 1] == v.commands + [SetDestination(f.playerPosition)]
  {
    var (s, after) := Reselect(c, v.(commands := v.commands + [SetDestination(f.playerPosition)]), f.distanceToPlayer);
    assert after.commands[..|v.commands| + 1] == v.commands + [SetDestination(f.playerPosition)];
  }

  /**
   * An Attacking frame raises OnEnemyAttack only when the time is strictly
   * past the next allowed time, then always throws NotImplementedException.
   */
  lemma AttackingFrame(c: Config, v: View, f: Frame)
    requires v.currentState == Attacking
    ensures var (w, outcome) := TickSpec(c, v, f);
      && outcome == Threw(NotImplemented) && w.currentState == Attacking
      && (f.time > v.nextAttackTime ==>
            w.attackEvents == v.attackEvents + [f.time] && w.nextAttackTime == f.time + AttackRate)
      && (f.time <= v.nextAttackTime ==> w == v)
      && w.commands == v.commands && w.agentSpeed == v.agentSpeed
  {
  }

  /** Idle and Death frames change nothing. */
  lemma RestingFrame(c: Config, v: View, f: Frame)
    requires v.currentState == Idle || v.currentState == Death
    ensures TickSpec(c, v, f) == (v, Completed)
  {
  }

  /** With no sampled point, the roam target lies roamingDistanceMin from the start, for a unit direction. */
  lemma FallbackAtMinimumDistance(c: Config, f: Frame)
    requires NormSquared(f.randomDir) == 1.0
    requires f.sample(Add(c.startingPosition, Scale(f.randomDir, f.randomDistance)), SampleRadius).None?
    ensures var p := RoamingPosition(c, f);
      var d := Point(p.x - c.startingPosition.x, p.y - c.startingPosition.y, p.z - c.startingPosition.z);
      NormSquared(d) == c.roamingDistanceMin * c.roamingDistanceMin
  {
    var p := RoamingPosition(c, f);
    assert p == Add(c.startingPosition, Scale(f.randomDir, c.roamingDistanceMin));
  }

  /** One frame keeps the invariant. */
  lemma TickKeepsInv(c: Config, v: View, f: Frame)
    requires ConfigOk(c) && Inv(c, v)
    ensures Inv(c, TickSpec(c, v, f).0)
  {
    var w := TickSpec(c, v, f).0;
    if v.currentState == Attacking && f.time > v.nextAttackTime {
      assert v.attackEvents != [] ==> f.time - v.attackEvents[|v.attackEvents| - 1] > AttackRate;
      AppendSpacedMoreThan(v.attackEvents, AttackRate, f.time);
      assert w.attackEvents == v.attackEvents + [f.time];
    }
  }

  /** Every run keeps the invariant. */
  lemma {:induction false} RunKeepsInv(c: Config, v: View, frames: seq<Frame>)
    requires ConfigOk(c) && Inv(c, v)
    ensures Inv(c, Run(c, v, frames))
    decreases |frames|
  {
    if frames != [] {
      TickKeepsInv(c, v, frames[0]);
      RunKeepsInv(c, TickSpec(c, v, frames[0]).0, frames[1..]);
    }
  }

  /**
   * Only Chasing ever re-selects: from every other state every run stays in
   * that state (Roaming never re-evaluates, Attacking always throws before
   * it could, Idle and Death do nothing).
   */
  lemma {:induction false} OnlyChasingLeaves(c: Config, v: View, frames: seq<Frame>)
    requires v.currentState != Chasing
    ensures Run(c, v, frames).currentState == v.currentState
    decreases |frames|
  {
    if frames != [] {
      OnlyChasingLeaves(c, TickSpec(c, v, frames[0]).0, frames[1..]);
    }
  }

  /** Idle and Death are frozen: every run leaves the view as it was. */
  lemma {:induction false} RestingStatesFrozen(c: Config, v: View, frames: seq<Frame>)
    requires v.currentState == Idle || v.currentState == Death
    ensures Run(c, v, frames) == v
    decreases |frames|
  {
    if frames != [] {
      RestingFrame(c, v, frames[0]);
      RestingStatesFrozen(c, v, frames[1..]);
    }
  }

  /** In any reachable view, any two OnEnemyAttack events are more than the attack rate apart. */
  lemma EnemyAttacksMoreThanRateApart(c: Config, v: View, i: nat, j: nat)
    requires Inv(c, v)
    requires i < j < |v.attackEvents|
    ensures v.attackEvents[j] - v.attackEvents[i] > AttackRate
  {
    AnyTwoMoreThan(v.attackEvents, AttackRate, i, j);
  }

  /**
   * Vector3's `==` is approximate: two vectors are equal when the squared
   * length of their difference is below 1e-5 squared.
   */
  const VectorEpsilonSquared: real := 0.0000000001

  /** Some component of v has size 1e-5 or more. */
  predicate VisiblyNonZero(v: Point) {
    v.x >= 0.00001 || v.x <= -0.00001 || v.y >= 0.00001 || v.y <= -0.00001 || v.z >= 0.00001 || v.z <= -0.00001
  }

  /** A velocity with a component of size 1e-5 or more is not `== Vector3.zero`. */
  lemma VisibleVelocityNotZero(v: Point)
    requires VisiblyNonZero(v)
    ensures NormSquared(v) >= VectorEpsilonSquared
  {
    assert 0.00001 * 0.00001 == VectorEpsilonSquared;
    SquareAtLeast(v.x, 0.0);
    SquareAtLeast(v.y, 0.0);
    SquareAtLeast(v.z, 0.0);
    if v.x >= 0.00001 || v.x <= -0.00001 {
      SquareAtLeast(v.x, 0.00001);
    } else if v.y >= 0.00001 || v.y <= -0.00001 {
      SquareAtLeast(v.y, 0.00001);
    } else {
      SquareAtLeast(v.z, 0.00001);
    }
    var a, b, c := v.x * v.x, v.y * v.y, v.z * v.z;
    assert NormSquared(v) == a + b + c;
  }

  /** With an agent, a standing agent is not running. */
  lemma StandingAgentNotRunning(e: EnemyAI)
    requires e.hasAgent
    ensures e.IsRunning(Point(0.0, 0.0, 0.0)) == Some(false)
  {
    assert NormSquared(Point(0.0, 0.0, 0.0)) == 0.0;
  }

  /** With an agent, a visibly moving agent is running. */
  lemma MovingAgentRunning(e: EnemyAI, v: Point)
    requires e.hasAgent && VisiblyNonZero(v)
    ensures e.IsRunning(v) == Some(true)
  {
    VisibleVelocityNotZero(v);
  }

  class EnemyAI {
    const startingState: State
    const roamingDistanceMax: real
    const roamingDistanceMin: real
    const roamingTimerMax: real
    const isChasingEnemy: bool
    /** `_isAttackChasingEnemy`: serialized and never read. */
    const isAttackChasingEnemy: bool
    /** `_isAttackingEnemy`: read by the selection, never assigned in the source (false). */
    const isAttackingEnemy: bool
    /** `attackingDistance`: read by the selection, never assigned in the source (0). */
    const attackingDistance: real
    /** `_chasingSpeedMultiplayer`: never assigned in the source (0). */
    const chasingSpeedMultiplayer: real
    /** GetComponent<NavMeshAgent>() found an agent. */
    const hasAgent: bool
    const roamingSpeed: real
    const chasingSpeed: real
    const startingPosition: Point

    var currentState: State
    var roamingTimer: real
    var nextAttackTime: real
    var roamPosition: Point
    /** The y Euler angle of `transform.rotation`. */
    var rotationY: int
    /** `navMeshAgent.speed` */
    var agentSpeed: real
    var commands: seq<AgentCommand>
    var attackEvents: seq<real>

    function Settings(): Config {
      Config.Config(startingState, roamingDistanceMax, roamingDistanceMin, roamingTimerMax, isChasingEnemy,
                      isAttackChasingEnemy, isAttackingEnemy, attackingDistance, chasingSpeedMultiplayer, hasAgent,
                      roamingSpeed, chasingSpeed, startingPosition)
    }

    function Snapshot(): View
      reads this
    {
      View.View(currentState, roamingTimer, nextAttackTime, roamPosition, rotationY, agentSpeed, commands,
                    attackEvents)
    }

    ghost predicate Valid()
      reads this
    {
      ConfigOk(Settings()) && Inv(Settings(), Snapshot())
    }

    /**
     * Awake: take the roaming speed from the agent and derive the chasing
     * speed, enter the starting state and remember the starting position.
     */
    constructor (startingState: State, roamingDistanceMax: real, roamingDistanceMin: real, roamingTimerMax: real,
                 isChasingEnemy: bool, isAttackChasingEnemy: bool, isAttackingEnemy: bool, attackingDistance: real,
                 chasingSpeedMultiplayer: real, hasAgent: bool, agentSpeed: real, position: Point)
      ensures Valid()
      ensures Settings() == Config.Config(startingState, roamingDistanceMax, roamingDistanceMin, roamingTimerMax,
        isChasingEnemy, isAttackChasingEnemy, isAttackingEnemy, attackingDistance, chasingSpeedMultiplayer, hasAgent,
        if hasAgent then agentSpeed else 0.0, if hasAgent then agentSpeed * chasingSpeedMultiplayer else 0.0,
        position)
      ensures Snapshot() == View.View(startingState, 0.0, 0.0, Point(0.0, 0.0, 0.0), 0,
        if hasAgent then agentSpeed else 0.0, [], [])
    {
      this.startingState := startingState;
      this.roamingDistanceMax := roamingDistanceMax;
      this.roamingDistanceMin := roamingDistanceMin;
      this.roamingTimerMax := roamingTimerMax;
      this.isChasingEnemy := isChasingEnemy;
      this.isAttackChasingEnemy := isAttackChasingEnemy;
      this.isAttackingEnemy := isAttackingEnemy;
      this.attackingDistance := attackingDistance;
      this.chasingSpeedMultiplayer := chasingSpeedMultiplayer;
      this.hasAgent := hasAgent;
      if hasAgent {
        roamingSpeed := agentSpeed;
        chasingSpeed := agentSpeed * chasingSpeedMultiplayer;
      } else {
        roamingSpeed := 0.0;
        chasingSpeed := 0.0;
      }
      startingPosition := position;
      currentState := startingState;
      roamingTimer := 0.0;
      nextAttackTime := 0.0;
      roamPosition := Point(0.0, 0.0, 0.0);
      rotationY := 0;
      this.agentSpeed := if hasAgent then agentSpeed else 0.0;
      commands := [];
      attackEvents := [];
    }

    /** Start: the roaming timer starts full. */
    method Start()
      requires Valid()
      modifies this
      ensures Valid()
      ensures Snapshot() == old(Snapshot()).(roamingTimer := roamingTimerMax)
    {
      roamingTimer := roamingTimerMax;
    }

    /** Update / StateHandler: one frame of the state machine. */
    method StateHandler(f: Frame) returns (outcome: TickOutcome)
      requires Valid()
      modifies this
      ensures Valid()
      ensures (Snapshot(), outcome) == TickSpec(Settings(), old(Snapshot()), f)
    {
      TickKeepsInv(Settings(), Snapshot(), f);
      match currentState
      case Roaming =>
        roamingTimer := roamingTimer - f.dt;
        if roamingTimer <= 0.0 {
          Roam(f);
          roamingTimer := roamingTimerMax;
        }
        outcome := Completed;
      case Chasing =>
        outcome := ChasingTarget(f.playerPosition);
        if outcome.Threw? {
          return;
        }
        var _ := GetCurrentState(f.distanceToPlayer);
      case Attacking =>
        AttackingTarget(f.time);
        outcome := CheckCurrentState();
      case Death =>
        outcome := Completed;
      case Idle =>
        outcome := Completed;
    }

    /** AttackingTarget: raise OnEnemyAttack when `time` is past the next allowed time. */
    method AttackingTarget(time: real)
      modifies this
      ensures Snapshot() == AttackSpec(old(Snapshot()), time)
    {
      if time > nextAttackTime {
        attackEvents := attackEvents + [time];
        nextAttackTime := time + AttackRate;
      }
    }

    /** CheckCurrentState: always throws NotImplementedException. */
    method CheckCurrentState() returns (outcome: TickOutcome)
      ensures outcome == Threw(NotImplemented)
    {
      outcome := Threw(NotImplemented);
    }

    /** ChasingTarget: head for the player; throws when there is no agent. */
    method ChasingTarget(playerPosition: Point) returns (outcome: TickOutcome)
      modifies this
      ensures !hasAgent ==> outcome == Threw(NullReference) && Snapshot() == old(Snapshot())
      ensures hasAgent ==>
        outcome == Completed && Snapshot() == old(Snapshot()).(commands := old(commands) + [SetDestination(playerPosition)])
    {
      if !hasAgent {
        return Threw(NullReference);
      }
      commands := commands + [SetDestination(playerPosition)];
      outcome := Completed;
    }

    /**
     * GetCurrentState: select a state from the distance to the player and
     * apply the edge effects when it differs from the current one. Its one
     * caller has just used the agent, so the agent is there.
     */
    method GetCurrentState(distanceToPlayer: real) returns (newState: State)
      requires hasAgent
      modifies this
      ensures (newState, Snapshot()) == Reselect(Settings(), old(Snapshot()), distanceToPlayer)
    {
      newState := Roaming;
      if isChasingEnemy {
        if distanceToPlayer <= ChasingDistance {
          newState := Chasing;
        }
      }
      if isAttackingEnemy {
        if distanceToPlayer <= attackingDistance {
          newState := Attacking;
        }
      }
      if newState != currentState {
        if newState == Chasing {
          agentSpeed := chasingSpeed;
          commands := commands + [ResetPath, SetSpeed(chasingSpeed)];
        } else if newState == Roaming {
          roamingTimer := 0.0;
          agentSpeed := roamingSpeed;
          commands := commands + [SetSpeed(roamingSpeed)];
        } else if newState == Attacking {
          commands := commands + [ResetPath];
        }
        currentState := newState;
      }
    }

    /**
     * IsRunning: whether the agent's velocity differs from Vector3.zero;
     * None when there is no agent (the source then throws
     * NullReferenceException).
     */
    function IsRunning(velocity: Point): (r: Option<bool>)
      ensures r.None? <==> !hasAgent
      ensures r.Some? ==> (r.value <==> !(NormSquared(velocity) < VectorEpsilonSquared))
    {
      if !hasAgent then None
      else if NormSquared(velocity) < VectorEpsilonSquared then Some(false)
      else Some(true)
    }

    /** Roaming() (named Roam here, apart from the state): pick a wander target, face it and head for it when on the NavMesh. */
    method Roam(f: Frame)
      modifies this
      ensures Snapshot() == RoamSpec(Settings(), old(Snapshot()), f)
    {
      if !hasAgent {
        return;
      }
      roamPosition := GetRoamingPosition(f);
      ChangeFacingDirection(f.position, roamPosition);
      if f.onNavMesh {
        commands := commands + [SetDestination(roamPosition)];
      }
    }

    /**
     * GetRoamingPosition: a random point between roamingDistanceMin and
     * roamingDistanceMax from the start, moved onto the NavMesh when the
     * sampler finds a point within SampleRadius; otherwise the point
     * roamingDistanceMin along the same direction.
     */
    method GetRoamingPosition(f: Frame) returns (p: Point)
      ensures p == RoamingPosition(Settings(), f)
      ensures f.sample(Add(startingPosition, Scale(f.randomDir, f.randomDistance)), SampleRadius).None? ==>
        p == Add(startingPosition, Scale(f.randomDir, roamingDistanceMin))
    {
      var targetPosition := Add(startingPosition, Scale(f.randomDir, f.randomDistance));
      var hit := f.sample(targetPosition, SampleRadius);
      if hit.Some? {
        return hit.value;
      }
      p := Add(startingPosition, Scale(f.randomDir, roamingDistanceMin));
    }

    /** ChangeFacingDirection: turn around exactly when the target is to the left. */
    method ChangeFacingDirection(sourcePosition: Point, targetPosition: Point)
      modifies this
      ensures Snapshot() == old(Snapshot()).(rotationY := FacingYaw(sourcePosition, targetPosition))
    {
      if sourcePosition.x > targetPosition.x {
        rotationY := 180;
      } else {
        rotationY := 0;
      }
    }
  }
}
