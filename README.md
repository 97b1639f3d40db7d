# Knight Adventure gameplay core in Dafny

This project models the gameplay logic of a small Unity 2D action game, "Knight Adventure", and proves properties of it. Five components are covered:

- **EnemyAI** (module `Skeleton`): the skeleton's state machine. States are Idle / Roaming / Chasing / Attacking / Death. It selects a state from the distance to the player and applies effects on the transition edge (path reset, agent speed, roaming timer). It also runs a roaming countdown that picks a wander target on the NavMesh, emits a rate-limited `OnEnemyAttack`, and applies a facing rule.
- **Sword** (module `Weapons`): a guarded attack window. The hit collider is on for `attackDuration` seconds, `OnSwordSwing` fires once per accepted swing, and damage is applied only while the window is open.
- **Player** (module `Players`): covers:
  - the attack cooldown gate;
  - the 0.15 s attack feedback that locks movement;
  - the running flag;
  - the movement gate;
  - mouse facing with the weapon hold offset;
  - the keyboard fallback input.
- **PlayerController** (module `PlayerVisuals`, from `PlayerVisual.cs`): the near-duplicate controller. It has a stored movement input, a 0.1 movement threshold and the animator's running flag. Its `Awake` guard does not destroy a second instance.
- **GameInput** (module `Controls`): the default key settings, case-insensitive `RebindKey`, the per-frame edge-triggered events, and the integer movement vector, which is normalised only when it is longer than 1.

Shared values live in `Basics` (Option, a 3D point, the movement intent). Cooldowns, spacing of event times and coroutine countdowns live in `Timing`.

Modelling choices:

**Engine inputs are parameters.** `Time.time` is `now`/`time` and `Time.deltaTime` is `dt`. Key states are sets of key codes: `down` for GetKeyDown, `held` for GetKey. The following are given per frame:

- the mouse world position and whether a camera exists;
- the enemy's and the player's positions and the distance between them;
- `Utils.GetRandomDir()` and `Random.Range`;
- a NavMesh sampler (a function from point and radius to an optional hit);
- `isOnNavMesh`.

**Effects are recorded.** NavMeshAgent calls become a sequence of commands. Events (`OnEnemyAttack`, `OnSwordSwing`, the input events) and `TakeDamage` calls become recorded sequences or counts.

**Coroutines become countdowns.** Each `WaitForSeconds` is a remaining wait advanced by `Tick(dt)`. The player's feedback routines can overlap (when the cooldown is below 0.15 s), so each controller keeps a sequence of waits.

**Exceptions become results.** An exception ends a frame with `TickOutcome.Threw`. Effects made before the throw remain, as they do when Unity aborts one `Update`. This covers `NotImplementedException` from `CheckCurrentState` and a NullReferenceException on a missing agent or body.

**EnemyAI has two layers.** Its specification functions (`TickSpec`, `Run`, with `Reselect`, `RoamSpec`, `AttackSpec`) give the abstract effect of a frame. The `EnemyAI` class's methods are each proved to change its `Snapshot()` exactly as those functions say, and the properties are lemmas about the functions.

**Where the intended design and the code differ, the model follows the code:**

- The sword keeps no set of enemies already hit in the current window. One enemy reported twice is damaged twice.
- In state selection the attack test runs after the chase test, so Attacking wins when both hold.
- The Attacking state always ends its frame in `CheckCurrentState`'s exception.
- The Roaming state never re-runs the selection, so Roaming is never left.
- The selector reads `_isAttackingEnemy` and `attackingDistance`, which are never assigned, not the serialized `_isAttackChasingEnemy` or the constant `_attackingDistance`. `_chasingSpeed` is `speed * _chasingSpeedMultiplayer`, which is never assigned, not the constant `_chasingSpeedMyltiplayer = 2`. All of these are kept as distinct constructor parameters or module constants.

## Model

| member | source | states |
|---|---|---|
| Basics.MagnitudeSquared | Scripts/GameInput.cs:75 | The length of a movement intent is 0 exactly for the zero vector, and a normalised non-zero vector has length 1. |
| Basics.IntegerMagnitudeAbove | Scripts/Player/Player.cs:82 | For a threshold below 1, an integer-valued intent is longer than the threshold exactly when it is non-zero. |
| Timing.CooldownElapsed | Scripts/Player/Player.cs:107 | The gate passes always when nothing was recorded, and otherwise exactly when `now >= last + cooldown`. |
| Timing.CooldownStaysElapsed | Scripts/Player/Player.cs:107 | Once the gate passes, it keeps passing at every later time until a new attack is recorded. |
| Timing.NeverFiredIsReady | Scripts/Player/Player.cs:24 | With `lastAttackTime = -Infinity`, the cooldown has elapsed at every time, so the first attack is always accepted. |
| Timing.SpacedAtLeastPairwise | Scripts/Player/Player.cs:104-112 | If consecutive times are at least `gap` apart, times i < j are at least `(j - i) * gap` apart. |
| Timing.SpacedMoreThanPairwise | Scripts/Skeleton/EnemyAI.cs:121-128 | If consecutive times are more than `gap` apart, times i < j are more than `(j - i) * gap` apart. |
| Timing.AnyTwoAtLeast | Scripts/Player/Player.cs:104-112 | For a non-negative cooldown, any two accepted times are at least the cooldown apart. |
| Timing.AnyTwoMoreThan | Scripts/Skeleton/EnemyAI.cs:121-128 | For a non-negative rate, any two emission times are more than the rate apart. |
| Timing.AppendSpacedAtLeast | Scripts/Player/Player.cs:107-110 | Appending a time at least `gap` after the last one keeps the spacing. |
| Timing.AppendSpacedMoreThan | Scripts/Skeleton/EnemyAI.cs:123-127 | Appending a time more than `gap` after the last one keeps the strict spacing. |
| Timing.Advance | Scripts/Player/Player.cs:137-148 | After a frame, no more waits remain than before and every remaining wait is positive. The count is unchanged exactly when no routine finishes, and then every wait is reduced by dt. |
| Timing.AdvanceKeepsSurvivors | Scripts/Player/Player.cs:144-147 | Every wait still positive after dt stays suspended, reduced by dt. |
| Timing.AdvanceKeepsNothingElse | Scripts/Player/Player.cs:144-147 | Every remaining wait is one of the old waits reduced by dt. |
| Controls.FrameEvents | Scripts/GameInput.cs:39-56 | OnPlayerAttack fires iff either attack key went down; interact iff its key did; jump iff its key did. Each fires at most once, in source order. |
| Controls.SpaceRaisesAttackAndJump | Scripts/GameInput.cs:16-18 | With the default settings, one Space press raises OnPlayerAttack and OnPlayerJump together. |
| Controls.Lower | Scripts/GameInput.cs:120 | Lower-casing keeps the length and maps every character through ASCII lower-casing. |
| Controls.LowerIdempotent | Scripts/GameInput.cs:120 | Lower-casing twice equals lower-casing once. |
| Controls.RebindTarget | Scripts/GameInput.cs:120-129 | No action name reaches attackSecondary. |
| Controls.RebindTargets | Scripts/GameInput.cs:120-129 | Exactly the seven case labels name a field; "attack" is the one name for attackPrimary; no name reaches attackSecondary. |
| Controls.AxisX | Scripts/GameInput.cs:65-72 | The raw x component is a sum of four key contributions and lies in [-2, 2]. |
| Controls.AxisY | Scripts/GameInput.cs:63-70 | The raw y component is a sum of four key contributions and lies in [-2, 2]. |
| Controls.MovementOf | Scripts/GameInput.cs:58-76 | The intent's components are the raw axis sums, and its length is never more than 1. |
| Controls.MovementUnchangedIff | Scripts/GameInput.cs:75 | The raw vector is returned unchanged iff it has at most one non-zero component, and that component is 1 or -1. Otherwise the normalised vector is returned. |
| Controls.OppositeKeysCancelX | Scripts/GameInput.cs:65-72 | Holding both or neither of each left/right pair gives x = 0. |
| Controls.OppositeKeysCancelY | Scripts/GameInput.cs:63-70 | Holding both or neither of each up/down pair gives y = 0. |
| Controls.GameInput.constructor | Scripts/GameInput.cs:9-21 | A new component has the default settings (W, S, A, D, Mouse0, Space, E, Space) and has raised no event. |
| Controls.GameInput.Update | Scripts/GameInput.cs:39-56 | One frame appends exactly the events for the keys pressed down, and leaves the settings as they are. |
| Controls.GameInput.GetMovementVector | Scripts/GameInput.cs:58-76 | The sequential `+=`/`-=` accumulation gives the movement intent of the held keys, normalised when longer than 1. The result is never longer than 1. |
| Controls.GameInput.RebindKey | Scripts/GameInput.cs:118-130 | The settings become the old settings with the field named by the lower-cased action set to the new key. An unknown name changes nothing. No event is raised. |
| Controls.Rebind | Scripts/GameInput.cs:120-129 | No target leaves the settings as they are; a target field gets the new key. |
| Controls.RebindChangesOneField | Scripts/GameInput.cs:122-128 | After a rebind, the named field holds the new key and every other field keeps its key. |
| Controls.RebindCaseInsensitive | Scripts/GameInput.cs:120 | Rebinding with an already lower-cased name has the same effect as with the original name. |
| Controls.GameInput.IsMoving | Scripts/GameInput.cs:112-115 | "Movement vector longer than 0.1" holds exactly when some key contribution survives cancellation. |
| Weapons.Sword.constructor | Scripts/Weapon/Sword.cs:6-21 | Awake only looks the collider up: its enabled flag stays as the scene set it, no window is open, no swing has been made and no damage dealt. |
| Weapons.Sword.Start | Scripts/Weapon/Sword.cs:23-26 | Start turns the collider off, so collider-enabled matches the closed window whenever there is a collider. |
| Weapons.Sword.AttackColliderTurnOff | Scripts/Weapon/Sword.cs:58-64 | The collider is disabled if it exists; without one nothing changes. |
| Weapons.Sword.AttackColliderTurnOn | Scripts/Weapon/Sword.cs:66-72 | The collider is enabled if it exists; without one nothing changes. |
| Weapons.Sword.Attack | Scripts/Weapon/Sword.cs:28-39 | While a window is open, Attack changes nothing. Otherwise it opens the window, enables the collider, starts the wait and raises OnSwordSwing once. |
| Weapons.Sword.Tick | Scripts/Weapon/Sword.cs:41-44 | When the wait runs out, the collider is disabled and the window closes. Before that only the wait shrinks, and without a window nothing changes. |
| Weapons.Sword.OnTriggerEnter2D | Scripts/Weapon/Sword.cs:47-56 | Damage of exactly `damageAmount` is appended iff the window is open and the collider carries an EnemyEntity. Repeated reports are all damaged. |
| Players.WeaponHoldOffset | Scripts/Player/Player.cs:179-187 | The hold point is (-0.5, 0.1, 0) exactly when flipped, and (0.5, 0.1, 0) otherwise. |
| Players.FallbackMovementInput | Scripts/Player/Player.cs:197-204 | Each of W/S/A/D moves one axis by one, opposite keys cancel, and the result is the normalised vector. |
| Players.Player.constructor | Scripts/Player/Player.cs:21-53 | After Awake, lastAttackTime is -Infinity, nothing is locked or running, the sprite keeps the flip the scene gave it, and the created hold point is at (0.5, 0.1, 0) whatever that flip. |
| Players.Player.GetMovementInput | Scripts/Player/Player.cs:190-205 | The input component's vector when there is one (never longer than 1), otherwise the normalised keyboard fallback: W/S and A/D each set one axis to 1 or -1, and opposite keys cancel. |
| Players.Player.Update | Scripts/Player/Player.cs:79-92 | isRunning becomes "input longer than 0.1". With a sprite, flipping on and a camera, the facing and the hold point follow the mouse; otherwise they stay as they were. |
| Players.Player.LookAtMouse | Scripts/Player/Player.cs:158-188 | flipX becomes `mouse.x < position.x`, so equal x is not flipped, and the hold point moves to that side. Without a camera nothing changes. |
| Players.Player.FixedUpdate | Scripts/Player/Player.cs:94-102 | The body moves iff the input is longer than 0.01 and no attack feedback is running. |
| Players.Player.TryAttack | Scripts/Player/Player.cs:104-112 | The gate passes iff `now - lastAttackTime >= attackCooldown`; a rejected call changes nothing. A passing call performs the attack (opening an idle sword's window exactly as Sword.Attack does) and then records `now`, unless the attack throws NullReferenceException (an ActiveWeapon without a sword), in which case nothing changes. |
| Players.Player.PerformAttack | Scripts/Player/Player.cs:114-135 | With an ActiveWeapon holding no sword it throws before any change. Otherwise the sword attacks (when there is an ActiveWeapon; an idle sword opens its window for `attackDuration` with the collider on and no new damage, a swinging one is left alone), the feedback starts and locks movement (with a sprite), and the animator trigger fires (with an animator). |
| Players.Player.Tick | Scripts/Player/Player.cs:137-148 | isAttacking is cleared exactly when some feedback's 0.15 s run out, and the remaining waits advance. |
| Players.AttacksAtLeastCooldownApart | Scripts/Player/Player.cs:104-112 | For a non-negative `attackCooldown`, any two accepted attacks are at least `attackCooldown` apart, whatever order the times came in. |
| Players.SingleFeedbackWindow | Scripts/Player/Player.cs:137-148 | A single feedback keeps isAttacking while less than its wait has passed and ends once the wait is used up. |
| PlayerVisuals.ControllerSlot.constructor | Scripts/Player/PlayerVisual.cs:21 | The static Instance starts empty. |
| PlayerVisuals.PlayerController.constructor | Scripts/Player/PlayerVisual.cs:16-19 | Before Awake there is no body, lastAttackTime is -Infinity, nothing is locked, and the sprite keeps the flip the scene gave it. |
| PlayerVisuals.PlayerController.Awake | Scripts/Player/PlayerVisual.cs:23-43 | A second instance returns leaving Instance and itself unchanged, and is not destroyed. Otherwise it becomes Instance and looks up its body, sprite and animator. |
| PlayerVisuals.PlayerController.Update | Scripts/Player/PlayerVisual.cs:64-88 | The stored input becomes the input component's vector, or the normalised raw axes. The animator's running flag becomes IsRunning(). The facing follows the mouse under the same guard as Player. |
| PlayerVisuals.PlayerController.ReadMovementInput | Scripts/Player/PlayerVisual.cs:66-78 | The stored input becomes the component's vector, or the normalised (horizontal, vertical) axes when there is none. |
| PlayerVisuals.PlayerController.UpdateAnimation | Scripts/Player/PlayerVisual.cs:145-153 | With an animator, its running flag equals "stored input longer than 0.1". |
| PlayerVisuals.PlayerController.LookAtMouse | Scripts/Player/PlayerVisual.cs:155-174 | flipX becomes `mouse.x < position.x` when there is a camera; otherwise nothing changes. |
| PlayerVisuals.PlayerController.FixedUpdate | Scripts/Player/PlayerVisual.cs:90-97 | A move is attempted iff the stored input is longer than 0.1 and no feedback runs. It throws exactly when a move is attempted without a body. |
| PlayerVisuals.PlayerController.TryAttack | Scripts/Player/PlayerVisual.cs:99-130 | The gate passes iff the cooldown has elapsed since lastAttackTime; a rejected call changes nothing. A passing call has Player's attack effects, the sword's window included, and records `now`, except that an ActiveWeapon without a sword throws NullReferenceException and nothing changes. |
| PlayerVisuals.PlayerController.IsRunning | Scripts/Player/PlayerVisual.cs:186-189 | "Stored input longer than 0.1" holds exactly when the integer-valued input is non-zero. |
| PlayerVisuals.PlayerController.Tick | Scripts/Player/PlayerVisual.cs:132-143 | isAttacking is cleared exactly when some feedback's wait runs out, and the remaining waits advance. |
| PlayerVisuals.ControllerAttacksAtLeastCooldownApart | Scripts/Player/PlayerVisual.cs:99-107 | For a non-negative `attackCooldown`, any two accepted attacks are at least `attackCooldown` apart, whatever order the times came in. |
| PlayerVisuals.MovementThresholdsAgree | Scripts/Player/PlayerVisual.cs:186-189 | For integer-valued intents, IsRunning (magnitude > 0.1) and Player's movement gate (magnitude > 0.01) both hold exactly for a non-zero vector. |
| Skeleton.Select | Scripts/Skeleton/EnemyAI.cs:149-164 | Attacking iff attacking is on and the distance is within attackingDistance. Chasing iff chasing is on, the distance is within 4 and the attack condition fails. Otherwise Roaming. Never Idle or Death. |
| Skeleton.AttackWinsWhenBothInRange | Scripts/Skeleton/EnemyAI.cs:151-164 | When both conditions hold, the later attack test wins. |
| Skeleton.UnassignedFieldsNeverAttack | Scripts/Skeleton/EnemyAI.cs:36-37 | With the never-assigned `_isAttackingEnemy = false` and `attackingDistance = 0`, Attacking is never selected. |
| Skeleton.SerializedAttackRangeIgnored | Scripts/Skeleton/EnemyAI.cs:158-164 | With attacking switched on, a player at a distance with `0 < distance <= 2`, inside the constant `_attackingDistance`, is still not attacked, because the never-assigned `attackingDistance` (0) is the one read. |
| Skeleton.FacingYaw | Scripts/Skeleton/EnemyAI.cs:242-252 | The yaw is 0 or 180, and 180 exactly when the source is right of the target. |
| Skeleton.Reselect | Scripts/Skeleton/EnemyAI.cs:145-191 | Returns the selected state and makes it the current one. Commands are only appended, and the attack bookkeeping, roam target and rotation are untouched. |
| Skeleton.RoamingPosition | Scripts/Skeleton/EnemyAI.cs:226-240 | Whenever the sampler finds a hit near the random point, that hit is the target; only when it finds none is the target the point roamingDistanceMin along the random direction. |
| Skeleton.RoamSpec | Scripts/Skeleton/EnemyAI.cs:213-224 | Without an agent nothing changes. Otherwise the roam target is RoamingPosition, the rotation faces it, and one SetDestination is sent exactly when on the NavMesh. State, timer, speed and attack bookkeeping are untouched. |
| Skeleton.AttackSpec | Scripts/Skeleton/EnemyAI.cs:121-132 | An event at `time` is recorded and the next allowed time becomes `time + 2` exactly when `time > nextAttackTime`; nothing else changes. |
| Skeleton.TickSpec | Scripts/Skeleton/EnemyAI.cs:91-119 | A frame throws exactly in Attacking, or in Chasing without an agent. Only Chasing can change the state. Commands and attack events are only appended. |
| Skeleton.Run | Scripts/Skeleton/EnemyAI.cs:86-89 | Over any run of frames, the command and attack-event histories only grow. |
| Skeleton.ReselectSameStateChangesNothing | Scripts/Skeleton/EnemyAI.cs:169-190 | When the selected state is the current one, no path reset, speed write or timer write happens. |
| Skeleton.ReselectEdgeEffects | Scripts/Skeleton/EnemyAI.cs:169-190 | The result is the selected state; on a change the state becomes it. Entering Chasing resets the path and sets the chasing speed. Entering Roaming zeroes the timer and sets the roaming speed. Entering Attacking resets the path and keeps the speed. |
| Skeleton.RoamingFrame | Scripts/Skeleton/EnemyAI.cs:96-103 | The timer drops by dt. When it reaches 0, exactly one roam runs and the timer restarts at roamingTimerMax. Otherwise no command is sent. The state stays Roaming. |
| Skeleton.ChasingFrame | Scripts/Skeleton/EnemyAI.cs:104-107 | A Chasing frame first heads for the player, then re-runs the selection, whose result becomes the state. |
| Skeleton.AttackingFrame | Scripts/Skeleton/EnemyAI.cs:108-137 | OnEnemyAttack fires only when `time > nextAttackTime` strictly, which then becomes `time + 2`. The frame always ends in NotImplementedException. |
| Skeleton.RestingFrame | Scripts/Skeleton/EnemyAI.cs:113-117 | Idle and Death frames change nothing and send no command. |
| Skeleton.FallbackAtMinimumDistance | Scripts/Skeleton/EnemyAI.cs:226-240 | With no sampled NavMesh point and a unit direction, the roam target is exactly roamingDistanceMin from the start. |
| Skeleton.ChasingSpeedIgnoresConstant | Scripts/Skeleton/EnemyAI.cs:66-67 | With the never-assigned multiplier, an agent with positive speed chases at speed 0, not at twice its speed as the unused constant 2 suggests. |
| Skeleton.TickKeepsInv | Scripts/Skeleton/EnemyAI.cs:91-137 | A frame keeps several facts: attack times more than the rate apart, the next attack time after the last emission, the speed at one of the two configured speeds, no commands to a missing agent, and the rotation at 0 or 180. |
| Skeleton.RunKeepsInv | Scripts/Skeleton/EnemyAI.cs:86-89 | Every sequence of frames keeps that invariant. |
| Skeleton.OnlyChasingLeaves | Scripts/Skeleton/EnemyAI.cs:96-117 | From any state but Chasing, every run of frames stays in that state. |
| Skeleton.RestingStatesFrozen | Scripts/Skeleton/EnemyAI.cs:113-117 | From Idle or Death, every run of frames leaves everything as it was. |
| Skeleton.EnemyAttacksMoreThanRateApart | Scripts/Skeleton/EnemyAI.cs:121-128 | In any reachable view, any two OnEnemyAttack events are more than `_attackRate` apart. |
| Skeleton.VisibleVelocityNotZero | Scripts/Skeleton/EnemyAI.cs:196 | A velocity with a component of size 1e-5 or more is not `== Vector3.zero`. |
| Skeleton.StandingAgentNotRunning | Scripts/Skeleton/EnemyAI.cs:194-204 | With an agent at zero velocity, IsRunning is false. |
| Skeleton.MovingAgentRunning | Scripts/Skeleton/EnemyAI.cs:194-204 | With an agent visibly moving, IsRunning is true. |
| Skeleton.EnemyAI.constructor | Scripts/Skeleton/EnemyAI.cs:57-76 | Awake enters the starting state and takes the roaming speed from the agent. The chasing speed is `speed * _chasingSpeedMultiplayer`; both are 0 without an agent. It remembers the starting position. |
| Skeleton.EnemyAI.Start | Scripts/Skeleton/EnemyAI.cs:81-84 | The roaming timer starts at roamingTimerMax and nothing else changes. |
| Skeleton.EnemyAI.StateHandler | Scripts/Skeleton/EnemyAI.cs:86-119 | One Update moves the enemy exactly as TickSpec says, including how the frame ends. |
| Skeleton.EnemyAI.AttackingTarget | Scripts/Skeleton/EnemyAI.cs:121-132 | The rate-limited emission of AttackSpec. |
| Skeleton.EnemyAI.CheckCurrentState | Scripts/Skeleton/EnemyAI.cs:134-137 | Always throws NotImplementedException. |
| Skeleton.EnemyAI.ChasingTarget | Scripts/Skeleton/EnemyAI.cs:139-143 | Heads for the player's position; throws NullReferenceException without an agent and then changes nothing. |
| Skeleton.EnemyAI.GetCurrentState | Scripts/Skeleton/EnemyAI.cs:145-191 | Returns the selected state and applies the edge effects of `Reselect`. |
| Skeleton.EnemyAI.IsRunning | Scripts/Skeleton/EnemyAI.cs:194-204 | Whether the agent velocity differs from Vector3.zero; no result (a throw) without an agent. |
| Skeleton.EnemyAI.Roam | Scripts/Skeleton/EnemyAI.cs:213-224 | Nothing without an agent. Otherwise it picks the roam target, faces it, and sends SetDestination only when on the NavMesh. |
| Skeleton.EnemyAI.GetRoamingPosition | Scripts/Skeleton/EnemyAI.cs:226-240 | The sampled NavMesh point near `start + dir * distance` when one is found, else `start + dir * roamingDistanceMin`. |
| Skeleton.EnemyAI.ChangeFacingDirection | Scripts/Skeleton/EnemyAI.cs:242-252 | The rotation becomes FacingYaw(source, target) and nothing else changes. |

## Left out

- Scripts/Weapon/ActiveWeapon.cs is not part of this model. It is transform parenting and mouse-following trigonometry. The controllers take whether `ActiveWeapon.Instance` exists, and the Sword its `GetActiveWeapon()` returns (null when none was assigned or found).
- NavMesh internals (`CalculatePath`, `SamplePosition`, `isOnNavMesh`, the agent's velocity), `Vector3.Distance`, `Random.Range` and `Utils.GetRandomDir` are inputs or oracles, not computed. The frame's distance is not tied to the two positions.
- Square roots and `.normalized` are not computed. A normalised intent is represented by its integer raw components, and lengths are compared squared.
- Coroutine scheduling is reduced to countdowns advanced by Tick. The frame order of Update, FixedUpdate and Tick is left to the caller.
- Floating point: every quantity is an exact real, so IEEE rounding of `0.1f`, `Time.time` and `deltaTime` is not modelled. Vector3 equality in EnemyAI.IsRunning uses Unity's 1e-5 tolerance.
- Camera and screen-to-world conversion, `Input` polling, Rigidbody integration (`MovePosition` is reduced to "moved or not"), SpriteRenderer colour, `Debug.Log`, and animator parameters other than the running flag and the attack trigger.
- Event subscription and unsubscription (`Start`/`OnDestroy`). Callers invoke TryAttack for each OnPlayerAttack.
- The Player and GameInput singleton `Awake`/`Destroy`/`DontDestroyOnLoad` logic. The Player model assumes its body is present and that Awake created the weapon hold point.
- `Player.Instance` is assumed present wherever EnemyAI reads the player's position.
- The C# constructor `EnemyAI(State)` is not modelled. Unity does not call it, and Awake sets the state.
- The initial rotation of the enemy is taken to be 0.
- The engine's delivery of OnTriggerEnter2D (only while the collider is enabled) is not modelled. The method itself guards on the window.
- `ToLower` is modelled on ASCII letters only.
- Controls.GameInput.RebindKey: a null `action` string, which throws at `action.ToLower()`, cannot be expressed; a Dafny string always exists.
- Controls.GameInput.Update: the event handlers are not run inside Update. In the source, an exception from an OnPlayerAttack handler (the controllers' TryAttack with an ActiveWeapon but no sword) ends that Update, so the interact and jump events of the same frame are lost; the model still records them.
- Skeleton.EnemyAI.GetCurrentState: requires an agent. Its one caller runs it right after ChasingTarget has used the agent, so the source's NullReferenceException on a transition without an agent is unreachable.
- Controls.GameInput.IsAttacking and the GetKey wrappers are plain queries over the held keys and carry no contract.
