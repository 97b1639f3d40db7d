/**
 * The input layer (Scripts/GameInput.cs): rebindable key settings, the
 * per-frame edge-triggered action events and the movement intent built from
 * the held keys. Key states are inputs: `down` is the set of keys whose
 * GetKeyDown holds this frame, `held` the set whose GetKey holds.
 */
module Controls {
  import opened Basics

  /** The key codes the settings and the arrow alternatives use, and any other. */
  datatype KeyCode =
    | W | S | A | D | E | Space | Mouse0
    | UpArrow | DownArrow | LeftArrow | RightArrow
    /** Any key without a constructor above; a code is never one of theirs. */
    | OtherKey(code: nat)

  /** InputSettings: one key per field. */
  datatype InputSettings = InputSettings(
    moveUp: KeyCode,
    moveDown: KeyCode,
    moveLeft: KeyCode,
    moveRight: KeyCode,
    attackPrimary: KeyCode,
    attackSecondary: KeyCode,
    interact: KeyCode,
    jump: KeyCode)

  /** The field initialisers of InputSettings. */
  const DefaultSettings := InputSettings(W, S, A, D, Mouse0, Space, E, Space)

  /** Names the fields of InputSettings. */
  datatype Binding =
    | MoveUp | MoveDown | MoveLeft | MoveRight
    | AttackPrimary | AttackSecondary | Interact | Jump

  function KeyOf(s: InputSettings, b: Binding): KeyCode {
    match b
    case MoveUp => s.moveUp
    case MoveDown => s.moveDown
    case MoveLeft => s.moveLeft
    case MoveRight => s.moveRight
    case AttackPrimary => s.attackPrimary
    case AttackSecondary => s.attackSecondary
    case Interact => s.interact
    case Jump => s.jump
  }

  datatype InputEvent = PlayerAttack | PlayerInteract | PlayerJump

  /** The order in which Update raises the events. */
  function Rank(e: InputEvent): nat {
    match e
    case PlayerAttack => 0
    case PlayerInteract => 1
    case PlayerJump => 2
  }

  /** The events one Update raises for the keys pressed down this frame. */
  function FrameEvents(s: InputSettings, down: set<KeyCode>): (r: seq<InputEvent>)
    ensures PlayerAttack in r <==> s.attackPrimary in down || s.attackSecondary in down
    ensures PlayerInteract in r <==> s.interact in down
    ensures PlayerJump in r <==> s.jump in down
    ensures forall i, j :: 0 <= i < j < |r| ==> Rank(r[i]) < Rank(r[j])
  {
    (if s.attackPrimary in down || s.attackSecondary in down then [PlayerAttack] else [])
    + (if s.interact in down then [PlayerInteract] else [])
    + (if s.jump in down then [PlayerJump] else [])
  }

  /** With the default settings one Space press raises both attack and jump. */
  lemma SpaceRaisesAttackAndJump()
    ensures FrameEvents(DefaultSettings, {Space}) == [PlayerAttack, PlayerJump]
  {
  }

  /** ASCII lower-casing of one character. */
  function LowerChar(c: char): char {
    if 'A' <= c <= 'Z' then (c as int + 32) as char else c
  }

  /** `string.ToLower()` restricted to ASCII letters. */
  function Lower(s: string): (r: string)
    ensures |r| == |s|
    ensures forall i :: 0 <= i < |s| ==> r[i] == LowerChar(s[i])
  {
    if s == [] then [] else [LowerChar(s[0])] + Lower(s[1..])
  }

  lemma {:induction false} LowerIdempotent(s: string)
    ensures Lower(Lower(s)) == Lower(s)
  {
    var once := Lower(s);
    var twice := Lower(once);
    forall i | 0 <= i < |s|
      ensures twice[i] == once[i]
    {
      assert twice[i] == LowerChar(LowerChar(s[i]));
    }
  }

  /** The action names RebindKey's switch recognises. */
  const RebindNames: set<string> :=
    {"moveup", "movedown", "moveleft", "moveright", "attack", "interact", "jump"}

  /** The field RebindKey's switch assigns for a lower-cased action name. */
  function RebindTarget(name: string): (target: Option<Binding>)
    ensures target != Some(AttackSecondary)
  {
    if name == "moveup" then Some(MoveUp)
    else if name == "movedown" then Some(MoveDown)
    else if name == "moveleft" then Some(MoveLeft)
    else if name == "moveright" then Some(MoveRight)
    else if name == "attack" then Some(AttackPrimary)
    else if name == "interact" then Some(Interact)
    else if name == "jump" then Some(Jump)
    else None
  }

  /**
   * Exactly the seven names are recognised, "attack" is the one name for
   * attackPrimary, and no name reaches attackSecondary (repeated from
   * RebindTarget so that the whole switch is summed up here).
   */
  lemma RebindTargets(name: string)
    ensures RebindTarget(name).Some? <==> name in RebindNames
    ensures RebindTarget(name) != Some(AttackSecondary)
    ensures RebindTarget(name) == Some(AttackPrimary) <==> name == "attack"
  {
  }

  /** 1 for a held key, 0 otherwise. */
  function Hold(b: bool): int {
    if b then 1 else 0
  }

  /** The raw x component: configured left/right keys, then the arrows. */
  function AxisX(s: InputSettings, held: set<KeyCode>): (x: int)
    ensures -2 <= x <= 2
  {
    - Hold(s.moveLeft in held) + Hold(s.moveRight in held)
    - Hold(LeftArrow in held) + Hold(RightArrow in held)
  }

  /** The raw y component: configured up/down keys, then the arrows. */
  function AxisY(s: InputSettings, held: set<KeyCode>): (y: int)
    ensures -2 <= y <= 2
  {
    Hold(s.moveUp in held) - Hold(s.moveDown in held)
    + Hold(UpArrow in held) - Hold(DownArrow in held)
  }

  /** The vector GetMovementVector returns: raw unless longer than 1. */
  function MovementOf(s: InputSettings, held: set<KeyCode>): (v: MoveVector)
    ensures v.x == AxisX(s, held) && v.y == AxisY(s, held)
    ensures MagnitudeSquared(v) <= 1.0
  {
    var x, y := AxisX(s, held), AxisY(s, held);
    if x * x + y * y > 1 then Normalized(x, y) else Raw(x, y)
  }

  /**
   * The raw vector comes back unchanged exactly when it has at most one
   * non-zero component and that component is 1 or -1.
   */
  lemma {:induction false} MovementUnchangedIff(s: InputSettings, held: set<KeyCode>)
    ensures var x, y := AxisX(s, held), AxisY(s, held);
      && (MovementOf(s, held) == Raw(x, y) <==> (x == 0 && -1 <= y <= 1) || (y == 0 && -1 <= x <= 1))
      && (MovementOf(s, held) == Normalized(x, y) <==> !((x == 0 && -1 <= y <= 1) || (y == 0 && -1 <= x <= 1)))
  {
    var x, y := AxisX(s, held), AxisY(s, held);
    assert x * x + y * y <= 1 <==> (x == 0 && -1 <= y <= 1) || (y == 0 && -1 <= x <= 1) by {
      assert -2 <= x <= 2 && -2 <= y <= 2;
      assert x == -2 || x == -1 || x == 0 || x == 1 || x == 2;
      assert y == -2 || y == -1 || y == 0 || y == 1 || y == 2;
    }
  }

  /** Opposite keys cancel: both or neither of each horizontal pair gives x = 0. */
  lemma OppositeKeysCancelX(s: InputSettings, held: set<KeyCode>)
    requires s.moveLeft in held <==> s.moveRight in held
    requires LeftArrow in held <==> RightArrow in held
    ensures AxisX(s, held) == 0
  {
  }

  /** Opposite keys cancel: both or neither of each vertical pair gives y = 0. */
  lemma OppositeKeysCancelY(s: InputSettings, held: set<KeyCode>)
    requires s.moveUp in held <==> s.moveDown in held
    requires UpArrow in held <==> DownArrow in held
    ensures AxisY(s, held) == 0
  {
  }

  /** The input component (Instance singleton left out). */
  class GameInput {
    var settings: InputSettings
    /** Every OnPlayerAttack / OnPlayerInteract / OnPlayerJump raised so far. */
    var events: seq<InputEvent>

    constructor ()
      ensures settings == DefaultSettings && events == []
    {
      settings := DefaultSettings;
      events := [];
    }

    /** Update: raises each event at most once for the keys pressed down this frame. */
    method Update(down: set<KeyCode>)
      modifies this
      ensures settings == old(settings)
      ensures events == old(events) + FrameEvents(settings, down)
    {
      var raised: seq<InputEvent> := [];
      if settings.attackPrimary in down || settings.attackSecondary in down {
        raised := raised + [PlayerAttack];
      }
      if settings.interact in down {
        raised := raised + [PlayerInteract];
      }
      if settings.jump in down {
        raised := raised + [PlayerJump];
      }
      events := events + raised;
    }

    /** GetMovementVector: sums the key contributions, normalising when longer than 1. */
    method GetMovementVector(held: set<KeyCode>) returns (v: MoveVector)
      ensures v == MovementOf(settings, held)
      ensures MagnitudeSquared(v) <= 1.0
    {
      var x, y := 0, 0;
      if settings.moveUp in held { y := y + 1; }
      if settings.moveDown in held { y := y - 1; }
      if settings.moveLeft in held { x := x - 1; }
      if settings.moveRight in held { x := x + 1; }
      if UpArrow in held { y := y + 1; }
      if DownArrow in held { y := y - 1; }
      if LeftArrow in held { x := x - 1; }
      if RightArrow in held { x := x + 1; }
      assert x == AxisX(settings, held) && y == AxisY(settings, held);
      if x * x + y * y > 1 {
        v := Normalized(x, y);
      } else {
        v := Raw(x, y);
      }
    }

    /** IsAttacking: either attack key is held. */
    predicate IsAttacking(held: set<KeyCode>)
      reads this
    {
      settings.attackPrimary in held || settings.attackSecondary in held
    }

    /**
     * IsMoving: the movement vector is longer than 0.1, which holds exactly
     * when some key contribution survives cancellation.
     */
    function IsMoving(held: set<KeyCode>): (moving: bool)
      reads this
      ensures moving <==> AxisX(settings, held) != 0 || AxisY(settings, held) != 0
    {
      IntegerMagnitudeAbove(MovementOf(settings, held), 0.1 * 0.1);
      MagnitudeAbove(MovementOf(settings, held), 0.1 * 0.1)
    }

    /** RebindKey: assigns the one field the lower-cased action names, if any. */
    method RebindKey(action: string, newKey: KeyCode)
      modifies this
      ensures events == old(events)
      ensures settings == Rebind(old(settings), RebindTarget(Lower(action)), newKey)
    {
      // the switch over action.ToLower(): RebindTarget holds its case labels
      match RebindTarget(Lower(action))
      case Some(MoveUp) => settings := settings.(moveUp := newKey);
      case Some(MoveDown) => settings := settings.(moveDown := newKey);
      case Some(MoveLeft) => settings := settings.(moveLeft := newKey);
      case Some(MoveRight) => settings := settings.(moveRight := newKey);
      case Some(AttackPrimary) => settings := settings.(attackPrimary := newKey);
      case Some(Interact) => settings := settings.(interact := newKey);
      case Some(Jump) => settings := settings.(jump := newKey);
      case _ =>
    }
  }

  /** The settings after assigning `newKey` to the field `target` names, if any. */
  function Rebind(s: InputSettings, target: Option<Binding>, newKey: KeyCode): (r: InputSettings)
    ensures target == None ==> r == s
    ensures target.Some? ==> KeyOf(r, target.value) == newKey
  {
    match target
    case Some(MoveUp) => s.(moveUp := newKey)
    case Some(MoveDown) => s.(moveDown := newKey)
    case Some(MoveLeft) => s.(moveLeft := newKey)
    case Some(MoveRight) => s.(moveRight := newKey)
    case Some(AttackPrimary) => s.(attackPrimary := newKey)
    case Some(AttackSecondary) => s.(attackSecondary := newKey)
    case Some(Interact) => s.(interact := newKey)
    case Some(Jump) => s.(jump := newKey)
    case None => s
  }

  /** Rebinding changes exactly the named field and leaves every other one as it was. */
  lemma RebindChangesOneField(s: InputSettings, target: Option<Binding>, newKey: KeyCode, b: Binding)
    ensures KeyOf(Rebind(s, target, newKey), b) == if target == Some(b) then newKey else KeyOf(s, b)
  {
  }

  /**
   * RebindKey is case-insensitive: names with the same lower-cased form have
   * the same effect, and lower-casing once more changes nothing.
   */
  lemma RebindCaseInsensitive(s: InputSettings, action: string, newKey: KeyCode)
    ensures Rebind(s, RebindTarget(Lower(Lower(action))), newKey) == Rebind(s, RebindTarget(Lower(action)), newKey)
  {
    LowerIdempotent(action);
  }
}
