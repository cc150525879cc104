/**
 * The capability facade that user scripts see as `agent`. It turns a small
 * vocabulary of direction words into ordered calls on the host's movement
 * controller, and forwards block and sensing queries to the host's
 * interaction service; every operation degrades to a fixed result when its
 * backing service is absent.
 */
module AgentApi {
  import opened Wrappers
  import Text
  import Stdio

  /** One call received by the movement controller. */
  datatype Call =
    | MoveForward(distance: int)
    | MoveUp(distance: int)
    | MoveDown(distance: int)
    | TurnLeft(degrees: int)
    | TurnRight(degrees: int)
    | Jump

  /** Heading change caused by one call: left turns count up, right turns down. */
  function Rotation(c: Call): int
  {
    match c
    case TurnLeft(g) => g
    case TurnRight(g) => -g
    case _ => 0
  }

  /** Total heading change caused by a sequence of calls. */
  function NetTurn(calls: seq<Call>): int
  {
    if calls == [] then 0 else NetTurn(calls[..|calls| - 1]) + Rotation(calls[|calls| - 1])
  }

  lemma {:induction false} NetTurnAppend(a: seq<Call>, b: seq<Call>)
    ensures NetTurn(a + b) == NetTurn(a) + NetTurn(b)
    decreases |b|
  {
    if b == [] {
      assert a + b == a;
    } else {
      var b' := b[..|b| - 1];
      assert (a + b)[..|a + b| - 1] == a + b';
      NetTurnAppend(a, b');
    }
  }

  lemma NetTurnOfThree(calls: seq<Call>)
    requires |calls| == 3
    ensures NetTurn(calls) == Rotation(calls[0]) + Rotation(calls[1]) + Rotation(calls[2])
  {
    var two, one := calls[..2], calls[..1];
    assert two[..1] == one && one[..0] == [];
    assert NetTurn(one) == Rotation(calls[0]);
    assert NetTurn(two) == NetTurn(one) + Rotation(calls[1]);
    assert NetTurn(calls) == NetTurn(two) + Rotation(calls[2]);
  }

  datatype Vec3 = Vec3(x: int, y: int, z: int)

  /**
   * The host's movement controller, seen only through the calls it receives.
   * `trace` is append-only; `heading` is an integer degree count. Position
   * and facing belong to the host's physics: no call promises anything
   * about them.
   */
  class Controller {
    var trace: seq<Call>
    var heading: int
    var position: Vec3
    var facing: Vec3
    ghost const heading0: int

    /** The heading is the starting heading plus the net rotation of every call received. */
    ghost predicate Valid()
      reads this
    {
      heading == heading0 + NetTurn(trace)
    }

    constructor (heading0: int, position0: Vec3, facing0: Vec3)
      ensures Valid() && trace == [] && heading == heading0
      ensures position == position0 && facing == facing0
    {
      trace := [];
      heading := heading0;
      position := position0;
      facing := facing0;
      this.heading0 := heading0;
    }

    /** Records `c` and turns by its rotation, keeping `Valid`. */
    method Receive(c: Call)
      requires Valid()
      modifies this
      ensures Valid() && trace == old(trace) + [c] && heading == old(heading) + Rotation(c)
    {
      NetTurnAppend(trace, [c]);
      assert [c][..0] == [];
      trace := trace + [c];
      heading := heading + Rotation(c);
    }

    method MoveForward(distance: int)
      requires Valid()
      modifies this
      ensures Valid() && trace == old(trace) + [Call.MoveForward(distance)] && heading == old(heading)
    {
      Receive(Call.MoveForward(distance));
    }

    method MoveUp(distance: int)
      requires Valid()
      modifies this
      ensures Valid() && trace == old(trace) + [Call.MoveUp(distance)] && heading == old(heading)
    {
      Receive(Call.MoveUp(distance));
    }

    method MoveDown(distance: int)
      requires Valid()
      modifies this
      ensures Valid() && trace == old(trace) + [Call.MoveDown(distance)] && heading == old(heading)
    {
      Receive(Call.MoveDown(distance));
    }

    method TurnLeft(degrees: int)
      requires Valid()
      modifies this
      ensures Valid() && trace == old(trace) + [Call.TurnLeft(degrees)] && heading == old(heading) + degrees
    {
      Receive(Call.TurnLeft(degrees));
    }

    method TurnRight(degrees: int)
      requires Valid()
      modifies this
      ensures Valid() && trace == old(trace) + [Call.TurnRight(degrees)] && heading == old(heading) - degrees
    {
      Receive(Call.TurnRight(degrees));
    }

    method Jump()
      requires Valid()
      modifies this
      ensures Valid() && trace == old(trace) + [Call.Jump] && heading == old(heading)
    {
      Receive(Call.Jump);
    }
  }

  /** A value inside a block record (the host's dictionaries). */
  datatype Value = VBool(b: bool) | VInt(i: int) | VStr(s: string) | VVec(v: Vec3)

  type BlockRecord = map<string, Value>

  /**
   * The host's interaction service, seen only through what it answers:
   * whether placing a named block or breaking the block ahead succeeds,
   * the record of the block ahead, and the blocks within a radius.
   */
  datatype Interaction = Interaction(
    place: string -> bool,
    breakOk: bool,
    inspect: BlockRecord,
    detect: int -> seq<BlockRecord>)

  /** The record `inspect_block` returns when there is no interaction service. */
  const NothingThere: BlockRecord := map["exists" := VBool(false)]

  /** The accepted `move` words (after lower-casing); "backward" is an alias of "back". */
  const MoveWords: set<string> := {"forward", "back", "backward", "left", "right", "up", "down"}

  /** The accepted `turn` words (after lower-casing). */
  const TurnWords: set<string> := {"left", "right"}

  /**
   * The controller calls `move` issues for an already lower-cased direction:
   * none for an unknown word, and for every known word a sequence that
   * leaves the heading where it was (the sidesteps turn 90 degrees, move
   * forward and turn back).
   */
  function MoveCalls(direction: string, distance: int): (r: seq<Call>)
    ensures r == [] <==> direction !in MoveWords
    ensures NetTurn(r) == 0
    ensures direction in {"left", "right"} ==> |r| == 3 && r[1] == Call.MoveForward(distance)
    ensures direction in {"forward", "back", "backward", "up", "down"} ==> |r| == 1
  {
    if direction == "forward" then [Call.MoveForward(distance)]
    else if direction == "back" || direction == "backward" then [Call.MoveForward(-distance)]
    else if direction == "left" then
      var calls := [Call.TurnLeft(90), Call.MoveForward(distance), Call.TurnRight(90)];
      NetTurnOfThree(calls);
      calls
    else if direction == "right" then
      var calls := [Call.TurnRight(90), Call.MoveForward(distance), Call.TurnLeft(90)];
      NetTurnOfThree(calls);
      calls
    else if direction == "up" then [Call.MoveUp(distance)]
    else if direction == "down" then [Call.MoveDown(distance)]
    else []
  }

  /**
   * The controller calls `turn` issues for an already lower-cased direction:
   * a single turn by exactly `degrees` for "left" or "right", otherwise none.
   */
  function TurnCalls(direction: string, degrees: int): (r: seq<Call>)
    ensures r == [] <==> direction !in TurnWords
    ensures |r| <= 1
    ensures NetTurn(r) == if direction == "left" then degrees else if direction == "right" then -degrees else 0
  {
    if direction == "left" then [Call.TurnLeft(degrees)]
    else if direction == "right" then [Call.TurnRight(degrees)]
    else []
  }

  /** The same call with left and right exchanged. */
  function Mirror(c: Call): (r: Call)
    ensures Rotation(r) == -Rotation(c)
  {
    match c
    case TurnLeft(g) => Call.TurnRight(g)
    case TurnRight(g) => Call.TurnLeft(g)
    case _ => c
  }

  function MirrorAll(calls: seq<Call>): (r: seq<Call>)
    ensures |r| == |calls|
    ensures forall i :: 0 <= i < |calls| ==> r[i] == Mirror(calls[i])
  {
    if calls == [] then [] else MirrorAll(calls[..|calls| - 1]) + [Mirror(calls[|calls| - 1])]
  }

  /** Mirroring a call sequence reverses its net rotation. */
  lemma {:induction false} MirrorNetTurn(calls: seq<Call>)
    ensures NetTurn(MirrorAll(calls)) == -NetTurn(calls)
  {
    if calls != [] {
      var init := calls[..|calls| - 1];
      MirrorNetTurn(init);
      assert MirrorAll(calls)[..|calls| - 1] == MirrorAll(init);
    }
  }

  /**
   * "right" is the mirror image of "left", for `move` (a sidestep the other
   * way) and for `turn`; "back" and "backward" are a forward move by the
   * negated distance.
   */
  lemma DirectionSymmetry(distance: int, degrees: int)
    ensures MoveCalls("right", distance) == MirrorAll(MoveCalls("left", distance))
    ensures TurnCalls("right", degrees) == MirrorAll(TurnCalls("left", degrees))
    ensures MoveCalls("back", distance) == MoveCalls("backward", distance) == MoveCalls("forward", -distance)
  {
  }

  /** The notice `move` prints for an unknown (lower-cased) direction. */
  function MoveNotice(direction: string): string
  {
    "Unknown direction: " + direction + ". Use 'forward', 'back', 'left', 'right', 'up', or 'down'"
  }

  /** The notice `turn` prints for an unknown (lower-cased) direction. */
  function TurnNotice(direction: string): string
  {
    "Unknown turn direction: " + direction + ". Use 'left' or 'right'"
  }

  /** What `move` prints: nothing for a known word, its notice line otherwise. */
  function MovePrinted(direction: string): (r: string)
    ensures r == "" <==> direction in MoveWords
  {
    if direction in MoveWords then "" else MoveNotice(direction) + "\n"
  }

  /** What `turn` prints: nothing for a known word, its notice line otherwise. */
  function TurnPrinted(direction: string): (r: string)
    ensures r == "" <==> direction in TurnWords
  {
    if direction in TurnWords then "" else TurnNotice(direction) + "\n"
  }

  /**
   * Direction matching ignores case: a direction and its lower-cased form
   * lead to the same calls and the same printed text, for `move` and `turn`.
   */
  lemma DirectionCaseInsensitive(direction: string, amount: int)
    ensures MoveCalls(Text.Lower(Text.Lower(direction)), amount) == MoveCalls(Text.Lower(direction), amount)
    ensures MovePrinted(Text.Lower(Text.Lower(direction))) == MovePrinted(Text.Lower(direction))
    ensures TurnCalls(Text.Lower(Text.Lower(direction)), amount) == TurnCalls(Text.Lower(direction), amount)
    ensures TurnPrinted(Text.Lower(Text.Lower(direction))) == TurnPrinted(Text.Lower(direction))
  {
    Text.LowerIdempotent(direction);
  }

  /**
   * The facade. `controller` and `interaction` are the references the host
   * hands over when the node becomes ready (absent when the host has none);
   * `sys` is the process's `sys` module, whose `stdout` receives notices.
   */
  class AgentAPI {
    const controller: Controller?
    const interaction: Option<Interaction>
    const sys: Stdio.Sys

    constructor (controller: Controller?, interaction: Option<Interaction>, sys: Stdio.Sys)
      ensures this.controller == controller && this.interaction == interaction && this.sys == sys
    {
      this.controller := controller;
      this.interaction := interaction;
      this.sys := sys;
    }

    /**
     * `move(direction, distance)`. Without a controller nothing happens.
     * Otherwise the controller receives exactly `MoveCalls` of the
     * lower-cased direction, its heading ends where it started, and the
     * current stdout receives the notice for an unknown word.
     */
    method Move(direction: string, distance: int := 1)
      requires controller != null ==> controller.Valid()
      modifies controller, sys.stdout
      ensures controller != null ==> controller.Valid()
      ensures controller == null ==> sys.stdout.text == old(sys.stdout.text)
      ensures controller != null ==>
        controller.trace == old(controller.trace) + MoveCalls(Text.Lower(direction), distance) &&
        controller.heading == old(controller.heading) &&
        sys.stdout.text == old(sys.stdout.text) + MovePrinted(Text.Lower(direction))
    {
      if controller == null {
        return;
      }
      var d := Text.Lower(direction);
      if d == "forward" {
        controller.MoveForward(distance);
      } else if d == "back" || d == "backward" {
        controller.MoveForward(-distance);
      } else if d == "left" {
        controller.TurnLeft(90);
        controller.MoveForward(distance);
        controller.TurnRight(90);
      } else if d == "right" {
        controller.TurnRight(90);
        controller.MoveForward(distance);
        controller.TurnLeft(90);
      } else if d == "up" {
        controller.MoveUp(distance);
      } else if d == "down" {
        controller.MoveDown(distance);
      } else {
        sys.Print(MoveNotice(d));
      }
    }

    /**
     * `turn(direction, degrees)`. Without a controller nothing happens.
     * Otherwise the controller receives exactly `TurnCalls` of the
     * lower-cased direction, its heading moves by their net rotation, and the
     * current stdout receives the notice for an unknown word.
     */
    method Turn(direction: string, degrees: int := 90)
      requires controller != null ==> controller.Valid()
      modifies controller, sys.stdout
      ensures controller != null ==> controller.Valid()
      ensures controller == null ==> sys.stdout.text == old(sys.stdout.text)
      ensures controller != null ==>
        controller.trace == old(controller.trace) + TurnCalls(Text.Lower(direction), degrees) &&
        controller.heading == old(controller.heading) + NetTurn(TurnCalls(Text.Lower(direction), degrees)) &&
        sys.stdout.text == old(sys.stdout.text) + TurnPrinted(Text.Lower(direction))
    {
      if controller == null {
        return;
      }
      var d := Text.Lower(direction);
      if d == "left" {
        controller.TurnLeft(degrees);
      } else if d == "right" {
        controller.TurnRight(degrees);
      } else {
        sys.Print(TurnNotice(d));
      }
    }

    /** `jump()`: one jump call, or nothing without a controller. */
    method Jump()
      requires controller != null ==> controller.Valid()
      modifies controller
      ensures controller != null ==> controller.Valid()
      ensures controller != null ==>
        controller.trace == old(controller.trace) + [Call.Jump] && controller.heading == old(controller.heading)
    {
      if controller != null {
        controller.Jump();
      }
    }

    /** Legacy `move_forward(distance)`: the same effect as `move("forward", distance)`. */
    method MoveForward(distance: int := 1)
      requires controller != null ==> controller.Valid()
      modifies controller, sys.stdout
      ensures controller != null ==> controller.Valid()
      ensures controller == null ==> sys.stdout.text == old(sys.stdout.text)
      ensures controller != null ==>
        controller.trace == old(controller.trace) + MoveCalls(Text.Lower("forward"), distance) &&
        controller.heading == old(controller.heading) &&
        sys.stdout.text == old(sys.stdout.text) + MovePrinted(Text.Lower("forward"))
      ensures controller != null ==>
        controller.trace == old(controller.trace) + [Call.MoveForward(distance)] &&
        sys.stdout.text == old(sys.stdout.text)
    {
      Move("forward", distance);
    }

    /** Legacy `turn_left(degrees)`: the same effect as `turn("left", degrees)`. */
    method TurnLeft(degrees: int := 90)
      requires controller != null ==> controller.Valid()
      modifies controller, sys.stdout
      ensures controller != null ==> controller.Valid()
      ensures controller == null ==> sys.stdout.text == old(sys.stdout.text)
      ensures controller != null ==>
        controller.trace == old(controller.trace) + TurnCalls(Text.Lower("left"), degrees) &&
        controller.heading == old(controller.heading) + NetTurn(TurnCalls(Text.Lower("left"), degrees)) &&
        sys.stdout.text == old(sys.stdout.text) + TurnPrinted(Text.Lower("left"))
      ensures controller != null ==>
        controller.trace == old(controller.trace) + [Call.TurnLeft(degrees)] &&
        controller.heading == old(controller.heading) + degrees &&
        sys.stdout.text == old(sys.stdout.text)
    {
      Turn("left", degrees);
    }

    /** Legacy `turn_right(degrees)`: the same effect as `turn("right", degrees)`. */
    method TurnRight(degrees: int := 90)
      requires controller != null ==> controller.Valid()
      modifies controller, sys.stdout
      ensures controller != null ==> controller.Valid()
      ensures controller == null ==> sys.stdout.text == old(sys.stdout.text)
      ensures controller != null ==>
        controller.trace == old(controller.trace) + TurnCalls(Text.Lower("right"), degrees) &&
        controller.heading == old(controller.heading) + NetTurn(TurnCalls(Text.Lower("right"), degrees)) &&
        sys.stdout.text == old(sys.stdout.text) + TurnPrinted(Text.Lower("right"))
      ensures controller != null ==>
        controller.trace == old(controller.trace) + [Call.TurnRight(degrees)] &&
        controller.heading == old(controller.heading) - degrees &&
        sys.stdout.text == old(sys.stdout.text)
    {
      Turn("right", degrees);
    }

    /** `place_block(name)`: the service's answer, or false without a service. */
    function PlaceBlock(blockName: string): (r: bool)
      ensures interaction.None? ==> !r
      ensures interaction.Some? ==> r == interaction.value.place(blockName)
    {
      if interaction.Some? then interaction.value.place(blockName) else false
    }

    /** `break_block()`: the service's answer, or false without a service. */
    function BreakBlock(): (r: bool)
      ensures interaction.None? ==> !r
      ensures interaction.Some? ==> r == interaction.value.breakOk
    {
      if interaction.Some? then interaction.value.breakOk else false
    }

    /** `inspect_block()`: the service's record, or `{"exists": False}` without a service. */
    function InspectBlock(): (r: BlockRecord)
      ensures interaction.None? ==> r.Keys == {"exists"} && r["exists"] == VBool(false)
      ensures interaction.Some? ==> r == interaction.value.inspect
    {
      if interaction.Some? then interaction.value.inspect else NothingThere
    }

    /** `detect_nearby_blocks(radius)`: the service's list, or `[]` without a service. */
    function DetectNearbyBlocks(radius: int := 3): (r: seq<BlockRecord>)
      ensures interaction.None? ==> r == []
      ensures interaction.Some? ==> r == interaction.value.detect(radius)
    {
      if interaction.Some? then interaction.value.detect(radius) else []
    }

    /** `get_position()`: the controller's position, or `None` without a controller. */
    function GetPosition(): (r: Option<Vec3>)
      reads controller
      ensures controller == null <==> r.None?
      ensures controller != null ==> r.value == controller.position
    {
      if controller != null then Some(controller.position) else None
    }

    /** `get_facing_direction()`: the controller's forward vector, or `None` without a controller. */
    function GetFacingDirection(): (r: Option<Vec3>)
      reads controller
      ensures controller == null <==> r.None?
      ensures controller != null ==> r.value == controller.facing
    {
      if controller != null then Some(controller.facing) else None
    }
  }
}
