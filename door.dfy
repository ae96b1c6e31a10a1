/** Doors (door.go): a door opens while the player touches it, closes when
    the player leaves, and, once its opening animation has reached the open
    frame, sends the player to its destination while its button is held.
    The collision flags and the animation frame are written by the engine's
    collision and animation systems; here they are fields the door system
    reads. The teleport messages are returned, in door order. */
module Doors {
  import opened Common

  /** engo.Point */
  datatype Point = Point(x: real, y: real)

  /** A door entity: its DoorComponent (IsOpen, DoorButton, TeleportTo,
      OpenFrame), the Collides flags of its collision component, and the
      current frame and selected animation of its animation component. */
  class Door {
    const id: nat
    const doorButton: string
    const teleportTo: Point
    const openFrame: int
    var isOpen: bool
    var collides: bv8
    var currentFrame: int
    var animation: string

    constructor (id: nat, doorButton: string, teleportTo: Point, openFrame: int)
      ensures this.id == id && this.doorButton == doorButton && this.teleportTo == teleportTo
      ensures this.openFrame == openFrame && !isOpen && collides == 0
    {
      this.id, this.doorButton, this.teleportTo, this.openFrame := id, doorButton, teleportTo, openFrame;
      isOpen, collides, currentFrame, animation := false, 0, 0, "";
    }
  }

  /** What a frame reads of a door, and the two things it may change. */
  datatype DoorView = DoorView(isOpen: bool, animation: string, collides: bv8, currentFrame: int)

  function ViewOf(d: Door): DoorView
    reads d
  {
    DoorView(d.isOpen, d.animation, d.collides, d.currentFrame)
  }

  /** The player touches the door. */
  predicate Touching(v: DoorView)
  {
    v.collides & CollisionGroupDoor != 0
  }

  /** The door sends the player on this frame (door.go:102-104). */
  predicate Sends(v: DoorView, openFrame: int, button: string, held: set<string>)
  {
    Touching(v) && v.isOpen && v.currentFrame >= openFrame && button in held
  }

  /** One door's frame (door.go:100-115): a touched closed door starts its
      "open" animation and opens; an untouched open door starts "close" and
      closes; otherwise nothing changes. */
  function Step(v: DoorView): DoorView
  {
    if Touching(v) && !v.isOpen then v.(animation := "open", isOpen := true)
    else if !Touching(v) && v.isOpen then v.(animation := "close", isOpen := false)
    else v
  }

  /** After a frame a door is open exactly when the player touches it; a
      door that opens or closes selects the matching animation; a door that
      sends the player was already open, so opening and sending never
      happen in the same frame. */
  lemma StepSpec(v: DoorView, openFrame: int, button: string, held: set<string>)
    ensures Step(v).isOpen <==> Touching(v)
    ensures Step(v).collides == v.collides && Step(v).currentFrame == v.currentFrame
    ensures !v.isOpen && Step(v).isOpen ==> Step(v).animation == "open" && !Sends(v, openFrame, button, held)
    ensures v.isOpen && !Step(v).isOpen ==> Step(v).animation == "close"
    ensures v.isOpen == Step(v).isOpen ==> Step(v).animation == v.animation
    ensures Sends(v, openFrame, button, held) ==> Step(v) == v
  {
  }

  /** Touching a closed door with its button held: the first frame opens it
      and sends no one; once the animation has reached the open frame, the
      next frame sends the player. */
  lemma OpenThenSend(v: DoorView, openFrame: int, button: string, held: set<string>, laterFrame: int)
    requires Touching(v) && !v.isOpen && button in held && laterFrame >= openFrame
    ensures !Sends(v, openFrame, button, held)
    ensures Sends(Step(v).(currentFrame := laterFrame), openFrame, button, held)
  {
  }

  /** The teleport targets of a frame from the first n doors, in door
      order, from the views before the frame. */
  function Teleports(doors: seq<Door>, views: seq<DoorView>, held: set<string>, n: nat): (r: seq<Point>)
    requires |views| == |doors| && n <= |doors|
    ensures |r| <= n
  {
    if n == 0 then []
    else
      Teleports(doors, views, held, n - 1)
      + if Sends(views[n - 1], doors[n - 1].openFrame, doors[n - 1].doorButton, held) then [doors[n - 1].teleportTo] else []
  }

  /** Every teleport target belongs to a door that sends the player; with
      nothing held, no one is sent. */
  lemma {:induction false} TeleportsFromSendingDoors(doors: seq<Door>, views: seq<DoorView>, held: set<string>, n: nat)
    requires |views| == |doors| && n <= |doors|
    ensures forall p :: p in Teleports(doors, views, held, n) ==>
              exists i :: 0 <= i < n && doors[i].teleportTo == p
                          && Sends(views[i], doors[i].openFrame, doors[i].doorButton, held)
    ensures held == {} ==> Teleports(doors, views, held, n) == []
  {
    if n > 0 {
      TeleportsFromSendingDoors(doors, views, held, n - 1);
    }
  }

  /** Conversely, every door that sends the player puts its target among
      the frame's teleports. */
  lemma {:induction false} SendingDoorsTeleport(doors: seq<Door>, views: seq<DoorView>, held: set<string>, n: nat, i: nat)
    requires |views| == |doors| && n <= |doors| && i < n
    requires Sends(views[i], doors[i].openFrame, doors[i].doorButton, held)
    ensures doors[i].teleportTo in Teleports(doors, views, held, n)
  {
    if i < n - 1 {
      SendingDoorsTeleport(doors, views, held, n - 1, i);
    }
  }

  /** No door has two entries: the entity system adds each entity once. */
  predicate Distinct(doors: seq<Door>)
  {
    forall i, j :: 0 <= i < j < |doors| ==> doors[i] != doors[j]
  }

  function Objects(doors: seq<Door>): set<Door>
  {
    set d | d in doors
  }

  function Views(doors: seq<Door>): (r: seq<DoorView>)
    reads Objects(doors)
    ensures |r| == |doors| && forall i :: 0 <= i < |doors| ==> r[i] == ViewOf(doors[i])
  {
    seq(|doors|, i reads Objects(doors) requires 0 <= i < |doors| => ViewOf(doors[i]))
  }

  class DoorSystem {
    var entities: seq<Door>
    var skipNextFrame: bool
    var paused: bool

    constructor ()
      ensures entities == [] && !skipNextFrame && !paused
    {
      entities, skipNextFrame, paused := [], false, false;
    }

    /** door.go:66-76 */
    method Add(d: Door)
      modifies this`entities
      ensures entities == old(entities) + [d]
    {
      entities := entities + [d];
    }

    /** The first door with the id leaves, the rest keep their order
        (door.go:78-89). */
    method Remove(id: nat)
      modifies this`entities
      ensures entities == RemoveFirstWhere(old(entities), (d: Door) => d.id == id)
    {
      var d := FindFirst(entities, (d: Door) => d.id == id);
      if d >= 0 {
        entities := entities[..d] + entities[d + 1..];
      }
    }

    /** One frame (door.go:91-116): a skipped frame only clears the flag, a
        paused one does nothing; otherwise every door steps and the
        teleports are returned in door order. */
    method Update(held: set<string>) returns (teleports: seq<Point>)
      requires Distinct(entities)
      modifies this`skipNextFrame, Objects(entities)`isOpen, Objects(entities)`animation
      ensures old(skipNextFrame) ==> !skipNextFrame && teleports == [] && Views(entities) == old(Views(entities))
      ensures !old(skipNextFrame) && paused ==> teleports == [] && Views(entities) == old(Views(entities))
      ensures !old(skipNextFrame) && !paused ==>
                && teleports == Teleports(entities, old(Views(entities)), held, |entities|)
                && forall i :: 0 <= i < |entities| ==> ViewOf(entities[i]) == Step(old(ViewOf(entities[i])))
    {
      teleports := [];
      if skipNextFrame {
        skipNextFrame := false;
        return;
      }
      if paused {
        return;
      }
      teleports := StepAll(held);
    }

    /** Every door steps, in order (door.go:99-115). */
    method StepAll(held: set<string>) returns (teleports: seq<Point>)
      requires Distinct(entities)
      modifies Objects(entities)`isOpen, Objects(entities)`animation
      ensures teleports == Teleports(entities, old(Views(entities)), held, |entities|)
      ensures forall i :: 0 <= i < |entities| ==> ViewOf(entities[i]) == Step(old(ViewOf(entities[i])))
    {
      teleports := [];
      ghost var before := Views(entities);
      for i := 0 to |entities|
        invariant forall j :: 0 <= j < |entities| ==>
                    ViewOf(entities[j]) == if j < i then Step(before[j]) else before[j]
        invariant teleports == Teleports(entities, before, held, i)
      {
        var d := entities[i];
        assert forall j :: 0 <= j < |entities| && j != i ==> entities[j] != d;
        var sent := StepDoor(d, held);
        if sent {
          teleports := teleports + [d.teleportTo];
        }
      }
    }

    /** One door's frame (door.go:100-114); true when it sends the player. */
    static method StepDoor(d: Door, held: set<string>) returns (sent: bool)
      modifies d`isOpen, d`animation
      ensures ViewOf(d) == Step(old(ViewOf(d)))
      ensures sent == Sends(old(ViewOf(d)), d.openFrame, d.doorButton, held)
    {
      sent := false;
      if d.collides & CollisionGroupDoor != 0 {
        if d.isOpen {
          sent := d.currentFrame >= d.openFrame && d.doorButton in held;
        } else {
          d.animation := "open";
          d.isOpen := true;
        }
      } else {
        if d.isOpen {
          d.animation := "close";
          d.isOpen := false;
        }
      }
    }

    /** door.go:118-120 */
    method Pause()
      modifies this`paused
      ensures paused && skipNextFrame == old(skipNextFrame)
    {
      paused := true;
    }

    /** door.go:122-125 */
    method Unpause()
      modifies this`paused, this`skipNextFrame
      ensures !paused && skipNextFrame
    {
      paused, skipNextFrame := false, true;
    }
  }
}
