/**
 The growing event vectors of the game clients (ev_vec_t in src/game_timewarp.c
 and its copies). A push that finds the vector full reallocates it; the caller's
 own pointer follows, but the one in the trace does not.
 */
module EvVecs {
  import opened Balls

  /** How many events a new vector has room for. */
  const SLOT_SIZE: nat := 8

  class EvVec {
    var count: nat
    var evs: seq<Event>
    /** The block has not been moved elsewhere: a pointer to it may be used. */
    ghost var live: bool

    ghost predicate Valid()
      reads this
    {
      live && SLOT_SIZE <= count && |evs| <= count
    }

    constructor ()
      ensures Valid() && count == SLOT_SIZE && evs == []
    {
      count, evs := SLOT_SIZE, [];
      live := true;
    }

    /** The block that a reallocation makes elsewhere. */
    constructor Moved(count: nat, evs: seq<Event>)
      requires SLOT_SIZE <= count && |evs| <= count
      ensures Valid() && this.count == count && this.evs == evs
    {
      this.count, this.evs := count, evs;
      live := true;
    }
  }

  /**
   The size up to which a vector of `count` events grows where it is, if the
   allocator can extend blocks to `extent` events: growth is by half each time.
   */
  function Room(count: nat, extent: nat): (room: nat)
    requires SLOT_SIZE <= count
    ensures count <= room && (room == count || room <= extent)
    ensures extent < count + count / 2 <==> room == count
    decreases extent - count
  {
    if extent < count + count / 2 then count else Room(count + count / 2, extent)
  }

  /** ev_vec_push. The returned vector is where the caller's pointer points to afterwards. */
  method EvVecPush(vec: EvVec, ev: Event, extent: nat) returns (grown: EvVec)
    requires vec.Valid()
    modifies vec
    ensures grown.Valid() && grown.evs == old(vec.evs) + [ev]
    ensures if old(|vec.evs|) < Room(old(vec.count), extent)
            then grown == vec && Room(grown.count, extent) == Room(old(vec.count), extent)
            else fresh(grown) && !vec.live && vec.evs == old(vec.evs)
  {
    grown := vec;
    if |vec.evs| == vec.count {
      var wider := vec.count + vec.count / 2;
      if wider <= extent {
        vec.count := wider;
      } else {
        vec.count := wider;
        grown := new EvVec.Moved(wider, vec.evs);
        vec.live := false;
      }
    }
    grown.evs := grown.evs + [ev];
  }

  /**
   The loop that files the events of a frame: it fetches the slot from the trace
   once and then follows its own pointer. The slot in the trace ends up holding
   all events if and only if they fit where it is.
   */
  method PushAll(slot: EvVec, evs: seq<Event>, extent: nat) returns (last: EvVec)
    requires slot.Valid()
    modifies slot
    ensures last.Valid() && last.evs == old(slot.evs) + evs
    ensures slot.live && slot.evs == old(slot.evs) + evs <==> |old(slot.evs) + evs| <= Room(old(slot.count), extent)
    ensures slot.live <==> last == slot
  {
    last := slot;
    ghost var room := Room(slot.count, extent);
    for i := 0 to |evs|
      invariant last.Valid() && last.evs == old(slot.evs) + evs[..i]
      invariant slot.live <==> last == slot
      invariant last != slot ==> fresh(last) && |slot.evs| == room < |last.evs|
      invariant last == slot ==> Room(slot.count, extent) == room && |slot.evs| <= room
    {
      last := EvVecPush(last, evs[i], extent);
      assert evs[..i + 1] == evs[..i] + [evs[i]];
    }
    assert evs[..|evs|] == evs;
  }

  /** A new slot keeps all events if and only if it has room; at most eight where the first growth moves it. */
  method FillNewSlot(evs: seq<Event>, extent: nat) returns (slot: EvVec)
    ensures fresh(slot) && (slot.live && slot.evs == evs <==> |evs| <= Room(SLOT_SIZE, extent))
    ensures extent < 12 ==> (slot.live && slot.evs == evs <==> |evs| <= 8)
  {
    slot := new EvVec();
    var last := PushAll(slot, evs, extent);
    assert [] + evs == evs;
  }

  /** The sizes a slot grows to where it is: 8, 12, 18, 27 events. */
  lemma RoomSteps(extent: nat)
    ensures extent < 12 ==> Room(8, extent) == 8
    ensures 12 <= extent < 18 ==> Room(8, extent) == 12
    ensures 18 <= extent < 27 ==> Room(8, extent) == 18
    ensures 27 <= extent < 40 ==> Room(8, extent) == 27
  {
    if 12 <= extent { assert Room(8, extent) == Room(12, extent); }
    if 18 <= extent { assert Room(12, extent) == Room(18, extent); }
    if 27 <= extent { assert Room(18, extent) == Room(27, extent); }
  }

  /** And it keeps them all where the allocator can extend it far enough. */
  lemma {:induction false} RoomEnough(count: nat, extent: nat, n: nat)
    requires SLOT_SIZE <= count && n + n / 2 <= extent
    ensures n <= Room(count, extent)
    decreases extent - count
  {
    if count < n { RoomEnough(count + count / 2, extent, n); }
  }
}
