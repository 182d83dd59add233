/**
 * Seat availability per slot: the client keeps, per slot key, the list of
 * bookings it has recorded, and a slot's free seats are the capacity minus
 * the party sizes recorded against it, never below zero.
 */
module Availability {
  import opened Wrappers

  const MAX_PEOPLE: nat := 8

  /**
   * A booking as the client stores it. `people` may be missing on records
   * written by older versions; `id` and `createdAt` come from the clock.
   */
  datatype Booking = Booking(
    slot: string, slotId: string, name: string, email: string,
    people: Option<int>, id: int, createdAt: string)

  /** The client's record: slot key to the bookings made for it, oldest first. */
  type Bookings = map<string, seq<Booking>>

  /** `b.people || 1`: a missing or zero party size counts as one seat. */
  function PartySize(b: Booking): int {
    if b.people.None? || b.people.value == 0 then 1 else b.people.value
  }

  /** `bookings[slotId] || []`. */
  function Taken(bookings: Bookings, slotId: string): seq<Booking> {
    if slotId in bookings then bookings[slotId] else []
  }

  /** The seats a list of bookings occupies: the left fold `reduce((acc, b) => acc + size, 0)`. */
  function Occupied(taken: seq<Booking>): int {
    if taken == [] then 0 else Occupied(taken[..|taken| - 1]) + PartySize(taken[|taken| - 1])
  }

  /** `availableFor`: `max(0, MAX_PEOPLE - occupied)`. */
  function AvailableFor(bookings: Bookings, slotId: string): (free: nat)
    ensures Occupied(Taken(bookings, slotId)) >= 0 ==> free <= MAX_PEOPLE
    ensures Taken(bookings, slotId) == [] ==> free == MAX_PEOPLE
    ensures Occupied(Taken(bookings, slotId)) <= MAX_PEOPLE ==>
      free + Occupied(Taken(bookings, slotId)) == MAX_PEOPLE
    ensures Occupied(Taken(bookings, slotId)) > MAX_PEOPLE ==> free == 0
  {
    var occupied := Occupied(Taken(bookings, slotId));
    if MAX_PEOPLE - occupied > 0 then MAX_PEOPLE - occupied else 0
  }

  /** A slot is shown as full (and cannot be opened) when no seat is free. */
  function IsFull(bookings: Bookings, slotId: string): (full: bool)
    ensures full <==> Occupied(Taken(bookings, slotId)) >= MAX_PEOPLE
  {
    AvailableFor(bookings, slotId) == 0
  }

  /** No recorded party size is negative. */
  predicate NonNegativeSizes(taken: seq<Booking>) {
    forall k | 0 <= k < |taken| :: taken[k].people.None? || taken[k].people.value >= 0
  }

  /** Appending a booking adds its party size. */
  lemma OccupiedAppend(taken: seq<Booking>, b: Booking)
    ensures Occupied(taken + [b]) == Occupied(taken) + PartySize(b)
  {
    assert (taken + [b])[..|taken|] == taken;
  }

  /** With non-negative party sizes every booking takes at least one seat. */
  lemma {:induction false} OccupiedAtLeastCount(taken: seq<Booking>)
    requires NonNegativeSizes(taken)
    ensures Occupied(taken) >= |taken|
    decreases |taken|
  {
    if taken != [] {
      var init := taken[..|taken| - 1];
      assert NonNegativeSizes(init) by {
        forall k | 0 <= k < |init| ensures init[k].people.None? || init[k].people.value >= 0 {
          assert init[k] == taken[k];
        }
      }
      OccupiedAtLeastCount(init);
    }
  }

  /** With non-negative party sizes a slot holding more bookings than seats is full. */
  lemma CrowdedSlotIsFull(bookings: Bookings, slotId: string)
    requires NonNegativeSizes(Taken(bookings, slotId))
    requires |Taken(bookings, slotId)| >= MAX_PEOPLE
    ensures IsFull(bookings, slotId)
  {
    OccupiedAtLeastCount(Taken(bookings, slotId));
  }
}
