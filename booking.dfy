/**
 * The booking store: the current user's bookings and a registry of reserved
 * (artist, date, time) slots shared by every user of the browser, both
 * mirrored into browser storage.
 */
module Bookings {
  import opened Wrappers
  import opened Lists
  import Auth

  /** The storage key of the shared slot registry. */
  const GlobalSlotsKey := "beauty_verse_global_slots"

  const SlotTaken := "This slot is already reserved"

  const Upcoming := "upcoming"

  /** A reserved slot. */
  datatype Slot = Slot(artistId: int, date: string, time: string)

  /** The display fields a booking request carries along (artist name and picture, service). */
  datatype Display = Display(artistName: string, artistImage: string, service: string)

  /** What a caller hands to `createBooking`. */
  datatype BookingRequest = BookingRequest(artistId: int, date: string, time: string, display: Display)

  /** A booking; `status` may be unset in bookings read back from storage. */
  datatype Booking = Booking(id: int, artistId: int, date: string, time: string, status: Option<string>, display: Display)

  /** The two kinds of list this store keeps in storage. */
  datatype Stored = BookingList(bookings: seq<Booking>) | SlotList(slots: seq<Slot>)

  type Storage = map<string, Stored>

  /** The key of a user's booking list: "bookings_" and the username, which is rendered as "null" when missing. */
  function BookingsKey(username: Option<string>): (key: string)
    ensures |key| >= 9 && key[..9] == "bookings_"
    ensures username.Some? ==> key[9..] == username.value
    ensures username.None? ==> key[9..] == "null"
  {
    "bookings_" + (if username.Some? then username.value else "null")
  }

  /** No user's booking list can overwrite the slot registry. */
  lemma KeysDiffer(username: Option<string>)
    ensures BookingsKey(username) != GlobalSlotsKey
  {
    assert BookingsKey(username)[1] == 'o';
    assert GlobalSlotsKey[1] == 'e';
  }

  /** The booking list stored under a key; a missing entry reads as the empty list. */
  function StoredBookings(s: Storage, key: string): seq<Booking> {
    if key in s && s[key].BookingList? then s[key].bookings else []
  }

  /** The stored slot registry; a missing entry reads as the empty list. */
  function StoredSlots(s: Storage): seq<Slot> {
    if GlobalSlotsKey in s && s[GlobalSlotsKey].SlotList? then s[GlobalSlotsKey].slots else []
  }

  function SlotOf(b: Booking): Slot {
    Slot(b.artistId, b.date, b.time)
  }

  function SameSlot(artistId: int, date: string, time: string): Slot -> bool {
    (s: Slot) => s.artistId == artistId && s.date == date && s.time == time
  }

  function OtherSlot(artistId: int, date: string, time: string): Slot -> bool {
    (s: Slot) => !SameSlot(artistId, date, time)(s)
  }

  function BookingIdIs(id: int): Booking -> bool {
    (b: Booking) => b.id == id
  }

  function BookingIdIsNot(id: int): Booking -> bool {
    (b: Booking) => b.id != id
  }

  /** `isSlotBooked(a, d, t)`: some registered slot agrees with the request on all three fields. */
  function IsSlotBooked(slots: seq<Slot>, artistId: int, date: string, time: string): (booked: bool)
    ensures booked <==> Slot(artistId, date, time) in slots
  {
    var r := Any(slots, SameSlot(artistId, date, time));
    assert r ==> exists i :: 0 <= i < |slots| && slots[i] == Slot(artistId, date, time);
    r
  }

  /** The booking `createBooking` builds: the request's fields, the given id and status "upcoming". */
  function NewBooking(req: BookingRequest, id: int): (b: Booking)
    ensures b.id == id && b.status == Some(Upcoming) && IsUpcoming(b)
    ensures SlotOf(b) == Slot(req.artistId, req.date, req.time) && b.display == req.display
  {
    Booking(id, req.artistId, req.date, req.time, Some(Upcoming), req.display)
  }

  /** The bookings left after cancelling an id: exactly those with another id, in order. */
  function WithoutBooking(bookings: seq<Booking>, id: int): (r: seq<Booking>)
    ensures forall i :: 0 <= i < |r| ==> r[i].id != id && r[i] in bookings
    ensures forall i :: 0 <= i < |bookings| && bookings[i].id != id ==> bookings[i] in r
  {
    Filter(bookings, BookingIdIsNot(id))
  }

  /** The registry after freeing a booking's slot: every slot with its triple is gone, the rest stay. */
  function FreeSlot(slots: seq<Slot>, b: Booking): (r: seq<Slot>)
    ensures !IsSlotBooked(r, b.artistId, b.date, b.time)
    ensures forall i :: 0 <= i < |r| ==> r[i] in slots
    ensures forall i :: 0 <= i < |slots| && slots[i] != SlotOf(b) ==> slots[i] in r
  {
    Filter(slots, OtherSlot(b.artistId, b.date, b.time))
  }

  /** A booking counts as upcoming when its status is "upcoming", empty or unset. */
  predicate IsUpcoming(b: Booking): (upcoming: bool)
    ensures b.status == None || b.status == Some(Upcoming) || b.status == Some("") ==> upcoming
    ensures b.status.Some? && b.status.value != Upcoming && b.status.value != "" ==> !upcoming
  {
    b.status.None? || b.status.value == Upcoming || b.status.value == ""
  }

  /** `upcomingCount`: how many bookings are upcoming. */
  function CountUpcoming(bookings: seq<Booking>): (n: nat)
    ensures n <= |bookings|
  {
    |Filter(bookings, IsUpcoming)|
  }

  /** A new booking adds one to the upcoming count. */
  lemma UpcomingCountCreate(req: BookingRequest, id: int, bookings: seq<Booking>)
    ensures CountUpcoming([NewBooking(req, id)] + bookings) == CountUpcoming(bookings) + 1
  {
    var all := [NewBooking(req, id)] + bookings;
    assert all[1..] == bookings;
  }

  /** Cancelling never raises the upcoming count. */
  lemma {:induction false} UpcomingCountCancel(bookings: seq<Booking>, id: int)
    ensures CountUpcoming(WithoutBooking(bookings, id)) <= CountUpcoming(bookings)
  {
    if bookings != [] {
      var head, tail := bookings[0], bookings[1..];
      UpcomingCountCancel(tail, id);
      var kept := if head.id != id then [head] else [];
      assert WithoutBooking(bookings, id) == kept + WithoutBooking(tail, id);
      FilterConcat(kept, WithoutBooking(tail, id), IsUpcoming);
      assert |Filter(kept, IsUpcoming)| <= (if IsUpcoming(head) then 1 else 0);
      assert CountUpcoming(bookings) == (if IsUpcoming(head) then 1 else 0) + CountUpcoming(tail);
    }
  }

  /** Cancelling keeps the order of the bookings that stay: it distributes over concatenation. */
  lemma CancelKeepsOrder(front: seq<Booking>, back: seq<Booking>, id: int)
    ensures WithoutBooking(front + back, id) == WithoutBooking(front, id) + WithoutBooking(back, id)
  {
    FilterConcat(front, back, BookingIdIsNot(id));
  }

  /** Cancelling an id that no booking has changes nothing. */
  lemma CancelAbsent(bookings: seq<Booking>, id: int)
    requires forall i :: 0 <= i < |bookings| ==> bookings[i].id != id
    ensures WithoutBooking(bookings, id) == bookings
  {
    FilterKeepsAll(bookings, BookingIdIsNot(id));
  }

  /** Freeing a slot keeps a duplicate-free registry duplicate-free. */
  lemma FreeSlotNoDup(slots: seq<Slot>, b: Booking)
    requires NoDup(slots)
    ensures NoDup(FreeSlot(slots, b))
  {
    FilterNoDup(slots, OtherSlot(b.artistId, b.date, b.time));
  }

  /** The booking provider. */
  class BookingStore {
    var user: Option<Auth.User>
    var bookings: seq<Booking>
    var globalSlots: seq<Slot>
    var loading: bool
    var storage: Storage

    /** The in-memory lists mirror storage: always the registry, and the user's list when someone is logged in. */
    ghost predicate Valid()
      reads this
    {
      && globalSlots == StoredSlots(storage)
      && (user.Some? ==> bookings == StoredBookings(storage, BookingsKey(user.value.username)))
    }

    /** The key of the current user's list. */
    function Key(): string
      reads this
      requires user.Some?
    {
      BookingsKey(user.value.username)
    }

    /** Mounting the provider: empty state, then the effect for the current user. */
    constructor (saved: Storage, u: Option<Auth.User>)
      ensures Valid()
      ensures user == u && storage == saved && !loading
      ensures globalSlots == StoredSlots(saved)
      ensures bookings == if u.Some? then StoredBookings(saved, BookingsKey(u.value.username)) else []
    {
      user := u;
      storage := saved;
      loading := false;
      globalSlots := StoredSlots(saved);
      bookings := if u.Some? then StoredBookings(saved, BookingsKey(u.value.username)) else [];
    }

    /** `fetchBookings()`: reload both lists from storage; nothing happens without a user. */
    method FetchBookings()
      modifies this
      ensures user == old(user) && storage == old(storage)
      ensures old(user).None? ==> bookings == old(bookings) && globalSlots == old(globalSlots) && loading == old(loading)
      ensures old(user).Some? ==> && bookings == StoredBookings(storage, Key())
                                  && globalSlots == StoredSlots(storage)
                                  && !loading
      ensures old(Valid()) ==> Valid()
    {
      if user.None? {
        return;
      }
      loading := true;
      bookings := StoredBookings(storage, Key());
      globalSlots := StoredSlots(storage);
      loading := false;
    }

    /** The effect that runs whenever the logged-in user changes. */
    method OnUserChange(u: Option<Auth.User>)
      modifies this
      ensures Valid()
      ensures user == u && storage == old(storage)
      ensures globalSlots == StoredSlots(storage)
      ensures bookings == if u.Some? then StoredBookings(storage, BookingsKey(u.value.username)) else []
      ensures loading == if u.Some? then false else old(loading)
    {
      user := u;
      globalSlots := StoredSlots(storage);
      if u.Some? {
        FetchBookings();
      } else {
        bookings := [];
      }
    }

    function SlotBooked(artistId: int, date: string, time: string): bool
      reads this
    {
      IsSlotBooked(globalSlots, artistId, date, time)
    }

    /**
     * `createBooking(bookingData)` with the id `Date.now()` would give. A taken
     * slot is refused and nothing changes; otherwise the booking goes to the
     * front of the user's list (in memory and in storage) and its slot is
     * registered.
     */
    method CreateBooking(req: BookingRequest, id: int) returns (r: Result<Booking>)
      requires Valid()
      modifies this
      ensures Valid()
      ensures user == old(user)
      ensures old(SlotBooked(req.artistId, req.date, req.time)) ==>
        && r == Failure(SlotTaken)
        && bookings == old(bookings) && globalSlots == old(globalSlots)
        && storage == old(storage) && loading == old(loading)
      ensures !old(SlotBooked(req.artistId, req.date, req.time)) ==>
        && r == Success(NewBooking(req, id))
        && bookings == [NewBooking(req, id)] + old(bookings)
        && globalSlots == old(globalSlots) + [Slot(req.artistId, req.date, req.time)]
        && storage == (if user.Some?
                       then old(storage)[Key() := BookingList([NewBooking(req, id)] + StoredBookings(old(storage), Key()))]
                       else old(storage))[GlobalSlotsKey := SlotList(globalSlots)]
        && !loading
      ensures SlotBooked(req.artistId, req.date, req.time)
      ensures NoDup(old(globalSlots)) ==> NoDup(globalSlots)
    {
      if SlotBooked(req.artistId, req.date, req.time) {
        return Failure(SlotTaken);
      }
      loading := true;
      var booking := NewBooking(req, id);
      bookings := [booking] + bookings;
      if user.Some? {
        storage := storage[Key() := BookingList([booking] + StoredBookings(storage, Key()))];
      }
      var slot := Slot(req.artistId, req.date, req.time);
      globalSlots := globalSlots + [slot];
      storage := storage[GlobalSlotsKey := SlotList(globalSlots)];
      loading := false;
      if user.Some? {
        KeysDiffer(user.value.username);
      }
      assert slot !in old(globalSlots);
      return Success(booking);
    }

    /**
     * `cancelBooking(id)`: every booking with the id leaves the user's list (in
     * memory and in storage); when one was found, every registry slot with its
     * (artist, date, time) is freed.
     */
    method CancelBooking(id: int)
      requires Valid()
      modifies this
      ensures Valid()
      ensures user == old(user) && loading == old(loading)
      ensures bookings == WithoutBooking(old(bookings), id)
      ensures var found := Find(old(bookings), BookingIdIs(id));
        && (found.None? ==> globalSlots == old(globalSlots))
        && (found.Some? ==> globalSlots == FreeSlot(old(globalSlots), found.value))
        && storage == (var s := if user.Some?
                                 then old(storage)[Key() := BookingList(WithoutBooking(StoredBookings(old(storage), Key()), id))]
                                 else old(storage);
                       if found.Some? then s[GlobalSlotsKey := SlotList(globalSlots)] else s)
      ensures NoDup(old(globalSlots)) ==> NoDup(globalSlots)
    {
      var toCancel := Find(bookings, BookingIdIs(id));
      bookings := WithoutBooking(bookings, id);
      if user.Some? {
        storage := storage[Key() := BookingList(WithoutBooking(StoredBookings(storage, Key()), id))];
        KeysDiffer(user.value.username);
      }
      if toCancel.Some? {
        if NoDup(globalSlots) {
          FreeSlotNoDup(globalSlots, toCancel.value);
        }
        globalSlots := FreeSlot(globalSlots, toCancel.value);
        storage := storage[GlobalSlotsKey := SlotList(globalSlots)];
      }
    }

    function UpcomingCount(): (n: nat)
      reads this
      ensures n <= |bookings|
      ensures bookings == [] ==> n == 0
    {
      CountUpcoming(bookings)
    }
  }

  /** Booking the same slot twice: the second request is refused whatever happened to the first. */
  method DoubleBooking(saved: Storage, u: Option<Auth.User>, req: BookingRequest, first: int, second: int)
    returns (r1: Result<Booking>, r2: Result<Booking>)
    ensures r2 == Failure(SlotTaken)
    ensures (Slot(req.artistId, req.date, req.time) in StoredSlots(saved)) <==> r1 == Failure(SlotTaken)
  {
    var store := new BookingStore(saved, u);
    r1 := store.CreateBooking(req, first);
    r2 := store.CreateBooking(req, second);
  }

  /** Cancelling a fresh booking frees its slot for the next request. */
  method CancelFreesSlot(saved: Storage, u: Option<Auth.User>, req: BookingRequest, id: int, again: int)
    returns (r1: Result<Booking>, r2: Result<Booking>)
    requires Slot(req.artistId, req.date, req.time) !in StoredSlots(saved)
    ensures r1 == Success(NewBooking(req, id))
    ensures r2 == Success(NewBooking(req, again))
  {
    var store := new BookingStore(saved, u);
    r1 := store.CreateBooking(req, id);
    store.CancelBooking(id);
    r2 := store.CreateBooking(req, again);
  }
}
