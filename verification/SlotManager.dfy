/** Assigning inference slots to sessions, evicting the least recently used one when all are taken.
    The map with time stamps that the code keeps is shown to refine a list in order of use. */
module SlotManagers {

  datatype SlotEntry = SlotEntry(sessionID: string, lastUsed: nat)

  /** A slot and the session that holds it. */
  datatype Use = Use(slot: nat, session: string)

  /** The outcome of a request: the list afterwards, the slot, and the session put out, if any. */
  datatype Assignment = Assignment(order: seq<Use>, slot: int, evicted: string)

  // ---- The list in order of use, least recent first ----

  function IndexOf(order: seq<Use>, session: string): (k: int)
    ensures -1 <= k < |order|
    ensures k >= 0 ==> order[k].session == session
    ensures k < 0 ==> forall i :: 0 <= i < |order| ==> order[i].session != session
  {
    if order == [] then -1
    else if order[|order| - 1].session == session then |order| - 1
    else IndexOf(order[..|order| - 1], session)
  }

  function SlotsOf(order: seq<Use>): (s: set<nat>)
    ensures forall k :: k in s <==> exists i :: 0 <= i < |order| && order[i].slot == k
  {
    set i | 0 <= i < |order| :: order[i].slot
  }

  /** The lowest slot from `k` below `total` that is not used, or -1. */
  function FirstFree(used: set<nat>, k: nat, total: nat): (r: int)
    requires k <= total
    ensures r == -1 || (k <= r < total && r !in used)
    ensures r == -1 ==> forall i :: k <= i < total ==> i in used
    ensures r >= 0 ==> forall i :: k <= i < r ==> i in used
    decreases total - k
  {
    if k == total then -1 else if k !in used then k else FirstFree(used, k + 1, total)
  }

  /** The least recent position whose slot is below `total`, or the length of the list. */
  function FirstBelow(order: seq<Use>, total: int): (k: nat)
    ensures k <= |order|
    ensures k < |order| ==> order[k].slot < total
    ensures forall i :: 0 <= i < k ==> order[i].slot >= total
  {
    if order == [] then 0
    else if order[0].slot < total then 0
    else 1 + FirstBelow(order[1..], total)
  }

  function Without(order: seq<Use>, k: nat): seq<Use>
    requires k < |order|
  {
    order[..k] + order[k + 1..]
  }

  function MovedToEnd(order: seq<Use>, session: string): seq<Use> {
    var k := IndexOf(order, session);
    if k < 0 then order else Without(order, k) + [order[k]]
  }

  function Released(order: seq<Use>, session: string): seq<Use> {
    var k := IndexOf(order, session);
    if k < 0 then order else Without(order, k)
  }

  function SlotFor(order: seq<Use>, session: string): int {
    var k := IndexOf(order, session);
    if k < 0 then -1 else order[k].slot
  }

  function Assigned(order: seq<Use>, session: string, total: int): Assignment {
    if total <= 0 then Assignment(order, -1, "")
    else if IndexOf(order, session) >= 0 then Assignment(MovedToEnd(order, session), SlotFor(order, session), "")
    else
      var free := FirstFree(SlotsOf(order), 0, total);
      if free >= 0 then Assignment(order + [Use(free, session)], free, "")
      else
        var k := FirstBelow(order, total);
        assert 0 in SlotsOf(order);
        Assignment(Without(order, k) + [Use(order[k].slot, session)], order[k].slot, order[k].session)
  }

  /** Entries of the listed assignments. */
  ghost predicate Entries(slots: map<nat, SlotEntry>, order: seq<Use>, clock: nat) {
    forall i :: 0 <= i < |order| ==>
      var u := order[i];
      u.slot in slots && slots[u.slot].sessionID == u.session && slots[u.slot].lastUsed < clock
  }

  /** The first assignment was used before the second. */
  ghost predicate UsedBefore(slots: map<nat, SlotEntry>, a: Use, b: Use) {
    a.slot in slots && b.slot in slots && slots[a.slot].lastUsed < slots[b.slot].lastUsed
  }

  /** Time stamps in the order of the list. */
  ghost predicate Stamped(slots: map<nat, SlotEntry>, order: seq<Use>) {
    forall i, j :: 0 <= i < j < |order| ==> UsedBefore(slots, order[i], order[j])
  }

  ghost predicate DistinctSessions(order: seq<Use>) {
    forall i, j :: 0 <= i < j < |order| ==> order[i].session != order[j].session
  }

  /** The map holds exactly the listed assignments, with time stamps in the order of the list. */
  ghost predicate Represents(slots: map<nat, SlotEntry>, order: seq<Use>, clock: nat) {
    && slots.Keys == SlotsOf(order)
    && Entries(slots, order, clock)
    && Stamped(slots, order)
    && DistinctSessions(order)
  }

  lemma {:induction false} SlotsOfAppend(order: seq<Use>, u: Use)
    ensures SlotsOf(order + [u]) == SlotsOf(order) + {u.slot}
  {
    assert (order + [u])[|order|] == u;
    forall k | k in SlotsOf(order)
      ensures k in SlotsOf(order + [u])
    {
      var i :| 0 <= i < |order| && order[i].slot == k;
      assert (order + [u])[i] == order[i];
    }
  }

  lemma {:induction false} WithoutAt(order: seq<Use>, k: nat, i: nat)
    requires k < |order| && i < |order| - 1
    ensures |Without(order, k)| == |order| - 1
    ensures Without(order, k)[i] == order[if i < k then i else i + 1]
  {
  }

  lemma {:induction false} SlotsOfWithout(slots: map<nat, SlotEntry>, order: seq<Use>, k: nat)
    requires k < |order| && Stamped(slots, order)
    ensures SlotsOf(Without(order, k)) == SlotsOf(order) - {order[k].slot}
  {
    hide Without;
    var order' := Without(order, k);
    assert |order'| == |order| - 1 by { WithoutLength(order, k); }
    forall s | s in SlotsOf(order')
      ensures s in SlotsOf(order) && s != order[k].slot
    {
      var i :| 0 <= i < |order'| && order'[i].slot == s;
      WithoutAt(order, k, i);
    }
    forall s | s in SlotsOf(order) && s != order[k].slot
      ensures s in SlotsOf(order')
    {
      var i :| 0 <= i < |order| && order[i].slot == s;
      WithoutAt(order, k, if i < k then i else i - 1);
    }
  }

  lemma {:induction false} WithoutLength(order: seq<Use>, k: nat)
    requires k < |order|
    ensures |Without(order, k)| == |order| - 1
  {
  }

  lemma {:induction false} EntriesAppend(slots: map<nat, SlotEntry>, order: seq<Use>, clock: nat, slot: nat,
      session: string)
    requires Entries(slots, order, clock) && Stamped(slots, order) && slot !in slots
    ensures Entries(slots[slot := SlotEntry(session, clock)], order + [Use(slot, session)], clock + 1)
    ensures Stamped(slots[slot := SlotEntry(session, clock)], order + [Use(slot, session)])
  {
    assert forall i :: 0 <= i < |order| ==> order[i].slot in slots && slots[order[i].slot].lastUsed < clock;
  }

  lemma {:induction false} RepresentsAppend(slots: map<nat, SlotEntry>, order: seq<Use>, clock: nat, slot: nat,
      session: string)
    requires Represents(slots, order, clock) && slot !in slots && IndexOf(order, session) < 0
    ensures Represents(slots[slot := SlotEntry(session, clock)], order + [Use(slot, session)], clock + 1)
  {
    hide Entries, Stamped, SlotsOf, IndexOf;
    SlotsOfAppend(order, Use(slot, session));
    EntriesAppend(slots, order, clock, slot, session);
  }

  lemma {:induction false} EntriesRemove(slots: map<nat, SlotEntry>, order: seq<Use>, clock: nat, k: nat)
    requires k < |order| && Entries(slots, order, clock) && Stamped(slots, order)
    ensures Entries(slots - {order[k].slot}, Without(order, k), clock)
  {
    hide Without;
    WithoutLength(order, k);
    var order' := Without(order, k);
    forall i | 0 <= i < |order'|
      ensures var u := order'[i];
        && u.slot in slots && u.slot != order[k].slot
        && slots[u.slot].sessionID == u.session && slots[u.slot].lastUsed < clock
    {
      WithoutAt(order, k, i);
    }
  }

  lemma {:induction false} StampOrder(slots: map<nat, SlotEntry>, order: seq<Use>, i: nat, j: nat)
    requires i < j < |order| && Stamped(slots, order)
    ensures UsedBefore(slots, order[i], order[j])
  {
  }

  lemma {:induction false} StampedPair(slots: map<nat, SlotEntry>, order: seq<Use>, k: nat, i: nat, j: nat)
    requires k < |order| && i < j < |order| - 1 && Stamped(slots, order)
    ensures |Without(order, k)| == |order| - 1
    ensures UsedBefore(slots - {order[k].slot}, Without(order, k)[i], Without(order, k)[j])
  {
    hide Without, Stamped;
    WithoutAt(order, k, i);
    WithoutAt(order, k, j);
    var i', j' := if i < k then i else i + 1, if j < k then j else j + 1;
    StampOrder(slots, order, i', j');
    StampOrder(slots, order, if i' < k then i' else k, if i' < k then k else i');
    StampOrder(slots, order, if j' < k then j' else k, if j' < k then k else j');
  }

  lemma {:induction false} StampedRemove(slots: map<nat, SlotEntry>, order: seq<Use>, k: nat)
    requires k < |order| && Stamped(slots, order)
    ensures Stamped(slots - {order[k].slot}, Without(order, k))
  {
    hide Without;
    WithoutLength(order, k);
    var order', rest := Without(order, k), slots - {order[k].slot};
    forall i, j | 0 <= i < j < |order'|
      ensures UsedBefore(rest, order'[i], order'[j])
    {
      StampedPair(slots, order, k, i, j);
    }
  }

  lemma {:induction false} Absent(order: seq<Use>, session: string)
    requires forall i :: 0 <= i < |order| ==> order[i].session != session
    ensures IndexOf(order, session) < 0
  {
  }

  lemma {:induction false} DistinctRemove(order: seq<Use>, k: nat, session: string)
    requires k < |order| && DistinctSessions(order)
    requires session == order[k].session || IndexOf(order, session) < 0
    ensures DistinctSessions(Without(order, k)) && IndexOf(Without(order, k), session) < 0
  {
    hide Without;
    WithoutLength(order, k);
    var order' := Without(order, k);
    forall i | 0 <= i < |order'|
      ensures order'[i].session != session
    {
      WithoutAt(order, k, i);
    }
    Absent(order', session);
    forall i, j | 0 <= i < j < |order'|
      ensures order'[i].session != order'[j].session
    {
      WithoutAt(order, k, i);
      WithoutAt(order, k, j);
    }
  }

  lemma {:induction false} RepresentsRemove(slots: map<nat, SlotEntry>, order: seq<Use>, clock: nat, k: nat,
      session: string)
    requires Represents(slots, order, clock) && k < |order|
    requires session == order[k].session || IndexOf(order, session) < 0
    ensures Represents(slots - {order[k].slot}, Without(order, k), clock)
    ensures IndexOf(Without(order, k), session) < 0
  {
    hide Entries, Stamped, SlotsOf, IndexOf, Without, DistinctSessions;
    SlotsOfWithout(slots, order, k);
    EntriesRemove(slots, order, clock, k);
    StampedRemove(slots, order, k);
    DistinctRemove(order, k, session);
  }

  /** The three ways in which a request for a slot is met. */
  lemma {:induction false} AssignedCases(order: seq<Use>, session: string, total: int)
    requires total > 0
    ensures var k, free, f := IndexOf(order, session), FirstFree(SlotsOf(order), 0, total), FirstBelow(order, total);
      && (k >= 0 ==>
          Assigned(order, session, total) == Assignment(Without(order, k) + [Use(order[k].slot, session)],
            order[k].slot, ""))
      && (k < 0 <= free ==> Assigned(order, session, total) == Assignment(order + [Use(free, session)], free, ""))
      && (k < 0 && free < 0 ==> f < |order|)
      && (k < 0 && free < 0 && f < |order| ==>
          Assigned(order, session, total) ==
          Assignment(Without(order, f) + [Use(order[f].slot, session)], order[f].slot, order[f].session))
  {
    if FirstFree(SlotsOf(order), 0, total) < 0 {
      assert 0 in SlotsOf(order);
      AllTaken(order, total);
    }
  }

  /** The slot is used by the session at `k`. */
  predicate HoldsAt(order: seq<Use>, k: int, session: string) {
    0 <= k < |order| && order[k].session == session
  }

  predicate IsFree(order: seq<Use>, slot: nat) {
    forall i :: 0 <= i < |order| ==> order[i].slot != slot
  }

  /** A request in full. Without slots there is none. A known session keeps its slot and becomes the most recent. A new
      one gets the lowest free slot; if there is none, that of the session used longest ago among those below the
      total, which is put out. */
  lemma {:induction false} AssignedIs(order: seq<Use>, session: string, total: int)
    requires DistinctSessions(order)
    ensures total <= 0 ==> Assigned(order, session, total) == Assignment(order, -1, "")
    ensures forall k :: total > 0 && HoldsAt(order, k, session) ==>
      Assigned(order, session, total) == Assignment(order[..k] + order[k + 1..] + [order[k]], order[k].slot, "")
    ensures forall slot: nat :: (forall k :: !HoldsAt(order, k, session)) && IsLowestFree(order, slot, total) ==>
      Assigned(order, session, total) == Assignment(order + [Use(slot, session)], slot, "")
    ensures forall k :: (forall i :: !HoldsAt(order, i, session)) && IsOldestOfAll(order, k, total) ==>
      Assigned(order, session, total) == Assignment(order[..k] + order[k + 1..] + [Use(order[k].slot, session)],
        order[k].slot, order[k].session)
  {
    hide IndexOf, SlotsOf, FirstFree, FirstBelow, Assigned;
    var at := IndexOf(order, session);
    if total <= 0 {
      NoSlots(order, session, total);
    } else {
      AssignedCases(order, session, total);
      assert at >= 0 ==> HoldsAt(order, at, session);
      forall slot: nat | IsLowestFree(order, slot, total)
        ensures FirstFree(SlotsOf(order), 0, total) == slot
      {
        LowestIsFirst(order, slot, total);
      }
      forall k | IsOldestOfAll(order, k, total)
        ensures FirstFree(SlotsOf(order), 0, total) == -1 && FirstBelow(order, total) == k
      {
        OldestIsFirstBelow(order, k, total);
      }
    }
  }

  /** The lowest slot below the total that nobody uses. */
  predicate IsLowestFree(order: seq<Use>, slot: nat, total: int) {
    slot < total && IsFree(order, slot) && forall lower: nat :: lower < slot ==> !IsFree(order, lower)
  }

  /** All slots are used, and this is the least recent use of one below the total. */
  predicate IsOldestOfAll(order: seq<Use>, k: int, total: int) {
    && total > 0 && (forall slot: nat :: slot < total ==> !IsFree(order, slot))
    && 0 <= k < |order| && order[k].slot < total && forall i :: 0 <= i < k ==> order[i].slot >= total
  }

  lemma {:induction false} NoSlots(order: seq<Use>, session: string, total: int)
    requires total <= 0
    ensures Assigned(order, session, total) == Assignment(order, -1, "")
  {
  }

  lemma {:induction false} FreeIff(order: seq<Use>, slot: nat)
    ensures IsFree(order, slot) <==> slot !in SlotsOf(order)
  {
  }

  lemma {:induction false} LowestIsFirst(order: seq<Use>, slot: nat, total: int)
    requires IsLowestFree(order, slot, total)
    ensures FirstFree(SlotsOf(order), 0, total) == slot
  {
    hide SlotsOf, FirstFree, IsFree;
    FreeIff(order, slot);
    var r := FirstFree(SlotsOf(order), 0, total);
    if 0 <= r < slot { FreeIff(order, r); }
  }

  lemma {:induction false} OldestIsFirstBelow(order: seq<Use>, k: int, total: int)
    requires IsOldestOfAll(order, k, total)
    ensures FirstFree(SlotsOf(order), 0, total) == -1 && FirstBelow(order, total) == k
  {
    hide SlotsOf, FirstFree, IsFree, FirstBelow;
    var r := FirstFree(SlotsOf(order), 0, total);
    if r >= 0 { FreeIff(order, r); }
  }

  /** Releasing, looking up and touching in full: the session's use is taken out, or put at the end. */
  lemma {:induction false} ReleasedAndMoved(order: seq<Use>, session: string, k: int)
    requires DistinctSessions(order)
    ensures HoldsAt(order, k, session) ==>
      && SlotFor(order, session) == order[k].slot
      && Released(order, session) == order[..k] + order[k + 1..]
      && MovedToEnd(order, session) == order[..k] + order[k + 1..] + [order[k]]
    ensures (forall i :: !HoldsAt(order, i, session)) ==>
      SlotFor(order, session) == -1 && Released(order, session) == MovedToEnd(order, session) == order
  {
    hide IndexOf;
    var at := IndexOf(order, session);
    assert at >= 0 ==> HoldsAt(order, at, session);
  }

  // ---- The object ----

  class SlotManager {
    var slots: map<nat, SlotEntry>
    var clock: nat
    ghost var order: seq<Use>

    ghost predicate Valid()
      reads this
    {
      Represents(slots, order, clock)
    }

    constructor ()
      ensures Valid() && order == []
    {
      slots, clock, order := map[], 0, [];
    }

    /** The slot whose entry names the session; the map is searched in any order. */
    method FindSession(sessionID: string) returns (slotID: int)
      requires Valid()
      ensures slotID == SlotFor(order, sessionID)
    {
      var keys := slots.Keys;
      while keys != {}
        invariant keys <= slots.Keys
        invariant forall k :: k in slots && k !in keys ==> slots[k].sessionID != sessionID
        decreases keys
      {
        var k :| k in keys;
        if slots[k].sessionID == sessionID {
          return k;
        }
        keys := keys - {k};
      }
      return -1;
    }

    /** Among the slots below `total` the one with the oldest stamp, searched in any order. */
    method FindLRUSlot(total: int) returns (slotID: int)
      requires Valid()
      ensures slotID == if FirstBelow(order, total) < |order| then order[FirstBelow(order, total)].slot else -1
    {
      slotID := -1;
      var keys := slots.Keys;
      while keys != {}
        invariant keys <= slots.Keys
        invariant slotID == -1 || (0 <= slotID < total && slotID in slots)
        invariant forall k :: k in slots && k !in keys && k < total ==>
          slotID >= 0 && slots[slotID].lastUsed <= slots[k].lastUsed
        decreases keys
      {
        var k :| k in keys;
        keys := keys - {k};
        if k < total && (slotID < 0 || slots[k].lastUsed < slots[slotID].lastUsed) {
          slotID := k;
        }
      }
      OldestIsFirst(slotID, total);
    }

    lemma {:induction false} OldestIsFirst(slotID: int, total: int)
      requires Valid()
      requires slotID == -1 || (0 <= slotID < total && slotID in slots)
      requires forall k :: k in slots && k < total ==> slotID >= 0 && slots[slotID].lastUsed <= slots[k].lastUsed
      ensures slotID == if FirstBelow(order, total) < |order| then order[FirstBelow(order, total)].slot else -1
    {
      var f := FirstBelow(order, total);
      if slotID >= 0 {
        var i :| 0 <= i < |order| && order[i].slot == slotID;
        assert f <= i;
      }
    }

    /** Writes the session into the slot of position `k`, with a new stamp. */
    method Restamp(ghost k: nat, slotID: nat, sessionID: string)
      requires Valid() && k < |order| && slotID == order[k].slot
      requires sessionID == order[k].session || IndexOf(order, sessionID) < 0
      modifies this
      ensures Valid() && order == Without(old(order), k) + [Use(slotID, sessionID)]
    {
      hide Represents, IndexOf, Without;
      RepresentsRemove(slots, order, clock, k, sessionID);
      RepresentsAppend(slots - {slotID}, Without(order, k), clock, slotID, sessionID);
      assert (slots - {slotID})[slotID := SlotEntry(sessionID, clock)] == slots[slotID := SlotEntry(sessionID, clock)];
      slots := slots[slotID := SlotEntry(sessionID, clock)];
      clock := clock + 1;
      order := Without(order, k) + [Use(slotID, sessionID)];
    }

    method GetOrAssign(sessionID: string, totalSlots: int) returns (slotID: int, evicted: string)
      requires Valid()
      modifies this
      ensures Valid() && Assignment(order, slotID, evicted) == Assigned(old(order), sessionID, totalSlots)
    {
      if totalSlots <= 0 {
        return -1, "";
      }
      hide Represents, SlotsOf, IndexOf, FirstBelow, FirstFree, Assigned;
      AssignedCases(order, sessionID, totalSlots);
      slotID := FindSession(sessionID);
      if slotID >= 0 {
        Restamp(IndexOf(order, sessionID), slotID, sessionID);
        return slotID, "";
      }
      slotID := FindFree(totalSlots);
      if slotID >= 0 {
        Occupy(slotID, sessionID);
        return slotID, "";
      }
      slotID := FindLRUSlot(totalSlots);
      evicted := EntrySession(slotID, FirstBelow(order, totalSlots));
      Restamp(FirstBelow(order, totalSlots), slotID, sessionID);
    }

    method Occupy(slotID: nat, sessionID: string)
      requires Valid() && slotID !in slots && IndexOf(order, sessionID) < 0
      modifies this
      ensures Valid() && order == old(order) + [Use(slotID, sessionID)]
    {
      hide Represents, IndexOf;
      RepresentsAppend(slots, order, clock, slotID, sessionID);
      slots := slots[slotID := SlotEntry(sessionID, clock)];
      clock := clock + 1;
      order := order + [Use(slotID, sessionID)];
    }

    method EntrySession(slotID: nat, ghost k: nat) returns (session: string)
      requires Valid() && k < |order| && order[k].slot == slotID
      ensures session == order[k].session
    {
      session := slots[slotID].sessionID;
    }

    method FindFree(totalSlots: int) returns (slotID: int)
      requires Valid() && totalSlots > 0
      ensures slotID == FirstFree(SlotsOf(order), 0, totalSlots)
      ensures slotID >= 0 ==> slotID !in slots
    {
      for k := 0 to totalSlots
        invariant FirstFree(SlotsOf(order), 0, totalSlots) == FirstFree(SlotsOf(order), k, totalSlots)
      {
        if k !in slots {
          return k;
        }
      }
      return -1;
    }

    method Release(sessionID: string) returns (slotID: int)
      requires Valid()
      modifies this
      ensures Valid() && order == Released(old(order), sessionID) && slotID == SlotFor(old(order), sessionID)
    {
      hide Represents, IndexOf, Without;
      slotID := FindSession(sessionID);
      if slotID >= 0 {
        RepresentsRemove(slots, order, clock, IndexOf(order, sessionID), sessionID);
        slots := slots - {slotID};
        order := Released(order, sessionID);
      }
    }

    method GetSlotID(sessionID: string) returns (slotID: int)
      requires Valid()
      modifies this
      ensures Valid() && order == MovedToEnd(old(order), sessionID) && slotID == SlotFor(old(order), sessionID)
    {
      slotID := FindSession(sessionID);
      if slotID >= 0 {
        Restamp(IndexOf(order, sessionID), slotID, sessionID);
      }
    }

    method Touch(sessionID: string)
      requires Valid()
      modifies this
      ensures Valid() && order == MovedToEnd(old(order), sessionID)
    {
      var slotID := FindSession(sessionID);
      if slotID >= 0 {
        Restamp(IndexOf(order, sessionID), slotID, sessionID);
      }
    }
  }

  lemma {:induction false} AllTaken(order: seq<Use>, total: int)
    requires 0 in SlotsOf(order) && total > 0
    ensures FirstBelow(order, total) < |order|
  {
    var i :| 0 <= i < |order| && order[i].slot == 0;
  }

  // ---- Runs with a fixed number of slots ----

  datatype Event =
    | Assign(session: string)
    | Lookup(session: string)
    | TouchSession(session: string)
    | ReleaseSession(session: string)

  function Step(order: seq<Use>, e: Event, total: int): seq<Use> {
    match e
    case Assign(s) => Assigned(order, s, total).order
    case Lookup(s) => MovedToEnd(order, s)
    case TouchSession(s) => MovedToEnd(order, s)
    case ReleaseSession(s) => Released(order, s)
  }

  function Run(events: seq<Event>, total: int): seq<Use> {
    if events == [] then [] else
    Step(Run(events[..|events| - 1], total), events[|events| - 1], total)
  }

  /** When the session was last assigned, looked up or touched; 0 for never. */
  function LastUse(events: seq<Event>, session: string): nat {
    if events == [] then 0 else
    var e := events[|events| - 1];
    if !e.ReleaseSession? && e.session == session then |events| else LastUse(events[..|events| - 1], session)
  }

  /** No slot and no session twice, and all slots in range. */
  ghost predicate InRange(order: seq<Use>, total: int) {
    && DistinctSessions(order)
    && (forall i, j :: 0 <= i < j < |order| ==> order[i].slot != order[j].slot)
    && (forall i :: 0 <= i < |order| ==> order[i].slot < total)
  }

  ghost predicate UsedEarlier(events: seq<Event>, a: Use, b: Use) {
    LastUse(events, a.session) < LastUse(events, b.session)
  }

  /** The list is sorted by the last use of its sessions. */
  ghost predicate ByLastUse(order: seq<Use>, events: seq<Event>) {
    forall i, j :: 0 <= i < j < |order| ==> UsedEarlier(events, order[i], order[j])
  }

  lemma {:induction false} RemoveInRange(order: seq<Use>, k: nat, total: int)
    requires k < |order| && InRange(order, total)
    ensures InRange(Without(order, k), total)
    ensures forall i :: 0 <= i < |Without(order, k)| ==>
      Without(order, k)[i].slot != order[k].slot && Without(order, k)[i].session != order[k].session
  {
    hide Without;
    WithoutLength(order, k);
    var order' := Without(order, k);
    forall i | 0 <= i < |order'|
      ensures order'[i].slot < total && order'[i].slot != order[k].slot && order'[i].session != order[k].session
    {
      WithoutAt(order, k, i);
    }
    forall i, j | 0 <= i < j < |order'|
      ensures order'[i].session != order'[j].session && order'[i].slot != order'[j].slot
    {
      WithoutAt(order, k, i);
      WithoutAt(order, k, j);
    }
  }

  lemma {:induction false} AppendInRange(order: seq<Use>, u: Use, total: int)
    requires InRange(order, total) && u.slot < total
    requires forall i :: 0 <= i < |order| ==> order[i].slot != u.slot && order[i].session != u.session
    ensures InRange(order + [u], total)
  {
  }

  lemma {:induction false} StepInRange(order: seq<Use>, e: Event, total: int)
    requires InRange(order, total)
    ensures InRange(Step(order, e, total), total)
  {
    hide InRange, Without, SlotsOf, FirstFree, IndexOf, FirstBelow;
    var k := IndexOf(order, e.session);
    if k >= 0 {
      RemoveInRange(order, k, total);
      AppendInRange(Without(order, k), order[k], total) by { KnownInRange(order, k, total); }
    } else if e.Assign? && total > 0 {
      var free := FirstFree(SlotsOf(order), 0, total);
      if free >= 0 {
        assert forall i :: 0 <= i < |order| ==> order[i].slot in SlotsOf(order);
        AppendInRange(order, Use(free, e.session), total);
      } else {
        assert 0 in SlotsOf(order);
        AllTaken(order, total);
        var f := FirstBelow(order, total);
        RemoveInRange(order, f, total);
        OthersRemain(order, f);
        AppendInRange(Without(order, f), Use(order[f].slot, e.session), total);
      }
    }
  }

  lemma {:induction false} KnownInRange(order: seq<Use>, k: nat, total: int)
    requires k < |order| && InRange(order, total)
    ensures order[k].slot < total
  {
  }

  lemma {:induction false} OthersRemain(order: seq<Use>, k: nat)
    requires k < |order|
    ensures |Without(order, k)| == |order| - 1
    ensures forall i :: 0 <= i < |Without(order, k)| ==> Without(order, k)[i] in order
  {
    hide Without;
    WithoutLength(order, k);
    var order' := Without(order, k);
    forall i | 0 <= i < |order'|
      ensures order'[i] in order
    {
      WithoutAt(order, k, i);
    }
  }

  /** In every run with a fixed number of slots, assignments stay injective and in range. */
  lemma {:induction false} RunInRange(events: seq<Event>, total: int)
    ensures InRange(Run(events, total), total)
  {
    hide Step, InRange;
    if events != [] {
      RunInRange(events[..|events| - 1], total);
      StepInRange(Run(events[..|events| - 1], total), events[|events| - 1], total);
    } else {
      assert InRange([], total) by { NothingInRange(total); }
    }
  }

  lemma {:induction false} NothingInRange(total: int)
    ensures InRange([], total)
  {
  }

  lemma {:induction false} LastUseBound(events: seq<Event>, session: string)
    ensures LastUse(events, session) <= |events|
  {
    if events != [] { LastUseBound(events[..|events| - 1], session); }
  }

  lemma {:induction false} LastUseStep(events: seq<Event>, e: Event, session: string)
    ensures LastUse(events + [e], session) ==
      if !e.ReleaseSession? && e.session == session then |events| + 1 else LastUse(events, session)
  {
    assert (events + [e])[..|events|] == events;
  }

  /** An event about another session, or a release, keeps the order. */
  lemma {:induction false} OtherKeepsOrder(order: seq<Use>, events: seq<Event>, e: Event)
    requires ByLastUse(order, events)
    requires e.ReleaseSession? || IndexOf(order, e.session) < 0
    ensures ByLastUse(order, events + [e])
  {
    hide LastUse;
    forall i, j | 0 <= i < j < |order|
      ensures UsedEarlier(events + [e], order[i], order[j])
    {
      assert UsedEarlier(events, order[i], order[j]);
      LastUseStep(events, e, order[i].session);
      LastUseStep(events, e, order[j].session);
    }
  }

  lemma {:induction false} WithoutByLastUse(order: seq<Use>, events: seq<Event>, k: nat)
    requires k < |order| && ByLastUse(order, events)
    ensures ByLastUse(Without(order, k), events)
  {
    hide Without, UsedEarlier;
    WithoutLength(order, k);
    var order' := Without(order, k);
    forall i, j | 0 <= i < j < |order'|
      ensures UsedEarlier(events, order'[i], order'[j])
    {
      WithoutAt(order, k, i);
      WithoutAt(order, k, j);
    }
  }

  /** The session that an event uses comes last. */
  lemma {:induction false} UsedComesLast(order: seq<Use>, events: seq<Event>, e: Event, u: Use)
    requires ByLastUse(order, events) && IndexOf(order, u.session) < 0
    requires !e.ReleaseSession? && e.session == u.session
    ensures ByLastUse(order + [u], events + [e])
  {
    hide LastUse;
    OtherKeepsOrder(order, events, e);
    var order' := order + [u];
    forall i, j | 0 <= i < j < |order'|
      ensures UsedEarlier(events + [e], order'[i], order'[j])
    {
      if j == |order| {
        LastUseStep(events, e, u.session);
        LastUseStep(events, e, order[i].session);
        LastUseBound(events, order[i].session);
      } else {
        assert UsedEarlier(events + [e], order[i], order[j]);
      }
    }
  }

  lemma {:induction false} StepByLastUse(order: seq<Use>, events: seq<Event>, e: Event, total: int)
    requires DistinctSessions(order) && ByLastUse(order, events)
    ensures ByLastUse(Step(order, e, total), events + [e]) || (e.Assign? && total <= 0)
  {
    hide ByLastUse, Without, SlotsOf, FirstFree, IndexOf, FirstBelow, DistinctSessions;
    var k := IndexOf(order, e.session);
    if k >= 0 {
      WithoutByLastUse(order, events, k);
      DistinctRemove(order, k, e.session);
      if e.ReleaseSession? {
        OtherKeepsOrder(Without(order, k), events, e);
      } else {
        UsedComesLast(Without(order, k), events, e, order[k]);
      }
    } else if e.Assign? && total > 0 {
      var free := FirstFree(SlotsOf(order), 0, total);
      if free >= 0 {
        UsedComesLast(order, events, e, Use(free, e.session));
      } else {
        assert 0 in SlotsOf(order);
        AllTaken(order, total);
        var f := FirstBelow(order, total);
        WithoutByLastUse(order, events, f);
        DistinctRemove(order, f, e.session);
        UsedComesLast(Without(order, f), events, e, Use(order[f].slot, e.session));
      }
    } else {
      OtherKeepsOrder(order, events, e);
    }
  }

  /** In every run the list is in the order in which the sessions were last used. */
  lemma {:induction false} RunByLastUse(events: seq<Event>, total: int)
    requires total > 0
    ensures ByLastUse(Run(events, total), events)
  {
    hide Step;
    if events != [] {
      var before := events[..|events| - 1];
      RunByLastUse(before, total);
      RunInRange(before, total);
      StepByLastUse(Run(before, total), before, events[|events| - 1], total);
      assert before + [events[|events| - 1]] == events;
    }
  }

  lemma {:induction false} SlotsCount(order: seq<Use>, total: nat)
    requires InRange(order, total)
    ensures |SlotsOf(order)| == |order| <= total
    ensures |order| == total ==> forall k :: 0 <= k < total ==> k in SlotsOf(order)
  {
    DistinctSlots(order, total);
    assert SlotsOf(order) <= UpTo(total);
    SubsetSize(SlotsOf(order), UpTo(total));
  }

  lemma {:induction false} DistinctSlots(order: seq<Use>, total: nat)
    requires InRange(order, total)
    ensures |SlotsOf(order)| == |order|
  {
    if order != [] {
      var n := |order| - 1;
      DistinctSlots(order[..n], total);
      SlotsOfAppend(order[..n], order[n]);
      assert order[..n] + [order[n]] == order;
      assert order[n].slot !in SlotsOf(order[..n]);
    }
  }

  function UpTo(n: nat): (s: set<nat>)
    ensures |s| == n && forall k: nat :: k in s <==> k < n
  {
    if n == 0 then {} else UpTo(n - 1) + {n - 1}
  }

  lemma {:induction false} SubsetSize(a: set<nat>, b: set<nat>)
    requires a <= b
    ensures |a| <= |b| && (|a| == |b| ==> a == b)
  {
    if a != {} {
      var x :| x in a;
      SubsetSize(a - {x}, b - {x});
      assert a == (a - {x}) + {x} && b == (b - {x}) + {x};
    }
  }

  lemma {:induction false} SlotForOf(order: seq<Use>, i: nat)
    requires DistinctSessions(order) && i < |order|
    ensures SlotFor(order, order[i].session) == order[i].slot
  {
    var k := IndexOf(order, order[i].session);
    assert k >= 0;
    assert k == i;
  }

  lemma {:induction false} OthersKeepSlots(order: seq<Use>, k: nat, u: Use, session: string)
    requires k < |order| && DistinctSessions(order) && DistinctSessions(Without(order, k) + [u])
    requires session != u.session && session != order[k].session
    ensures SlotFor(Without(order, k) + [u], session) == SlotFor(order, session)
  {
    hide IndexOf, Without, DistinctSessions;
    WithoutLength(order, k);
    var order' := Without(order, k) + [u];
    var i := IndexOf(order, session);
    if i >= 0 {
      var i' := if i < k then i else i - 1;
      WithoutAt(order, k, i');
      assert order'[i'] == order[i];
      SlotForOf(order', i');
    } else {
      forall j | 0 <= j < |order'|
        ensures order'[j].session != session
      {
        if j < |order'| - 1 {
          WithoutAt(order, k, j);
        }
      }
      Absent(order', session);
    }
  }

  /** The eviction law, for every run: a new session is given a free slot while there is one, and
      nobody is put out. When all slots are taken, the one session put out is the one whose last
      assignment, look-up or touch is oldest, and every other session keeps its slot. */
  lemma {:induction false} EvictsLeastRecentlyUsed(events: seq<Event>, total: nat, session: string)
    requires total > 0 && IndexOf(Run(events, total), session) < 0
    ensures var order := Run(events, total);
      var r := Assigned(order, session, total);
      if |order| < total then
        r.evicted == "" && 0 <= r.slot < total && r.slot !in SlotsOf(order) && r.order == order + [Use(r.slot, session)]
      else
        && |order| == total && r.evicted == order[0].session && r.slot == order[0].slot
        && (forall i :: 0 < i < |order| ==> LastUse(events, r.evicted) < LastUse(events, order[i].session))
        && (forall other :: other != session && other != r.evicted ==> SlotFor(r.order, other) == SlotFor(order, other))
  {
    hide Run, LastUse, IndexOf, Without;
    var order := Run(events, total);
    RunInRange(events, total);
    RunByLastUse(events, total);
    SlotsCount(order, total);
    var r := Assigned(order, session, total);
    if |order| < total {
      SomeFree(order, total);
    } else {
      AllTaken(order, total);
      FirstIsBelow(order, total);
      forall i | 0 < i < |order|
        ensures LastUse(events, order[0].session) < LastUse(events, order[i].session)
      {
        assert UsedEarlier(events, order[0], order[i]);
      }
      DistinctRemove(order, 0, session);
      DistinctAppend(Without(order, 0), Use(order[0].slot, session));
      forall other | other != session && other != order[0].session
        ensures SlotFor(Without(order, 0) + [Use(order[0].slot, session)], other) == SlotFor(order, other)
      {
        OthersKeepSlots(order, 0, Use(order[0].slot, session), other);
      }
    }
  }

  lemma {:induction false} DistinctAppend(order: seq<Use>, u: Use)
    requires DistinctSessions(order) && IndexOf(order, u.session) < 0
    ensures DistinctSessions(order + [u])
  {
  }

  lemma {:induction false} FirstIsBelow(order: seq<Use>, total: nat)
    requires order != [] && InRange(order, total)
    ensures FirstBelow(order, total) == 0
  {
  }

  lemma {:induction false} SomeFree(order: seq<Use>, total: nat)
    requires InRange(order, total) && |order| < total
    ensures FirstFree(SlotsOf(order), 0, total) >= 0
  {
    SlotsCount(order, total);
    if FirstFree(SlotsOf(order), 0, total) < 0 {
      assert UpTo(total) <= SlotsOf(order);
      SubsetSize(UpTo(total), SlotsOf(order));
    }
  }
}
