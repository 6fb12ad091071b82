/** The on-call roster: which seats a page goes to at a given moment. */
module Roster {

  datatype Contact = Contact(seat: string, phone: string, email: string, whatsapp: string)
  datatype Slot = Vacant | Seat(contact: Contact)
  datatype Clock = Unset | At(start: int)

  type Seconds = n: int | n > 0 witness 12 * 60 * 60

  /** The rotation, the seat map, and the canary clock in seconds. */
  datatype OnCall = OnCall(windows: seq<(string, string)>, contacts: map<string, Contact>, clock: Clock, windowSeconds: Seconds) {
    /** How the roster is built: each contact is filed under its own seat. */
    predicate Keyed() {
      forall k :: k in contacts ==> contacts[k].seat == k
    }
  }

  const CEILING := "ceo"
  const CLINICAL := "clinical-advisor"

  function Lookup(r: OnCall, seat: string): Slot {
    if seat in r.contacts then Seat(r.contacts[seat]) else Vacant
  }

  /** Primary, secondary and ceiling at `now`. */
  function Resolve(r: OnCall, now: int): (Slot, Slot, Slot)
  {
    if r.windows == [] || r.clock.Unset? || now - r.clock.start < 0 then (Vacant, Vacant, Vacant)
    else
      var idx := (now - r.clock.start) / r.windowSeconds;
      if idx >= |r.windows| then (Vacant, Vacant, Lookup(r, CEILING))
      else (Lookup(r, r.windows[idx].0), Lookup(r, r.windows[idx].1), Lookup(r, CEILING))
  }

  function Slots(r: OnCall, escalated: bool, now: int, clinicalAlways: bool): seq<Slot>
  {
    var (primary, secondary, ceiling) := Resolve(r, now);
    [primary, secondary] + (if escalated then [ceiling] else [])
    + (if clinicalAlways then [Lookup(r, CLINICAL)] else [])
  }

  predicate Reachable(s: Slot) {
    s.Seat? && (s.contact.phone != "" || s.contact.email != "")
  }

  /** What the targets must be: reachable slots in order, each seat once, at its first place. */
  function FirstOfEach(slots: seq<Slot>): seq<Contact> {
    if slots == [] then []
    else
      var n := |slots| - 1;
      var front := FirstOfEach(slots[..n]);
      if Reachable(slots[n]) && !HasSeat(front, slots[n].contact.seat) then front + [slots[n].contact] else front
  }

  predicate HasSeat(targets: seq<Contact>, seat: string) {
    exists i :: 0 <= i < |targets| && targets[i].seat == seat
  }

  function TargetsAt(r: OnCall, escalated: bool, now: int, clinicalAlways: bool): seq<Contact> {
    FirstOfEach(Slots(r, escalated, now, clinicalAlways))
  }

  /** The seats to page, with the set of seats already taken. */
  method Targets(r: OnCall, escalated: bool, now: int, clinicalAlways: bool) returns (targets: seq<Contact>)
    ensures targets == TargetsAt(r, escalated, now, clinicalAlways)
  {
    var (primary, secondary, ceiling) := Resolve(r, now);
    var seats := [primary, secondary];
    if escalated {
      seats := seats + [ceiling];
    }
    if clinicalAlways {
      seats := seats + [Lookup(r, CLINICAL)];
    }
    assert seats == Slots(r, escalated, now, clinicalAlways);
    var seen: set<string> := {};
    targets := [];
    for i := 0 to |seats|
      invariant targets == FirstOfEach(seats[..i])
      invariant forall s :: s in seen <==> HasSeat(targets, s)
    {
      assert seats[..i + 1][..i] == seats[..i];
      if seats[i] == Vacant || seats[i].contact.seat in seen {
        continue;
      }
      if seats[i].contact.phone == "" && seats[i].contact.email == "" {
        continue;
      }
      seen := seen + {seats[i].contact.seat};
      ghost var before := targets;
      targets := targets + [seats[i].contact];
      HasSeatAppend(before, seats[i].contact);
    }
    assert seats[..|seats|] == seats;
  }

  lemma HasSeatAppend(targets: seq<Contact>, c: Contact)
    ensures forall s :: HasSeat(targets + [c], s) <==> HasSeat(targets, s) || s == c.seat
  {
    forall s
      ensures HasSeat(targets + [c], s) <==> HasSeat(targets, s) || s == c.seat
    {
      if HasSeat(targets, s) {
        var i :| 0 <= i < |targets| && targets[i].seat == s;
        assert (targets + [c])[i].seat == s;
      }
      assert (targets + [c])[|targets|] == c;
    }
  }

  /** On a roster keyed by seat, the targets are exactly the reachable slots, with no seat twice. */
  lemma {:induction false} TargetsAreTheReachableSlots(slots: seq<Slot>)
    requires forall i, j | 0 <= i < j < |slots| && slots[i].Seat? && slots[j].Seat? ::
               slots[i].contact.seat == slots[j].contact.seat ==> slots[i] == slots[j]
    ensures forall c :: c in FirstOfEach(slots) <==> Seat(c) in slots && Reachable(Seat(c))
    ensures forall i, j :: 0 <= i < j < |FirstOfEach(slots)| ==> FirstOfEach(slots)[i].seat != FirstOfEach(slots)[j].seat
  {
    if slots != [] {
      var n := |slots| - 1;
      var front := FirstOfEach(slots[..n]);
      TargetsAreTheReachableSlots(slots[..n]);
      forall c
        ensures c in FirstOfEach(slots) <==> Seat(c) in slots && Reachable(Seat(c))
      {
        assert Seat(c) in slots <==> Seat(c) in slots[..n] || Seat(c) == slots[n];
        if Seat(c) == slots[n] && Reachable(slots[n]) && HasSeat(front, c.seat) {
          var i :| 0 <= i < |front| && front[i].seat == c.seat;
          assert front[i] in front;
          var k :| 0 <= k < n && slots[..n][k] == Seat(front[i]);
          assert slots[k] == slots[n];
        }
      }
      if Reachable(slots[n]) && !HasSeat(front, slots[n].contact.seat) {
        forall i | 0 <= i < |front|
          ensures front[i].seat != slots[n].contact.seat
        {
        }
      }
    }
  }

  // ---- which seats ------------------------------------------------------------------------------

  /** A seat on the roster with a phone or an email; one reachable only over the bridge does not count. */
  predicate Pageable(r: OnCall, seat: string) {
    seat in r.contacts && (r.contacts[seat].phone != "" || r.contacts[seat].email != "")
  }

  /** The named seats that can be paged, in the order of the names, each once and at its first place. */
  function PageableOnce(r: OnCall, seats: seq<string>): seq<string> {
    if seats == [] then []
    else
      var n := |seats| - 1;
      PageableOnce(r, seats[..n]) + (if Pageable(r, seats[n]) && seats[n] !in seats[..n] then [seats[n]] else [])
  }

  function ContactsOf(r: OnCall, seats: seq<string>): (c: seq<Contact>)
    requires forall s :: s in seats ==> s in r.contacts
    ensures |c| == |seats| && forall i :: 0 <= i < |seats| ==> c[i] == r.contacts[seats[i]]
  {
    if seats == [] then [] else ContactsOf(r, seats[..|seats| - 1]) + [r.contacts[seats[|seats| - 1]]]
  }

  lemma {:induction false} PageableOnceAre(r: OnCall, seats: seq<string>)
    ensures forall s :: s in PageableOnce(r, seats) <==> s in seats && Pageable(r, s)
    ensures forall i, j :: 0 <= i < j < |PageableOnce(r, seats)| ==> PageableOnce(r, seats)[i] != PageableOnce(r, seats)[j]
  {
    hide Pageable;
    if seats != [] {
      var n := |seats| - 1;
      PageableOnceAre(r, seats[..n]);
      assert forall s :: s in seats <==> s in seats[..n] || s == seats[n];
    }
  }

  function SlotsOf(r: OnCall, seats: seq<string>): seq<Slot> {
    if seats == [] then [] else SlotsOf(r, seats[..|seats| - 1]) + [Lookup(r, seats[|seats| - 1])]
  }

  lemma SlotsOfSnoc(r: OnCall, seats: seq<string>, seat: string)
    ensures SlotsOf(r, seats + [seat]) == SlotsOf(r, seats) + [Lookup(r, seat)]
  {
    assert (seats + [seat])[..|seats|] == seats;
  }

  /** What a page to these seats is: the contacts of those that can be paged, in order and each once. */
  ghost predicate Pages(r: OnCall, seats: seq<string>, targets: seq<Contact>) {
    (forall s :: s in PageableOnce(r, seats) ==> s in r.contacts) && targets == ContactsOf(r, PageableOnce(r, seats))
  }

  lemma FirstOfEachSnoc(slots: seq<Slot>, s: Slot)
    ensures var front := FirstOfEach(slots);
            FirstOfEach(slots + [s]) == if Reachable(s) && !HasSeat(front, s.contact.seat) then front + [s.contact] else front
  {
    assert (slots + [s])[..|slots|] == slots;
  }

  lemma PageableOnceSnoc(r: OnCall, seats: seq<string>, seat: string)
    ensures var once := PageableOnce(r, seats);
            PageableOnce(r, seats + [seat]) == if Pageable(r, seat) && seat !in seats then once + [seat] else once
  {
    assert (seats + [seat])[..|seats|] == seats;
    assert PageableOnce(r, seats) + [] == PageableOnce(r, seats);
  }

  lemma ContactsOfSnoc(r: OnCall, seats: seq<string>, seat: string)
    requires forall s :: s in seats + [seat] ==> s in r.contacts
    ensures ContactsOf(r, seats + [seat]) == ContactsOf(r, seats) + [r.contacts[seat]]
  {
    assert (seats + [seat])[..|seats|] == seats;
  }

  lemma PagesSnoc(r: OnCall, seats: seq<string>, front: seq<Contact>, seat: string)
    requires r.Keyed() && Pages(r, seats, front)
    ensures var s := Lookup(r, seat);
            Pages(r, seats + [seat], if Reachable(s) && !HasSeat(front, s.contact.seat) then front + [s.contact] else front)
  {
    hide PageableOnce, ContactsOf, HasSeat;
    var once := PageableOnce(r, seats);
    PageableOnceAre(r, seats);
    PageableOnceAre(r, seats + [seat]);
    PageableOnceSnoc(r, seats, seat);
    SeatsOfContacts(r, once, seat);
    if Pageable(r, seat) && seat !in seats {
      ContactsOfSnoc(r, once, seat);
    }
  }

  lemma {:induction false} SlotsPage(r: OnCall, seats: seq<string>)
    requires r.Keyed()
    ensures Pages(r, seats, FirstOfEach(SlotsOf(r, seats)))
  {
    if seats != [] {
      hide SlotsOf, FirstOfEach, Pages, Lookup;
      var n := |seats| - 1;
      SlotsPage(r, seats[..n]);
      assert seats == seats[..n] + [seats[n]];
      SlotsOfSnoc(r, seats[..n], seats[n]);
      FirstOfEachSnoc(SlotsOf(r, seats[..n]), Lookup(r, seats[n]));
      PagesSnoc(r, seats[..n], FirstOfEach(SlotsOf(r, seats[..n])), seats[n]);
    }
  }

  lemma SeatsOfContacts(r: OnCall, seats: seq<string>, seat: string)
    requires r.Keyed() && forall s :: s in seats ==> s in r.contacts
    ensures HasSeat(ContactsOf(r, seats), seat) <==> seat in seats
  {
    var c := ContactsOf(r, seats);
    assert forall i :: 0 <= i < |c| ==> seats[i] in seats && c[i].seat == seats[i];
  }

  function When(c: bool, seats: seq<string>): seq<string> {
    if c then seats else []
  }

  /** Who is paged at every moment. In the i-th shift: its primary and its secondary, then the ceiling when escalating, then
      the clinical seat when asked for. Past the last shift the ceiling, when escalating, and the clinical seat are left;
      before the clock starts, without a clock or without shifts, the clinical seat alone. Of these, in this order and
      each once, the seats with a phone or an email. */
  lemma WhoIsPaged(r: OnCall, escalated: bool, now: int, clinicalAlways: bool)
    requires r.Keyed()
    ensures var t := TargetsAt(r, escalated, now, clinicalAlways);
            var late := When(escalated, ["ceo"]) + When(clinicalAlways, ["clinical-advisor"]);
            && (r.clock.At? ==> forall i | 0 <= i < |r.windows| && InShift(r, i, now - r.clock.start) ::
                  Pages(r, [r.windows[i].0, r.windows[i].1] + late, t))
            && (r.clock.At? && r.windows != [] && now - r.clock.start >= |r.windows| * r.windowSeconds ==> Pages(r, late, t))
            && (r.clock.Unset? || r.windows == [] || now < r.clock.start ==> Pages(r, When(clinicalAlways, ["clinical-advisor"]), t))
  {
    hide Pages, FirstOfEach;
    var clinical := When(clinicalAlways, ["clinical-advisor"]);
    var late := When(escalated, ["ceo"]) + clinical;
    if r.clock.Unset? || r.windows == [] || now < r.clock.start {
      OnlyClinicalSlots(r, escalated, now, clinicalAlways);
      SlotsPage(r, clinical);
    } else {
      var e := now - r.clock.start;
      if e >= |r.windows| * r.windowSeconds {
        DivAtLeast(e, r.windowSeconds, |r.windows|);
        LateSlots(r, escalated, now, clinicalAlways);
        SlotsPage(r, late);
      }
      forall i | 0 <= i < |r.windows| && InShift(r, i, e)
        ensures Pages(r, [r.windows[i].0, r.windows[i].1] + late, TargetsAt(r, escalated, now, clinicalAlways))
      {
        DivIs(e, r.windowSeconds, i);
        ShiftSlots(r, escalated, now, clinicalAlways, i);
        SlotsPage(r, [r.windows[i].0, r.windows[i].1] + late);
      }
    }
  }

  predicate InShift(r: OnCall, i: nat, elapsed: int) {
    i * r.windowSeconds <= elapsed < (i + 1) * r.windowSeconds
  }

  lemma OneSlot(r: OnCall, seat: string)
    ensures SlotsOf(r, []) == [] && SlotsOf(r, [seat]) == [Lookup(r, seat)]
  {
    assert [seat] == [] + [seat];
    SlotsOfSnoc(r, [], seat);
  }

  lemma LateNames(r: OnCall, escalated: bool, clinicalAlways: bool, front: seq<string>)
    ensures SlotsOf(r, front + (When(escalated, ["ceo"]) + When(clinicalAlways, ["clinical-advisor"])))
            == SlotsOf(r, front) + (if escalated then [Lookup(r, CEILING)] else []) + (if clinicalAlways then [Lookup(r, CLINICAL)] else [])
  {
    hide Lookup, SlotsOf;
    var mid := front + When(escalated, ["ceo"]);
    SlotsOfSnoc(r, front, "ceo");
    assert escalated ==> mid == front + ["ceo"];
    assert !escalated ==> mid == front;
    SlotsOfSnoc(r, mid, "clinical-advisor");
    var all := front + (When(escalated, ["ceo"]) + When(clinicalAlways, ["clinical-advisor"]));
    assert clinicalAlways ==> all == mid + ["clinical-advisor"];
    assert !clinicalAlways ==> all == mid;
    assert forall s: seq<Slot> :: s + [] == s;
  }

  /** Vacant slots name nobody. */
  lemma VacantFront(rest: seq<Slot>)
    ensures FirstOfEach([Vacant, Vacant] + rest) == FirstOfEach(rest)
    decreases |rest|
  {
    if rest == [] {
      assert [Vacant, Vacant] + [] == [Vacant, Vacant];
      assert [Vacant, Vacant][..1] == [Vacant] && [Vacant][..0] == [];
      assert FirstOfEach([Vacant]) == [];
    } else {
      var n := |rest| - 1;
      VacantFront(rest[..n]);
      assert ([Vacant, Vacant] + rest)[..n + 2] == [Vacant, Vacant] + rest[..n];
    }
  }

  lemma OnlyClinicalSlots(r: OnCall, escalated: bool, now: int, clinicalAlways: bool)
    requires r.clock.Unset? || r.windows == [] || now < r.clock.start
    ensures TargetsAt(r, escalated, now, clinicalAlways) == FirstOfEach(SlotsOf(r, When(clinicalAlways, ["clinical-advisor"])))
  {
    hide FirstOfEach, Lookup, SlotsOf;
    var clinical := if clinicalAlways then [Lookup(r, CLINICAL)] else [];
    OneSlot(r, "clinical-advisor");
    VacantFront((if escalated then [Vacant] else []) + clinical);
    assert Slots(r, escalated, now, clinicalAlways) == [Vacant, Vacant] + ((if escalated then [Vacant] else []) + clinical);
    if escalated {
      OneVacant(clinical);
    }
    assert [] + clinical == clinical;
  }

  lemma OneVacant(rest: seq<Slot>)
    ensures FirstOfEach([Vacant] + rest) == FirstOfEach(rest)
    decreases |rest|
  {
    if rest == [] {
      assert [Vacant] + [] == [Vacant] && [Vacant][..0] == [];
    } else {
      var n := |rest| - 1;
      OneVacant(rest[..n]);
      assert ([Vacant] + rest)[..n + 1] == [Vacant] + rest[..n];
    }
  }

  lemma LateSlots(r: OnCall, escalated: bool, now: int, clinicalAlways: bool)
    requires r.clock.At? && r.windows != [] && now >= r.clock.start && (now - r.clock.start) / r.windowSeconds >= |r.windows|
    ensures TargetsAt(r, escalated, now, clinicalAlways)
            == FirstOfEach(SlotsOf(r, When(escalated, ["ceo"]) + When(clinicalAlways, ["clinical-advisor"])))
  {
    hide FirstOfEach, Lookup, SlotsOf, When;
    var late := (if escalated then [Lookup(r, CEILING)] else []) + (if clinicalAlways then [Lookup(r, CLINICAL)] else []);
    OneSlot(r, "ceo");
    LateNames(r, escalated, clinicalAlways, []);
    assert [] + (When(escalated, ["ceo"]) + When(clinicalAlways, ["clinical-advisor"]))
        == When(escalated, ["ceo"]) + When(clinicalAlways, ["clinical-advisor"]);
    VacantFront(late);
    assert Slots(r, escalated, now, clinicalAlways) == [Vacant, Vacant] + late;
    assert [] + (if escalated then [Lookup(r, CEILING)] else []) + (if clinicalAlways then [Lookup(r, CLINICAL)] else []) == late;
  }

  lemma ShiftSlots(r: OnCall, escalated: bool, now: int, clinicalAlways: bool, i: nat)
    requires r.clock.At? && i < |r.windows| && now >= r.clock.start && (now - r.clock.start) / r.windowSeconds == i
    ensures TargetsAt(r, escalated, now, clinicalAlways)
            == FirstOfEach(SlotsOf(r, [r.windows[i].0, r.windows[i].1]
                                      + (When(escalated, ["ceo"]) + When(clinicalAlways, ["clinical-advisor"]))))
  {
    hide FirstOfEach, Lookup, SlotsOf, When;
    var front := [r.windows[i].0, r.windows[i].1];
    OneSlot(r, r.windows[i].0);
    SlotsOfSnoc(r, [r.windows[i].0], r.windows[i].1);
    assert front == [r.windows[i].0] + [r.windows[i].1];
    assert SlotsOf(r, front) == [Lookup(r, r.windows[i].0), Lookup(r, r.windows[i].1)];
    LateNames(r, escalated, clinicalAlways, front);
  }

  lemma DivIs(e: int, w: int, i: nat)
    requires w > 0 && i * w <= e < (i + 1) * w
    ensures e / w == i
  {
    DivAtLeast(e, w, i);
    if e / w >= i + 1 {
      MulMonotone(i + 1, e / w, w);
    }
  }

  lemma DivAtLeast(e: int, w: int, n: int)
    requires w > 0 && e >= n * w
    ensures e / w >= n
  {
    MulMonotone(e / w + 1, n, w);
    assert e < (e / w + 1) * w;
  }

  lemma MulMonotone(a: int, b: int, w: int)
    requires w > 0
    ensures a <= b ==> a * w <= b * w
  {
  }
}
