/** Finds one free alternative for a calendar event: half-hour grid, two local days, daytime
    hours, no collision, closest in rank. The time zone is a function from instants to local
    dates and minutes. */
module CalendarSlots {
  import opened Wrappers

  const HALF_HOUR: nat := 1_800_000
  const HORIZON: nat := 172_800_000
  const MAX_DURATION: nat := 50_400_000
  const DAY_OPENS: nat := 480
  const DAY_CLOSES: nat := 1320
  const NEXT_DAY_RANK: nat := 10_000

  type Minute = m: int | 0 <= m < 1440

  /** A local date as a day number, and the minute of that day. */
  datatype Local = Local(day: int, minute: Minute)

  type Zone = int -> Local

  /** `day` and `minute` are the local ones written in the event; instants are milliseconds. */
  datatype Appointment = Appointment(allDay: bool, start: int, end: int, day: int, minute: Minute)

  /** An item of the calendar; a time that does not parse is absent. */
  datatype Busy = AllDay(id: nat, first: int, after: int)
                | Timed(id: nat, start: Option<int>, end: Option<int>)

  // ----- What a slot must satisfy -----

  predicate OnGrid(t: int) {
    t % HALF_HOUR == 0
  }

  /** The least grid point after `start`: the ceiling of the next millisecond. */
  function FirstAfter(start: int): int {
    -((-(start + 1)) / HALF_HOUR) * HALF_HOUR
  }

  lemma FirstAfterIsNext(start: int)
    ensures start < FirstAfter(start) <= start + HALF_HOUR && OnGrid(FirstAfter(start))
    ensures forall t :: start < t && OnGrid(t) ==> FirstAfter(start) <= t
  {
  }

  predicate Collides(zone: Zone, e: Busy, t: int, duration: int) {
    match e
    case AllDay(_, first, after) => first <= zone(t).day < after
    case Timed(_, start, end) =>
      start.None? || end.None? || end.value <= start.value || (t < end.value && start.value < t + duration)
  }

  predicate Free(zone: Zone, busy: seq<Busy>, exclude: nat, t: int, duration: int) {
    forall i :: 0 <= i < |busy| && busy[i].id != exclude ==> !Collides(zone, busy[i], t, duration)
  }

  /** Both ends on the same one of the two allowed days, within daytime hours. */
  predicate Daytime(zone: Zone, a: Appointment, t: int, duration: int) {
    && (zone(t).day == a.day || zone(t).day == a.day + 1)
    && zone(t + duration).day == zone(t).day
    && DAY_OPENS <= zone(t).minute && zone(t + duration).minute <= DAY_CLOSES
  }

  predicate Qualifies(zone: Zone, a: Appointment, busy: seq<Busy>, exclude: nat, t: int) {
    && OnGrid(t) && a.start < t && t + (a.end - a.start) <= a.start + HORIZON
    && Daytime(zone, a, t, a.end - a.start) && Free(zone, busy, exclude, t, a.end - a.start)
  }

  function Rank(zone: Zone, a: Appointment, t: int): int {
    if zone(t).day == a.day then zone(t).minute
    else NEXT_DAY_RANK + if zone(t).minute >= a.minute then zone(t).minute - a.minute else a.minute - zone(t).minute
  }

  predicate Suggestible(a: Appointment) {
    !a.allDay && 0 < a.end - a.start <= MAX_DURATION
  }

  /** `t` is the best slot: it qualifies, nothing ranks better, and nothing earlier ranks equal. */
  ghost predicate Best(zone: Zone, a: Appointment, busy: seq<Busy>, exclude: nat, t: int) {
    && Qualifies(zone, a, busy, exclude, t)
    && forall u :: Qualifies(zone, a, busy, exclude, u) ==>
         Rank(zone, a, t) < Rank(zone, a, u) || (Rank(zone, a, t) == Rank(zone, a, u) && t <= u)
  }

  /** Any slot of the same day comes before every slot of the next one. */
  lemma SameDayFirst(zone: Zone, a: Appointment, busy: seq<Busy>, exclude: nat, t: int, u: int)
    requires Best(zone, a, busy, exclude, t) && Qualifies(zone, a, busy, exclude, u) && zone(u).day == a.day
    ensures zone(t).day == a.day && zone(t).minute <= zone(u).minute
  {
  }

  predicate Within(x: int, from: int, to: int) {
    from <= x < to
  }

  /** The slot from `t` and a busy item have no moment in common; an item whose times do not parse or do not
      follow each other is in the way of everything. */
  ghost predicate Apart(zone: Zone, e: Busy, t: int, duration: int) {
    match e
    case AllDay(_, first, after) => zone(t).day < first || after <= zone(t).day
    case Timed(_, start, end) =>
      && start.Some? && end.Some? && start.value < end.value
      && forall x :: Within(x, t, t + duration) ==> !Within(x, start.value, end.value)
  }

  lemma ApartIff(zone: Zone, e: Busy, t: int, duration: int)
    ensures 0 < duration ==> (Apart(zone, e, t, duration) <==> !Collides(zone, e, t, duration))
  {
    match e
    case AllDay(_, _, _) =>
    case Timed(_, start, end) =>
      if start.Some? && end.Some? && start.value < end.value && t < end.value && start.value < t + duration {
        var x := if t < start.value then start.value else t;
        assert 0 < duration ==> Within(x, t, t + duration) && Within(x, start.value, end.value);
      }
  }

  /** What a slot has to be, in full: on a half hour, after the event and over within two days of it, on the day of
      the event or the next one between eight and twenty-two o'clock, and apart from every other item. */
  lemma QualifiesIff(zone: Zone, a: Appointment, busy: seq<Busy>, exclude: nat, t: int)
    ensures Suggestible(a) <==> !a.allDay && 0 < a.end - a.start <= 14 * 3_600_000
    ensures Suggestible(a) ==>
              (Qualifies(zone, a, busy, exclude, t) <==>
                 && t % 1_800_000 == 0 && a.start < t && t + (a.end - a.start) <= a.start + 2 * 86_400_000
                 && a.day <= zone(t).day <= a.day + 1 && zone(t + (a.end - a.start)).day == zone(t).day
                 && 8 * 60 <= zone(t).minute && zone(t + (a.end - a.start)).minute <= 22 * 60
                 && forall i :: 0 <= i < |busy| && busy[i].id != exclude ==> Apart(zone, busy[i], t, a.end - a.start))
  {
    forall i | 0 <= i < |busy| { ApartIff(zone, busy[i], t, a.end - a.start); }
    hide Apart, Collides;
  }

  /** On the next day the slot is as close to the event's own time of day as any, and the earlier one of two. */
  lemma NextDayByCloseness(zone: Zone, a: Appointment, busy: seq<Busy>, exclude: nat, t: int, u: int)
    ensures && Best(zone, a, busy, exclude, t) && Qualifies(zone, a, busy, exclude, u)
            && zone(t).day != a.day && zone(u).day != a.day
            ==>
              var near, far := zone(t).minute - a.minute, zone(u).minute - a.minute;
              && (if near < 0 then -near else near) <= (if far < 0 then -far else far)
              && (near == far || near == -far ==> t <= u)
    ensures && Best(zone, a, busy, exclude, t) && Qualifies(zone, a, busy, exclude, u) && zone(t).day != a.day
            ==> zone(u).day != a.day
  {
    hide Daytime, Free;
  }

  // ----- The search -----

  datatype Candidate = Candidate(start: int, end: int, rank: int)

  method Occupied(zone: Zone, busy: seq<Busy>, exclude: nat, t: int, duration: int) returns (occupied: bool)
    ensures occupied == !Free(zone, busy, exclude, t, duration)
  {
    for i := 0 to |busy|
      invariant forall j :: 0 <= j < i && busy[j].id != exclude ==> !Collides(zone, busy[j], t, duration)
    {
      if busy[i].id != exclude && Collides(zone, busy[i], t, duration) { return true; }
    }
    return false;
  }

  /** A candidate list is what the grid holds so far, oldest first. */
  ghost predicate Lists(zone: Zone, a: Appointment, busy: seq<Busy>, exclude: nat, candidates: seq<Candidate>,
                        below: int) {
    && (forall i :: 0 <= i < |candidates| ==>
          var c := candidates[i];
          c.start < below && Qualifies(zone, a, busy, exclude, c.start)
          && c.end == c.start + (a.end - a.start) && c.rank == Rank(zone, a, c.start))
    && (forall i, j :: 0 <= i < j < |candidates| ==> candidates[i].start < candidates[j].start)
    && (forall t :: Qualifies(zone, a, busy, exclude, t) && t < below ==>
          exists i :: 0 <= i < |candidates| && candidates[i].start == t)
  }

  lemma NothingBeforeTheGrid(zone: Zone, a: Appointment, busy: seq<Busy>, exclude: nat)
    ensures Lists(zone, a, busy, exclude, [], FirstAfter(a.start))
    ensures a.start < FirstAfter(a.start) && OnGrid(FirstAfter(a.start))
  {
    FirstAfterIsNext(a.start);
  }

  lemma NothingPastTheHorizon(zone: Zone, a: Appointment, busy: seq<Busy>, exclude: nat, candidates: seq<Candidate>,
                              t: int)
    requires Suggestible(a) && Lists(zone, a, busy, exclude, candidates, t)
    requires t + (a.end - a.start) > a.start + HORIZON
    ensures forall u :: Qualifies(zone, a, busy, exclude, u) ==>
              u < t && exists i :: 0 <= i < |candidates| && candidates[i].start == u
  {
    hide Daytime, Free, Rank;
  }

  lemma GridGap(t: int, u: int)
    requires OnGrid(t) && OnGrid(u) && u < t + HALF_HOUR
    ensures u <= t
  {
  }

  /** One grid point further, the list is extended exactly by that point if it qualifies. */
  lemma NextGridPoint(zone: Zone, a: Appointment, busy: seq<Busy>, exclude: nat,
                      before: seq<Candidate>, after: seq<Candidate>, t: int)
    requires Lists(zone, a, busy, exclude, before, t) && OnGrid(t)
    requires after == if Qualifies(zone, a, busy, exclude, t)
                      then before + [Candidate(t, t + (a.end - a.start), Rank(zone, a, t))] else before
    ensures Lists(zone, a, busy, exclude, after, t + HALF_HOUR) && OnGrid(t + HALF_HOUR)
  {
    hide Rank, Daytime, Free;
    forall u | Qualifies(zone, a, busy, exclude, u) && u < t + HALF_HOUR
      ensures exists i :: 0 <= i < |after| && after[i].start == u
    {
      GridGap(t, u);
      if u < t {
        var i :| 0 <= i < |before| && before[i].start == u;
        assert after[i] == before[i];
      } else {
        assert after[|before|].start == u;
      }
    }
  }

  method Collect(zone: Zone, a: Appointment, busy: seq<Busy>, exclude: nat) returns (candidates: seq<Candidate>)
    requires Suggestible(a)
    ensures exists below :: Lists(zone, a, busy, exclude, candidates, below)
    ensures forall t :: Qualifies(zone, a, busy, exclude, t) ==>
              exists i :: 0 <= i < |candidates| && candidates[i].start == t
  {
    hide Lists, Free, Rank;
    candidates := [];
    var duration := a.end - a.start;
    var t := FirstAfter(a.start);
    NothingBeforeTheGrid(zone, a, busy, exclude);
    hide FirstAfter;
    while t + duration <= a.start + HORIZON
      invariant a.start < t && OnGrid(t)
      invariant Lists(zone, a, busy, exclude, candidates, t)
      decreases a.start + HORIZON - t
    {
      var here, there := zone(t), zone(t + duration);
      ghost var before := candidates;
      if !((here.day != a.day && here.day != a.day + 1) || there.day != here.day
           || here.minute < DAY_OPENS || there.minute > DAY_CLOSES) {
        var occupied := Occupied(zone, busy, exclude, t, duration);
        if !occupied { candidates := candidates + [Candidate(t, t + duration, Rank(zone, a, t))]; }
      }
      NextGridPoint(zone, a, busy, exclude, before, candidates, t);
      t := t + HALF_HOUR;
    }
    NothingPastTheHorizon(zone, a, busy, exclude, candidates, t);
  }

  /** The head of a stable sort by rank. */
  method Head(candidates: seq<Candidate>) returns (best: Option<Candidate>)
    ensures best.None? <==> candidates == []
    ensures best.Some? ==>
              exists k :: 0 <= k < |candidates| && candidates[k] == best.value
                          && (forall i :: 0 <= i < |candidates| ==> best.value.rank <= candidates[i].rank)
                          && (forall i :: 0 <= i < k ==> best.value.rank < candidates[i].rank)
  {
    if candidates == [] { return None; }
    var k := 0;
    for i := 1 to |candidates|
      invariant 0 <= k < i && (forall j :: 0 <= j < i ==> candidates[k].rank <= candidates[j].rank)
      invariant forall j :: 0 <= j < k ==> candidates[k].rank < candidates[j].rank
    {
      if candidates[i].rank < candidates[k].rank { k := i; }
    }
    best := Some(candidates[k]);
  }

  /** Sound, complete and optimal: a suggestion is the best slot, and there is none exactly when
      the event cannot be moved or no grid point qualifies. */
  method SuggestSlot(zone: Zone, a: Appointment, busy: seq<Busy>, exclude: nat) returns (slot: Option<(int, int)>)
    ensures slot.Some? ==>
              Suggestible(a) && Qualifies(zone, a, busy, exclude, slot.value.0)
              && Best(zone, a, busy, exclude, slot.value.0)
              && slot.value.1 == slot.value.0 + (a.end - a.start)
    ensures slot.None? <==> !Suggestible(a) || forall t :: !Qualifies(zone, a, busy, exclude, t)
  {
    if a.allDay { return None; }
    var duration := a.end - a.start;
    if duration <= 0 || duration > MAX_DURATION { return None; }
    hide Qualifies, Rank;
    var candidates := Collect(zone, a, busy, exclude);
    var best := Head(candidates);
    if best.None? { return None; }
    slot := Some((best.value.start, best.value.end));
  }
}
