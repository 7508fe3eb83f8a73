/** The camp events board: a list of events that guests can join while places
    remain, filled once with six seeded events. */
module Events {
  import opened Common

  /** A camp event. `id` 0 stands for Guid.Empty; times are hours counted from
      the start of an arbitrary reference day. */
  datatype CampEvent = CampEvent(
    id: nat,
    title: string,
    description: Option<string>,
    start: int,
    end: int,
    location: string,
    capacity: Option<int>,
    registered: int,
    status: Option<string>,
    imageFile: Option<string>)

  /** The first event with the given id (FirstOrDefault). */
  function FindEvent(evs: seq<CampEvent>, id: nat): (r: Option<nat>)
    ensures r.None? <==> forall i :: 0 <= i < |evs| ==> evs[i].id != id
    ensures r.Some? ==> r.value < |evs| && evs[r.value].id == id
    ensures r.Some? ==> forall i :: 0 <= i < r.value ==> evs[i].id != id
  {
    if evs == [] then None
    else if evs[0].id == id then Some(0)
    else match FindEvent(evs[1..], id)
      case None => None
      case Some(k) => Some(k + 1)
  }

  /** An event is full when it has a capacity and at least that many registrations. */
  predicate Full(e: CampEvent)
  {
    e.capacity.Some? && e.registered >= e.capacity.value
  }

  /** Join as a value: one more registration on the first event with that id,
      unless there is none or it is full. */
  function JoinSpec(evs: seq<CampEvent>, id: nat): seq<CampEvent>
  {
    match FindEvent(evs, id)
    case None => evs
    case Some(k) => if Full(evs[k]) then evs else evs[k := evs[k].(registered := evs[k].registered + 1)]
  }

  /** Whether Join changes anything (and so raises EventsChanged). */
  predicate JoinTakesPlace(evs: seq<CampEvent>, id: nat)
  {
    FindEvent(evs, id).Some? && !Full(evs[FindEvent(evs, id).value])
  }

  /** Joining an unknown id changes nothing. */
  lemma JoinUnknown(evs: seq<CampEvent>, id: nat)
    requires forall i :: 0 <= i < |evs| ==> evs[i].id != id
    ensures JoinSpec(evs, id) == evs
    ensures !JoinTakesPlace(evs, id)
  {
  }

  /** Joining a full event changes nothing. */
  lemma JoinFull(evs: seq<CampEvent>, k: nat)
    requires k < |evs| && Full(evs[k])
    requires forall i :: 0 <= i < k ==> evs[i].id != evs[k].id
    ensures JoinSpec(evs, evs[k].id) == evs
    ensures !JoinTakesPlace(evs, evs[k].id)
  {
    assert FindEvent(evs, evs[k].id) == Some(k);
  }

  /** Otherwise exactly that event gains one registration and every other event
      is unchanged; an event without capacity is never full. */
  lemma JoinIncrements(evs: seq<CampEvent>, k: nat)
    requires k < |evs| && !Full(evs[k])
    requires forall i :: 0 <= i < k ==> evs[i].id != evs[k].id
    ensures JoinTakesPlace(evs, evs[k].id)
    ensures |JoinSpec(evs, evs[k].id)| == |evs|
    ensures JoinSpec(evs, evs[k].id)[k] == evs[k].(registered := evs[k].registered + 1)
    ensures forall i :: 0 <= i < |evs| && i != k ==> JoinSpec(evs, evs[k].id)[i] == evs[i]
  {
    assert FindEvent(evs, evs[k].id) == Some(k);
  }

  /** No event holds more registrations than its capacity. */
  ghost predicate WithinCapacity(evs: seq<CampEvent>)
  {
    forall i :: 0 <= i < |evs| && evs[i].capacity.Some? ==> evs[i].registered <= evs[i].capacity.value
  }

  /** Join never pushes an event past its capacity. */
  lemma JoinKeepsCapacity(evs: seq<CampEvent>, id: nat)
    requires WithinCapacity(evs)
    ensures WithinCapacity(JoinSpec(evs, id))
  {
  }

  /** The six events SeedIfEmpty adds, with ids firstId .. firstId + 5 and
      times counted from `today`. */
  function SeedEvents(today: int, firstId: nat): (r: seq<CampEvent>)
  {
    [ Seed(firstId, "Sunset Yoga", today, 1, 18, 1, 19, "Ακτή A1", 25, "sunset_yoga.jpg"),
      Seed(firstId + 1, "BBQ Night", today, 2, 20, 2, 23, "Κεντρική Πλατεία", 80, "bbq.jpg"),
      Seed(firstId + 2, "Πεζοπορία στο φαράγγι", today, 3, 9, 3, 13, "Αφετηρία: Reception", 30, "canyon.jpg"),
      Seed(firstId + 3, "Movie Night", today, 1, 21, 1, 23, "Υπαίθριο Σινεμά", 60, "movie_night.jpg"),
      Seed(firstId + 4, "Beach Volleyball 4x4", today, 2, 16, 2, 19, "Παραλία B", 32, "beach_volley.jpg"),
      Seed(firstId + 5, "Stargazing – Αστρονομία", today, 4, 22, 4, 23, "Λόφος Πεύκων", 40, "stargazing.jpg") ]
  }

  /** One seeded event: no registrations yet, a capacity, a description and an
      image, and no status. The long description texts are not modelled. */
  function Seed(id: nat, title: string, today: int, dStart: int, hStart: int, dEnd: int, hEnd: int,
                loc: string, cap: int, img: string): CampEvent
  {
    CampEvent(id, title, Some(""), today + 24 * dStart + hStart, today + 24 * dEnd + hEnd,
              loc, Some(cap), 0, None, Some(img))
  }

  /** The seeded list: six events, none with registrations, each with a capacity
      of at least 25, distinct non-empty ids, and every start before its end. */
  lemma SeedEventsShape(today: int, firstId: nat)
    requires firstId >= 1
    ensures |SeedEvents(today, firstId)| == 6
    ensures forall i :: 0 <= i < 6 ==>
      var e := SeedEvents(today, firstId)[i];
      e.registered == 0 && e.capacity.Some? && e.capacity.value >= 25 && e.id == firstId + i && e.start < e.end
    ensures WithinCapacity(SeedEvents(today, firstId))
  {
  }

  /** SeedIfEmpty as a value: six events on an empty list, nothing otherwise. */
  function SeedIfEmptySpec(evs: seq<CampEvent>, today: int, firstId: nat): seq<CampEvent>
  {
    if |evs| > 0 then evs else SeedEvents(today, firstId)
  }

  /** A second SeedIfEmpty, whatever its arguments, changes nothing. */
  lemma SeedIfEmptyIdempotent(evs: seq<CampEvent>, today: int, firstId: nat, today2: int, firstId2: nat)
    ensures |SeedIfEmptySpec(evs, today, firstId)| > 0
    ensures SeedIfEmptySpec(SeedIfEmptySpec(evs, today, firstId), today2, firstId2)
         == SeedIfEmptySpec(evs, today, firstId)
  {
  }

  class EventsService {
    var events: seq<CampEvent>
    /** Source of fresh non-empty ids, standing for Guid.NewGuid. */
    var nextId: nat
    /** Every list EventsChanged has been raised with, oldest first. */
    ghost var published: seq<seq<CampEvent>>

    ghost predicate Valid()
      reads this
    {
      nextId >= 1
    }

    constructor ()
      ensures Valid()
      ensures events == [] && published == []
    {
      events := [];
      nextId := 1;
      published := [];
    }

    /** Guid.NewGuid: a non-empty id not handed out before. */
    method NewId() returns (id: nat)
      requires Valid()
      modifies this
      ensures Valid()
      ensures id == old(nextId) && id >= 1 && nextId == id + 1
      ensures events == old(events) && published == old(published)
    {
      id := nextId;
      nextId := nextId + 1;
    }

    method Clear()
      requires Valid()
      modifies this
      ensures Valid() && nextId == old(nextId)
      ensures events == []
      ensures published == old(published) + [[]]
    {
      events := [];
      published := published + [events];
    }

    /** Appends the event, giving it a fresh id when its id is empty. */
    method Add(ev: CampEvent)
      requires Valid()
      modifies this
      ensures Valid()
      ensures |events| == |old(events)| + 1 && events[..|old(events)|] == old(events)
      ensures ev.id != 0 ==> events[|old(events)|] == ev && nextId == old(nextId)
      ensures ev.id == 0 ==> events[|old(events)|] == ev.(id := old(nextId)) && nextId == old(nextId) + 1
      ensures events[|old(events)|].id >= 1
      ensures published == old(published) + [events]
    {
      var e := ev;
      if e.id == 0 {
        var id := NewId();
        e := e.(id := id);
      }
      events := events + [e];
      published := published + [events];
    }

    method Join(id: nat)
      requires Valid()
      modifies this
      ensures Valid() && nextId == old(nextId)
      ensures events == JoinSpec(old(events), id)
      ensures JoinTakesPlace(old(events), id) ==> published == old(published) + [events]
      ensures !JoinTakesPlace(old(events), id) ==> published == old(published)
    {
      var k := 0;
      while k < |events| && events[k].id != id
        invariant 0 <= k <= |events|
        invariant forall i :: 0 <= i < k ==> events[i].id != id
      {
        k := k + 1;
      }
      if k == |events| {
        return;
      }
      assert FindEvent(events, id) == Some(k);
      var ev := events[k];
      if ev.capacity.Some? && ev.registered >= ev.capacity.value {
        return;
      }
      events := events[k := ev.(registered := ev.registered + 1)];
      published := published + [events];
    }

    /** Adds six events when the list is empty; `count` is ignored. */
    method SeedIfEmpty(count: int, today: int)
      requires Valid()
      modifies this
      ensures Valid()
      ensures events == SeedIfEmptySpec(old(events), today, old(nextId))
      ensures |old(events)| > 0 ==> nextId == old(nextId) && published == old(published)
      ensures |old(events)| == 0 ==> nextId == old(nextId) + 6 && |published| == |old(published)| + 6
    {
      if |events| > 0 {
        return;
      }
      var first := nextId;
      AddSeed("Sunset Yoga", today, 1, 18, 1, 19, "Ακτή A1", 25, "sunset_yoga.jpg");
      AddSeed("BBQ Night", today, 2, 20, 2, 23, "Κεντρική Πλατεία", 80, "bbq.jpg");
      AddSeed("Πεζοπορία στο φαράγγι", today, 3, 9, 3, 13, "Αφετηρία: Reception", 30, "canyon.jpg");
      AddSeed("Movie Night", today, 1, 21, 1, 23, "Υπαίθριο Σινεμά", 60, "movie_night.jpg");
      AddSeed("Beach Volleyball 4x4", today, 2, 16, 2, 19, "Παραλία B", 32, "beach_volley.jpg");
      AddSeed("Stargazing – Αστρονομία", today, 4, 22, 4, 23, "Λόφος Πεύκων", 40, "stargazing.jpg");
      assert events == SeedEvents(today, first);
    }

    /** new CampEvent { ... } (which draws its own id) passed to Add. */
    method AddSeed(title: string, today: int, dStart: int, hStart: int, dEnd: int, hEnd: int,
                   loc: string, cap: int, img: string)
      requires Valid()
      modifies this
      ensures Valid() && nextId == old(nextId) + 1
      ensures events == old(events) + [Seed(old(nextId), title, today, dStart, hStart, dEnd, hEnd, loc, cap, img)]
      ensures published == old(published) + [events]
    {
      var id := NewId();
      Add(Seed(id, title, today, dStart, hStart, dEnd, hEnd, loc, cap, img));
    }
  }
}
