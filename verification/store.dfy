/**
 * The database of the potty service as one object holding its two tables, and the
 * request handlers that change it: creating a potty, patching a potty's status (which
 * notifies subscribers and prunes the unreachable ones), registering and deleting a
 * subscriber. The read-only handlers are the functions of module Queries.
 */
module Store {
  import opened Wrappers
  import opened Records
  import opened Queries

  /**
   * The attempts of one dispatch: exactly one per subscriber of the snapshot, each to
   * that subscriber's URL and carrying the same event.
   */
  ghost predicate OneAttemptEach(attempts: seq<Attempt>, snapshot: map<int, Subscriber>, ev: Event)
  {
    && |attempts| == |snapshot|
    && Targets(attempts) == snapshot.Keys
    && (forall a :: a in attempts ==> a.subscriber in snapshot && a.url == snapshot[a.subscriber].url && a.body == ev)
    && (forall i, j :: 0 <= i < j < |attempts| ==> attempts[i].subscriber != attempts[j].subscriber)
  }

  /** The subscribers that the attempts went to. */
  function Targets(attempts: seq<Attempt>): set<int>
  {
    if attempts == [] then {} else Targets(attempts[..|attempts| - 1]) + {attempts[|attempts| - 1].subscriber}
  }

  /** The attempts went exactly to the subscribers named in them. */
  lemma {:induction false} TargetsAre(attempts: seq<Attempt>)
    ensures forall a :: a in attempts ==> a.subscriber in Targets(attempts)
    ensures forall k :: k in Targets(attempts) ==> exists a :: a in attempts && a.subscriber == k
  {
    if attempts != [] {
      var init := attempts[..|attempts| - 1];
      TargetsAre(init);
      assert attempts == init + [attempts[|attempts| - 1]];
    }
  }

  /** Attempts that go to pairwise different subscribers reach as many subscribers as there are attempts. */
  lemma {:induction false} TargetsCount(attempts: seq<Attempt>)
    requires forall i, j :: 0 <= i < j < |attempts| ==> attempts[i].subscriber != attempts[j].subscriber
    ensures |Targets(attempts)| == |attempts|
  {
    if attempts != [] {
      var init := attempts[..|attempts| - 1];
      var last := attempts[|attempts| - 1];
      TargetsCount(init);
      TargetsAre(init);
      forall a | a in init ensures a.subscriber != last.subscriber {
        var i :| 0 <= i < |init| && init[i] == a;
        assert attempts[i] == a;
      }
      assert attempts == init + [last];
    }
  }

  /**
   * Progress of a dispatch over the snapshot `subs`: the subscribers in `done` have had
   * their one attempt each, and the table `current` is the snapshot without those of
   * them whose attempt raised.
   */
  ghost predicate DispatchedTo(subs: map<int, Subscriber>, raises: set<int>, ev: Event,
                               done: set<int>, attempts: seq<Attempt>, current: map<int, Subscriber>)
  {
    && done <= subs.Keys
    && Targets(attempts) == done
    && (forall a :: a in attempts ==> a.subscriber in subs && a.url == subs[a.subscriber].url && a.body == ev)
    && (forall i, j :: 0 <= i < j < |attempts| ==> attempts[i].subscriber != attempts[j].subscriber)
    && current == subs - (done * raises)
  }

  /** One pass of the loop: attempt `sid`, and delete it if the attempt raised. */
  lemma DispatchStep(subs: map<int, Subscriber>, raises: set<int>, ev: Event,
                     done: set<int>, attempts: seq<Attempt>, current: map<int, Subscriber>, sid: int)
    requires DispatchedTo(subs, raises, ev, done, attempts, current)
    requires sid in subs && sid !in done
    ensures DispatchedTo(subs, raises, ev, done + {sid}, attempts + [Attempt(sid, subs[sid].url, ev)],
                         if sid in raises then current - {sid} else current)
  {
    var attempt := Attempt(sid, subs[sid].url, ev);
    assert (attempts + [attempt])[..|attempts|] == attempts;
    TargetsAre(attempts);
    var next := if sid in raises then current - {sid} else current;
    assert next == subs - ((done + {sid}) * raises);
  }

  /** A dispatch that has reached every subscriber of the snapshot. */
  lemma DispatchComplete(subs: map<int, Subscriber>, raises: set<int>, ev: Event,
                         attempts: seq<Attempt>, current: map<int, Subscriber>)
    requires DispatchedTo(subs, raises, ev, subs.Keys, attempts, current)
    ensures OneAttemptEach(attempts, subs, ev)
    ensures current == subs - raises
  {
    TargetsCount(attempts);
    assert |subs.Keys| == |subs|;
    assert current == subs - raises;
  }

  class Database {
    var potties: map<int, Potty>
    var subscribers: map<int, Subscriber>

    /** Every key in either table was handed out by NextRowId, so it is positive. */
    ghost predicate Valid()
      reads this
    {
      && (forall k :: k in potties ==> k >= 1)
      && (forall k :: k in subscribers ==> k >= 1)
    }

    constructor ()
      ensures Valid()
      ensures potties == map[] && subscribers == map[]
    {
      potties := map[];
      subscribers := map[];
    }

    /**
     * POST /api/potties. Both arguments are optional (a missing one stores a null
     * column); a value that names no enumeration member is refused. The new row gets
     * a fresh key, and looking that key up afterwards yields the stored row.
     */
    method CreatePotty(statusArg: Option<string>, locationArg: Option<string>) returns (r: Outcome<Stored<Potty>>)
      requires Valid()
      modifies this
      ensures Valid()
      ensures subscribers == old(subscribers)
      ensures r.Err? <==> ParseOptionalStatus(statusArg).Err? || ParseOptionalLocation(locationArg).Err?
      ensures r.Err? ==> r.error == BadRequest && potties == old(potties)
      ensures r.Ok? ==>
        && r.value.id == NextRowId(old(potties))
        && r.value.id !in old(potties)
        && r.value.record == Potty(ParseOptionalStatus(statusArg).value, ParseOptionalLocation(locationArg).value)
        && potties == old(potties)[r.value.id := r.value.record]
        && Find(potties, r.value.id) == r
    {
      var status := ParseOptionalStatus(statusArg);
      if status.Err? {
        return Err(status.error);
      }
      var location := ParseOptionalLocation(locationArg);
      if location.Err? {
        return Err(location.error);
      }
      var id := NextRowId(potties);
      var p := Potty(status.value, location.value);
      potties := potties[id := p];
      r := Ok(Stored(id, p));
    }

    /**
     * The notification loop over a snapshot of the subscriber table. Each pass first
     * builds the event; when that fails (`ev` is `None`) the loop is left by the
     * exception, which happens on the first pass. Otherwise every subscriber of the
     * snapshot gets exactly one attempt, and one whose attempt raised is deleted while
     * the loop carries on with the rest.
     */
    method Dispatch(ev: Option<Event>, raises: set<int>) returns (delivered: bool, attempts: seq<Attempt>)
      requires subscribers != map[]
      modifies this`subscribers
      ensures delivered <==> ev.Some?
      ensures !delivered ==> attempts == [] && subscribers == old(subscribers)
      ensures delivered ==>
        && OneAttemptEach(attempts, old(subscribers), ev.value)
        && subscribers == old(subscribers) - raises
    {
      var subs := subscribers;
      var pending := subs.Keys;
      attempts := [];
      while pending != {}
        invariant pending <= subs.Keys
        invariant ev.None? ==> pending == subs.Keys && attempts == [] && subscribers == subs
        invariant ev.Some? ==> DispatchedTo(subs, raises, ev.value, subs.Keys - pending, attempts, subscribers)
        decreases pending
      {
        NoMemberMeansEmpty(pending);
        var sid :| sid in pending;
        if ev.None? {
          return false, attempts;
        }
        DispatchStep(subs, raises, ev.value, subs.Keys - pending, attempts, subscribers, sid);
        attempts := attempts + [Attempt(sid, subs[sid].url, ev.value)];
        if sid in raises {
          subscribers := subscribers - {sid};
        }
        assert subs.Keys - (pending - {sid}) == (subs.Keys - pending) + {sid};
        pending := pending - {sid};
      }
      if ev.Some? {
        assert subs.Keys - pending == subs.Keys;
        DispatchComplete(subs, raises, ev.value, attempts, subscribers);
      }
      delivered := ev.Some?;
    }

    /**
     * PATCH /api/potties/{id}. An unknown id is NotFound and an invalid status value is
     * BadRequest, both before anything changes. Otherwise the status column alone is
     * overwritten (with null when the argument is missing) and persisted. Then, only if
     * the status really changed and some subscriber is registered, every subscriber of
     * that snapshot gets exactly one delivery attempt, and exactly those whose attempt
     * raised (`raises`) are deleted. When the event cannot be built because a column it
     * names is null, the request fails after the status was persisted and before any
     * attempt.
     */
    method Patch(id: int, statusArg: Option<string>, raises: set<int>)
      returns (r: Outcome<Stored<Potty>>, attempts: seq<Attempt>)
      requires Valid()
      modifies this
      ensures Valid()
      ensures id !in old(potties) ==>
        r == Err(NotFound) && potties == old(potties) && subscribers == old(subscribers) && attempts == []
      ensures id in old(potties) && ParseOptionalStatus(statusArg).Err? ==>
        r == Err(BadRequest) && potties == old(potties) && subscribers == old(subscribers) && attempts == []
      ensures id in old(potties) && ParseOptionalStatus(statusArg).Ok? ==>
        && potties == old(potties)[id := old(potties)[id].(status := ParseOptionalStatus(statusArg).value)]
        && potties[id].location == old(potties)[id].location
        && (r.Ok? ==> r == Find(potties, id))
      ensures id in old(potties) && ParseOptionalStatus(statusArg).Ok? &&
              (potties[id].status == old(potties)[id].status || old(subscribers) == map[]) ==>
        r.Ok? && attempts == [] && subscribers == old(subscribers)
      ensures id in old(potties) && ParseOptionalStatus(statusArg).Ok? &&
              !Notifies(old(potties)[id].status, potties[id].status, old(subscribers)) ==>
        r.Ok? && attempts == [] && subscribers == old(subscribers)
      ensures id in old(potties) && ParseOptionalStatus(statusArg).Ok? &&
              Notifies(old(potties)[id].status, potties[id].status, old(subscribers)) &&
              ChangeEvent(id, old(potties)[id].status, potties[id]).None? ==>
        r == Err(ServerError) && attempts == [] && subscribers == old(subscribers)
      ensures id in old(potties) && ParseOptionalStatus(statusArg).Ok? &&
              Notifies(old(potties)[id].status, potties[id].status, old(subscribers)) &&
              ChangeEvent(id, old(potties)[id].status, potties[id]).Some? ==>
        && r.Ok?
        && OneAttemptEach(attempts, old(subscribers), ChangeEvent(id, old(potties)[id].status, potties[id]).value)
        && subscribers == old(subscribers) - raises
    {
      attempts := [];
      if id !in potties {
        return Err(NotFound), attempts;
      }
      var p := potties[id];
      var oldStatus := p.status;
      var parsed := ParseOptionalStatus(statusArg);
      if parsed.Err? {
        return Err(parsed.error), attempts;
      }
      p := p.(status := parsed.value);
      potties := potties[id := p];
      if Notifies(oldStatus, p.status, subscribers) {
        var delivered;
        delivered, attempts := Dispatch(ChangeEvent(id, oldStatus, p), raises);
        if !delivered {
          return Err(ServerError), attempts;
        }
      }
      r := Ok(Stored(id, p));
    }

    /**
     * POST /subscribers. The `url` argument is required (its absence is BadRequest);
     * any present value is stored, under a fresh key.
     */
    method CreateSubscriber(urlArg: Option<string>) returns (r: Outcome<Stored<Subscriber>>)
      requires Valid()
      modifies this
      ensures Valid()
      ensures potties == old(potties)
      ensures urlArg.None? ==> r == Err(BadRequest) && subscribers == old(subscribers)
      ensures urlArg.Some? ==>
        && r.Ok?
        && r.value.id == NextRowId(old(subscribers))
        && r.value.id !in old(subscribers)
        && r.value.record == Subscriber(urlArg.value)
        && subscribers == old(subscribers)[r.value.id := r.value.record]
        && Find(subscribers, r.value.id) == r
    {
      if urlArg.None? {
        return Err(BadRequest);
      }
      var id := NextRowId(subscribers);
      var s := Subscriber(urlArg.value);
      subscribers := subscribers[id := s];
      r := Ok(Stored(id, s));
    }

    /** DELETE /subscribers/{id}: NotFound for an unknown id, otherwise that entry alone goes. */
    method DeleteSubscriber(id: int) returns (r: Outcome<()>)
      requires Valid()
      modifies this
      ensures Valid()
      ensures potties == old(potties)
      ensures id !in old(subscribers) ==> r == Err(NotFound) && subscribers == old(subscribers)
      ensures id in old(subscribers) ==>
        && r == Ok(())
        && subscribers == old(subscribers) - {id}
        && Find(subscribers, id) == Err(NotFound)
    {
      if id !in subscribers {
        return Err(NotFound);
      }
      subscribers := subscribers - {id};
      r := Ok(());
    }
  }
}
