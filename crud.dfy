/**
 * The generic CRUD service (GenericCrudServiceImpl): each write maps through the
 * mapper, calls the data-access object, and publishes lifecycle events, in a fixed
 * order. The data-access object and the event publisher are modelled as
 * one object, Ports, that records every call it receives in a single trace.
 */
module Crud {
  import opened Domain
  import opened Mappers

  datatype EventKind = Created | Updated | BeforeDeleted | Deleted

  /** A lifecycle event and the DTO it carries (its source is always the publishing service). */
  datatype Event<D> = Event(kind: EventKind, payload: D)

  /** One call the service makes on a collaborator. */
  datatype Call<E, D> =
    | DaoCreate(entity: E)
    | DaoCreateAll(entities: seq<E>)
    | DaoUpdate(id: int, entity: E)
    | DaoUpdateAll(byId: map<Option<int>, E>)
    | DaoDelete(entity: E)
    | Publish(event: Event<D>)

  /** The events a trace delivers, in the order they were published. */
  function Published<E, D>(trace: seq<Call<E, D>>): (events: seq<Event<D>>)
    ensures |events| <= |trace|
  {
    if trace == [] then []
    else
      var last := trace[|trace| - 1];
      Published(trace[..|trace| - 1]) + (if last.Publish? then [last.event] else [])
  }

  /** A call appended to a trace adds its event, if it is a publication, and nothing else. */
  lemma PublishedAppend<E, D>(trace: seq<Call<E, D>>, c: Call<E, D>)
    ensures Published(trace + [c]) == Published(trace) + (if c.Publish? then [c.event] else [])
  {
    assert (trace + [c])[..|trace|] == trace;
  }

  /** One publication per payload, in payload order (a forEach over the result list). */
  function Announce<E, D>(kind: EventKind, payloads: seq<D>): (calls: seq<Call<E, D>>)
    ensures |calls| == |payloads|
    ensures forall i :: 0 <= i < |payloads| ==> calls[i] == Publish(Event(kind, payloads[i]))
  {
    if payloads == [] then []
    else Announce(kind, payloads[..|payloads| - 1]) + [Publish(Event(kind, payloads[|payloads| - 1]))]
  }

  /** The events of one kind carrying the given payloads, in order. */
  function Notices<D>(kind: EventKind, payloads: seq<D>): (events: seq<Event<D>>)
    ensures |events| == |payloads|
    ensures forall i :: 0 <= i < |payloads| ==> events[i] == Event(kind, payloads[i])
  {
    if payloads == [] then []
    else Notices(kind, payloads[..|payloads| - 1]) + [Event(kind, payloads[|payloads| - 1])]
  }

  /** Announcing payloads after a trace delivers exactly one event per payload, in order. */
  lemma {:induction false} PublishedAnnounce<E, D>(trace: seq<Call<E, D>>, kind: EventKind, payloads: seq<D>)
    ensures Published(trace + Announce(kind, payloads)) == Published(trace) + Notices(kind, payloads)
    decreases |payloads|
  {
    if payloads == [] {
      assert trace + Announce(kind, payloads) == trace;
    } else {
      var init, last := payloads[..|payloads| - 1], payloads[|payloads| - 1];
      var before: seq<Call<E, D>> := trace + Announce(kind, init);
      var c: Call<E, D> := Publish(Event(kind, last));
      assert trace + Announce(kind, payloads) == before + [c];
      PublishedAppend(before, c);
      PublishedAnnounce(trace, kind, init);
    }
  }

  /** The row the store keeps after an update: identity and audit fields stay, business fields are replaced. */
  function Refreshed<F>(stored: Entity<F>, changes: Entity<F>): (r: Entity<F>)
    ensures r.fields == changes.fields
    ensures r.(fields := stored.fields) == stored
  {
    stored.(fields := changes.fields)
  }

  /** The entities a bulk create stores: the i-th one under id first + i. */
  function Numbered<F>(first: int, es: seq<Entity<F>>): (r: seq<Entity<F>>)
    ensures |r| == |es|
    ensures forall i :: 0 <= i < |es| ==> r[i] == es[i].(id := Some(first + i))
  {
    seq(|es|, i requires 0 <= i < |es| => es[i].(id := Some(first + i)))
  }

  /** The rows a bulk create adds: the i-th stored entity under id first + i. */
  function Slots<F>(first: int, stored: seq<Entity<F>>): map<int, Entity<F>>
    decreases |stored|
  {
    if stored == [] then map[]
    else Slots(first, stored[..|stored| - 1])[first + |stored| - 1 := stored[|stored| - 1]]
  }

  /** The rows a bulk create adds are exactly the stored entities, the i-th under id first + i. */
  lemma {:induction false} SlotsLookup<F>(first: int, stored: seq<Entity<F>>)
    ensures forall id :: id in Slots(first, stored) <==> first <= id < first + |stored|
    ensures forall id :: id in Slots(first, stored) ==> Slots(first, stored)[id] == stored[id - first]
    decreases |stored|
  {
    if stored != [] {
      var n := |stored| - 1;
      var init := stored[..n];
      SlotsLookup(first, init);
      var before := Slots(first, init);
      assert Slots(first, stored) == before[first + n := stored[n]];
      forall id | id in before ensures before[id] == stored[id - first] {
        assert init[id - first] == stored[id - first];
      }
    }
  }

  /** Adding the rows of a bulk create above every stored id keeps each row under its own id. */
  lemma SlotsStoreOwnIds<F>(rows: map<int, Entity<F>>, first: int, es: seq<Entity<F>>)
    requires forall id :: id in rows ==> id < first && rows[id].id == Some(id)
    ensures var after := rows + Slots(first, Numbered(first, es));
      forall id :: id in after ==> id < first + |es| && after[id].id == Some(id)
  {
    var stored := Numbered(first, es);
    var added := Slots(first, stored);
    var after := rows + added;
    SlotsLookup(first, stored);
    forall id | id in after ensures id < first + |es| && after[id].id == Some(id) {
      if id in added {
        assert after[id] == added[id] == stored[id - first];
      } else {
        assert after[id] == rows[id];
      }
    }
  }

  /** The store after a bulk update: every keyed row refreshed with its entity, the others as they were. */
  function RefreshedRows<F>(rows: map<int, Entity<F>>, byId: map<Option<int>, Entity<F>>): (m: map<int, Entity<F>>)
    ensures m.Keys == rows.Keys
    ensures forall id :: id in rows ==> m[id] == if Some(id) in byId then Refreshed(rows[id], byId[Some(id)]) else rows[id]
  {
    map id | id in rows :: if Some(id) in byId then Refreshed(rows[id], byId[Some(id)]) else rows[id]
  }

  /**
   * The rows stored under the given keys, each exactly once, in an order of the store's
   * choosing (a HashMap's iteration order).
   */
  method ListRows<F>(rows: map<int, Entity<F>>, keys: set<Option<int>>) returns (out: seq<Entity<F>>)
    requires forall k :: k in keys ==> k.Some? && k.value in rows
    requires forall id :: id in rows ==> rows[id].id == Some(id)
    ensures |out| == |keys|
    ensures forall i :: 0 <= i < |out| ==> out[i].id in keys && out[i] == rows[out[i].id.value]
    ensures forall k :: k in keys ==> exists i :: 0 <= i < |out| && out[i].id == k
    ensures forall i, j :: 0 <= i < j < |out| ==> out[i].id != out[j].id
  {
    var pending := keys;
    out := [];
    while pending != {}
      invariant pending <= keys
      invariant |out| + |pending| == |keys|
      invariant Listed(rows, keys - pending, out)
      decreases |pending|
    {
      var k :| k in pending;
      assert forall id :: id in rows ==> rows[id].id == Some(id);
      assert k in keys;
      ListedAppend(rows, keys - pending, out, k);
      assert keys - (pending - {k}) == (keys - pending) + {k};
      out := out + [rows[k.value]];
      pending := pending - {k};
    }
    assert keys - pending == keys;
  }

  /** out lists the stored rows under the keys of done, each exactly once. */
  ghost predicate Listed<F>(rows: map<int, Entity<F>>, done: set<Option<int>>, out: seq<Entity<F>>)
  {
    && (forall i :: 0 <= i < |out| ==>
          out[i].id in done && out[i].id.Some? && out[i].id.value in rows && out[i] == rows[out[i].id.value])
    && (forall k :: k in done ==> exists i :: 0 <= i < |out| && out[i].id == k)
    && (forall i, j :: 0 <= i < j < |out| ==> out[i].id != out[j].id)
  }

  /** Listing one more stored row, under a key not yet listed, keeps the listing exact. */
  lemma ListedAppend<F>(rows: map<int, Entity<F>>, done: set<Option<int>>, out: seq<Entity<F>>, k: Option<int>)
    requires Listed(rows, done, out)
    requires k !in done && k.Some? && k.value in rows && rows[k.value].id == k
    ensures Listed(rows, done + {k}, out + [rows[k.value]])
  {
    var row := rows[k.value];
    AppendCovers(out, row, done);
    var next := out + [row];
    forall i, j | 0 <= i < j < |next| ensures next[i].id != next[j].id {
      if j == |out| {
        assert next[i] == out[i];
      }
    }
  }

  /** Appending an entity keeps every id already carried, and carries its own. */
  lemma AppendCovers<F>(es: seq<Entity<F>>, e: Entity<F>, ids: set<Option<int>>)
    requires forall k :: k in ids ==> exists i :: 0 <= i < |es| && es[i].id == k
    ensures forall k :: k in ids + {e.id} ==> exists i :: 0 <= i < |es + [e]| && (es + [e])[i].id == k
  {
    forall k | k in ids + {e.id} ensures exists i :: 0 <= i < |es + [e]| && (es + [e])[i].id == k {
      if k == e.id {
        assert (es + [e])[|es|].id == k;
      } else {
        var i :| 0 <= i < |es| && es[i].id == k;
        assert (es + [e])[i] == es[i];
      }
    }
  }

  /** Every entity of a list carries a different id (null counting as one id). */
  predicate DistinctIds<F>(es: seq<Entity<F>>)
  {
    forall i, j :: 0 <= i < j < |es| ==> es[i].id != es[j].id
  }

  /** The ids the entities carry. */
  function Ids<F>(es: seq<Entity<F>>): set<Option<int>>
  {
    set i | 0 <= i < |es| :: es[i].id
  }

  /** A position in the list where the given id occurs. */
  ghost function IndexOfId<F>(es: seq<Entity<F>>, k: Option<int>): (j: nat)
    requires k in Ids(es)
    ensures j < |es| && es[j].id == k
  {
    var j :| 0 <= j < |es| && es[j].id == k; j
  }

  /**
   * Collectors.toMap(Entity::getId, identity()) without a merge function: the entities
   * keyed by id, or nothing when two of them share an id (the collector throws).
   */
  function KeyById<F>(es: seq<Entity<F>>): (r: Option<map<Option<int>, Entity<F>>>)
    ensures r.Some? <==> DistinctIds(es)
    ensures r.Some? ==> r.value.Keys == Ids(es) && |r.value| == |es|
    ensures r.Some? ==> forall i :: 0 <= i < |es| ==> r.value[es[i].id] == es[i]
  {
    if es == [] then Some(map[])
    else
      var init, last := es[..|es| - 1], es[|es| - 1];
      var keyed := KeyById(init);
      if keyed.None? then
        RepeatBeforeLast(es);
        None
      else if last.id in keyed.value then
        RepeatOfLast(es, keyed.value);
        None
      else
        FreshLastDistinct(es, init, keyed.value);
        FreshLastLookup(es, init, keyed.value);
        IdsOfSnoc(es);
        Some(keyed.value[last.id := last])
  }

  /** A repeated id among all but the last entity is a repeated id of the whole list. */
  lemma RepeatBeforeLast<F>(es: seq<Entity<F>>)
    requires |es| > 0 && !DistinctIds(es[..|es| - 1])
    ensures !DistinctIds(es)
  {
    var init := es[..|es| - 1];
    var i, j :| 0 <= i < j < |init| && init[i].id == init[j].id;
    assert es[i].id == es[j].id;
  }

  /** The last entity repeats an id already keyed. */
  lemma RepeatOfLast<F>(es: seq<Entity<F>>, m: map<Option<int>, Entity<F>>)
    requires |es| > 0 && m.Keys == Ids(es[..|es| - 1]) && es[|es| - 1].id in m
    ensures !DistinctIds(es)
  {
    var init := es[..|es| - 1];
    assert es[|es| - 1].id in Ids(init);
    var j :| 0 <= j < |init| && init[j].id == es[|es| - 1].id;
    assert es[j].id == es[|es| - 1].id;
  }

  /** The ids of a list are those of all but its last entity, plus the last one's. */
  lemma IdsOfSnoc<F>(es: seq<Entity<F>>)
    requires |es| > 0
    ensures Ids(es) == Ids(es[..|es| - 1]) + {es[|es| - 1].id}
  {
    var init, last := es[..|es| - 1], es[|es| - 1];
    forall k | k in Ids(es) ensures k in Ids(init) + {last.id} {
      var i :| 0 <= i < |es| && es[i].id == k;
      if i < |init| { assert init[i].id in Ids(init); }
    }
    forall k | k in Ids(init) ensures k in Ids(es) {
      var i :| 0 <= i < |init| && init[i].id == k;
      assert es[i].id in Ids(es);
    }
    assert es[|es| - 1].id in Ids(es);
  }

  /** The last entity brings an id not yet keyed: the whole list has distinct ids. */
  lemma FreshLastDistinct<F>(es: seq<Entity<F>>, init: seq<Entity<F>>, m: map<Option<int>, Entity<F>>)
    requires |es| > 0 && init == es[..|es| - 1]
    requires DistinctIds(init) && m.Keys == Ids(init)
    requires es[|es| - 1].id !in m
    ensures DistinctIds(es)
  {
    var n := |es| - 1;
    forall i | 0 <= i < n ensures es[i].id != es[n].id {
      assert init[i] == es[i];
      assert init[i].id in Ids(init);
    }
    forall i, j | 0 <= i < j < |es| ensures es[i].id != es[j].id {
      if j < n { assert init[i].id != init[j].id; }
    }
  }

  /** The last entity brings an id not yet keyed: keying it too finds every entity under its own id. */
  lemma FreshLastLookup<F>(es: seq<Entity<F>>, init: seq<Entity<F>>, m: map<Option<int>, Entity<F>>)
    requires |es| > 0 && init == es[..|es| - 1]
    requires m.Keys == Ids(init)
    requires forall i :: 0 <= i < |init| ==> m[init[i].id] == init[i]
    requires es[|es| - 1].id !in m
    ensures var m' := m[es[|es| - 1].id := es[|es| - 1]];
      forall i :: 0 <= i < |es| ==> m'[es[i].id] == es[i]
  {
    var n := |es| - 1;
    forall i | 0 <= i < n ensures es[i].id != es[n].id && m[es[i].id] == es[i] {
      assert init[i] == es[i];
      assert init[i].id in Ids(init);
    }
  }

  /** The results list every keyed row of the store exactly once, each under its key. */
  ghost predicate KeyedRows<F>(byId: map<Option<int>, Entity<F>>, rows: map<int, Entity<F>>, results: seq<Entity<F>>)
  {
    && |results| == |byId|
    && (forall i :: 0 <= i < |results| ==>
          results[i].id in byId && results[i].id.Some? && results[i].id.value in rows
          && results[i] == rows[results[i].id.value])
    && (forall k :: k in byId ==> exists i :: 0 <= i < |results| && results[i].id == k)
    && (forall i, j :: 0 <= i < j < |results| ==> results[i].id != results[j].id)
  }

  /**
   * dtos lists, in the given order of input positions, each input's stored row refreshed
   * with it and mapped: order is a permutation of the positions of es, so every input's
   * refreshed row appears exactly once.
   */
  ghost predicate RefreshedInSomeOrder<F, G>(m: Mapper<Entity<F>, Dto<G>>, es: seq<Entity<F>>, before: map<int, Entity<F>>,
                                             order: seq<nat>, dtos: seq<Dto<G>>)
  {
    && |order| == |dtos| == |es|
    && (forall i :: 0 <= i < |dtos| ==>
          && order[i] < |es| && es[order[i]].id.Some? && es[order[i]].id.value in before
          && dtos[i] == m.mapEntity(Refreshed(before[es[order[i]].id.value], es[order[i]])))
    && (forall i, j :: 0 <= i < j < |order| ==> order[i] != order[j])
    && (forall j :: 0 <= j < |es| ==> j in order)
  }

  /** For each entity of a result list, the position in es of the entity carrying its id. */
  ghost function Positions<F>(es: seq<Entity<F>>, results: seq<Entity<F>>): (order: seq<nat>)
    requires forall i :: 0 <= i < |results| ==> results[i].id in Ids(es)
    ensures |order| == |results|
    ensures forall i :: 0 <= i < |results| ==> order[i] < |es| && es[order[i]].id == results[i].id
  {
    seq(|results|, i requires 0 <= i < |results| => IndexOfId(es, results[i].id))
  }

  /**
   * When a bulk update returns the rows of the keyed entities, each result is the stored
   * row refreshed with the entity at its position.
   */
  lemma RefreshedInOrder<F>(es: seq<Entity<F>>, before: map<int, Entity<F>>, results: seq<Entity<F>>)
    requires DistinctIds(es)
    requires forall k :: k in KeyById(es).value ==> k.Some? && k.value in before
    requires KeyedRows(KeyById(es).value, RefreshedRows(before, KeyById(es).value), results)
    ensures forall i :: 0 <= i < |results| ==> results[i].id in Ids(es)
    ensures forall i :: 0 <= i < |results| ==>
      var e := es[Positions(es, results)[i]];
      e.id.Some? && e.id.value in before && results[i] == Refreshed(before[e.id.value], e)
  {
    var byId := KeyById(es).value;
    forall i | 0 <= i < |results| ensures results[i].id in Ids(es) {
      assert results[i].id in byId;
    }
    var order := Positions(es, results);
    forall i | 0 <= i < |results|
      ensures var e := es[order[i]]; e.id.Some? && e.id.value in before && results[i] == Refreshed(before[e.id.value], e)
    {
      var e := es[order[i]];
      assert byId[e.id] == e;
      assert e.id in byId;
    }
  }

  /**
   * A bulk update of distinct-id entities: the mapped results, read through their positions,
   * are the stored rows refreshed with the inputs, and the positions are a permutation.
   */
  lemma BulkUpdateInOrder<F, G>(m: Mapper<Entity<F>, Dto<G>>, es: seq<Entity<F>>, before: map<int, Entity<F>>,
                                results: seq<Entity<F>>)
    requires DistinctIds(es)
    requires forall k :: k in KeyById(es).value ==> k.Some? && k.value in before
    requires KeyedRows(KeyById(es).value, RefreshedRows(before, KeyById(es).value), results)
    ensures forall i :: 0 <= i < |results| ==> results[i].id in Ids(es)
    ensures RefreshedInSomeOrder(m, es, before, Positions(es, results), m.MapEntities(Some(results)).value)
  {
    RefreshedInOrder(es, before, results);
    KeyedResultsCover(es, RefreshedRows(before, KeyById(es).value), results);
    RefreshedPermutation(m, es, before, results);
  }

  /** Results that carry each input's id once, each its refreshed row, map to a permutation. */
  lemma RefreshedPermutation<F, G>(m: Mapper<Entity<F>, Dto<G>>, es: seq<Entity<F>>, before: map<int, Entity<F>>,
                                   results: seq<Entity<F>>)
    requires DistinctIds(es)
    requires |results| == |es|
    requires forall i :: 0 <= i < |results| ==> results[i].id in Ids(es)
    requires CarriesEveryId(es, results)
    requires forall i, j :: 0 <= i < j < |results| ==> results[i].id != results[j].id
    requires forall i :: 0 <= i < |results| ==>
      var e := es[Positions(es, results)[i]];
      e.id.Some? && e.id.value in before && results[i] == Refreshed(before[e.id.value], e)
    ensures RefreshedInSomeOrder(m, es, before, Positions(es, results), m.MapEntities(Some(results)).value)
  {
    PositionsDistinct(es, results);
    PositionsCover(es, results);
    MappedInOrder(m, es, before, Positions(es, results), results);
  }

  /** Mapping results that follow a permutation of the inputs keeps them in that order. */
  lemma MappedInOrder<F, G>(m: Mapper<Entity<F>, Dto<G>>, es: seq<Entity<F>>, before: map<int, Entity<F>>,
                            order: seq<nat>, results: seq<Entity<F>>)
    requires |order| == |results| == |es|
    requires forall i :: 0 <= i < |results| ==> order[i] < |es|
    requires forall i :: 0 <= i < |results| ==>
      var e := es[order[i]]; e.id.Some? && e.id.value in before && results[i] == Refreshed(before[e.id.value], e)
    requires forall i, j :: 0 <= i < j < |order| ==> order[i] != order[j]
    requires forall j :: 0 <= j < |es| ==> j in order
    ensures RefreshedInSomeOrder(m, es, before, order, m.MapEntities(Some(results)).value)
  {
    var dtos := m.MapEntities(Some(results)).value;
    forall i | 0 <= i < |dtos|
      ensures && order[i] < |es| && es[order[i]].id.Some? && es[order[i]].id.value in before
              && dtos[i] == m.mapEntity(Refreshed(before[es[order[i]].id.value], es[order[i]]))
    {
      assert dtos[i] == m.mapEntity(results[i]);
    }
  }

  /** Every entity of es has its id carried by some result. */
  ghost predicate CarriesEveryId<F>(es: seq<Entity<F>>, results: seq<Entity<F>>)
  {
    forall j :: 0 <= j < |es| ==> exists i :: 0 <= i < |results| && results[i].id == es[j].id
  }

  /** Keyed results as many as the distinct-id inputs carry every input's id, once each. */
  lemma KeyedResultsCover<F>(es: seq<Entity<F>>, rows: map<int, Entity<F>>, results: seq<Entity<F>>)
    requires DistinctIds(es)
    requires KeyedRows(KeyById(es).value, rows, results)
    ensures |results| == |es|
    ensures CarriesEveryId(es, results)
    ensures forall i, j :: 0 <= i < j < |results| ==> results[i].id != results[j].id
  {
    var byId := KeyById(es).value;
    forall j | 0 <= j < |es| ensures exists i :: 0 <= i < |results| && results[i].id == es[j].id {
      assert es[j].id in byId;
    }
  }

  /** Results with pairwise distinct ids sit at pairwise distinct positions. */
  lemma PositionsDistinct<F>(es: seq<Entity<F>>, results: seq<Entity<F>>)
    requires forall i :: 0 <= i < |results| ==> results[i].id in Ids(es)
    requires forall i, j :: 0 <= i < j < |results| ==> results[i].id != results[j].id
    ensures var order := Positions(es, results);
      forall i, j :: 0 <= i < j < |order| ==> order[i] != order[j]
  {
    var order := Positions(es, results);
    forall i, j | 0 <= i < j < |order| ensures order[i] != order[j] {
      assert es[order[i]].id == results[i].id != results[j].id == es[order[j]].id;
    }
  }

  /** When results carry every id of distinct-id entities, every position of es occurs. */
  lemma PositionsCover<F>(es: seq<Entity<F>>, results: seq<Entity<F>>)
    requires DistinctIds(es)
    requires forall i :: 0 <= i < |results| ==> results[i].id in Ids(es)
    requires CarriesEveryId(es, results)
    ensures var order := Positions(es, results);
      forall j :: 0 <= j < |es| ==> j in order
  {
    var order := Positions(es, results);
    forall j | 0 <= j < |es| ensures j in order {
      var i :| 0 <= i < |results| && results[i].id == es[j].id;
      assert es[order[i]].id == es[j].id;
      assert order[i] == j;
    }
  }

  /** The DTOs a bulk create returns: input i, mapped, stored under id first + i, and mapped back. */
  function CreatedDtos<F, G>(m: Mapper<Entity<F>, Dto<G>>, toCreates: seq<Dto<G>>, first: int): (dtos: seq<Dto<G>>)
    ensures |dtos| == |toCreates|
    ensures forall i :: 0 <= i < |toCreates| ==> dtos[i] == m.mapEntity(m.mapDto(toCreates[i]).(id := Some(first + i)))
  {
    var entities := m.MapDtos(Some(toCreates)).value;
    var stored := Numbered(first, entities);
    var dtos := m.MapEntities(Some(stored)).value;
    assert forall i :: 0 <= i < |toCreates| ==> dtos[i] == m.mapEntity(stored[i]) && stored[i] == entities[i].(id := Some(first + i));
    dtos
  }

  /**
   * The two collaborators of the service: the data-access object (a store of rows
   * keyed by id, with an id counter and a reachability flag) and the event publisher
   * (the events delivered so far). The trace records every call made on either.
   */
  class Ports<F(==), D(==)> {
    var rows: map<int, Entity<F>>
    var nextId: int
    var online: bool
    var events: seq<Event<D>>
    var trace: seq<Call<Entity<F>, D>>

    /** Each row is stored under its own id, ids are never reused, and the publisher delivered what the trace says. */
    ghost predicate Valid()
      reads this
    {
      && (forall id :: id in rows ==> id < nextId && rows[id].id == Some(id))
      && events == Published(trace)
    }

    constructor (online: bool)
      ensures Valid()
      ensures rows == map[] && nextId == 1 && this.online == online
      ensures events == [] && trace == []
    {
      rows, nextId, this.online := map[], 1, online;
      events, trace := [], [];
    }

    /** ApplicationEventPublisher.publishEvent: delivers the event; the store is untouched. */
    method Publish(event: Event<D>)
      requires Valid()
      modifies this
      ensures Valid()
      ensures trace == old(trace) + [Call.Publish(event)]
      ensures events == old(events) + [event]
      ensures rows == old(rows) && nextId == old(nextId) && online == old(online)
    {
      PublishedAppend(trace, Call.Publish(event));
      trace := trace + [Call.Publish(event)];
      events := events + [event];
    }

    /** CrudDao.create(entity): stores the entity under the next unused id. */
    method Create(e: Entity<F>) returns (r: Result<Entity<F>>)
      requires Valid()
      modifies this
      ensures Valid()
      ensures trace == old(trace) + [DaoCreate(e)]
      ensures events == old(events) && online == old(online)
      ensures old(online) ==> && r == Ok(e.(id := Some(old(nextId))))
                              && old(nextId) !in old(rows)
                              && rows == old(rows)[old(nextId) := r.value]
                              && nextId == old(nextId) + 1
      ensures !old(online) ==> r == Err(Unavailable) && rows == old(rows) && nextId == old(nextId)
    {
      PublishedAppend(trace, DaoCreate(e));
      trace := trace + [DaoCreate(e)];
      if !online {
        return Err(Unavailable);
      }
      var stored := e.(id := Some(nextId));
      rows := rows[nextId := stored];
      nextId := nextId + 1;
      r := Ok(stored);
    }

    /** CrudDao.create(collection): stores the entities, all or none, under consecutive fresh ids. */
    method CreateAll(es: seq<Entity<F>>) returns (r: Result<seq<Entity<F>>>)
      requires Valid()
      modifies this
      ensures Valid()
      ensures trace == old(trace) + [DaoCreateAll(es)]
      ensures events == old(events) && online == old(online)
      ensures r.Ok? <==> old(online)
      ensures r.Ok? ==> && r.value == Numbered(old(nextId), es)
                        && rows == old(rows) + Slots(old(nextId), r.value)
                        && nextId == old(nextId) + |es|
      ensures r.Err? ==> r.error == Unavailable && rows == old(rows) && nextId == old(nextId)
    {
      PublishedAppend(trace, DaoCreateAll(es));
      trace := trace + [DaoCreateAll(es)];
      if !online {
        return Err(Unavailable);
      }
      var first := nextId;
      var stored := Numbered(first, es);
      SlotsStoreOwnIds(rows, first, es);
      rows := rows + Slots(first, stored);
      nextId := first + |es|;
      r := Ok(stored);
    }

    /** CrudDao.update(id, entity): replaces the business fields of the row stored under id. */
    method Update(id: int, e: Entity<F>) returns (r: Result<Entity<F>>)
      requires Valid()
      modifies this
      ensures Valid()
      ensures trace == old(trace) + [DaoUpdate(id, e)]
      ensures events == old(events) && online == old(online) && nextId == old(nextId)
      ensures r.Ok? <==> old(online) && id in old(rows)
      ensures !old(online) ==> r == Err(Unavailable)
      ensures old(online) && id !in old(rows) ==> r == Err(NotFound)
      ensures r.Ok? ==> r.value == Refreshed(old(rows)[id], e) && rows == old(rows)[id := r.value]
      ensures r.Err? ==> rows == old(rows)
    {
      PublishedAppend(trace, DaoUpdate(id, e));
      trace := trace + [DaoUpdate(id, e)];
      if !online {
        return Err(Unavailable);
      }
      if id !in rows {
        return Err(NotFound);
      }
      var stored := Refreshed(rows[id], e);
      rows := rows[id := stored];
      r := Ok(stored);
    }

    /**
     * CrudDao.update(map id -> entity): refreshes every keyed row, all or none. The rows
     * come back in an order of the store's choosing (a HashMap's iteration order).
     */
    method UpdateAll(byId: map<Option<int>, Entity<F>>) returns (r: Result<seq<Entity<F>>>)
      requires Valid()
      modifies this
      ensures Valid()
      ensures trace == old(trace) + [DaoUpdateAll(byId)]
      ensures events == old(events) && online == old(online) && nextId == old(nextId)
      ensures r.Ok? <==> old(online) && forall k :: k in byId ==> k.Some? && k.value in old(rows)
      ensures !old(online) ==> r == Err(Unavailable)
      ensures old(online) && !(forall k :: k in byId ==> k.Some? && k.value in old(rows)) ==> r == Err(NotFound)
      ensures r.Err? ==> rows == old(rows)
      ensures r.Ok? ==> rows == RefreshedRows(old(rows), byId) && KeyedRows(byId, rows, r.value)
    {
      PublishedAppend(trace, DaoUpdateAll(byId));
      trace := trace + [DaoUpdateAll(byId)];
      if !online {
        return Err(Unavailable);
      }
      if !(forall k | k in byId :: k.Some? && k.value in rows) {
        return Err(NotFound);
      }
      rows := RefreshedRows(rows, byId);
      assert Valid();
      var out := ListRows(rows, byId.Keys);
      r := Ok(out);
    }

    /** CrudDao.delete(entity): removes the row stored under the entity's id. */
    method Delete(e: Entity<F>) returns (r: Outcome)
      requires Valid()
      modifies this
      ensures Valid()
      ensures trace == old(trace) + [DaoDelete(e)]
      ensures events == old(events) && online == old(online) && nextId == old(nextId)
      ensures r.Pass? <==> old(online) && e.id.Some? && e.id.value in old(rows)
      ensures !old(online) ==> r == Fail(Unavailable)
      ensures old(online) && !(e.id.Some? && e.id.value in old(rows)) ==> r == Fail(NotFound)
      ensures r.Pass? ==> rows == old(rows) - {e.id.value}
      ensures r.Fail? ==> rows == old(rows)
    {
      PublishedAppend(trace, DaoDelete(e));
      trace := trace + [DaoDelete(e)];
      if !online {
        return Fail(Unavailable);
      }
      if e.id.None? || e.id.value !in rows {
        return Fail(NotFound);
      }
      rows := rows - {e.id.value};
      r := Pass;
    }
  }

  /** GenericCrudServiceImpl: the mapper, then the data-access object, then the publisher. */
  class CrudService<F(==,!new), G(==,!new)> {
    const ports: Ports<F, Dto<G>>
    const mapper: Mapper<Entity<F>, Dto<G>>

    constructor (ports: Ports<F, Dto<G>>, mapper: Mapper<Entity<F>, Dto<G>>)
      ensures this.ports == ports && this.mapper == mapper
    {
      this.ports, this.mapper := ports, mapper;
    }

    /** create(dto): one store call with the mapped entity, then one Created event with the mapped result. */
    method Create(toCreate: Dto<G>) returns (r: Result<Dto<G>>)
      requires ports.Valid()
      modifies ports
      ensures ports.Valid() && ports.online == old(ports.online)
      ensures r.Ok? <==> old(ports.online)
      ensures !old(ports.online) ==> r == Err(Unavailable)
      ensures ports.trace == old(ports.trace) + [DaoCreate(mapper.mapDto(toCreate))]
                             + (if r.Ok? then [Call.Publish(Event(Created, r.value))] else [])
      ensures ports.events == old(ports.events) + (if r.Ok? then [Event(Created, r.value)] else [])
      ensures r.Ok? ==> r.value == mapper.mapEntity(mapper.mapDto(toCreate).(id := Some(old(ports.nextId))))
      ensures r.Ok? ==> && ports.rows == old(ports.rows)[old(ports.nextId) := mapper.mapDto(toCreate).(id := Some(old(ports.nextId)))]
                        && ports.nextId == old(ports.nextId) + 1
      ensures r.Err? ==> ports.rows == old(ports.rows) && ports.nextId == old(ports.nextId)
      ensures r.Ok? && KeepsCommonFields(mapper) ==> r.value.id == Some(old(ports.nextId)) && old(ports.nextId) !in old(ports.rows)
    {
      var entity := mapper.mapDto(toCreate);
      var saved := ports.Create(entity);
      if saved.Err? {
        return Err(saved.error);
      }
      var dto := mapper.mapEntity(saved.value);
      ports.Publish(Event(Created, dto));
      r := Ok(dto);
    }

    /** delete(dto): BeforeDeleted, then the store call, then Deleted; both events carry the caller's DTO. */
    method Delete(toDelete: Dto<G>) returns (r: Outcome)
      requires ports.Valid()
      modifies ports
      ensures ports.Valid() && ports.online == old(ports.online)
      ensures ports.trace == old(ports.trace)
                             + [Call.Publish(Event(BeforeDeleted, toDelete)), DaoDelete(mapper.mapDto(toDelete))]
                             + (if r.Pass? then [Call.Publish(Event(Deleted, toDelete))] else [])
      ensures ports.events == old(ports.events) + [Event(BeforeDeleted, toDelete)]
                              + (if r.Pass? then [Event(Deleted, toDelete)] else [])
      ensures var id := mapper.mapDto(toDelete).id;
        r.Pass? <==> old(ports.online) && id.Some? && id.value in old(ports.rows)
      ensures !old(ports.online) ==> r == Fail(Unavailable)
      ensures var id := mapper.mapDto(toDelete).id;
        old(ports.online) && !(id.Some? && id.value in old(ports.rows)) ==> r == Fail(NotFound)
      ensures r.Pass? ==> ports.rows == old(ports.rows) - {mapper.mapDto(toDelete).id.value}
      ensures r.Fail? ==> ports.rows == old(ports.rows)
      ensures ports.nextId == old(ports.nextId)
    {
      ports.Publish(Event(BeforeDeleted, toDelete));
      r := ports.Delete(mapper.mapDto(toDelete));
      if r.Pass? {
        ports.Publish(Event(Deleted, toDelete));
      }
    }

    /** update(id, dto): one store call with the id as given, then one Updated event with the mapped result. */
    method Update(id: int, toUpdate: Dto<G>) returns (r: Result<Dto<G>>)
      requires ports.Valid()
      modifies ports
      ensures ports.Valid() && ports.online == old(ports.online)
      ensures ports.trace == old(ports.trace) + [DaoUpdate(id, mapper.mapDto(toUpdate))]
                             + (if r.Ok? then [Call.Publish(Event(Updated, r.value))] else [])
      ensures ports.events == old(ports.events) + (if r.Ok? then [Event(Updated, r.value)] else [])
      ensures r.Ok? <==> old(ports.online) && id in old(ports.rows)
      ensures !old(ports.online) ==> r == Err(Unavailable)
      ensures old(ports.online) && id !in old(ports.rows) ==> r == Err(NotFound)
      ensures r.Ok? ==> r.value == mapper.mapEntity(Refreshed(old(ports.rows)[id], mapper.mapDto(toUpdate)))
      ensures r.Ok? ==> ports.rows == old(ports.rows)[id := Refreshed(old(ports.rows)[id], mapper.mapDto(toUpdate))]
      ensures r.Err? ==> ports.rows == old(ports.rows)
      ensures ports.nextId == old(ports.nextId)
    {
      var modified := mapper.mapDto(toUpdate);
      var saved := ports.Update(id, modified);
      if saved.Err? {
        return Err(saved.error);
      }
      var dto := mapper.mapEntity(saved.value);
      ports.Publish(Event(Updated, dto));
      r := Ok(dto);
    }

    /** Publishes one event of the given kind per DTO, in list order (dtos.forEach). */
    method PublishEach(kind: EventKind, dtos: seq<Dto<G>>)
      requires ports.Valid()
      modifies ports
      ensures ports.Valid()
      ensures ports.trace == old(ports.trace) + Announce(kind, dtos)
      ensures ports.events == old(ports.events) + Notices(kind, dtos)
      ensures ports.rows == old(ports.rows) && ports.nextId == old(ports.nextId) && ports.online == old(ports.online)
    {
      var i := 0;
      while i < |dtos|
        invariant 0 <= i <= |dtos|
        invariant ports.Valid()
        invariant ports.trace == old(ports.trace) + Announce(kind, dtos[..i])
        invariant ports.rows == old(ports.rows) && ports.nextId == old(ports.nextId) && ports.online == old(ports.online)
      {
        ports.Publish(Event(kind, dtos[i]));
        assert dtos[..i + 1][..i] == dtos[..i];
        i := i + 1;
      }
      assert dtos[..i] == dtos;
      PublishedAnnounce(old(ports.trace), kind, dtos);
    }

    /** create(collection): one bulk store call, then one Created event per result, in result order. */
    method CreateAll(toCreates: seq<Dto<G>>) returns (r: Result<seq<Dto<G>>>)
      requires ports.Valid()
      modifies ports
      ensures ports.Valid() && ports.online == old(ports.online)
      ensures r.Ok? <==> old(ports.online)
      ensures !old(ports.online) ==> r == Err(Unavailable)
      ensures ports.trace == old(ports.trace) + [DaoCreateAll(mapper.MapDtos(Some(toCreates)).value)]
                             + (if r.Ok? then Announce(Created, r.value) else [])
      ensures ports.events == old(ports.events) + (if r.Ok? then Notices(Created, r.value) else [])
      ensures r.Ok? ==> r.value == CreatedDtos(mapper, toCreates, old(ports.nextId))
      ensures r.Ok? ==> var stored := Numbered(old(ports.nextId), mapper.MapDtos(Some(toCreates)).value);
                        && ports.rows == old(ports.rows) + Slots(old(ports.nextId), stored)
                        && ports.nextId == old(ports.nextId) + |toCreates|
      ensures r.Err? ==> ports.rows == old(ports.rows) && ports.nextId == old(ports.nextId)
    {
      var entities := mapper.MapDtos(Some(toCreates)).value;
      ghost var first := ports.nextId;
      var saved := ports.CreateAll(entities);
      if saved.Err? {
        return Err(saved.error);
      }
      var dtos := mapper.MapEntities(Some(saved.value)).value;
      PublishEach(Created, dtos);
      r := Ok(dtos);
    }

    /**
     * update(collection): the mapped entities keyed by id; a repeated id aborts before
     * any store call. Otherwise one bulk store call, then one Updated event per result.
     */
    method UpdateAll(toUpdates: seq<Dto<G>>) returns (r: Result<seq<Dto<G>>>, ghost order: seq<nat>)
      requires ports.Valid()
      modifies ports
      ensures ports.Valid() && ports.online == old(ports.online)
      ensures var es := mapper.MapDtos(Some(toUpdates)).value;
        !DistinctIds(es) ==> r == Err(DuplicateKey) && ports.trace == old(ports.trace) && ports.rows == old(ports.rows)
      ensures var es := mapper.MapDtos(Some(toUpdates)).value;
        DistinctIds(es) ==>
          && ports.trace == old(ports.trace) + [DaoUpdateAll(KeyById(es).value)]
                            + (if r.Ok? then Announce(Updated, r.value) else [])
          && (r.Ok? <==> old(ports.online) && forall k :: k in Ids(es) ==> k.Some? && k.value in old(ports.rows))
          && (!old(ports.online) ==> r == Err(Unavailable))
          && (old(ports.online) && !(forall k :: k in Ids(es) ==> k.Some? && k.value in old(ports.rows)) ==>
                r == Err(NotFound))
      ensures ports.events == old(ports.events) + (if r.Ok? then Notices(Updated, r.value) else [])
      ensures r.Ok? ==> |r.value| == |toUpdates|
      ensures var es := mapper.MapDtos(Some(toUpdates)).value;
        r.Ok? ==> ports.rows == RefreshedRows(old(ports.rows), KeyById(es).value)
      ensures r.Ok? ==> RefreshedInSomeOrder(mapper, mapper.MapDtos(Some(toUpdates)).value, old(ports.rows), order, r.value)
      ensures r.Err? ==> ports.rows == old(ports.rows)
      ensures ports.nextId == old(ports.nextId)
    {
      var entities := mapper.MapDtos(Some(toUpdates)).value;
      ghost var before := ports.rows;
      order := [];
      var keyed := KeyById(entities);
      if keyed.None? {
        return Err(DuplicateKey), order;
      }
      var saved := ports.UpdateAll(keyed.value);
      if saved.Err? {
        return Err(saved.error), order;
      }
      ghost var results := saved.value;
      BulkUpdateInOrder(mapper, entities, before, results);
      order := Positions(entities, results);
      var dtos := mapper.MapEntities(Some(saved.value)).value;
      PublishEach(Updated, dtos);
      r := Ok(dtos);
    }
  }
}
