/**
 * The entity/DTO mapper base (AbstractDTOMapper): null-propagating list and page
 * maps built on a subclass's single-object conversions, and the helpers that copy
 * the five identity and audit fields in each direction.
 */
module Mappers {
  import opened Domain

  /** Applies f to every element in order, keeping the length (Stream.map, then Collectors.toList). */
  function MapAll<X, Y>(f: X -> Y, xs: seq<X>): (ys: seq<Y>)
    ensures |ys| == |xs|
    ensures forall i :: 0 <= i < |xs| ==> ys[i] == f(xs[i])
  {
    if xs == [] then [] else [f(xs[0])] + MapAll(f, xs[1..])
  }

  /**
   * A mapper for one entity/DTO pair: the subclass's two single-object conversions
   * and the entity class its type token resolves to.
   */
  datatype Mapper<!E, !D> = Mapper(mapEntity: E -> D, mapDto: D -> E, entityClass: ClassName)
  {
    /** mapEntities: null stays null; otherwise one DTO per entity, in order. */
    function MapEntities(entities: Option<seq<E>>): (r: Option<seq<D>>)
      ensures r.None? <==> entities.None?
      ensures entities.Some? ==>
        |r.value| == |entities.value| &&
        forall i :: 0 <= i < |entities.value| ==> r.value[i] == mapEntity(entities.value[i])
    {
      match entities
      case None => None
      case Some(es) => Some(MapAll(mapEntity, es))
    }

    /** mapDtos: null stays null; otherwise one entity per DTO, in order. */
    function MapDtos(dtos: Option<seq<D>>): (r: Option<seq<E>>)
      ensures r.None? <==> dtos.None?
      ensures dtos.Some? ==>
        |r.value| == |dtos.value| &&
        forall i :: 0 <= i < |dtos.value| ==> r.value[i] == mapDto(dtos.value[i])
    {
      match dtos
      case None => None
      case Some(ds) => Some(MapAll(mapDto, ds))
    }

    /** mapEntitiesPage: null stays null; otherwise the content is mapped and the paging data kept. */
    function MapEntitiesPage(entities: Option<Page<E>>): (r: Option<Page<D>>)
      ensures r.None? <==> entities.None?
      ensures entities.Some? ==>
        && r.value.number == entities.value.number
        && r.value.size == entities.value.size
        && r.value.total == entities.value.total
        && Some(r.value.content) == MapEntities(Some(entities.value.content))
    {
      match entities
      case None => None
      case Some(p) => Some(Page(MapAll(mapEntity, p.content), p.number, p.size, p.total))
    }

    /** mapDtosPage: null stays null; otherwise the content is mapped and the paging data kept. */
    function MapDtosPage(dtos: Option<Page<D>>): (r: Option<Page<E>>)
      ensures r.None? <==> dtos.None?
      ensures dtos.Some? ==>
        && r.value.number == dtos.value.number
        && r.value.size == dtos.value.size
        && r.value.total == dtos.value.total
        && Some(r.value.content) == MapDtos(Some(dtos.value.content))
    {
      match dtos
      case None => None
      case Some(p) => Some(Page(MapAll(mapDto, p.content), p.number, p.size, p.total))
    }

    /** supports(delimiter): the delimiter is the mapped entity class or one of its superclasses. */
    function Supports(parents: Hierarchy, delimiter: ClassName): (r: bool)
      ensures r <==> delimiter in Superclasses(parents, entityClass)
    {
      AssignableIffSuperclass(parents, delimiter, entityClass);
      IsAssignableFrom(parents, delimiter, entityClass)
    }
  }

  /** When mapDto undoes mapEntity, mapDtos undoes mapEntities, null included. */
  lemma ListRoundTrip<E, D>(m: Mapper<E, D>, entities: Option<seq<E>>)
    requires forall e :: m.mapDto(m.mapEntity(e)) == e
    ensures m.MapDtos(m.MapEntities(entities)) == entities
  {
    if entities.Some? {
      var es := entities.value;
      var back := m.MapDtos(m.MapEntities(entities)).value;
      assert |back| == |es|;
      forall i | 0 <= i < |es| ensures back[i] == es[i] {
        assert m.MapEntities(entities).value[i] == m.mapEntity(es[i]);
      }
      assert back == es;
    }
  }

  /** The DTO after mapEntityCommonFields(dto, entity): the entity's five common fields, its own business fields. */
  function WithEntityCommonFields<F, G>(dto: Dto<G>, entity: Entity<F>): (r: Dto<G>)
    ensures SameCommonFields(r, entity)
    ensures r.fields == dto.fields
  {
    dto.(id := entity.id, creationDate := entity.creationDate, modificationDate := entity.modificationDate,
         creationUser := entity.creationUser, modificationUser := entity.modificationUser)
  }

  /** The entity after mapDtoCommonFields(entity, dto): the DTO's five common fields, its own business fields. */
  function WithDtoCommonFields<F, G>(entity: Entity<F>, dto: Dto<G>): (r: Entity<F>)
    ensures SameCommonFields(dto, r)
    ensures r.fields == entity.fields
  {
    entity.(id := dto.id, creationDate := dto.creationDate, modificationDate := dto.modificationDate,
            creationUser := dto.creationUser, modificationUser := dto.modificationUser)
  }

  /** Copying entity to DTO and back leaves the entity exactly as it was. */
  lemma CommonFieldsRoundTrip<F, G>(entity: Entity<F>, dto: Dto<G>)
    ensures WithDtoCommonFields(entity, WithEntityCommonFields(dto, entity)) == entity
  {
  }

  /** Copying DTO to entity and back leaves the DTO exactly as it was. */
  lemma CommonFieldsRoundTripFromDto<F, G>(dto: Dto<G>, entity: Entity<F>)
    ensures WithEntityCommonFields(dto, WithDtoCommonFields(entity, dto)) == dto
  {
  }

  /** A mapper that carries the identity and audit fields across in both directions. */
  ghost predicate KeepsCommonFields<F(!new), G(!new)>(m: Mapper<Entity<F>, Dto<G>>)
  {
    && (forall e :: SameCommonFields(m.mapEntity(e), e))
    && (forall d :: SameCommonFields(d, m.mapDto(d)))
  }

  /**
   * A concrete mapper written the way the base class asks: start from a blank object,
   * map the business fields, then apply the common-field helper.
   */
  function HelperMapper<F(!new), G(!new)>(toDto: F -> G, toEntity: G -> F, entityClass: ClassName): (m: Mapper<Entity<F>, Dto<G>>)
    ensures KeepsCommonFields(m)
  {
    Mapper(
      (e: Entity<F>) => WithEntityCommonFields(Dto(None, None, None, None, None, toDto(e.fields)), e),
      (d: Dto<G>) => WithDtoCommonFields(Entity(None, None, None, None, None, toEntity(d.fields)), d),
      entityClass)
  }

  /** mapEntity(mapDto(mapEntity(e))) keeps the identifier and the four audit fields of mapEntity(e). */
  lemma AuditFieldsSurviveRoundTrip<F(!new), G(!new)>(m: Mapper<Entity<F>, Dto<G>>, e: Entity<F>)
    requires KeepsCommonFields(m)
    ensures SameCommonFields(m.mapEntity(m.mapDto(m.mapEntity(e))), e)
  {
    var d := m.mapEntity(e);
    assert SameCommonFields(d, e);
    assert SameCommonFields(d, m.mapDto(d));
    assert SameCommonFields(m.mapEntity(m.mapDto(d)), m.mapDto(d));
  }

  /** With business-field conversions that undo each other, a helper-built mapper round-trips whole entities. */
  lemma HelperMapperRoundTrip<F(!new), G(!new)>(toDto: F -> G, toEntity: G -> F, entityClass: ClassName, e: Entity<F>)
    requires forall f :: toEntity(toDto(f)) == f
    ensures var m := HelperMapper(toDto, toEntity, entityClass); m.mapDto(m.mapEntity(e)) == e
  {
  }

  /** The mutable DTO object that mapEntityCommonFields writes through its setters. */
  class DtoBean<G> {
    var id: Option<int>
    var creationDate: Option<int>
    var modificationDate: Option<int>
    var creationUser: Option<string>
    var modificationUser: Option<string>
    var fields: G

    function Value(): Dto<G>
      reads this
    {
      Dto(id, creationDate, modificationDate, creationUser, modificationUser, fields)
    }

    constructor (v: Dto<G>)
      ensures Value() == v
    {
      id, creationDate, modificationDate := v.id, v.creationDate, v.modificationDate;
      creationUser, modificationUser, fields := v.creationUser, v.modificationUser, v.fields;
    }
  }

  /** The mutable entity object that mapDtoCommonFields writes through its setters. */
  class EntityBean<F> {
    var id: Option<int>
    var creationDate: Option<int>
    var modificationDate: Option<int>
    var creationUser: Option<string>
    var modificationUser: Option<string>
    var fields: F

    function Value(): Entity<F>
      reads this
    {
      Entity(id, creationDate, modificationDate, creationUser, modificationUser, fields)
    }

    constructor (v: Entity<F>)
      ensures Value() == v
    {
      id, creationDate, modificationDate := v.id, v.creationDate, v.modificationDate;
      creationUser, modificationUser, fields := v.creationUser, v.modificationUser, v.fields;
    }
  }

  /** mapEntityCommonFields: five setter calls on the DTO; nothing else changes. */
  method MapEntityCommonFields<F, G>(dto: DtoBean<G>, entity: EntityBean<F>)
    modifies dto
    ensures dto.Value() == WithEntityCommonFields(old(dto.Value()), entity.Value())
  {
    dto.id := entity.id;
    dto.creationDate := entity.creationDate;
    dto.modificationDate := entity.modificationDate;
    dto.creationUser := entity.creationUser;
    dto.modificationUser := entity.modificationUser;
  }

  /** mapDtoCommonFields: five setter calls on the entity; nothing else changes. */
  method MapDtoCommonFields<F, G>(entity: EntityBean<F>, dto: DtoBean<G>)
    modifies entity
    ensures entity.Value() == WithDtoCommonFields(old(entity.Value()), dto.Value())
  {
    entity.id := dto.id;
    entity.creationDate := dto.creationDate;
    entity.modificationDate := dto.modificationDate;
    entity.creationUser := dto.creationUser;
    entity.modificationUser := dto.modificationUser;
  }
}
