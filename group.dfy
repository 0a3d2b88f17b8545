/**
 * The group service (GroupServiceImpl): the CRUD pattern specialised to groups. It
 * builds a fresh Group from a form's name and description, then calls the store, then
 * publishes, through the same collaborators as the generic service it extends.
 */
module Groups {
  import opened Domain
  import opened Mappers
  import opened Crud

  /** The business fields of a Group and of a GroupDTO. */
  datatype GroupFields = GroupFields(name: Option<string>, description: Option<string>)

  type Group = Entity<GroupFields>
  type GroupDto = Dto<GroupFields>

  datatype GroupCreateForm = GroupCreateForm(name: Option<string>, description: Option<string>)
  datatype GroupUpdateForm = GroupUpdateForm(name: Option<string>, description: Option<string>)

  /** What `new Group()` holds: no id, no audit data, no name, no description. */
  const BlankGroup: Group := Entity(None, None, None, None, None, GroupFields(None, None))

  /** A Group carrying only the given name and description: identity and audit fields unset. */
  predicate FromForm(g: Group, name: Option<string>, description: Option<string>)
  {
    && g.id.None? && g.creationDate.None? && g.modificationDate.None?
    && g.creationUser.None? && g.modificationUser.None?
    && g.fields == GroupFields(name, description)
  }

  /** The subclass of the generic service, holding the generic part it inherits. */
  class GroupService {
    const crud: CrudService<GroupFields, GroupFields>

    constructor (crud: CrudService<GroupFields, GroupFields>)
      ensures this.crud == crud
    {
      this.crud := crud;
    }

    /** create(form): a fresh Group with the form's name and description goes to the store, then one Created event. */
    method Create(form: GroupCreateForm) returns (r: Result<GroupDto>)
      requires crud.ports.Valid()
      modifies crud.ports
      ensures crud.ports.Valid() && crud.ports.online == old(crud.ports.online)
      ensures r.Ok? <==> old(crud.ports.online)
      ensures !old(crud.ports.online) ==> r == Err(Unavailable)
      ensures |crud.ports.trace| == |old(crud.ports.trace)| + (if r.Ok? then 2 else 1)
      ensures crud.ports.trace[..|old(crud.ports.trace)|] == old(crud.ports.trace)
      ensures var c := crud.ports.trace[|old(crud.ports.trace)|];
        c.DaoCreate? && FromForm(c.entity, form.name, form.description)
      ensures r.Ok? ==> crud.ports.trace[|old(crud.ports.trace)| + 1] == Call.Publish(Event(Created, r.value))
      ensures crud.ports.events == old(crud.ports.events) + (if r.Ok? then [Event(Created, r.value)] else [])
      ensures r.Ok? ==> r.value == crud.mapper.mapEntity(
        Entity(Some(old(crud.ports.nextId)), None, None, None, None, GroupFields(form.name, form.description)))
      ensures r.Ok? ==>
        && crud.ports.rows == old(crud.ports.rows)[old(crud.ports.nextId) :=
             Entity(Some(old(crud.ports.nextId)), None, None, None, None, GroupFields(form.name, form.description))]
        && crud.ports.nextId == old(crud.ports.nextId) + 1
      ensures r.Err? ==> crud.ports.rows == old(crud.ports.rows) && crud.ports.nextId == old(crud.ports.nextId)
    {
      var groupToCreate := BlankGroup;
      groupToCreate := groupToCreate.(fields := groupToCreate.fields.(name := form.name));
      groupToCreate := groupToCreate.(fields := groupToCreate.fields.(description := form.description));

      var saved := crud.ports.Create(groupToCreate);
      if saved.Err? {
        return Err(saved.error);
      }
      var savedGroup := crud.mapper.mapEntity(saved.value);
      crud.ports.Publish(Event(Created, savedGroup));
      r := Ok(savedGroup);
    }

    /**
     * update(groupId, form): a null id fails when unboxed, before any call. Otherwise a fresh
     * Group with the form's name and description goes to the store under groupId, then one
     * Updated event.
     */
    method Update(groupId: Option<int>, form: GroupUpdateForm) returns (r: Result<GroupDto>)
      requires crud.ports.Valid()
      modifies crud.ports
      ensures crud.ports.Valid() && crud.ports.online == old(crud.ports.online)
      ensures groupId.None? ==> r == Err(NullId) && crud.ports.trace == old(crud.ports.trace)
      ensures groupId.Some? ==>
        && (r.Ok? <==> old(crud.ports.online) && groupId.value in old(crud.ports.rows))
        && (!old(crud.ports.online) ==> r == Err(Unavailable))
        && (old(crud.ports.online) && groupId.value !in old(crud.ports.rows) ==> r == Err(NotFound))
        && |crud.ports.trace| == |old(crud.ports.trace)| + (if r.Ok? then 2 else 1)
        && crud.ports.trace[..|old(crud.ports.trace)|] == old(crud.ports.trace)
        && (var c := crud.ports.trace[|old(crud.ports.trace)|];
            c.DaoUpdate? && c.id == groupId.value && FromForm(c.entity, form.name, form.description))
      ensures r.Ok? ==> crud.ports.trace[|old(crud.ports.trace)| + 1] == Call.Publish(Event(Updated, r.value))
      ensures crud.ports.events == old(crud.ports.events) + (if r.Ok? then [Event(Updated, r.value)] else [])
      ensures r.Ok? ==> r.value == crud.mapper.mapEntity(
        old(crud.ports.rows)[groupId.value].(fields := GroupFields(form.name, form.description)))
      ensures r.Ok? ==> crud.ports.rows == old(crud.ports.rows)[groupId.value :=
        old(crud.ports.rows)[groupId.value].(fields := GroupFields(form.name, form.description))]
      ensures r.Err? ==> crud.ports.rows == old(crud.ports.rows)
      ensures crud.ports.nextId == old(crud.ports.nextId)
    {
      var groupToUpdate := BlankGroup;
      groupToUpdate := groupToUpdate.(fields := groupToUpdate.fields.(name := form.name));
      groupToUpdate := groupToUpdate.(fields := groupToUpdate.fields.(description := form.description));

      if groupId.None? {
        return Err(NullId);
      }
      var saved := crud.ports.Update(groupId.value, groupToUpdate);
      if saved.Err? {
        return Err(saved.error);
      }
      var savedGroup := crud.mapper.mapEntity(saved.value);
      crud.ports.Publish(Event(Updated, savedGroup));
      r := Ok(savedGroup);
    }
  }

  /**
   * Bulk-creating the groups "A" and "B" on an empty reachable store, with a mapper
   * that copies every field across: ids 1 and 2 in input order, and two Created events in that order.
   */
  method BulkCreateTwoGroups() returns (r: Result<seq<GroupDto>>, events: seq<Event<GroupDto>>)
    ensures r == Ok([Dto(Some(1), None, None, None, None, GroupFields(Some("A"), None)),
                     Dto(Some(2), None, None, None, None, GroupFields(Some("B"), None))])
    ensures events == [Event(Created, r.value[0]), Event(Created, r.value[1])]
  {
    var ports := new Ports<GroupFields, GroupDto>(true);
    var mapper := Mapper(
      (e: Group) => Dto(e.id, e.creationDate, e.modificationDate, e.creationUser, e.modificationUser, e.fields),
      (d: GroupDto) => Entity(d.id, d.creationDate, d.modificationDate, d.creationUser, d.modificationUser, d.fields),
      "Group");
    var service := new CrudService(ports, mapper);
    var a := Dto(None, None, None, None, None, GroupFields(Some("A"), None));
    var b := Dto(None, None, None, None, None, GroupFields(Some("B"), None));
    r := service.CreateAll([a, b]);
    var storedA := Entity(Some(1), None, None, None, None, a.fields);
    var storedB := Entity(Some(2), None, None, None, None, b.fields);
    assert mapper.mapDto(a) == Entity(None, None, None, None, None, a.fields);
    assert mapper.mapDto(b) == Entity(None, None, None, None, None, b.fields);
    assert r.value[0] == mapper.mapEntity(storedA) == Dto(Some(1), None, None, None, None, a.fields);
    assert r.value[1] == mapper.mapEntity(storedB) == Dto(Some(2), None, None, None, None, b.fields);
    assert r.value == [r.value[0], r.value[1]];
    events := ports.events;
  }

  /**
   * Creating group "A" on an empty reachable store and then updating it to the name "B"
   * through the id the create returned: the update finds the row the create stored.
   */
  method CreateThenRename() returns (r: Result<GroupDto>, events: seq<Event<GroupDto>>)
    ensures r == Ok(Dto(Some(1), None, None, None, None, GroupFields(Some("B"), None)))
    ensures events == [Event(Created, Dto(Some(1), None, None, None, None, GroupFields(Some("A"), None))),
                       Event(Updated, r.value)]
  {
    var ports := new Ports<GroupFields, GroupDto>(true);
    var mapper := Mapper(
      (e: Group) => Dto(e.id, e.creationDate, e.modificationDate, e.creationUser, e.modificationUser, e.fields),
      (d: GroupDto) => Entity(d.id, d.creationDate, d.modificationDate, d.creationUser, d.modificationUser, d.fields),
      "Group");
    var crud := new CrudService(ports, mapper);
    var groups := new GroupService(crud);
    var created := groups.Create(GroupCreateForm(Some("A"), None));
    var storedA := Entity(Some(1), None, None, None, None, GroupFields(Some("A"), None));
    assert created.value == mapper.mapEntity(storedA) == Dto(Some(1), None, None, None, None, storedA.fields);
    r := groups.Update(created.value.id, GroupUpdateForm(Some("B"), None));
    var storedB := storedA.(fields := GroupFields(Some("B"), None));
    assert r.value == mapper.mapEntity(storedB) == Dto(Some(1), None, None, None, None, storedB.fields);
    events := ports.events;
  }

  /**
   * Renaming a group that was never stored, on an empty reachable store: the update fails
   * with NotFound after its one store call, and nothing is published.
   */
  method RenameMissingGroup() returns (r: Result<GroupDto>, events: seq<Event<GroupDto>>)
    ensures r == Err(NotFound)
    ensures events == []
  {
    var ports := new Ports<GroupFields, GroupDto>(true);
    var mapper := Mapper(
      (e: Group) => Dto(e.id, e.creationDate, e.modificationDate, e.creationUser, e.modificationUser, e.fields),
      (d: GroupDto) => Entity(d.id, d.creationDate, d.modificationDate, d.creationUser, d.modificationUser, d.fields),
      "Group");
    var crud := new CrudService(ports, mapper);
    var groups := new GroupService(crud);
    r := groups.Update(Some(7), GroupUpdateForm(Some("B"), None));
    events := ports.events;
  }
}
