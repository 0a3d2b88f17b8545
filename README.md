# Blossom core: mapper, generic CRUD service, group service and search engine

This project models four pieces of the Blossom core in Dafny:

- **The entity/DTO mapper base** (`AbstractDTOMapper`, module `Mappers` in `mapper.dfy`).
  - Null-propagating list and page maps are built on a mapper's two single-object conversions.
  - The two helpers copy the identifier and the four audit fields (creation and modification date and user) between an entity and a DTO.
  - `supports` tests whether a class is the mapped entity class or one of its superclasses.
- **The generic CRUD service** (`GenericCrudServiceImpl`, module `Crud` in `crud.dfy`).
  - Each write calls the data-access object (DAO) with the mapped DTO and publishes lifecycle events around that call. Delete publishes `BeforeDeleted` before it maps anything; the others publish after the store call.
  - The DAO and the event publisher are one object, `Ports`. It records every call, to either collaborator, in a single `trace`.
  - Because there is one trace, the order of store calls and events is part of each contract.
  - The published events are always exactly `Published(trace)`.
- **The group service** (`GroupServiceImpl`, module `Groups` in `group.dfy`).
  - It builds a fresh `Group` from a form's name and description, stores it, and publishes.
  - `BulkCreateTwoGroups` is a worked instance of the generic bulk create.
- **The search engine** (`SearchEngineImpl`, module `Search` in `search.dfy`).
  - `prepareSearch` builds the request: base query, filters, paging, sort clauses and aggregations.
  - Hits are decoded into a typed page, all or nothing.
  - `supports` compares against the configured DTO class.

`domain.dfy` (module `Domain`) holds the shared values:

- Java `null` is modelled as `Option`.
- The exceptions that escape the core are modelled as `Failure`.
- Entities and DTOs share their five common fields.
- A single-inheritance class table serves `isAssignableFrom`.

Two details of the bulk update:

- **A repeated id.** `Collectors.toMap` without a merge function throws on a duplicate key (GenericCrudServiceImpl.java:73). So `Crud.CrudService.UpdateAll` fails with `DuplicateKey` before any store call.
- **A null id.** A null id is a legal `HashMap` key, so the keyed map is indexed by `Option<int>`.

## Model

| member | source | states |
|---|---|---|
| Domain.AssignableIffSuperclass | blossom-core/blossom-core-common/src/main/java/fr/blossom/core/common/mapper/AbstractDTOMapper.java:74-76 | `isAssignableFrom` (candidate is the target or inherits from it) holds exactly when the target is on the candidate's superclass chain |
| Mappers.MapAll | blossom-core/blossom-core-common/src/main/java/fr/blossom/core/common/mapper/AbstractDTOMapper.java:30 | stream map then collect: same length, and element i is f applied to input element i |
| Mappers.Mapper.MapEntities | blossom-core/blossom-core-common/src/main/java/fr/blossom/core/common/mapper/AbstractDTOMapper.java:25-31 | null in gives null out, and only then; otherwise one DTO per entity, in order, each the mapped entity |
| Mappers.Mapper.MapDtos | blossom-core/blossom-core-common/src/main/java/fr/blossom/core/common/mapper/AbstractDTOMapper.java:41-47 | null in gives null out, and only then; otherwise one entity per DTO, in order, each the mapped DTO |
| Mappers.Mapper.MapEntitiesPage | blossom-core/blossom-core-common/src/main/java/fr/blossom/core/common/mapper/AbstractDTOMapper.java:33-39 | null stays null; page number, size and total are kept; the content is the list mapping of the content |
| Mappers.Mapper.MapDtosPage | blossom-core/blossom-core-common/src/main/java/fr/blossom/core/common/mapper/AbstractDTOMapper.java:49-55 | null stays null; page number, size and total are kept; the content is the list mapping of the content |
| Mappers.Mapper.Supports | blossom-core/blossom-core-common/src/main/java/fr/blossom/core/common/mapper/AbstractDTOMapper.java:73-76 | true exactly when the delimiter is the mapped entity class or one of its superclasses |
| Mappers.ListRoundTrip | blossom-core/blossom-core-common/src/main/java/fr/blossom/core/common/mapper/AbstractDTOMapper.java:25-47 | when mapDto undoes mapEntity, mapDtos(mapEntities(x)) == x for every list, null included |
| Mappers.WithEntityCommonFields | blossom-core/blossom-core-common/src/main/java/fr/blossom/core/common/mapper/AbstractDTOMapper.java:57-63 | afterwards the DTO carries the entity's id and four audit fields, and its business fields are unchanged |
| Mappers.WithDtoCommonFields | blossom-core/blossom-core-common/src/main/java/fr/blossom/core/common/mapper/AbstractDTOMapper.java:65-71 | afterwards the entity carries the DTO's id and four audit fields, and its business fields are unchanged |
| Mappers.CommonFieldsRoundTrip | blossom-core/blossom-core-common/src/main/java/fr/blossom/core/common/mapper/AbstractDTOMapper.java:57-71 | copying entity to DTO and then back leaves the entity exactly as it was |
| Mappers.CommonFieldsRoundTripFromDto | blossom-core/blossom-core-common/src/main/java/fr/blossom/core/common/mapper/AbstractDTOMapper.java:57-71 | copying DTO to entity and then back leaves the DTO exactly as it was |
| Mappers.HelperMapper | blossom-core/blossom-core-common/src/main/java/fr/blossom/core/common/mapper/AbstractDTOMapper.java:57-71 | a mapper that fills business fields and then applies the common-field helper keeps the id and audit fields in both directions |
| Mappers.AuditFieldsSurviveRoundTrip | blossom-core/blossom-core-common/src/main/java/fr/blossom/core/common/mapper/AbstractDTOMapper.java:57-71 | for such a mapper, entity to DTO to entity to DTO keeps the original id and audit fields |
| Mappers.HelperMapperRoundTrip | blossom-core/blossom-core-common/src/main/java/fr/blossom/core/common/mapper/AbstractDTOMapper.java:57-71 | when the business-field conversions undo each other, a helper-built mapper round-trips whole entities |
| Mappers.MapEntityCommonFields | blossom-core/blossom-core-common/src/main/java/fr/blossom/core/common/mapper/AbstractDTOMapper.java:57-63 | the five setters write the entity's common fields into the DTO object; nothing else in it changes |
| Mappers.MapDtoCommonFields | blossom-core/blossom-core-common/src/main/java/fr/blossom/core/common/mapper/AbstractDTOMapper.java:65-71 | the five setters write the DTO's common fields into the entity object; nothing else in it changes |
| Crud.PublishedAnnounce | blossom-core/blossom-core-common/src/main/java/fr/blossom/core/common/service/GenericCrudServiceImpl.java:66 | publishing once per DTO delivers exactly one event per DTO, in list order, after those already delivered |
| Crud.KeyById | blossom-core/blossom-core-common/src/main/java/fr/blossom/core/common/service/GenericCrudServiceImpl.java:73 | toMap succeeds exactly when the ids are pairwise distinct; its keys are exactly the ids, one per entity, and each id maps to its entity |
| Crud.ListRows | blossom-core/blossom-core-common/src/main/java/fr/blossom/core/common/service/GenericCrudServiceImpl.java:75 | the rows stored under a set of keys, each exactly once, as many as there are keys, in an order the store picks |
| Crud.SlotsLookup | blossom-core/blossom-core-common/src/main/java/fr/blossom/core/common/service/GenericCrudServiceImpl.java:65 | rows saved from a fresh id onwards sit at consecutive ids, each holding the row at its offset, and nothing else is added |
| Crud.CreatedDtos | blossom-core/blossom-core-common/src/main/java/fr/blossom/core/common/service/GenericCrudServiceImpl.java:62-68 | the bulk-create result: one DTO per input, DTO i being input i mapped, numbered with id first + i and mapped back |
| Crud.BulkUpdateInOrder | blossom-core/blossom-core-common/src/main/java/fr/blossom/core/common/service/GenericCrudServiceImpl.java:70-78 | for distinct ids that are all stored, the mapped bulk-update results follow a permutation of the inputs, each the stored row refreshed with its input |
| Crud.RefreshedPermutation | blossom-core/blossom-core-common/src/main/java/fr/blossom/core/common/service/GenericCrudServiceImpl.java:75-76 | results carrying each input's id exactly once map to the inputs' refreshed rows along a permutation of input positions |
| Crud.Ports.Publish | blossom-core/blossom-core-common/src/main/java/fr/blossom/core/common/service/GenericCrudServiceImpl.java:35 | the event is appended to the delivered events and the trace; the store is untouched |
| Crud.Ports.Create | blossom-core/blossom-core-common/src/main/java/fr/blossom/core/common/service/GenericCrudServiceImpl.java:34 | a reachable store saves the entity under a fresh id and returns it; an unreachable one fails and changes nothing |
| Crud.Ports.CreateAll | blossom-core/blossom-core-common/src/main/java/fr/blossom/core/common/service/GenericCrudServiceImpl.java:65 | all or none: the entities are saved under consecutive fresh ids and returned in input order |
| Crud.Ports.Update | blossom-core/blossom-core-common/src/main/java/fr/blossom/core/common/service/GenericCrudServiceImpl.java:53 | succeeds exactly when the store is reachable and holds the id; the row's business fields are replaced, its id and audit fields kept |
| Crud.Ports.UpdateAll | blossom-core/blossom-core-common/src/main/java/fr/blossom/core/common/service/GenericCrudServiceImpl.java:75 | succeeds exactly when every key is a stored id; every keyed row is refreshed; each keyed row comes back exactly once; an unreachable store fails with Unavailable, a reachable one lacking a key with NotFound |
| Crud.Ports.Delete | blossom-core/blossom-core-common/src/main/java/fr/blossom/core/common/service/GenericCrudServiceImpl.java:43 | succeeds exactly when the entity's id is stored; exactly that row is removed |
| Crud.CrudService.Create | blossom-core/blossom-core-common/src/main/java/fr/blossom/core/common/service/GenericCrudServiceImpl.java:30-37 | one store call with the mapped DTO, then one Created event carrying the mapped result; on success the store gains exactly that entity under the fresh id and the id counter moves on by one; a failed store call publishes nothing and leaves the store as it was; with a field-keeping mapper the result has the fresh id; an unreachable store fails with Unavailable |
| Crud.CrudService.Delete | blossom-core/blossom-core-common/src/main/java/fr/blossom/core/common/service/GenericCrudServiceImpl.java:39-45 | BeforeDeleted, then the store call, then Deleted only if the delete succeeded; both events carry the caller's DTO; on success exactly the row under the mapped DTO's id is removed, on failure the store is unchanged; the id counter never moves; an unreachable store fails with Unavailable, a reachable one without the id with NotFound |
| Crud.CrudService.Update | blossom-core/blossom-core-common/src/main/java/fr/blossom/core/common/service/GenericCrudServiceImpl.java:47-60 | one store call with the id as given, then one Updated event with the mapped refreshed row; on success only the row under that id changes, to its refresh with the mapped DTO; not-found and unreachable store publish nothing and change nothing; the id counter never moves; an unreachable store fails with Unavailable |
| Crud.CrudService.PublishEach | blossom-core/blossom-core-common/src/main/java/fr/blossom/core/common/service/GenericCrudServiceImpl.java:66 | one publish call per DTO, in list order; the store is untouched |
| Crud.CrudService.CreateAll | blossom-core/blossom-core-common/src/main/java/fr/blossom/core/common/service/GenericCrudServiceImpl.java:62-68 | one bulk store call, then one Created event per result in order; result i is input i saved under id nextId + i; on success the store gains exactly those rows at those ids and the counter moves on by the number of inputs; on failure store and counter are unchanged; an unreachable store fails with Unavailable |
| Crud.CrudService.UpdateAll | blossom-core/blossom-core-common/src/main/java/fr/blossom/core/common/service/GenericCrudServiceImpl.java:70-78 | a repeated id fails with DuplicateKey before any store call; otherwise it succeeds exactly when every id is stored; one bulk store call, then one Updated event per result; the results follow a permutation `order` of the inputs, so every input's refreshed row comes back exactly once; the store holds exactly the refreshed rows; the id counter never moves; with distinct ids, an unreachable store fails with Unavailable and a reachable one lacking an id with NotFound |
| Groups.GroupService.Create | blossom-core/blossom-core-group/src/main/java/fr/blossom/core/group/GroupServiceImpl.java:23-36 | the store receives a group holding only the form's name and description, then one Created event with the mapped saved group; on success the store gains exactly that group under the fresh id and the counter moves on by one; on failure nothing changes; an unreachable store fails with Unavailable |
| Groups.GroupService.Update | blossom-core/blossom-core-group/src/main/java/fr/blossom/core/group/GroupServiceImpl.java:38-51 | a null id fails before any call; otherwise a group holding only the form's fields is stored under the id, then one Updated event; on success only that row changes, taking the form's name and description and keeping its id and audit fields; the id counter never moves; with an id, an unreachable store fails with Unavailable and a reachable one without that id with NotFound |
| Groups.RenameMissingGroup | blossom-core/blossom-core-group/src/main/java/fr/blossom/core/group/GroupServiceImpl.java:38-51 | updating id 7 on an empty reachable store fails with NotFound and publishes nothing |
| Groups.CreateThenRename | blossom-core/blossom-core-group/src/main/java/fr/blossom/core/group/GroupServiceImpl.java:23-51 | creating group "A" on an empty store and then updating id 1 to "B" returns group 1 named "B", after a Created event for "A" and an Updated event for "B" |
| Groups.BulkCreateTwoGroups | blossom-core/blossom-core-common/src/main/java/fr/blossom/core/common/service/GenericCrudServiceImpl.java:62-68 | bulk-creating groups A and B on an empty store gives ids 1 and 2 in input order and two Created events in that order |
| Search.InitialQuery | blossom-core/blossom-core-common/src/main/java/fr/blossom/core/common/search/SearchEngineImpl.java:82-92 | match-all exactly for a null or empty query; a query-string parse exactly when no fields are configured; otherwise a lenient cross-fields match over the configured fields |
| Search.SortPath | blossom-core/blossom-core-common/src/main/java/fr/blossom/core/common/search/SearchEngineImpl.java:108 | the sort path is the prefix "dto." followed by the property |
| Search.PrepareSearch | blossom-core/blossom-core-common/src/main/java/fr/blossom/core/common/search/SearchEngineImpl.java:77-122 | index is the alias; the only must clause is the base query; filters in order; size and offset from the page request; one field sort per order, then the score sort, only when a sort is present; aggregations verbatim |
| Search.DoParseResults | blossom-core/blossom-core-common/src/main/java/fr/blossom/core/common/search/SearchEngineImpl.java:135-159 | succeeds exactly when every hit decodes; otherwise it fails naming the field and class; content i is hit i decoded; the page request, total, took-time and aggregations are carried over |
| Search.ParseResults | blossom-core/blossom-core-common/src/main/java/fr/blossom/core/common/search/SearchEngineImpl.java:124-127 | as DoParseResults (page number and size from the page request, total, took-time and aggregations carried over), reading the "dto" sub-document into the configured DTO class |
| Search.ParseSummaryResults | blossom-core/blossom-core-common/src/main/java/fr/blossom/core/common/search/SearchEngineImpl.java:129-133 | as DoParseResults (page number and size from the page request, total, took-time and aggregations carried over), reading the "summary" sub-document into SummaryDTO |
| Search.Supports | blossom-core/blossom-core-common/src/main/java/fr/blossom/core/common/search/SearchEngineImpl.java:161-164 | true exactly when the delimiter is the supported DTO class or one of its superclasses |

## Left out

- Executing a search: the network call, the cluster client and the 10-second timeout. Only building the request and decoding the response are modelled.
- JSON decoding (`readTree`, then `treeToValue` of one field). It is the parameter `read`, which returns nothing when decoding throws. The exception's message and cause are reduced to `CannotParse(field, target)`.
- Reflection. The type token's raw class and `Class.isAssignableFrom` are modelled by a class name and a table of direct superclasses. Interfaces are not modelled.
- Transactions: `@Transactional` and rollback. A failure after some events were published leaves those events in the trace. No rollback is modelled.
- Failures of the publisher and its listeners. The publisher never fails.
- The concrete DAO. `Ports` is a stand-in store.
  - It does not stamp audit fields on create or update.
  - It fails only when unreachable or when an id is missing.
  - Bulk operations are all or none.
  - Crud.Ports.UpdateAll: the order of the returned rows is left to the store, as a HashMap's iteration order is.
- Crud.CrudService.UpdateAll: the results follow a permutation `order` of the inputs, not the input order, because the store's iteration order is not modelled.
- Groups.GroupService.Update: a null groupId is taken to fail before any store call, as unboxing it into the data-access object's `long` id parameter would. The `CrudDao` interface is not part of this model.
- `PageImpl`'s own adjustment of the total from the content size is not modelled. The page keeps the backend's total hit count.
- Null collections and null forms passed to the bulk operations and the group service are not modelled.
  - A null collection passed to bulk update fails at `.stream()` (GenericCrudServiceImpl.java:73), before any store call.
  - A null collection passed to bulk create is different. `mapDtos(null)` returns null (AbstractDTOMapper.java:43-44), and that null reaches `dao.create` (GenericCrudServiceImpl.java:65). So a store call happens first, and what follows depends on the DAO.
  - A null form makes the group service fail on a null dereference.
- The two-argument and three-argument `prepareSearch` overloads and the configuration getters are not modelled. A null query, filter list or aggregation list is represented by `None`.
- A null page request is not modelled. `pageable` is a plain value in the model. In the code a null `pageable` throws at SearchEngineImpl.java:103.
- The event's `source` field is not modelled. It is always the publishing service.
- Aliasing. The CRUD and group services pass entities and DTOs as values. Only the two common-field helpers are modelled as in-place updates of mutable objects (`DtoBean`, `EntityBean`).
- The ids are unbounded integers. Long overflow in the store's id counter is not modelled.
- Logging is not modelled.
- `ScheduledJobServiceImpl`, the auto-configuration and the locale advice are not part of this model.
