/** Values shared by the mapper, the CRUD service and the search engine. */
module Domain {

  /** A Java reference that may be null. */
  datatype Option<+T> = None | Some(value: T)

  /** The failures the core lets escape to its callers, one per exception kind. */
  datatype Failure =
    | NotFound                                  // the store holds no row under the requested id
    | Unavailable                               // the store could not be reached
    | DuplicateKey                              // Collectors.toMap met the same id twice
    | NullId                                    // a null boxed Long had to be unboxed
    | CannotParse(field: string, target: ClassName)  // one hit's sub-document did not decode

  datatype Result<+T> = Ok(value: T) | Err(error: Failure)

  datatype Outcome = Pass | Fail(error: Failure)

  /** A persisted record (AbstractEntity): identity, the four audit fields, and the subclass's own fields. */
  datatype Entity<F> = Entity(
    id: Option<int>,
    creationDate: Option<int>,
    modificationDate: Option<int>,
    creationUser: Option<string>,
    modificationUser: Option<string>,
    fields: F)

  /** A transport projection (AbstractDTO) with the same identity and audit fields. */
  datatype Dto<G> = Dto(
    id: Option<int>,
    creationDate: Option<int>,
    modificationDate: Option<int>,
    creationUser: Option<string>,
    modificationUser: Option<string>,
    fields: G)

  /** A Spring Data page: its content, the page number and size it was asked for, and the total count. */
  datatype Page<T> = Page(content: seq<T>, number: nat, size: nat, total: int)

  /** True when the DTO carries exactly the entity's identity and audit fields. */
  predicate SameCommonFields<F, G>(d: Dto<G>, e: Entity<F>)
  {
    && d.id == e.id
    && d.creationDate == e.creationDate
    && d.modificationDate == e.modificationDate
    && d.creationUser == e.creationUser
    && d.modificationUser == e.modificationUser
  }

  /**
   * Classes, as far as Class.isAssignableFrom needs them: a name and the table of
   * direct superclasses (single inheritance).
   */
  type ClassName = string
  type Hierarchy = map<ClassName, ClassName>

  /** The class itself, then its superclass, then that one's superclass, and so on. */
  function Superclasses(parents: Hierarchy, c: ClassName): (chain: seq<ClassName>)
    ensures |chain| >= 1 && chain[0] == c
    decreases |parents.Keys|
  {
    if c in parents then
      assert |(parents - {c}).Keys| < |parents.Keys| by {
        assert (parents - {c}).Keys == parents.Keys - {c};
      }
      [c] + Superclasses(parents - {c}, parents[c])
    else [c]
  }

  /** target.isAssignableFrom(candidate): candidate is target or inherits from it. */
  function IsAssignableFrom(parents: Hierarchy, target: ClassName, candidate: ClassName): bool
    decreases |parents.Keys|
  {
    candidate == target
    || (candidate in parents &&
        assert |(parents - {candidate}).Keys| < |parents.Keys| by {
          assert (parents - {candidate}).Keys == parents.Keys - {candidate};
        }
        IsAssignableFrom(parents - {candidate}, target, parents[candidate]))
  }

  /** A class is assignable to exactly the classes on its superclass chain. */
  lemma {:induction false} AssignableIffSuperclass(parents: Hierarchy, target: ClassName, candidate: ClassName)
    ensures IsAssignableFrom(parents, target, candidate) <==> target in Superclasses(parents, candidate)
    decreases |parents.Keys|
  {
    if candidate in parents {
      assert (parents - {candidate}).Keys == parents.Keys - {candidate};
      AssignableIffSuperclass(parents - {candidate}, target, parents[candidate]);
    }
  }
}
