/**
 * Ownable properties: a Settlement ("Village"), a City ("City") or a road
 * ("Pathway"), each with an owning player. Asking an ownerless property for
 * its owner is an error, not an absent result.
 *
 * A property is a value here: once attached to a node it is never changed,
 * so nothing can observe whether it is shared.
 */
module Property {
  import opened Outcomes

  /** A player, by identity: ownership is compared by reference. */
  type PlayerId = object

  datatype PropertyKind = SettlementKind | CityKind | PathKind

  datatype Property = Property(kind: PropertyKind, holder: Option<PlayerId>, category: string)

  /** The owner, or the error the source throws when none was assigned. */
  function IdentifyOwner(p: Property): (r: Outcome<PlayerId>)
    ensures r.Ok? <==> p.holder.Some?
    ensures r.Ok? ==> r.value == p.holder.value
    ensures !r.Ok? ==> r == Thrown(NoOwner)
  {
    match p.holder
    case Some(owner) => Ok(owner)
    case None => Thrown(NoOwner)
  }

  /** The same property with owner o; kind and category are kept. */
  function AssignOwner(p: Property, o: PlayerId): (r: Property)
    ensures IdentifyOwner(r) == Ok(o)
    ensures r.kind == p.kind && RetrieveCategory(r) == RetrieveCategory(p)
  {
    p.(holder := Some(o))
  }

  function RetrieveCategory(p: Property): string
  {
    p.category
  }

  /** A default-constructed property: no owner, empty category. */
  function DefaultProperty(kind: PropertyKind): (r: Property)
    ensures r.kind == kind && IdentifyOwner(r) == Thrown(NoOwner) && RetrieveCategory(r) == ""
  {
    Property(kind, None, "")
  }

  function Settlement(o: PlayerId): (r: Property)
    ensures r.kind == SettlementKind && IdentifyOwner(r) == Ok(o) && RetrieveCategory(r) == "Village"
  {
    AssignOwner(DefaultProperty(SettlementKind), o).(category := "Village")
  }

  function City(o: PlayerId): (r: Property)
    ensures r.kind == CityKind && IdentifyOwner(r) == Ok(o) && RetrieveCategory(r) == "City"
  {
    AssignOwner(DefaultProperty(CityKind), o).(category := "City")
  }

  function Path(o: PlayerId): (r: Property)
    ensures r.kind == PathKind && IdentifyOwner(r) == Ok(o) && RetrieveCategory(r) == "Pathway"
  {
    AssignOwner(DefaultProperty(PathKind), o).(category := "Pathway")
  }

  /** Assigning twice: the second owner wins. */
  lemma LastAssignmentWins(p: Property, o1: PlayerId, o2: PlayerId)
    ensures AssignOwner(AssignOwner(p, o1), o2) == AssignOwner(p, o2)
    ensures IdentifyOwner(AssignOwner(AssignOwner(p, o1), o2)) == Ok(o2)
  {
  }

  /** The three owned constructors give three distinct categories. */
  lemma CategoriesDistinct(o: PlayerId)
    ensures RetrieveCategory(Settlement(o)) != RetrieveCategory(City(o))
    ensures RetrieveCategory(City(o)) != RetrieveCategory(Path(o))
    ensures RetrieveCategory(Settlement(o)) != RetrieveCategory(Path(o))
  {
  }
}
