/** The Category document: a required, unique name, optional description and
    icon, and the list of its services' ids. */
module CategoryModel {
  import opened Common

  datatype Category = Category(
    name: string,
    description: Option<string>,
    icon: Option<string>,
    services: seq<Id>)

  /** The schema's one validator: the name is required. */
  predicate ValidCategory(c: Category)
  {
    c.name != ""
  }

  /** The unique index on `name`: no two stored categories share a name. */
  predicate UniqueNames(cats: map<Id, Category>)
  {
    forall a, b :: a in cats && b in cats && cats[a].name == cats[b].name ==> a == b
  }

  /** `Category.findOne({ name })` finds a document. */
  predicate NameTaken(cats: map<Id, Category>, name: string)
  {
    exists k :: k in cats && cats[k].name == name
  }

  /** Adding a category under a name nobody holds keeps the names unique. */
  lemma AddKeepsNamesUnique(cats: map<Id, Category>, id: Id, c: Category)
    requires UniqueNames(cats) && id !in cats && !NameTaken(cats, c.name)
    ensures UniqueNames(cats[id := c])
  {
  }

  /** Renaming a category to its own name or to a name nobody holds keeps the
      names unique. */
  lemma RenameKeepsNamesUnique(cats: map<Id, Category>, id: Id, c: Category)
    requires UniqueNames(cats) && id in cats
    requires c.name == cats[id].name || !NameTaken(cats, c.name)
    ensures UniqueNames(cats[id := c])
  {
  }
}
