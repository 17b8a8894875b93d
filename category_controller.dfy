/** The category handlers: create a category under a name nobody holds, read
    one, update it with the `x || old` merge, and delete it only while no
    service lists it. All of them sit behind `verifyAdmin` except the read. */
module CategoryController {
  import opened Common
  import opened ServiceModel
  import opened CategoryModel
  import opened Store

  const NameExists := "该分类名称已存在"
  const CategoryNotFound := "分类不存在"
  const HasServices := "该分类下有服务，无法删除"
  const DeletedMessage := "分类已删除"

  /** `POST /categories`. The route's validators require a non-empty name and,
      when a description is sent, a non-empty one. A name some category
      already holds is 400 and nothing changes. Otherwise one category with
      the given fields and no services is added. */
  method CreateCategory(db: Db, name: string, description: Option<string>, icon: Option<string>, newId: Id)
    returns (r: Reply<Category>)
    requires name != "" && (description.Some? ==> description.value != "")
    requires db.Unused(newId)
    modifies db
    ensures NameTaken(old(db.categories), name) ==> r == Err(400, NameExists) && unchanged(db)
    ensures !NameTaken(old(db.categories), name) ==>
              && r == Ok(201, Category(name, description, icon, []))
              && db.categories == old(db.categories)[newId := r.value]
              && NameTaken(db.categories, name)
    ensures db.users == old(db.users) && db.services == old(db.services) && db.orders == old(db.orders)
    ensures old(db.Valid()) ==> db.Valid()
  {
    if exists k :: k in db.categories && db.categories[k].name == name {
      return Err(400, NameExists);
    }
    var category := Category(name, description, icon, []);
    if db.Valid() {
      AddKeepsNamesUnique(db.categories, newId, category);
    }
    db.categories := db.categories[newId := category];
    assert db.categories[newId].name == name;
    r := Ok(201, category);
  }

  /** `GET /categories/:id`: the category, or 404. */
  method GetCategoryById(db: Db, id: Id) returns (r: Reply<Category>)
    ensures id !in db.categories ==> r == Err(404, CategoryNotFound)
    ensures id in db.categories ==> r == Ok(200, db.categories[id])
  {
    if id !in db.categories {
      return Err(404, CategoryNotFound);
    }
    r := Ok(200, db.categories[id]);
  }

  /** The `x || old` merge of a category update. */
  function MergeCategory(c: Category, name: Option<string>, description: Option<string>,
                         icon: Option<string>): (n: Category)
    ensures n.name == OrElse(name, c.name)
    ensures n.description == OrElseOpt(description, c.description)
    ensures n.icon == OrElseOpt(icon, c.icon)
    ensures n.services == c.services
  {
    c.(name := OrElse(name, c.name), description := OrElseOpt(description, c.description),
       icon := OrElseOpt(icon, c.icon))
  }

  /** `PUT /categories/:id`. The route's validator requires a sent name to be
      non-empty. Unknown category: 404. A new name that another category
      holds is 400 and nothing changes; keeping the category's own name is
      allowed. Otherwise name, description and icon are each replaced only
      by a truthy value. */
  method UpdateCategory(db: Db, id: Id, name: Option<string>, description: Option<string>,
                        icon: Option<string>)
    returns (r: Reply<Category>)
    requires name.Some? ==> name.value != ""
    modifies db
    ensures id !in old(db.categories) ==> r == Err(404, CategoryNotFound)
    ensures (id in old(db.categories) && Given(name) && name.value != old(db.categories[id]).name
             && NameTaken(old(db.categories), name.value)) ==> r == Err(400, NameExists)
    ensures !r.Ok? ==> unchanged(db)
    ensures old(db.Valid()) ==>
              (r.Ok? <==>
                 id in old(db.categories)
                 && !(Given(name) && name.value != old(db.categories[id]).name
                      && NameTaken(old(db.categories), name.value)))
    ensures r.Ok? ==>
              && r == Ok(200, MergeCategory(old(db.categories[id]), name, description, icon))
              && db.categories == old(db.categories)[id := r.value]
    ensures db.users == old(db.users) && db.services == old(db.services) && db.orders == old(db.orders)
    ensures old(db.Valid()) ==> db.Valid()
  {
    if id !in db.categories {
      return Err(404, CategoryNotFound);
    }
    var category := db.categories[id];
    if Given(name) && name.value != category.name {
      if exists k :: k in db.categories && db.categories[k].name == name.value {
        return Err(400, NameExists);
      }
    }
    var updated := MergeCategory(category, name, description, icon);
    if !ValidCategory(updated) {
      return Err(500, ServerError);
    }
    if db.Valid() {
      RenameKeepsNamesUnique(db.categories, id, updated);
    }
    db.categories := db.categories[id := updated];
    r := Ok(200, updated);
  }

  /** In a consistent store a category whose `services` list is empty is
      named by no service, so removing it strands nothing. */
  lemma EmptyCategoryUnreferenced(db: Db, id: Id)
    requires db.Valid() && id in db.categories && db.categories[id].services == []
    ensures forall k :: k in db.services ==> db.services[k].category != id
  {
    forall k | k in db.services ensures db.services[k].category != id {
      assert db.services[k].category in db.categories ==>
               k in db.categories[db.services[k].category].services;
    }
  }

  /** `DELETE /categories/:id`. Unknown category: 404. A category whose
      `services` list is non-empty is 400 and stays. Otherwise exactly that
      category is removed. */
  method DeleteCategory(db: Db, id: Id) returns (r: Reply<string>)
    modifies db
    ensures id !in old(db.categories) ==> r == Err(404, CategoryNotFound)
    ensures id in old(db.categories) && |old(db.categories[id]).services| > 0 ==> r == Err(400, HasServices)
    ensures r.Ok? <==> id in old(db.categories) && old(db.categories[id]).services == []
    ensures !r.Ok? ==> unchanged(db)
    ensures r.Ok? ==> r == Ok(200, DeletedMessage) && db.categories == old(db.categories) - {id}
    ensures old(db.Valid()) && r.Ok? ==> forall k :: k in db.services ==> db.services[k].category != id
    ensures db.users == old(db.users) && db.services == old(db.services) && db.orders == old(db.orders)
    ensures old(db.Valid()) ==> db.Valid()
  {
    if id !in db.categories {
      return Err(404, CategoryNotFound);
    }
    var category := db.categories[id];
    if |category.services| > 0 {
      return Err(400, HasServices);
    }
    if db.Valid() {
      EmptyCategoryUnreferenced(db, id);
    }
    db.categories := db.categories - {id};
    r := Ok(200, DeletedMessage);
  }
}
