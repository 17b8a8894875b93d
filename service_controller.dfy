/** The service handlers: create a service in an existing category, read one,
    update it (moving it between category lists when its category changes),
    delete it, and add a review that recomputes the aggregate rating. */
module ServiceController {
  import opened Common
  import opened UserModel
  import opened OrderModel
  import opened ServiceModel
  import opened CategoryModel
  import opened Store
  import AuthMiddleware

  const CategoryNotFound := "分类不存在"
  const ServiceNotFound := "服务不存在"
  const NoEditPermission := "您没有权限修改此服务"
  const NoDeletePermission := "您没有权限删除此服务"
  const DeletedMessage := "服务已删除"
  const AlreadyReviewed := "您已经评论过此服务"
  const ReviewAdded := "评论添加成功"

  /** The body of `POST /services`; prices are whole cents. */
  datatype ServiceRequest = ServiceRequest(
    title: string,
    description: string,
    category: Id,
    price: int,
    duration: int,
    images: seq<string>)

  /** The route's validators: non-empty title and description, a price of at
      least 0, a whole duration of at least 1 and at least one image. */
  predicate PassesServiceValidators(req: ServiceRequest)
  {
    req.title != "" && req.description != "" && req.price >= 0 && req.duration >= 1 && |req.images| >= 1
  }

  /** The body of `PUT /services/:id`: every field optional. An empty
      `category` string arrives as `None`. */
  datatype ServiceUpdate = ServiceUpdate(
    title: Option<string>,
    description: Option<string>,
    category: Option<Id>,
    price: Option<int>,
    duration: Option<int>,
    images: Option<seq<string>>,
    status: Option<string>)

  /** The update route's validators, each applying only to a field that is
      present: non-empty title and description, price at least 0, a whole
      duration of at least 1. */
  predicate PassesUpdateValidators(u: ServiceUpdate)
  {
    && (u.title.Some? ==> u.title.value != "")
    && (u.description.Some? ==> u.description.value != "")
    && (u.price.Some? ==> u.price.value >= 0)
    && (u.duration.Some? ==> u.duration.value >= 1)
  }

  /** The merge `x || old` of every field of an update. The number 0 and the
      empty string never overwrite; an images array, even an empty one, does.
      The status is the chosen status string, still to be checked against
      the enum. */
  function Merge(s: Service, u: ServiceUpdate, status: ServiceStatus): (n: Service)
    ensures n.title == OrElse(u.title, s.title) && n.description == OrElse(u.description, s.description)
    ensures n.category == (if u.category.Some? then u.category.value else s.category)
    ensures n.price == OrElseNum(u.price, s.price) && n.duration == OrElseNum(u.duration, s.duration)
    ensures n.images == (if u.images.Some? then u.images.value else s.images)
    ensures n.status == status
    ensures n.provider == s.provider && n.rating == s.rating && n.reviews == s.reviews
    ensures n.orders == s.orders && n.createdAt == s.createdAt
  {
    s.(title := OrElse(u.title, s.title),
       description := OrElse(u.description, s.description),
       category := if u.category.Some? then u.category.value else s.category,
       price := OrElseNum(u.price, s.price),
       duration := OrElseNum(u.duration, s.duration),
       images := if u.images.Some? then u.images.value else s.images,
       status := status)
  }

  /** An update with nothing truthy in it leaves the service as it was. */
  lemma EmptyUpdateKeeps(s: Service)
    ensures Merge(s, ServiceUpdate(None, Some(""), None, Some(0), None, None, Some("")), s.status) == s
  {
  }

  /** The new service is stored, and its id pushed onto its provider's and
      its category's `services` lists. */
  lemma AddServiceKeepsConsistent(users: map<Id, User>, services: map<Id, Service>,
                                  categories: map<Id, Category>, orders: map<Id, Order>,
                                  id: Id, s: Service)
    requires Consistent(users, services, categories, orders)
    requires id !in services && ValidService(s)
    requires forall k :: k in orders ==> orders[k].service != id
    ensures Consistent(PushService(users, s.provider, id), services[id := s],
                       PushMember(categories, s.category, id), orders)
  {
    NamesAfterService(users, categories, id, s);
    IndexesAfterService(users, services, categories, orders, id, s);
    ServiceWriteKeepsValid(services, id, s, services[id := s]);
  }

  /** Pushing a service id onto a user's and a category's lists keeps emails
      and category names unique and the categories valid. */
  lemma NamesAfterService(users: map<Id, User>, categories: map<Id, Category>, id: Id, s: Service)
    requires UniqueEmails(users) && UniqueNames(categories)
    requires forall k :: k in categories ==> ValidCategory(categories[k])
    ensures UniqueEmails(PushService(users, s.provider, id))
    ensures var categories' := PushMember(categories, s.category, id);
            UniqueNames(categories') && forall k :: k in categories' ==> ValidCategory(categories'[k])
  {
    PushServiceKeeps(users, s.provider, id);
    PushMemberKeeps(categories, s.category, id);
    SameEmailsKeepUnique(users, PushService(users, s.provider, id));
    SameNamesKeepValid(categories, PushMember(categories, s.category, id));
  }

  /** Both indexes after a new service is stored and its id pushed onto its
      provider's and its category's lists. */
  lemma IndexesAfterService(users: map<Id, User>, services: map<Id, Service>,
                            categories: map<Id, Category>, orders: map<Id, Order>, id: Id, s: Service)
    requires OrdersIndexed(orders, users, services) && ServicesIndexed(services, users, categories)
    requires id !in services
    requires forall k :: k in orders ==> orders[k].service != id
    ensures OrdersIndexed(orders, PushService(users, s.provider, id), services[id := s])
    ensures ServicesIndexed(services[id := s], PushService(users, s.provider, id),
                            PushMember(categories, s.category, id))
  {
    var users' := PushService(users, s.provider, id);
    var services' := services[id := s];
    var categories' := PushMember(categories, s.category, id);
    PushServiceKeeps(users, s.provider, id);
    PushMemberKeeps(categories, s.category, id);
    OrdersIndexedFrame(orders, users, services, users', services');
    forall k | k in services'
      ensures && (services'[k].category in categories' ==> k in categories'[services'[k].category].services)
              && (services'[k].provider in users' ==> k in users'[services'[k].provider].services)
    {
      if k != id {
        assert services'[k] == services[k];
      }
    }
  }

  /** `POST /services`, behind `verifyProvider`. An unknown category is 404.
      The new service belongs to the caller, with the schema's defaults; an
      empty image string fails the schema: 500, nothing stored. On success
      its id is pushed onto the caller's and the category's `services`. */
  method CreateService(db: Db, caller: Caller, req: ServiceRequest, newId: Id, now: int)
    returns (r: Reply<Service>)
    requires AuthMiddleware.VerifyProvider(caller.role).Pass?
    requires PassesServiceValidators(req)
    requires db.Unused(newId)
    modifies db
    ensures req.category !in old(db.categories) ==> r == Err(404, CategoryNotFound)
    ensures r.Ok? <==>
              req.category in old(db.categories) && forall i :: 0 <= i < |req.images| ==> req.images[i] != ""
    ensures !r.Ok? ==> unchanged(db)
    ensures r.Ok? ==>
              && r.status == 201
              && r.value == NewService(req.title, req.description, req.category, caller.id,
                                       req.price, req.duration, req.images, now)
              && r.value.provider == caller.id && r.value.status == Available
              && r.value.rating == 0.0 && r.value.reviews == [] && r.value.orders == []
              && db.services == old(db.services)[newId := r.value]
              && db.users == PushService(old(db.users), caller.id, newId)
              && db.categories == PushMember(old(db.categories), req.category, newId)
              && db.orders == old(db.orders)
    ensures old(db.Valid()) ==> db.Valid()
  {
    if req.category !in db.categories {
      return Err(404, CategoryNotFound);
    }
    var service := NewService(req.title, req.description, req.category, caller.id,
                              req.price, req.duration, req.images, now);
    if !ValidService(service) {
      return Err(500, ServerError);
    }
    if db.Valid() {
      AddServiceKeepsConsistent(db.users, db.services, db.categories, db.orders, newId, service);
    }
    db.services := db.services[newId := service];
    db.users := PushService(db.users, caller.id, newId);
    db.categories := PushMember(db.categories, req.category, newId);
    r := Ok(201, service);
  }

  /** `GET /services/:id`: the service, or 404. */
  method GetServiceById(db: Db, id: Id) returns (r: Reply<Service>)
    ensures id !in db.services ==> r == Err(404, ServiceNotFound)
    ensures id in db.services ==> r == Ok(200, db.services[id])
  {
    if id !in db.services {
      return Err(404, ServiceNotFound);
    }
    r := Ok(200, db.services[id]);
  }

  /** The category lists after a service moves from its old category to
      another one: pulled from the old list, pushed onto the new one. */
  function MoveBetween(cats: map<Id, Category>, id: Id, from: Id, to: Id): (r: map<Id, Category>)
    ensures r.Keys == cats.Keys
    ensures to in cats ==> id in r[to].services
    ensures from in cats && from != to ==> id !in r[from].services
    ensures forall k :: k in cats && k != from && k != to ==> r[k] == cats[k]
  {
    PushMember(PullMember(cats, from, id), to, id)
  }

  /** Moving a service to another category and storing the updated record
      keeps the store consistent when the record is valid and keeps its
      provider and its orders. Without a move the category lists stay. */
  lemma UpdateServiceKeepsConsistent(users: map<Id, User>, services: map<Id, Service>,
                                     categories: map<Id, Category>, orders: map<Id, Order>,
                                     id: Id, n: Service)
    requires Consistent(users, services, categories, orders)
    requires id in services && ValidService(n)
    requires n.provider == services[id].provider && n.orders == services[id].orders
    ensures n.category != services[id].category ==>
              Consistent(users, services[id := n], MoveBetween(categories, id, services[id].category, n.category),
                         orders)
    ensures n.category == services[id].category ==> Consistent(users, services[id := n], categories, orders)
  {
    OrdersIndexedFrame(orders, users, services, users, services[id := n]);
    ServiceWriteKeepsValid(services, id, n, services[id := n]);
    ServicesIndexedAfterUpdate(users, services, categories, id, n);
    if n.category != services[id].category {
      MoveKeepsNames(categories, id, services[id].category, n.category);
    }
  }

  /** Moving a service id between two category lists renames nothing. */
  lemma MoveKeepsNames(categories: map<Id, Category>, id: Id, from: Id, to: Id)
    requires UniqueNames(categories) && forall k :: k in categories ==> ValidCategory(categories[k])
    ensures var categories' := MoveBetween(categories, id, from, to);
            UniqueNames(categories') && forall k :: k in categories' ==> ValidCategory(categories'[k])
  {
    var pulled := PullMember(categories, from, id);
    PullMemberKeeps(categories, from, id);
    PushMemberKeeps(pulled, to, id);
    SameNamesKeepValid(categories, pulled);
    SameNamesKeepValid(pulled, PushMember(pulled, to, id));
  }

  /** The service index after an updated record is stored: unchanged lists
      when the category stays, the moved lists when it changes. */
  lemma ServicesIndexedAfterUpdate(users: map<Id, User>, services: map<Id, Service>,
                                   categories: map<Id, Category>, id: Id, n: Service)
    requires ServicesIndexed(services, users, categories)
    requires id in services && n.provider == services[id].provider
    ensures n.category != services[id].category ==>
              ServicesIndexed(services[id := n], users, MoveBetween(categories, id, services[id].category, n.category))
    ensures n.category == services[id].category ==> ServicesIndexed(services[id := n], users, categories)
  {
    var services' := services[id := n];
    var from := services[id].category;
    var categories' := if n.category != from then MoveBetween(categories, id, from, n.category) else categories;
    if n.category != from {
      var pulled := PullMember(categories, from, id);
      PullMemberKeeps(categories, from, id);
      PushMemberKeeps(pulled, n.category, id);
    }
    forall k | k in services'
      ensures && (services'[k].category in categories' ==> k in categories'[services'[k].category].services)
              && (services'[k].provider in users ==> k in users[services'[k].provider].services)
    {
      if k != id {
        assert services'[k] == services[k];
      }
    }
  }

  /** Why a failed save after a move matters: with the service still
      recorded under its old category, and the id already pulled from that
      category's list, the service index no longer holds. */
  lemma FailedMoveBreaksIndex(users: map<Id, User>, services: map<Id, Service>,
                              categories: map<Id, Category>, id: Id, to: Id)
    requires id in services && services[id].category in categories && to != services[id].category
    ensures !ServicesIndexed(services, users, MoveBetween(categories, id, services[id].category, to))
  {
    var moved := MoveBetween(categories, id, services[id].category, to);
    assert id !in moved[services[id].category].services;
  }

  /** `PUT /services/:id`, behind `verifyProvider`. Unknown service: 404.
      Only the service's own provider may update it; anyone else, an admin
      too, gets 401. A supplied category that differs from the current one
      moves the id between the two category lists first. Then every field is
      merged with `x || old`. A status outside the enum, or an empty image,
      fails the schema on save: 500 and the service is not stored, although
      the category lists have already moved. */
  method UpdateService(db: Db, caller: Caller, id: Id, u: ServiceUpdate) returns (r: Reply<Service>)
    requires AuthMiddleware.VerifyProvider(caller.role).Pass?
    requires PassesUpdateValidators(u)
    modifies db
    ensures id !in old(db.services) ==> r == Err(404, ServiceNotFound)
    ensures id in old(db.services) && old(db.services[id]).provider != caller.id ==>
              r == Err(401, NoEditPermission)
    ensures id !in old(db.services) || old(db.services[id]).provider != caller.id ==> unchanged(db)
    ensures id in old(db.services) && old(db.services[id]).provider == caller.id ==>
              var s := old(db.services[id]);
              var moved := u.category.Some? && u.category.value != s.category;
              && db.categories == (if moved then MoveBetween(old(db.categories), id, s.category, u.category.value)
                                   else old(db.categories))
              && (Given(u.status) && ParseServiceStatus(u.status.value).None? ==> r == Err(500, ServerError))
              && (r.Ok? <==>
                    && (Given(u.status) ==> ParseServiceStatus(u.status.value).Some?)
                    && ValidService(Merge(s, u, if Given(u.status) then ParseServiceStatus(u.status.value).value
                                                else s.status)))
    ensures r.Ok? ==>
              var s := old(db.services[id]);
              var status := if Given(u.status) then ParseServiceStatus(u.status.value).value else s.status;
              && r == Ok(200, Merge(s, u, status))
              && db.services == old(db.services)[id := r.value]
    ensures !r.Ok? ==> db.services == old(db.services)
    ensures db.users == old(db.users) && db.orders == old(db.orders)
    ensures old(db.Valid()) && r.Ok? ==> db.Valid()
    ensures old(db.Valid()) ==>
              (u.category.None? || id !in old(db.services) || u.category.value == old(db.services[id]).category)
              ==> db.Valid()
  {
    if id !in db.services {
      return Err(404, ServiceNotFound);
    }
    var service := db.services[id];
    if service.provider != caller.id {
      return Err(401, NoEditPermission);
    }
    ghost var wasValid := db.Valid();
    if u.category.Some? && u.category.value != service.category {
      db.categories := MoveBetween(db.categories, id, service.category, u.category.value);
    }
    var status := service.status;
    if Given(u.status) {
      var parsed := ParseServiceStatus(u.status.value);
      if parsed.None? {
        return Err(500, ServerError);
      }
      status := parsed.value;
    }
    var updated := Merge(service, u, status);
    if !ValidService(updated) {
      return Err(500, ServerError);
    }
    if wasValid {
      UpdateServiceKeepsConsistent(db.users, db.services, old(db.categories), db.orders, id, updated);
    }
    db.services := db.services[id := updated];
    r := Ok(200, updated);
  }

  /** Deleting a service after pulling its id from its provider's and its
      category's lists keeps the store consistent. The orders that name it
      stay and point at nothing. */
  lemma DeleteServiceKeepsConsistent(users: map<Id, User>, services: map<Id, Service>,
                                     categories: map<Id, Category>, orders: map<Id, Order>, id: Id)
    requires Consistent(users, services, categories, orders) && id in services
    ensures var s := services[id];
            Consistent(PullService(users, s.provider, id), services - {id},
                       PullMember(categories, s.category, id), orders)
  {
    var s := services[id];
    var users' := PullService(users, s.provider, id);
    var services' := services - {id};
    var categories' := PullMember(categories, s.category, id);
    PullServiceKeeps(users, s.provider, id);
    PullMemberKeeps(categories, s.category, id);
    SameEmailsKeepUnique(users, users');
    SameNamesKeepValid(categories, categories');
    OrdersIndexedFrame(orders, users, services, users', services');
    assert ServicesIndexed(services', users', categories') by {
      forall k | k in services'
        ensures && (services'[k].category in categories' ==> k in categories'[services'[k].category].services)
                && (services'[k].provider in users' ==> k in users'[services'[k].provider].services)
      {
        assert services'[k] == services[k];
      }
    }
  }

  /** `DELETE /services/:id`, behind `verifyProvider`. The service's
      provider or an admin may delete it (401 otherwise). The id leaves the
      provider's and the category's `services` lists and the service is
      removed; nothing else changes. */
  method DeleteService(db: Db, caller: Caller, id: Id) returns (r: Reply<string>)
    requires AuthMiddleware.VerifyProvider(caller.role).Pass?
    modifies db
    ensures id !in old(db.services) ==> r == Err(404, ServiceNotFound)
    ensures id in old(db.services) && old(db.services[id]).provider != caller.id && caller.role != Admin ==>
              r == Err(401, NoDeletePermission)
    ensures r.Ok? <==>
              id in old(db.services) && (old(db.services[id]).provider == caller.id || caller.role == Admin)
    ensures !r.Ok? ==> unchanged(db)
    ensures r.Ok? ==>
              var s := old(db.services[id]);
              && r == Ok(200, DeletedMessage)
              && db.services == old(db.services) - {id}
              && id !in db.services
              && db.users == PullService(old(db.users), s.provider, id)
              && db.categories == PullMember(old(db.categories), s.category, id)
              && db.orders == old(db.orders)
    ensures old(db.Valid()) ==> db.Valid()
  {
    if id !in db.services {
      return Err(404, ServiceNotFound);
    }
    var service := db.services[id];
    if service.provider != caller.id && caller.role != Admin {
      return Err(401, NoDeletePermission);
    }
    if db.Valid() {
      DeleteServiceKeepsConsistent(db.users, db.services, db.categories, db.orders, id);
    }
    db.users := PullService(db.users, service.provider, id);
    db.categories := PullMember(db.categories, service.category, id);
    db.services := db.services - {id};
    r := Ok(200, DeletedMessage);
  }

  /** The service after a review is appended: one more review and the
      aggregate rating recomputed as the mean of all of them. */
  function WithReview(s: Service, review: Review): (n: Service)
    ensures n.reviews == s.reviews + [review]
    ensures n.rating == RatingSum(s.reviews + [review]) as real / (|s.reviews| + 1) as real
    ensures n == s.(reviews := n.reviews, rating := n.rating)
  {
    var reviews := s.reviews + [review];
    s.(reviews := reviews, rating := MeanRating(reviews))
  }

  /** A valid review appended to a valid service keeps it valid: the mean of
      ratings in 1..5 lies in [1, 5], inside the schema's [0, 5] bound. */
  lemma WithReviewValid(s: Service, review: Review)
    requires ValidService(s) && ValidReview(review)
    ensures ValidService(WithReview(s, review))
    ensures 1.0 <= WithReview(s, review).rating <= 5.0
  {
    var reviews := s.reviews + [review];
    assert ValidReviews(reviews) by {
      forall i | 0 <= i < |reviews| ensures ValidReview(reviews[i]) {
        if i < |s.reviews| {
          assert reviews[i] == s.reviews[i];
        }
      }
    }
    MeanRatingInRange(reviews);
  }

  /** The review a request makes; an absent comment is stored as no comment,
      which the schema's `required` refuses like an empty one. */
  function ReviewOf(caller: Caller, rating: int, comment: Option<string>, now: int): (rv: Review)
    ensures rv.user == caller.id && rv.rating == rating && rv.createdAt == now
    ensures rv.comment != "" <==> Given(comment)
  {
    Review(caller.id, rating, if comment.Some? then comment.value else "", now)
  }

  /** `POST /services/:id/review`. The handler does not consult the route's
      validators, so the rating and comment are checked only by the schema.
      Unknown service: 404. A caller who already reviewed it: 400, nothing
      changes. Otherwise exactly one review is appended and the rating
      becomes the mean of all reviews; a rating outside 1..5 or a missing
      comment fails the schema: 500, nothing stored. */
  method AddReview(db: Db, caller: Caller, id: Id, rating: int, comment: Option<string>, now: int)
    returns (r: Reply<string>)
    modifies db
    ensures id !in old(db.services) ==> r == Err(404, ServiceNotFound)
    ensures id in old(db.services) && ReviewedBy(old(db.services[id]).reviews, caller.id) ==>
              r == Err(400, AlreadyReviewed)
    ensures r.Ok? ==>
              && id in old(db.services) && !ReviewedBy(old(db.services[id]).reviews, caller.id)
              && 1 <= rating <= 5 && Given(comment)
    ensures old(db.Valid()) ==>
              (id in old(db.services) && !ReviewedBy(old(db.services[id]).reviews, caller.id)
               && 1 <= rating <= 5 && Given(comment)) ==> r.Ok?
    ensures r.Ok? ==>
              var n := WithReview(old(db.services[id]), ReviewOf(caller, rating, comment, now));
              && r == Ok(201, ReviewAdded)
              && |n.reviews| == |old(db.services[id]).reviews| + 1
              && ValidService(n)
              && db.services == old(db.services)[id := n]
    ensures !r.Ok? ==> db.services == old(db.services)
    ensures db.users == old(db.users) && db.categories == old(db.categories) && db.orders == old(db.orders)
    ensures old(db.Valid()) ==> db.Valid()
  {
    if id !in db.services {
      return Err(404, ServiceNotFound);
    }
    var service := db.services[id];
    if ReviewedBy(service.reviews, caller.id) {
      return Err(400, AlreadyReviewed);
    }
    var review := ReviewOf(caller, rating, comment, now);
    var updated := WithReview(service, review);
    if db.Valid() && ValidReview(review) {
      WithReviewValid(service, review);
    }
    if !ValidService(updated) {
      return Err(500, ServerError);
    }
    assert ValidReview(review) by {
      assert review == updated.reviews[|service.reviews|];
    }
    ghost var wasValid := db.Valid();
    db.services := db.services[id := updated];
    if wasValid {
      assert ServicesIndexed(db.services, db.users, db.categories) by {
        forall k | k in db.services
          ensures && (db.services[k].category in db.categories ==>
                        k in db.categories[db.services[k].category].services)
                  && (db.services[k].provider in db.users ==> k in db.users[db.services[k].provider].services)
        {
          if k != id {
            assert db.services[k] == old(db.services)[k];
          }
        }
      }
    }
    r := Ok(201, ReviewAdded);
  }
}
