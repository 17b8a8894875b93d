/** The document store, replaced by four in-memory collections from ids to
    records, and the consistency the handlers maintain between them: every
    stored record passes its schema, category names and user emails are
    unique, and the back-reference lists hold the ids of the records that
    point at their owner. */
module Store {
  import opened Common
  import opened UserModel
  import opened OrderModel
  import opened ServiceModel
  import opened CategoryModel

  /** Every stored record passes its schema. */
  predicate RecordsValid(services: map<Id, Service>, categories: map<Id, Category>,
                         orders: map<Id, Order>)
  {
    && (forall k :: k in services ==> ValidService(services[k]))
    && (forall k :: k in categories ==> ValidCategory(categories[k]))
    && (forall k :: k in orders ==> ValidOrder(orders[k]))
  }

  /** An order's id is on its buyer's, its provider's and its service's
      `orders` list, whenever that record exists. */
  predicate OrdersIndexed(orders: map<Id, Order>, users: map<Id, User>, services: map<Id, Service>)
  {
    forall k :: k in orders ==>
      && (orders[k].user in users ==> k in users[orders[k].user].orders)
      && (orders[k].provider in users ==> k in users[orders[k].provider].orders)
      && (orders[k].service in services ==> k in services[orders[k].service].orders)
  }

  /** A service's id is on its category's and its provider's `services` list,
      whenever that record exists. */
  predicate ServicesIndexed(services: map<Id, Service>, users: map<Id, User>,
                            categories: map<Id, Category>)
  {
    forall k :: k in services ==>
      && (services[k].category in categories ==> k in categories[services[k].category].services)
      && (services[k].provider in users ==> k in users[services[k].provider].services)
  }

  /** `$push` onto one user's `orders` list; a missing user is left alone,
      as `findByIdAndUpdate` on a missing document does. */
  function PushOrder(users: map<Id, User>, u: Id, id: Id): (r: map<Id, User>)
    ensures r.Keys == users.Keys
    ensures u in users ==> r[u] == users[u].(orders := users[u].orders + [id])
    ensures forall k :: k in users && k != u ==> r[k] == users[k]
  {
    if u in users then users[u := users[u].(orders := users[u].orders + [id])] else users
  }

  /** `$push` onto one user's `services` list. */
  function PushService(users: map<Id, User>, u: Id, id: Id): (r: map<Id, User>)
    ensures r.Keys == users.Keys
    ensures u in users ==> r[u] == users[u].(services := users[u].services + [id])
    ensures forall k :: k in users && k != u ==> r[k] == users[k]
  {
    if u in users then users[u := users[u].(services := users[u].services + [id])] else users
  }

  /** `$pull` from one user's `services` list. */
  function PullService(users: map<Id, User>, u: Id, id: Id): (r: map<Id, User>)
    ensures r.Keys == users.Keys
    ensures u in users ==> r[u] == users[u].(services := Pull(users[u].services, id))
    ensures forall k :: k in users && k != u ==> r[k] == users[k]
  {
    if u in users then users[u := users[u].(services := Pull(users[u].services, id))] else users
  }

  /** `$push` onto one category's `services` list. */
  function PushMember(cats: map<Id, Category>, c: Id, id: Id): (r: map<Id, Category>)
    ensures r.Keys == cats.Keys
    ensures c in cats ==> r[c] == cats[c].(services := cats[c].services + [id])
    ensures forall k :: k in cats && k != c ==> r[k] == cats[k]
  {
    if c in cats then cats[c := cats[c].(services := cats[c].services + [id])] else cats
  }

  /** `$pull` from one category's `services` list. */
  function PullMember(cats: map<Id, Category>, c: Id, id: Id): (r: map<Id, Category>)
    ensures r.Keys == cats.Keys
    ensures c in cats ==> r[c] == cats[c].(services := Pull(cats[c].services, id))
    ensures forall k :: k in cats && k != c ==> r[k] == cats[k]
  {
    if c in cats then cats[c := cats[c].(services := Pull(cats[c].services, id))] else cats
  }

  /** The store's consistency, stated on the four collections. */
  predicate Consistent(users: map<Id, User>, services: map<Id, Service>,
                       categories: map<Id, Category>, orders: map<Id, Order>)
  {
    && RecordsValid(services, categories, orders)
    && UniqueNames(categories)
    && UniqueEmails(users)
    && OrdersIndexed(orders, users, services)
    && ServicesIndexed(services, users, categories)
  }

  /** What a `$push` onto one user's `orders` list keeps: the keys, every
      user's email and `services` list, and every id already listed. */
  lemma PushOrderKeeps(users: map<Id, User>, u: Id, id: Id)
    ensures forall k :: k in users ==>
              PushOrder(users, u, id)[k].email == users[k].email
              && PushOrder(users, u, id)[k].services == users[k].services
    ensures forall k, x :: k in users && x in users[k].orders ==> x in PushOrder(users, u, id)[k].orders
    ensures u in users ==> id in PushOrder(users, u, id)[u].orders
  {
  }

  /** Pushing an order id for its buyer and then for its provider: each list
      gains the id once, or twice when buyer and provider are one user. */
  lemma PushOrderTwice(users: map<Id, User>, buyer: Id, provider: Id, id: Id)
    ensures var r := PushOrder(PushOrder(users, buyer, id), provider, id);
            && (buyer != provider && buyer in users ==> r[buyer].orders == users[buyer].orders + [id])
            && (buyer != provider && provider in users ==> r[provider].orders == users[provider].orders + [id])
            && (buyer == provider && provider in users ==> r[provider].orders == users[provider].orders + [id, id])
  {
    if buyer == provider && provider in users {
      assert users[provider].orders + [id] + [id] == users[provider].orders + [id, id];
    }
  }

  /** Changing users without changing anyone's email keeps emails unique. */
  lemma SameEmailsKeepUnique(users: map<Id, User>, users': map<Id, User>)
    requires UniqueEmails(users) && users'.Keys == users.Keys
    requires forall k :: k in users ==> users'[k].email == users[k].email
    ensures UniqueEmails(users')
  {
  }

  /** The service index only depends on each service's category and provider,
      on the category lists and on the users' `services` lists. */
  lemma ServicesIndexedFrame(services: map<Id, Service>, users: map<Id, User>,
                             categories: map<Id, Category>,
                             services': map<Id, Service>, users': map<Id, User>)
    requires ServicesIndexed(services, users, categories)
    requires services'.Keys == services.Keys && users'.Keys == users.Keys
    requires forall k :: k in services ==>
               services'[k].category == services[k].category && services'[k].provider == services[k].provider
    requires forall k :: k in users ==> users'[k].services == users[k].services
    ensures ServicesIndexed(services', users', categories)
  {
  }

  /** The order index after a new order is stored and its id is pushed onto
      its service's list and onto (at least) its buyer's and provider's lists. */
  lemma OrdersIndexedAfterAdd(orders: map<Id, Order>, users: map<Id, User>, services: map<Id, Service>,
                              users': map<Id, User>, services': map<Id, Service>, id: Id, o: Order)
    requires OrdersIndexed(orders, users, services) && id !in orders
    requires users'.Keys == users.Keys && services'.Keys == services.Keys
    requires forall k, x :: k in users && x in users[k].orders ==> x in users'[k].orders
    requires forall k, x :: k in services && x in services[k].orders ==> x in services'[k].orders
    requires o.user in users ==> id in users'[o.user].orders
    requires o.provider in users ==> id in users'[o.provider].orders
    requires o.service in services ==> id in services'[o.service].orders
    ensures OrdersIndexed(orders[id := o], users', services')
  {
    var orders' := orders[id := o];
    forall k | k in orders'
      ensures && (orders'[k].user in users' ==> k in users'[orders'[k].user].orders)
              && (orders'[k].provider in users' ==> k in users'[orders'[k].provider].orders)
              && (orders'[k].service in services' ==> k in services'[orders'[k].service].orders)
    {
      if k != id {
        assert orders'[k] == orders[k];
      }
    }
  }

  /** The order index after a new order is stored and its id is pushed onto
      its buyer's, its provider's and its service's lists. */
  lemma OrdersIndexedAfterOrder(orders: map<Id, Order>, users: map<Id, User>, services: map<Id, Service>,
                                id: Id, o: Order)
    requires OrdersIndexed(orders, users, services) && id !in orders && o.service in services
    ensures var s := services[o.service];
            OrdersIndexed(orders[id := o], PushOrder(PushOrder(users, o.user, id), o.provider, id),
                          services[o.service := s.(orders := s.orders + [id])])
  {
    var s := services[o.service];
    var users1 := PushOrder(users, o.user, id);
    PushOrderKeeps(users, o.user, id);
    PushOrderKeeps(users1, o.provider, id);
    OrdersIndexedAfterAdd(orders, users, services, PushOrder(users1, o.provider, id),
                          services[o.service := s.(orders := s.orders + [id])], id, o);
  }

  /** Emails and the service index after an order id is pushed onto two
      users' lists and onto one service's list. */
  lemma OthersAfterOrder(users: map<Id, User>, services: map<Id, Service>, categories: map<Id, Category>,
                         id: Id, o: Order)
    requires UniqueEmails(users) && ServicesIndexed(services, users, categories) && o.service in services
    ensures var users' := PushOrder(PushOrder(users, o.user, id), o.provider, id);
            var s := services[o.service];
            && UniqueEmails(users')
            && ServicesIndexed(services[o.service := s.(orders := s.orders + [id])], users', categories)
  {
    var s := services[o.service];
    var users1 := PushOrder(users, o.user, id);
    var users' := PushOrder(users1, o.provider, id);
    PushOrderKeeps(users, o.user, id);
    PushOrderKeeps(users1, o.provider, id);
    SameEmailsKeepUnique(users, users');
    ServicesIndexedFrame(services, users, categories, services[o.service := s.(orders := s.orders + [id])], users');
  }

  /** Storing a new valid order and pushing its id onto its buyer's, its
      provider's and its service's lists keeps the store consistent. */
  lemma AddOrderKeepsConsistent(users: map<Id, User>, services: map<Id, Service>,
                                categories: map<Id, Category>, orders: map<Id, Order>,
                                id: Id, o: Order)
    requires Consistent(users, services, categories, orders)
    requires id !in orders && ValidOrder(o) && o.service in services
    ensures var s := services[o.service];
            Consistent(PushOrder(PushOrder(users, o.user, id), o.provider, id),
                       services[o.service := s.(orders := s.orders + [id])], categories,
                       orders[id := o])
  {
    var s := services[o.service];
    OrdersIndexedAfterOrder(orders, users, services, id, o);
    OthersAfterOrder(users, services, categories, id, o);
    ServiceWriteKeepsValid(services, o.service, s.(orders := s.orders + [id]),
                           services[o.service := s.(orders := s.orders + [id])]);
  }

  /** Writing one valid service keeps every stored service valid. */
  lemma ServiceWriteKeepsValid(services: map<Id, Service>, k: Id, s: Service, services': map<Id, Service>)
    requires (forall j :: j in services ==> ValidService(services[j])) && ValidService(s)
    requires services' == services[k := s]
    ensures forall j :: j in services' ==> ValidService(services'[j])
  {
  }

  /** What a `$push` onto one user's `services` list keeps. */
  lemma PushServiceKeeps(users: map<Id, User>, u: Id, id: Id)
    ensures forall k :: k in users ==>
              PushService(users, u, id)[k].email == users[k].email
              && PushService(users, u, id)[k].orders == users[k].orders
    ensures forall k, x :: k in users && x in users[k].services ==> x in PushService(users, u, id)[k].services
    ensures u in users ==> id in PushService(users, u, id)[u].services
  {
  }

  /** What a `$pull` from one user's `services` list keeps: every other id. */
  lemma PullServiceKeeps(users: map<Id, User>, u: Id, id: Id)
    ensures forall k :: k in users ==>
              PullService(users, u, id)[k].email == users[k].email
              && PullService(users, u, id)[k].orders == users[k].orders
    ensures forall k, x :: k in users && x in users[k].services && x != id ==>
              x in PullService(users, u, id)[k].services
  {
  }

  /** What a `$push` onto one category's `services` list keeps. */
  lemma PushMemberKeeps(cats: map<Id, Category>, c: Id, id: Id)
    ensures forall k :: k in cats ==> PushMember(cats, c, id)[k].name == cats[k].name
    ensures forall k, x :: k in cats && x in cats[k].services ==> x in PushMember(cats, c, id)[k].services
    ensures c in cats ==> id in PushMember(cats, c, id)[c].services
  {
  }

  /** What a `$pull` from one category's `services` list keeps: every other id. */
  lemma PullMemberKeeps(cats: map<Id, Category>, c: Id, id: Id)
    ensures forall k :: k in cats ==> PullMember(cats, c, id)[k].name == cats[k].name
    ensures forall k, x :: k in cats && x in cats[k].services && x != id ==>
              x in PullMember(cats, c, id)[k].services
  {
  }

  /** Changing categories without renaming any keeps them valid and their
      names unique. */
  lemma SameNamesKeepValid(cats: map<Id, Category>, cats': map<Id, Category>)
    requires UniqueNames(cats) && (forall k :: k in cats ==> ValidCategory(cats[k]))
    requires cats'.Keys == cats.Keys
    requires forall k :: k in cats ==> cats'[k].name == cats[k].name
    ensures UniqueNames(cats') && forall k :: k in cats' ==> ValidCategory(cats'[k])
  {
  }

  /** The order index survives any change that keeps every user's and every
      remaining service's `orders` list and adds no service that an order
      already names. */
  lemma OrdersIndexedFrame(orders: map<Id, Order>, users: map<Id, User>, services: map<Id, Service>,
                           users': map<Id, User>, services': map<Id, Service>)
    requires OrdersIndexed(orders, users, services)
    requires users'.Keys == users.Keys
    requires forall k :: k in users ==> users'[k].orders == users[k].orders
    requires forall k :: k in services' && k in services ==> services'[k].orders == services[k].orders
    requires forall k :: k in orders && orders[k].service in services' ==> orders[k].service in services
    ensures OrdersIndexed(orders, users', services')
  {
  }

  class Db {
    var users: map<Id, User>
    var services: map<Id, Service>
    var categories: map<Id, Category>
    var orders: map<Id, Order>

    /** The store's consistency, kept by every handler. */
    ghost predicate Valid()
      reads this
    {
      Consistent(users, services, categories, orders)
    }

    /** A freshly generated ObjectId: no collection holds it and no record
        refers to it. */
    ghost predicate Unused(id: Id)
      reads this
    {
      && id !in users && id !in services && id !in categories && id !in orders
      && (forall k :: k in orders ==>
            orders[k].service != id && orders[k].user != id && orders[k].provider != id)
      && (forall k :: k in services ==> services[k].category != id && services[k].provider != id)
    }

    /** An empty store. */
    constructor ()
      ensures Valid()
      ensures users == map[] && services == map[] && categories == map[] && orders == map[]
    {
      users, services, categories, orders := map[], map[], map[], map[];
    }
  }
}
