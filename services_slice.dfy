/** The client's services state and its reducers. Each reducer updates the
    state in place: the `.pending` and `.rejected` cases shared by every
    request, and one `.fulfilled` case per request. */
module ServicesSlice {
  import opened Common
  import opened ClientList

  /** The payload of `fetchServices` as the reducer reads it: the services
      and a total. */
  datatype ServicesPayload<T> = ServicesPayload(services: seq<Doc<T>>, total: int)

  class ServicesState<T> {
    var services: seq<Doc<T>>
    var currentService: Option<Doc<T>>
    var loading: bool
    var error: Option<string>
    var total: int
    var page: int
    var limit: int

    /** `total` counts the services held. */
    ghost predicate Counted()
      reads this
    {
      total == |services|
    }

    /** The initial state: no services, no current service, page 1 of 10. */
    constructor ()
      ensures services == [] && currentService.None? && !loading && error.None?
      ensures total == 0 && page == 1 && limit == 10
      ensures Counted()
    {
      services, currentService, loading, error := [], None, false, None;
      total, page, limit := 0, 1, 10;
    }

    /** `clearError`. */
    method ClearError()
      modifies this
      ensures error.None?
      ensures services == old(services) && currentService == old(currentService) && loading == old(loading)
      ensures total == old(total) && page == old(page) && limit == old(limit)
    {
      error := None;
    }

    /** `setPage`. */
    method SetPage(p: int)
      modifies this
      ensures page == p
      ensures services == old(services) && currentService == old(currentService) && loading == old(loading)
      ensures error == old(error) && total == old(total) && limit == old(limit)
    {
      page := p;
    }

    /** `setLimit`. */
    method SetLimit(l: int)
      modifies this
      ensures limit == l
      ensures services == old(services) && currentService == old(currentService) && loading == old(loading)
      ensures error == old(error) && total == old(total) && page == old(page)
    {
      limit := l;
    }

    /** Every `.pending` case: loading, no error, the data untouched. */
    method Pending()
      modifies this
      ensures loading && error.None?
      ensures services == old(services) && currentService == old(currentService)
      ensures total == old(total) && page == old(page) && limit == old(limit)
    {
      loading := true;
      error := None;
    }

    /** Every `.rejected` case: not loading, the error is the payload, the
        data untouched. */
    method Rejected(message: string)
      modifies this
      ensures !loading && error == Some(message)
      ensures services == old(services) && currentService == old(currentService)
      ensures total == old(total) && page == old(page) && limit == old(limit)
    {
      loading := false;
      error := Some(message);
    }

    /** `fetchServices.fulfilled`: the list and the total come from the payload. */
    method FetchServicesFulfilled(payload: ServicesPayload<T>)
      modifies this
      ensures !loading && services == payload.services && total == payload.total
      ensures currentService == old(currentService) && error == old(error)
      ensures page == old(page) && limit == old(limit)
      ensures payload.total == |payload.services| ==> Counted()
    {
      loading := false;
      services := payload.services;
      total := payload.total;
    }

    /** `fetchServiceById.fulfilled`: the payload becomes the current service. */
    method FetchServiceByIdFulfilled(payload: Doc<T>)
      modifies this
      ensures !loading && currentService == Some(payload)
      ensures services == old(services) && error == old(error) && total == old(total)
      ensures page == old(page) && limit == old(limit)
    {
      loading := false;
      currentService := Some(payload);
    }

    /** `createNewService.fulfilled`: the payload is appended and the total
        goes up by one, so a counted state stays counted. */
    method CreateNewServiceFulfilled(payload: Doc<T>)
      modifies this
      ensures !loading && services == old(services) + [payload] && total == old(total) + 1
      ensures currentService == old(currentService) && error == old(error)
      ensures page == old(page) && limit == old(limit)
      ensures old(Counted()) ==> Counted()
    {
      loading := false;
      services := services + [payload];
      total := total + 1;
    }

    /** `updateExistingService.fulfilled`: the first service with the payload's
        id is replaced and the length is kept; with no such service the list
        stays. The current service is replaced exactly when it has that id. */
    method UpdateExistingServiceFulfilled(payload: Doc<T>)
      modifies this
      ensures !loading && services == ReplaceFirst(old(services), payload)
      ensures |services| == |old(services)|
      ensures currentService == (if old(currentService).Some? && old(currentService).value.id == payload.id
                               then Some(payload) else old(currentService))
      ensures error == old(error) && total == old(total) && page == old(page) && limit == old(limit)
      ensures old(Counted()) ==> Counted()
    {
      loading := false;
      var index := FirstIndexOf(services, payload.id);
      if index != -1 {
        services := services[index := payload];
      }
      if currentService.Some? && currentService.value.id == payload.id {
        currentService := Some(payload);
      }
    }

    /** `deleteExistingService.fulfilled`: every service with the id is filtered
        out, the rest keep their order, and the total goes down by one
        whether or not anything matched. A counted state stays counted
        exactly when one service had the id. The current service stays. */
    method DeleteExistingServiceFulfilled(id: string)
      modifies this
      ensures !loading && services == WithoutId(old(services), id) && total == old(total) - 1
      ensures currentService == old(currentService) && error == old(error)
      ensures page == old(page) && limit == old(limit)
      ensures old(Counted()) ==> (Counted() <==> CountId(old(services), id) == 1)
    {
      WithoutIdLength(services, id);
      loading := false;
      services := WithoutId(services, id);
      total := total - 1;
    }
  }
}
