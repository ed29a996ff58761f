// The tickets hook: fetching a tenant's tickets with a one-second throttle.
module UseTickets {
  import opened Wrappers
  import opened UseTenant
  import opened ApiClient

  /** A ticket as the hook handles it; it reads nothing but the status. */
  datatype Ticket = Ticket(id: string, status: string)

  const ThrottleMs: int := 1000
  const NoTenantError := "Tenant não identificado"
  const FetchError := "Não foi possível carregar os tickets"

  function TicketsPath(t: TenantInfo): string {
    "/" + t.slug + "/tickets"
  }

  /** `lastUpdate && now - lastUpdate < 1000`, times in milliseconds. */
  predicate Throttled(lastUpdate: Option<int>, now: int) {
    lastUpdate.Some? && now - lastUpdate.value < ThrottleMs
  }

  /** After an update at time `t`, calls are throttled up to (not including)
      `t + 1000`, and never afterwards. */
  lemma ThrottleWindow(t: int, now: int)
    ensures Throttled(Some(t), now) <==> now < t + ThrottleMs
    ensures !Throttled(None, now)
  {
  }

  /** The hook's state. */
  class TicketsState {
    var tickets: seq<Ticket>
    var isLoading: bool
    var error: Option<string>
    var lastUpdate: Option<int>

    constructor ()
      ensures tickets == [] && isLoading && error.None? && lastUpdate.None?
    {
      tickets := [];
      isLoading := true;
      error := None;
      lastUpdate := None;
    }

    /** `fetchTickets`. The clock is read twice: `now` for the throttle check
        before the request, and `respondedAt` when an array response has
        arrived and is stamped as the last update; nothing is assumed about
        their order. `response` is what the request returns; `request` is the
        path requested, if any. */
    method FetchTickets(tenant: Option<TenantInfo>, now: int, respondedAt: int, response: ApiOutcome<Ticket>)
      returns (request: Option<string>)
      modifies this
      ensures tenant.None? ==>
        request.None? && error == Some(NoTenantError) && tickets == [] && !isLoading &&
        lastUpdate == old(lastUpdate)
      ensures tenant.Some? && Throttled(old(lastUpdate), now) ==>
        request.None? && tickets == old(tickets) && isLoading == old(isLoading) &&
        error == old(error) && lastUpdate == old(lastUpdate)
      ensures tenant.Some? && !Throttled(old(lastUpdate), now) ==>
        request == Some(TicketsPath(tenant.value)) && !isLoading &&
        match response
        case ArrayData(items) => tickets == items && lastUpdate == Some(respondedAt) && error.None?
        case OtherData => tickets == [] && lastUpdate == old(lastUpdate) && error.None?
        case RequestFailed => tickets == [] && lastUpdate == old(lastUpdate) && error == Some(FetchError)
    {
      if tenant.None? {
        error := Some(NoTenantError);
        tickets := [];
        isLoading := false;
        return None;
      }
      if lastUpdate.Some? && now - lastUpdate.value < ThrottleMs {
        return None;
      }
      isLoading := true;
      request := Some("/" + tenant.value.slug + "/tickets");
      match response {
        case ArrayData(items) =>
          tickets := items;
          lastUpdate := Some(respondedAt);
          error := None;
        case OtherData =>
          tickets := [];
          error := None;
        case RequestFailed =>
          error := Some(FetchError);
          tickets := [];
      }
      isLoading := false;
    }
  }
}
