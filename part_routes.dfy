/** The router of `/api/parts`: which handler answers each method and
    path, and whether the `protect` middleware runs first. The middleware
    itself (token verification) is not part of this model: it is taken to
    let an authenticated requester through and to stop an anonymous one. */
module PartRoutes {
  import opened Base

  datatype Verb = Get | Post | Put | Delete

  /** `/` and `/:id` under the router's mount point. */
  datatype Path = Collection | Member(id: Id)

  datatype Guard = Public | Protect

  datatype Handler = GetParts | CreatePart | GetPartById | UpdatePart | DeletePart

  datatype Route = Route(guard: Guard, handler: Handler)

  /** The route table. Reads are public; every mutation runs `protect`.
      Methods the table does not list fall through (no route). */
  function RouteFor(v: Verb, p: Path): (r: Option<Route>)
    ensures r.None? <==> (p.Collection? && (v.Put? || v.Delete?)) || (p.Member? && v.Post?)
    ensures r.Some? ==> (r.value.guard == Protect <==> !v.Get?)
  {
    match (v, p)
    case (Get, Collection) => Some(Route(Public, GetParts))
    case (Post, Collection) => Some(Route(Protect, CreatePart))
    case (Get, Member(_)) => Some(Route(Public, GetPartById))
    case (Put, Member(_)) => Some(Route(Protect, UpdatePart))
    case (Delete, Member(_)) => Some(Route(Protect, DeletePart))
    case _ => None
  }

  /** Each handler is reached from exactly one method on one path shape. */
  lemma OneRoutePerHandler(v1: Verb, p1: Path, v2: Verb, p2: Path)
    requires RouteFor(v1, p1).Some? && RouteFor(v2, p2).Some?
    requires RouteFor(v1, p1).value.handler == RouteFor(v2, p2).value.handler
    ensures v1 == v2 && p1.Collection? == p2.Collection?
  {
  }

  datatype Requester = Anonymous | Authenticated(user: User)

  datatype Outcome = NotRouted | Unauthorized | Handled(handler: Handler)

  /** What happens to a request: no route, stopped by `protect`, or passed
      to the route's handler. */
  function Dispatch(v: Verb, p: Path, who: Requester): (d: Outcome)
    ensures d == NotRouted <==> RouteFor(v, p).None?
    ensures d == Unauthorized <==> RouteFor(v, p).Some? && RouteFor(v, p).value.guard == Protect && who.Anonymous?
    ensures d.Handled? ==> RouteFor(v, p).Some? && d.handler == RouteFor(v, p).value.handler
  {
    match RouteFor(v, p)
    case None => NotRouted
    case Some(route) =>
      if route.guard == Protect && who.Anonymous? then Unauthorized else Handled(route.handler)
  }

  /** An anonymous request reaches a handler only when it reads. */
  lemma AnonymousOnlyReads(v: Verb, p: Path)
    requires Dispatch(v, p, Anonymous).Handled?
    ensures v == Get
  {
  }

  /** No route consults the role: any authenticated user, admin or not,
      reaches the same handler, mutations included. */
  lemma RoleNotConsulted(v: Verb, p: Path, a: User, b: User)
    ensures Dispatch(v, p, Authenticated(a)) == Dispatch(v, p, Authenticated(b))
    ensures RouteFor(v, p).Some? ==> Dispatch(v, p, Authenticated(a)) == Handled(RouteFor(v, p).value.handler)
  {
  }
}
