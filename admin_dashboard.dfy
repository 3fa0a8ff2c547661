/** The admin dashboard: admins only; it loads every part and every order,
    deletes parts and marks orders delivered, and after each successful
    server call updates its own lists at the targeted id. */
module AdminDashboard {
  import opened Base
  import opened Keyed
  import opened Parts
  import opened Orders
  import PartController
  import PartQuery

  const DeleteFailed := "Error deleting part"
  const DeliverFailed := "Update failed"

  /** The local list after a successful delete. */
  function AfterDelete(parts: seq<Part>, id: Id): (r: seq<Part>)
    ensures |r| <= |parts|
    ensures forall p :: p in r ==> p in parts && p.id != id
  {
    Without(parts, PartId, id)
  }

  function MarkDelivered(now: int): Order -> Order
  {
    (o: Order) => o.(isDelivered := true, deliveredAt := Some(now))
  }

  /** The local list after a successful deliver: the order with that id is
      delivered at `now`; every other order is unchanged and in place. */
  function AfterDeliver(orders: seq<Order>, id: Id, now: int): (r: seq<Order>)
    ensures |r| == |orders|
    ensures forall i :: 0 <= i < |orders| && orders[i].id == id ==>
      r[i] == orders[i].(isDelivered := true, deliveredAt := Some(now))
    ensures forall i :: 0 <= i < |orders| && orders[i].id != id ==> r[i] == orders[i]
  {
    UpdateWhere(orders, OrderId, id, MarkDelivered(now))
  }

  /** Delivering an order whose row offered the Deliver button keeps every
      delivered order a paid one. */
  lemma DeliverKeepsPaidBeforeDelivered(orders: seq<Order>, k: nat, now: int)
    requires UniqueIds(orders, OrderId) && PaidBeforeDelivered(orders)
    requires k < |orders| && ReadyToDeliver(orders[k])
    ensures PaidBeforeDelivered(AfterDeliver(orders, orders[k].id, now))
  {
  }

  class AdminDashboardPage {
    const user: Option<User>
    var parts: seq<Part>
    var orders: seq<Order>
    var loading: bool
    var redirectedTo: Option<Location>
    /** The number of API requests the page has issued. */
    ghost var requests: nat

    /** Mounting. A visitor who is not an admin is sent to the dashboard
        and nothing is fetched. For an admin the page fetches parts and
        orders together; `reply` is the pair they returned, or None when
        either request failed, in which case the lists stay empty. */
    constructor (user: Option<User>, reply: Option<(seq<Part>, seq<Order>)>)
      ensures this.user == user
      ensures !IsAdmin(user) ==>
        redirectedTo == Some(DashboardRoute) && requests == 0 && parts == [] && orders == [] && loading
      ensures IsAdmin(user) ==> redirectedTo == None && requests == 2 && !loading
      ensures IsAdmin(user) ==>
        parts == (if reply.Some? then reply.value.0 else []) && orders == (if reply.Some? then reply.value.1 else [])
    {
      this.user := user;
      parts, orders, loading := [], [], true;
      if !IsAdmin(user) {
        redirectedTo, requests := Some(DashboardRoute), 0;
      } else {
        redirectedTo, requests := None, 2;
        if reply.Some? {
          parts, orders := reply.value.0, reply.value.1;
        }
        loading := false;
      }
    }

    /** `handleDelete(id)`: nothing without confirmation; otherwise the
        delete request is sent and, when it succeeds, the part leaves the
        local list; on failure an alert is shown and the list is kept. */
    method HandleDelete(id: Id, confirmed: bool, succeeded: bool) returns (alert: Option<string>)
      modifies this
      ensures orders == old(orders) && loading == old(loading) && redirectedTo == old(redirectedTo)
      ensures requests == old(requests) + (if confirmed then 1 else 0)
      ensures parts == if confirmed && succeeded then AfterDelete(old(parts), id) else old(parts)
      ensures alert == if confirmed && !succeeded then Some(DeleteFailed) else None
    {
      alert := None;
      if confirmed {
        requests := requests + 1;
        if succeeded {
          parts := AfterDelete(parts, id);
        } else {
          alert := Some(DeleteFailed);
        }
      }
    }

    /** `handleDeliver(id)`: nothing without confirmation; otherwise the
        deliver request is sent and, when it succeeds, exactly the order
        with that id is marked delivered at `now`. */
    method HandleDeliver(id: Id, confirmed: bool, succeeded: bool, now: int) returns (alert: Option<string>)
      modifies this
      ensures parts == old(parts) && loading == old(loading) && redirectedTo == old(redirectedTo)
      ensures requests == old(requests) + (if confirmed then 1 else 0)
      ensures orders == if confirmed && succeeded then AfterDeliver(old(orders), id, now) else old(orders)
      ensures alert == if confirmed && !succeeded then Some(DeliverFailed) else None
    {
      alert := None;
      if confirmed {
        requests := requests + 1;
        if succeeded {
          orders := AfterDeliver(orders, id, now);
        } else {
          alert := Some(DeliverFailed);
        }
      }
    }
  }

  /** Filtering a sorted list keeps it sorted. */
  lemma {:induction false} AfterDeleteSorted(o: PartQuery.SortOrder, parts: seq<Part>, id: Id)
    requires PartQuery.Sorted(o, parts)
    ensures PartQuery.Sorted(o, AfterDelete(parts, id))
  {
    if parts != [] {
      var rest := AfterDelete(parts[1..], id);
      AfterDeleteSorted(o, parts[1..], id);
      forall x | x in rest ensures PartQuery.Before(o, parts[0], x) {
        var j :| 1 <= j < |parts| && parts[j] == x;
      }
      assert AfterDelete(parts, id) == (if parts[0].id == id then [] else [parts[0]]) + rest;
    }
  }

  /** The page's list and the store hold the same parts. */
  predicate InSync(page: seq<Part>, store: seq<Part>)
  {
    multiset(page) == multiset(store) && PartQuery.Sorted(PartQuery.NewestFirst, page)
  }

  /** The list the page loads, `GET /api/parts` with no query, holds
      exactly the store's parts, newest first. */
  lemma {:induction false} LoadedInSync(parts: seq<Part>)
    ensures InSync(PartQuery.ListParts(parts, PartQuery.Query(None, None, None)), parts)
  {
    PartQuery.NoFilterListsAll(parts, PartQuery.Query(None, None, None));
  }

  /** A confirmed delete, answered by the part store before any other
      request, keeps the page's list in sync with the store: the same parts,
      newest first. On success both drop the part, on 404 neither changes.
      Deletes are taken one at a time; overlapping requests are not part of
      this model. */
  method DeleteStaysInSync(store: PartController.PartStore, page: AdminDashboardPage, id: Id)
    requires store.Valid() && InSync(page.parts, store.parts)
    modifies store, page
    ensures store.Valid() && InSync(page.parts, store.parts)
  {
    ghost var before := page.parts;
    ghost var stored := store.parts;
    var res := store.DeletePart(id);
    var alert := page.HandleDelete(id, true, res.Ok?);
    if res.Ok? {
      AfterDeleteSorted(PartQuery.NewestFirst, before, id);
      forall x ensures multiset(page.parts)[x] == multiset(store.parts)[x] {
        WithoutMultiset(before, PartId, id, x);
        WithoutMultiset(stored, PartId, id, x);
      }
    }
  }
}
