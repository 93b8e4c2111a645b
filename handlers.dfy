/**
 * The order lookup handler (GetOrderByUID in internal/handlers/handler.go):
 * cache first, then the store, writing a store hit back into the cache. What
 * the store's FindOne answers is an input, so every branch can be stated.
 */
module Handlers {
  import opened Wrappers
  import opened Orders
  import opened Cache
  import opened Repository

  const StatusOK := 200
  const StatusNotFound := 404
  const StatusInternalServerError := 500

  /** A JSON response body: the order itself, or `{"error": message}`. */
  datatype Body = OrderBody(order: Order) | ErrorBody(message: string)

  datatype Response = Response(status: int, body: Body)

  /** The response to a lookup of `uid` and the cache it leaves behind. */
  datatype Answer = Answer(response: Response, cache: map<string, Order>)

  /**
   * The lookup decision for cache `m` and store reply `reply`. The reply is
   * consulted only on a miss; only a miss answered with an order writes to the
   * cache, and then only that order, before it is served.
   */
  function Respond(m: map<string, Order>, uid: string, reply: Found): (a: Answer)
    ensures a.response.status in {StatusOK, StatusNotFound, StatusInternalServerError}
    ensures a.response.status == StatusOK <==> uid in m || (reply.err.None? && reply.order.Some?)
    ensures a.response.status == StatusOK ==> a.response.body.OrderBody?
    ensures uid in m ==> a == Answer(Response(StatusOK, OrderBody(m[uid])), m)
    ensures uid !in m && reply.err.None? && reply.order.Some? ==>
              a == Answer(Response(StatusOK, OrderBody(reply.order.value)), m[reply.order.value.orderUid := reply.order.value])
    ensures uid !in m && reply.err.Some? ==> a.response.status == StatusInternalServerError
    ensures uid !in m && reply.err.None? && reply.order.None? ==> a.response.status == StatusNotFound
    ensures a.response.status != StatusOK ==> a.response.body.ErrorBody? && a.cache == m
    ensures a.cache == m || (a.response.body.OrderBody? && a.cache == m[a.response.body.order.orderUid := a.response.body.order])
  {
    if uid in m then Answer(Response(StatusOK, OrderBody(m[uid])), m)
    else if reply.err.Some? then Answer(Response(StatusInternalServerError, ErrorBody("Internal server error")), m)
    else if reply.order.None? then Answer(Response(StatusNotFound, ErrorBody("Order not found")), m)
    else
      var o := reply.order.value;
      Answer(Response(StatusOK, OrderBody(o)), m[o.orderUid := o])
  }

  /** On a hit the answer does not depend on the store at all. */
  lemma HitIgnoresStore(m: map<string, Order>, uid: string, r1: Found, r2: Found)
    requires uid in m
    ensures Respond(m, uid, r1) == Respond(m, uid, r2)
  {
  }

  /** A store error on a miss is a 500 and leaves the cache alone; so is a nil order for 404. */
  lemma MissFailuresKeepCache(m: map<string, Order>, uid: string, reply: Found)
    requires uid !in m && (reply.err.Some? || reply.order.None?)
    ensures Respond(m, uid, reply).cache == m
    ensures Respond(m, uid, reply).response.status
         == if reply.err.Some? then StatusInternalServerError else StatusNotFound
  {
  }

  /**
   * Write-back: after a miss served from the store with an order carrying the
   * requested UID, looking the UID up again is a hit with the same order,
   * whatever the store would answer now.
   */
  lemma WriteBackThenHit(m: map<string, Order>, uid: string, reply: Found, again: Found)
    requires uid !in m && reply.err.None? && reply.order.Some? && reply.order.value.orderUid == uid
    ensures var first := Respond(m, uid, reply);
            var second := Respond(first.cache, uid, again);
            && first.response == Response(StatusOK, OrderBody(reply.order.value))
            && second.response == first.response && second.cache == first.cache
  {
  }

  /**
   * Against the repository's FindOne, which never returns a nil order, the
   * 404 branch cannot be reached, and a UID with no order row is a 500.
   */
  lemma NotFoundUnreachable(m: map<string, Order>, c: Client, uid: string)
    ensures Respond(m, uid, FindOneSpec(c, uid)).response.status != StatusNotFound
    ensures uid !in m && uid !in c.orderRows ==>
              Respond(m, uid, FindOneSpec(c, uid)) == Answer(Response(StatusInternalServerError, ErrorBody("Internal server error")), m)
  {
  }

  /**
   * With a consistent database, a miss served by FindOne is followed by a
   * hit on the same UID: FindOne fills the UID from the row selected by it.
   */
  lemma StoreLookupThenHit(m: map<string, Order>, c: Client, uid: string, again: Found)
    requires Consistent(c) && uid !in m && FindOneSpec(c, uid).err.None?
    ensures var first := Respond(m, uid, FindOneSpec(c, uid));
            Respond(first.cache, uid, again).response == first.response
  {
    FindOneKeepsUid(c, uid);
    WriteBackThenHit(m, uid, FindOneSpec(c, uid), again);
  }

  /**
   * GetOrderByUID: answers from the cache, else from the store reply, setting
   * a found order into the cache first. The store's reply is an input; the
   * ghost `consulted` records whether the handler asked the store for it,
   * which it does only on a cache miss.
   */
  method GetOrderByUID(cache: OrderCache, uid: string, reply: Found) returns (response: Response, ghost consulted: bool)
    requires cache.Valid()
    modifies cache
    ensures cache.Valid()
    ensures Answer(response, cache.orders) == Respond(old(cache.orders), uid, reply)
    ensures consulted <==> uid !in old(cache.orders)
  {
    consulted := false;
    var cached, ok := cache.Get(uid);
    if ok {
      response := Response(StatusOK, OrderBody(cached));
      return;
    }
    consulted := true;
    if reply.err.Some? {
      response := Response(StatusInternalServerError, ErrorBody("Internal server error"));
    } else if reply.order.None? {
      response := Response(StatusNotFound, ErrorBody("Order not found"));
    } else {
      cache.Set(reply.order.value);
      response := Response(StatusOK, OrderBody(reply.order.value));
    }
  }
}
