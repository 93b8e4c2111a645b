/**
 * The read side of the order store (internal/repository/repository.go). The
 * database client is an oracle: a `Client` value says what each query answers.
 */
module Repository {
  import opened Wrappers
  import opened Orders

  // ---------------------------------------------------------------- formatQuery

  /** strings.ReplaceAll(s, c, "") for a one-character pattern `c`. */
  function Strip(s: string, c: char): (r: string)
    ensures forall x :: x in r <==> x in s && x != c
    decreases |s|
  {
    if s == [] then []
    else (if s[0] == c then [] else [s[0]]) + Strip(s[1..], c)
  }

  /** Strip drops exactly the occurrences of `c` and keeps the count of every other character. */
  lemma {:induction false} StripCounts(s: string, c: char)
    ensures multiset(Strip(s, c))[c] == 0
    ensures forall x :: x != c ==> multiset(Strip(s, c))[x] == multiset(s)[x]
    ensures |Strip(s, c)| == |s| - multiset(s)[c]
    decreases |s|
  {
    if s != [] {
      StripCounts(s[1..], c);
      assert s == [s[0]] + s[1..];
    }
  }

  /** formatQuery: the query text with every tab and newline removed. */
  function FormatQuery(query: string): (r: string)
    ensures forall x :: x in r <==> x in query && x != '\t' && x != '\n'
  {
    Strip(Strip(query, '\t'), '\n')
  }

  /**
   * The formatted query holds no tab or newline, keeps the count of every
   * other character, and is shorter by exactly the tabs and newlines removed.
   */
  lemma FormatQueryCounts(query: string)
    ensures '\t' !in FormatQuery(query) && '\n' !in FormatQuery(query)
    ensures forall x :: x != '\t' && x != '\n' ==> multiset(FormatQuery(query))[x] == multiset(query)[x]
    ensures |FormatQuery(query)| == |query| - multiset(query)['\t'] - multiset(query)['\n']
  {
    StripCounts(query, '\t');
    StripCounts(Strip(query, '\t'), '\n');
  }

  lemma {:induction false} StripAppend(a: string, b: string, c: char)
    ensures Strip(a + b, c) == Strip(a, c) + Strip(b, c)
    decreases |a|
  {
    if a == [] {
      assert a + b == b;
    } else {
      assert (a + b)[0] == a[0] && (a + b)[1..] == a[1..] + b;
      StripAppend(a[1..], b, c);
    }
  }

  lemma {:induction false} StripAbsent(s: string, c: char)
    requires c !in s
    ensures Strip(s, c) == s
    decreases |s|
  {
    if s != [] {
      StripAbsent(s[1..], c);
    }
  }

  /**
   * Every character keeps its place: a tab or newline is dropped, any other
   * character stays between what the text before and after it becomes.
   */
  lemma FormatQueryKeepsOrder(before: string, x: char, after: string)
    ensures FormatQuery(before + [x] + after)
         == FormatQuery(before) + (if x == '\t' || x == '\n' then [] else [x]) + FormatQuery(after)
  {
    StripAppend(before + [x], after, '\t');
    StripAppend(before, [x], '\t');
    var t1, t2, t3 := Strip(before, '\t'), Strip([x], '\t'), Strip(after, '\t');
    StripAppend(t1 + t2, t3, '\n');
    StripAppend(t1, t2, '\n');
  }

  /** Formatting an already formatted query changes nothing. */
  lemma FormatQueryIdempotent(query: string)
    ensures FormatQuery(FormatQuery(query)) == FormatQuery(query)
  {
    var r := FormatQuery(query);
    StripAbsent(r, '\t');
    StripAbsent(r, '\n');
  }

  // ---------------------------------------------------------------- the client

  /** The scalar columns of one row of the order table. */
  datatype OrderRow = OrderRow(
    orderUid: string, trackNumber: string, entry: string, locale: string,
    internalSignature: string, customerId: string, deliveryService: string,
    shardkey: string, smId: int, dateCreated: string, oofShard: string)

  /**
   * A cursor over a query's rows: the outcome of Scan on each row delivered,
   * then what rows.Err() reports once rows.Next() returns false.
   */
  datatype Rows<T> = Rows(scans: seq<Result<T, Error>>, err: Option<Error>)

  /**
   * What the database answers. The first three maps give the outcome of
   * QueryRow(...).Scan(...) for a UID (a UID absent from the map selects no
   * row); `itemQueries` gives Query's outcome for the items of a UID (absent:
   * no rows); `uidQuery` is the outcome of the query listing every UID.
   */
  datatype Client = Client(
    orderRows: map<string, Result<OrderRow, Error>>,
    deliveryRows: map<string, Result<Delivery, Error>>,
    paymentRows: map<string, Result<Payment, Error>>,
    itemQueries: map<string, Result<Rows<Item>, Error>>,
    uidQuery: Result<Rows<string>, Error>)

  /** Each order row was selected by `WHERE order_uid = $1`, so it carries the UID it is filed under. */
  ghost predicate Consistent(c: Client)
  {
    forall k :: k in c.orderRows && c.orderRows[k].Ok? ==> c.orderRows[k].value.orderUid == k
  }

  /** QueryRow(...).Scan(...): a missing row surfaces as ErrNoRows. */
  function QueryRow<T>(table: map<string, Result<T, Error>>, uid: string): Result<T, Error>
  {
    if uid in table then table[uid] else Err(ErrNoRows)
  }

  /** Query for the item rows of `uid`. */
  function ItemQuery(c: Client, uid: string): Result<Rows<Item>, Error>
  {
    if uid in c.itemQueries then c.itemQueries[uid] else Ok(Rows([], None))
  }

  /** The rows.Next() loop over scans: every scanned value in row order, or the first scan error. */
  function Collect<T>(scans: seq<Result<T, Error>>): (r: Result<seq<T>, Error>)
    ensures r.Ok? <==> forall i :: 0 <= i < |scans| ==> scans[i].Ok?
    ensures r.Ok? ==> |r.value| == |scans| && forall i :: 0 <= i < |scans| ==> scans[i] == Ok(r.value[i])
    decreases |scans|
  {
    if scans == [] then Ok([])
    else if scans[0].Err? then Err(scans[0].error)
    else
      match Collect(scans[1..])
      case Err(e) => Err(e)
      case Ok(rest) => Ok([scans[0].value] + rest)
  }

  /** The error Collect reports is the one of the first row whose scan fails. */
  lemma {:induction false} CollectFirstError<T>(scans: seq<Result<T, Error>>, i: nat)
    requires i < |scans| && scans[i].Err?
    requires forall j :: 0 <= j < i ==> scans[j].Ok?
    ensures Collect(scans) == Err(scans[i].error)
    decreases i
  {
    if i > 0 {
      CollectFirstError(scans[1..], i - 1);
    }
  }

  /** When every row scans, Collect returns the scanned values in row order. */
  lemma {:induction false} CollectAllOk<T>(scans: seq<Result<T, Error>>, values: seq<T>)
    requires |values| == |scans| && forall j :: 0 <= j < |scans| ==> scans[j] == Ok(values[j])
    ensures Collect(scans) == Ok(values)
    decreases |scans|
  {
    if scans != [] {
      CollectAllOk(scans[1..], values[1..]);
      assert values == [values[0]] + values[1..];
    }
  }

  /**
   * The items lookup of FindOne: query, scan every row, then check rows.Err().
   * It succeeds exactly when all three do; the query's error comes first, then
   * the first failing scan's, and only then the cursor's.
   */
  function ItemsOf(c: Client, uid: string): (r: Result<seq<Item>, Error>)
    ensures var q := ItemQuery(c, uid);
            r.Ok? <==> q.Ok? && (forall i :: 0 <= i < |q.value.scans| ==> q.value.scans[i].Ok?) && q.value.err.None?
    ensures r.Ok? ==> var scans := ItemQuery(c, uid).value.scans;
                      |r.value| == |scans| && forall i :: 0 <= i < |scans| ==> scans[i] == Ok(r.value[i])
    ensures ItemQuery(c, uid).Err? ==> r == Err(ItemQuery(c, uid).error)
    ensures ItemQuery(c, uid).Ok? ==>
              var scans := ItemQuery(c, uid).value.scans;
              forall i :: 0 <= i < |scans| && scans[i].Err? && (forall j :: 0 <= j < i ==> scans[j].Ok?) ==>
                r == Err(scans[i].error)
    ensures var q := ItemQuery(c, uid);
            (q.Ok? && (forall i :: 0 <= i < |q.value.scans| ==> q.value.scans[i].Ok?) && q.value.err.Some?)
              ==> r == Err(q.value.err.value)
  {
    match ItemQuery(c, uid)
    case Err(e) => Err(e)
    case Ok(rows) =>
      assert forall i :: 0 <= i < |rows.scans| && rows.scans[i].Err? && (forall j :: 0 <= j < i ==> rows.scans[j].Ok?) ==>
               Collect(rows.scans) == Err(rows.scans[i].error) by {
        forall i | 0 <= i < |rows.scans| && rows.scans[i].Err? && (forall j :: 0 <= j < i ==> rows.scans[j].Ok?) {
          CollectFirstError(rows.scans, i);
        }
      }
      match Collect(rows.scans)
      case Err(e) => Err(e)
      case Ok(items) => if rows.err.Some? then Err(rows.err.value) else Ok(items)
  }

  // ---------------------------------------------------------------- FindOne

  /** Go's `(*order.Order, error)` result: a possibly nil order and a possibly nil error. */
  datatype Found = Found(order: Option<Order>, err: Option<Error>)

  /** The four lookups FindOne performs, in the order it performs them. */
  datatype Lookup = OrderLookup | DeliveryLookup | PaymentLookup | ItemsLookup

  const Lookups: seq<Lookup> := [OrderLookup, DeliveryLookup, PaymentLookup, ItemsLookup]

  /** The error one lookup reports for `uid`, if it fails. */
  function LookupError(c: Client, uid: string, l: Lookup): Option<Error>
  {
    match l
    case OrderLookup => ErrorOf(QueryRow(c.orderRows, uid))
    case DeliveryLookup => ErrorOf(QueryRow(c.deliveryRows, uid))
    case PaymentLookup => ErrorOf(QueryRow(c.paymentRows, uid))
    case ItemsLookup => ErrorOf(ItemsOf(c, uid))
  }

  /** An order assembled from its row, its delivery, its payment and its items. */
  function Assemble(row: OrderRow, d: Delivery, p: Payment, items: seq<Item>): Order
  {
    Order(row.orderUid, row.trackNumber, row.entry, row.locale, row.internalSignature,
          row.customerId, row.deliveryService, row.shardkey, row.smId, row.dateCreated,
          row.oofShard, d, p, items)
  }

  /** Every failure returns a pointer to an empty order together with the error. */
  function Failed(e: Error): Found
  {
    Found(Some(EmptyOrder), Some(e))
  }

  /** What FindOne returns for `uid`. The pointer it returns is never nil. */
  function FindOneSpec(c: Client, uid: string): (r: Found)
    ensures r.order.Some?
    ensures r.err.Some? ==> r.order.value == EmptyOrder
  {
    var row := QueryRow(c.orderRows, uid);
    if row.Err? then Failed(row.error) else
    var d := QueryRow(c.deliveryRows, uid);
    if d.Err? then Failed(d.error) else
    var p := QueryRow(c.paymentRows, uid);
    if p.Err? then Failed(p.error) else
    var items := ItemsOf(c, uid);
    if items.Err? then Failed(items.error) else
    Found(Some(Assemble(row.value, d.value, p.value, items.value)), None)
  }

  /**
   * FindOne succeeds exactly when all four lookups do, and then the order
   * carries the scanned row, delivery and payment and the item rows in row order.
   */
  lemma FindOneSucceeds(c: Client, uid: string)
    ensures FindOneSpec(c, uid).err.None? <==> forall l :: l in Lookups ==> LookupError(c, uid, l).None?
    ensures FindOneSpec(c, uid).err.None? ==>
      var o := FindOneSpec(c, uid).order.value;
      && o == Assemble(QueryRow(c.orderRows, uid).value, QueryRow(c.deliveryRows, uid).value,
                       QueryRow(c.paymentRows, uid).value, ItemsOf(c, uid).value)
      && |o.items| == |ItemQuery(c, uid).value.scans|
      && forall i :: 0 <= i < |o.items| ==> ItemQuery(c, uid).value.scans[i] == Ok(o.items[i])
  {
    assert Lookups == [OrderLookup, DeliveryLookup, PaymentLookup, ItemsLookup];
    assert OrderLookup in Lookups && DeliveryLookup in Lookups;
    assert PaymentLookup in Lookups && ItemsLookup in Lookups;
  }

  /** With a consistent database, an order found for `uid` carries `uid`. */
  lemma FindOneKeepsUid(c: Client, uid: string)
    requires Consistent(c)
    ensures FindOneSpec(c, uid).err.None? ==> FindOneSpec(c, uid).order.value.orderUid == uid
  {
  }

  /** A UID with no order row is reported as ErrNoRows, never as a nil order. */
  lemma MissingOrderIsNoRows(c: Client, uid: string)
    requires uid !in c.orderRows
    ensures FindOneSpec(c, uid) == Found(Some(EmptyOrder), Some(ErrNoRows))
  {
  }

  /**
   * FindOne: the lookups run in order, the first failing one ends the call
   * with its error, and no later lookup is issued.
   */
  method FindOne(c: Client, uid: string) returns (r: Found, ghost issued: seq<Lookup>)
    ensures r == FindOneSpec(c, uid)
    ensures 1 <= |issued| <= |Lookups| && issued == Lookups[..|issued|]
    ensures forall i :: 0 <= i < |issued| - 1 ==> LookupError(c, uid, issued[i]).None?
    ensures r.err == LookupError(c, uid, issued[|issued| - 1])
    ensures r.err.None? ==> issued == Lookups
  {
    issued := [OrderLookup];
    var row := QueryRow(c.orderRows, uid);
    if row.Err? {
      return Failed(row.error), issued;
    }
    issued := issued + [DeliveryLookup];
    var d := QueryRow(c.deliveryRows, uid);
    if d.Err? {
      return Failed(d.error), issued;
    }
    issued := issued + [PaymentLookup];
    var p := QueryRow(c.paymentRows, uid);
    if p.Err? {
      return Failed(p.error), issued;
    }
    issued := issued + [ItemsLookup];
    var q := ItemQuery(c, uid);
    if q.Err? {
      return Failed(q.error), issued;
    }
    var scans := q.value.scans;
    var items: seq<Item> := [];
    var i := 0;
    while i < |scans|
      invariant 0 <= i <= |scans|
      invariant |items| == i
      invariant forall j :: 0 <= j < i ==> scans[j] == Ok(items[j])
    {
      if scans[i].Err? {
        CollectFirstError(scans, i);
        return Failed(scans[i].error), issued;
      }
      items := items + [scans[i].value];
      i := i + 1;
    }
    CollectAllOk(scans, items);
    if q.value.err.Some? {
      return Failed(q.value.err.value), issued;
    }
    r := Found(Some(Assemble(row.value, d.value, p.value, items)), None);
  }

  // ---------------------------------------------------------------- FindAll

  /**
   * The FindAll loop over the scanned UIDs: the first scan error or FindOne
   * error ends it, otherwise the non-nil orders are kept in row order.
   */
  function CollectOrders(c: Client, uids: seq<Result<string, Error>>): (r: Result<seq<Order>, Error>)
    ensures r.Ok? <==> forall i :: 0 <= i < |uids| ==> uids[i].Ok? && FindOneSpec(c, uids[i].value).err.None?
    ensures r.Ok? ==> |r.value| == |uids|
    ensures r.Ok? ==> forall i :: 0 <= i < |uids| ==> r.value[i] == FindOneSpec(c, uids[i].value).order.value
    decreases |uids|
  {
    if uids == [] then Ok([])
    else
      var init := uids[..|uids| - 1];
      var last := uids[|uids| - 1];
      match CollectOrders(c, init)
      case Err(e) => Err(e)
      case Ok(os) =>
        if last.Err? then Err(last.error)
        else
          var found := FindOneSpec(c, last.value);
          if found.err.Some? then Err(found.err.value)
          else if found.order.Some? then Ok(os + [found.order.value])
          else Ok(os)
  }

  /** Once a prefix of the UID rows has failed, the whole loop fails with that error. */
  lemma {:induction false} CollectOrdersFailedPrefix(c: Client, uids: seq<Result<string, Error>>, k: nat)
    requires k <= |uids| && CollectOrders(c, uids[..k]).Err?
    ensures CollectOrders(c, uids) == CollectOrders(c, uids[..k])
    decreases |uids|
  {
    if k < |uids| {
      var init := uids[..|uids| - 1];
      assert init[..k] == uids[..k];
      CollectOrdersFailedPrefix(c, init, k);
    } else {
      assert uids[..k] == uids;
    }
  }

  /** One more UID row extends the loop by that row's outcome. */
  lemma CollectOrdersStep(c: Client, uids: seq<Result<string, Error>>, i: nat, os: seq<Order>)
    requires i < |uids| && CollectOrders(c, uids[..i]) == Ok(os)
    ensures uids[i].Err? ==> CollectOrders(c, uids[..i + 1]) == Err(uids[i].error)
    ensures uids[i].Ok? ==>
      var found := FindOneSpec(c, uids[i].value);
      CollectOrders(c, uids[..i + 1])
        == if found.err.Some? then Err(found.err.value)
           else if found.order.Some? then Ok(os + [found.order.value])
           else Ok(os)
  {
    assert uids[..i + 1][..i] == uids[..i];
  }

  /**
   * The loop's error is the one of the first UID row that fails: its scan
   * error, or else the error FindOne returns for it.
   */
  lemma CollectOrdersFirstError(c: Client, uids: seq<Result<string, Error>>, i: nat)
    requires i < |uids|
    requires forall j :: 0 <= j < i ==> uids[j].Ok? && FindOneSpec(c, uids[j].value).err.None?
    requires uids[i].Err? || FindOneSpec(c, uids[i].value).err.Some?
    ensures CollectOrders(c, uids)
         == Err(if uids[i].Err? then uids[i].error else FindOneSpec(c, uids[i].value).err.value)
  {
    assert CollectOrders(c, uids[..i]).Ok?;
    CollectOrdersStep(c, uids, i, CollectOrders(c, uids[..i]).value);
    CollectOrdersFailedPrefix(c, uids, i + 1);
  }

  /**
   * FindAll exactly as written: the cursor's rows.Err() is never consulted,
   * so a cursor that stops early with an error yields the orders read so far
   * and no error: success does not depend on the cursor's final error.
   */
  function FindAllAsWritten(c: Client): (r: Result<seq<Order>, Error>)
    ensures r.Ok? <==> c.uidQuery.Ok? && CollectOrders(c, c.uidQuery.value.scans).Ok?
    ensures r.Ok? ==> |r.value| == |c.uidQuery.value.scans|
    ensures r.Ok? ==> forall i :: 0 <= i < |r.value| ==> r.value[i] == FindOneSpec(c, c.uidQuery.value.scans[i].value).order.value
    ensures c.uidQuery.Err? ==> r == Err(c.uidQuery.error)
    ensures c.uidQuery.Ok? && CollectOrders(c, c.uidQuery.value.scans).Err? ==> r == CollectOrders(c, c.uidQuery.value.scans)
  {
    match c.uidQuery
    case Err(e) => Err(e)
    case Ok(rows) => CollectOrders(c, rows.scans)
  }

  /**
   * FindAll with the missing rows.Err() check: never a partial list. It
   * succeeds exactly when the UID query, the loop and the cursor all do; the
   * query's error comes first, then the loop's, and only then the cursor's.
   */
  function FindAllSpec(c: Client): (r: Result<seq<Order>, Error>)
    ensures r.Ok? <==> c.uidQuery.Ok? && c.uidQuery.value.err.None? && CollectOrders(c, c.uidQuery.value.scans).Ok?
    ensures r.Ok? ==> r == CollectOrders(c, c.uidQuery.value.scans)
    ensures c.uidQuery.Err? ==> r == Err(c.uidQuery.error)
    ensures c.uidQuery.Ok? && CollectOrders(c, c.uidQuery.value.scans).Err? ==> r == CollectOrders(c, c.uidQuery.value.scans)
    ensures c.uidQuery.Ok? && CollectOrders(c, c.uidQuery.value.scans).Ok? && c.uidQuery.value.err.Some? ==>
              r == Err(c.uidQuery.value.err.value)
  {
    match FindAllAsWritten(c)
    case Err(e) => Err(e)
    case Ok(os) => if c.uidQuery.value.err.Some? then Err(c.uidQuery.value.err.value) else Ok(os)
  }

  /** An order row behind every UID the cursor delivers before it fails. */
  const BrokenCursor := Client(
    map["A" := Ok(OrderRow("A", "", "", "", "", "", "", "", 0, "", ""))],
    map["A" := Ok(EmptyDelivery)],
    map["A" := Ok(EmptyPayment)],
    map[],
    Ok(Rows([Ok("A")], Some(Failure("connection reset")))))

  /**
   * The cursor over UIDs fails after one row, yet FindAll as written reports
   * success with the one order read before the failure, the one FindOne
   * gives for "A"; the corrected FindAll reports the cursor's error.
   */
  lemma FindAllAsWrittenLosesCursorError()
    ensures FindAllAsWritten(BrokenCursor) == Ok([FindOneSpec(BrokenCursor, "A").order.value])
    ensures FindAllSpec(BrokenCursor) == Err(Failure("connection reset"))
  {
    var c := BrokenCursor;
    assert FindOneSpec(c, "A").err.None?;
    assert c.uidQuery.value.scans[..0] == [];
    var os := FindAllAsWritten(c).value;
    assert |os| == 1 && os[0] == FindOneSpec(c, "A").order.value;
    assert os == [FindOneSpec(c, "A").order.value];
  }

  /**
   * FindAll (with the rows.Err() check): a nil list plus the first error, or
   * one order per UID row in row order, each the one FindOne assembles.
   */
  method FindAll(c: Client) returns (r: Result<seq<Order>, Error>)
    ensures r == FindAllSpec(c)
    ensures r.Ok? ==> |r.value| == |c.uidQuery.value.scans|
  {
    if c.uidQuery.Err? {
      return Err(c.uidQuery.error);
    }
    var rows := c.uidQuery.value;
    var orders: seq<Order> := [];
    var i := 0;
    while i < |rows.scans|
      invariant 0 <= i <= |rows.scans|
      invariant CollectOrders(c, rows.scans[..i]) == Ok(orders)
    {
      CollectOrdersStep(c, rows.scans, i, orders);
      var scan := rows.scans[i];
      if scan.Err? {
        CollectOrdersFailedPrefix(c, rows.scans, i + 1);
        return Err(scan.error);
      }
      var found;
      ghost var issued;
      found, issued := FindOne(c, scan.value);
      if found.err.Some? {
        CollectOrdersFailedPrefix(c, rows.scans, i + 1);
        return Err(found.err.value);
      }
      if found.order.Some? {
        orders := orders + [found.order.value];
      }
      i := i + 1;
    }
    assert rows.scans[..i] == rows.scans;
    if rows.err.Some? {
      return Err(rows.err.value);
    }
    return Ok(orders);
  }
}
