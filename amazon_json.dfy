/**
 * The order loader: walks an already parsed JSON document, fills the shelf's
 * bins with the products listed under "bin_contents", and appends one work
 * order per element of "work_order". Every failure is an early `false`
 * return that leaves the effects made so far in place.
 */
module AmazonJson {
  import opened Wrappers
  import opened StringOrder
  import opened Shelf

  // ---------------------------------------------------------------------------
  // The parsed document and the jsoncpp accessors the loader uses
  // ---------------------------------------------------------------------------

  /** A parsed JSON value: the kinds the loader tells apart. */
  datatype Json = Null | Str(s: string) | Arr(elems: seq<Json>) | Obj(members: map<string, Json>)

  /**
   * value[key] on an object or null: the member, or null when the key is
   * absent. On any other kind of value jsoncpp raises, which is None here.
   */
  function Member(v: Json, key: string): (r: Option<Json>)
    ensures r.Some? <==> v.Null? || v.Obj?
    ensures r.Some? && r.value != Null ==> v.Obj? && key in v.members && v.members[key] == r.value
    ensures v.Obj? && key in v.members ==> r == Some(v.members[key])
    ensures v.Null? || (v.Obj? && key !in v.members) ==> r == Some(Null)
  {
    match v
    case Null => Some(Null)
    case Obj(m) => Some(if key in m then m[key] else Null)
    case _ => None
  }

  /** asString(): a string's text, "" for null; on an array or object jsoncpp raises (None). */
  function AsString(v: Json): (r: Option<string>)
    ensures r.Some? <==> v.Str? || v.Null?
    ensures v.Str? ==> r == Some(v.s)
    ensures v.Null? ==> r == Some("")
  {
    match v
    case Str(s) => Some(s)
    case Null => Some("")
    case _ => None
  }

  /** size(): elements of an array, members of an object, 0 for anything else. */
  function Size(v: Json): nat
  {
    match v
    case Arr(es) => |es|
    case Obj(m) => |m|
    case _ => 0
  }

  // ---------------------------------------------------------------------------
  // parseBins
  // ---------------------------------------------------------------------------

  /**
   * A bin's entry parseBins can read without jsoncpp raising: a list whose
   * elements are strings or nulls, or a value of size zero (null, a string,
   * an empty object).
   */
  predicate ReadableBin(v: Json)
  {
    match v
    case Arr(es) => forall i :: 0 <= i < |es| ==> AsString(es[i]).Some?
    case Obj(m) => m == map[]
    case _ => true
  }

  /** The product names a bin's entry lists, in list order (a null element names ""). */
  function ProductNames(v: Json): (names: seq<string>)
    requires ReadableBin(v)
    ensures |names| == Size(v)
    ensures v.Arr? ==> forall i :: 0 <= i < |names| ==> AsString(v.elems[i]) == Some(names[i])
    ensures v.Arr? ==> forall i :: 0 <= i < |names| ==> v.elems[i].Null? ==> names[i] == ""
  {
    if v.Arr? then seq(|v.elems|, i requires 0 <= i < |v.elems| && ReadableBin(v) => AsString(v.elems[i]).value)
    else if v.Obj? then (assert v.members.Keys == {}; [])
    else []
  }

  /**
   * What parseBins needs: every entry is readable, and every bin that lists
   * at least one product is a bin of the shelf (the loader dereferences the
   * handle it finds once per product; an entry of size zero is never looked
   * up).
   */
  predicate ContentsFit(contents: map<string, Json>, bins: map<string, BinObject?>)
  {
    forall k :: k in contents ==>
      ReadableBin(contents[k]) && (Size(contents[k]) > 0 ==> k in bins && bins[k] != null)
  }

  /** `after` is `before` followed by one product per name, in order. */
  predicate Appended(before: seq<ProductObject>, after: seq<ProductObject>, names: seq<string>)
  {
    && |after| == |before| + |names|
    && after[..|before|] == before
    && forall i :: 0 <= i < |names| ==> after[|before| + i].name == names[i]
  }

  /** The non-null handles of a map of bins. */
  function Handles(bins: map<string, BinObject?>): set<BinObject>
  {
    set k | k in bins && bins[k] != null :: bins[k]
  }

  /** Position `i` of bin `k` holds a product added since the old state. */
  twostate predicate Added(bins: map<string, BinObject?>, k: string, i: int)
    reads Handles(bins)
  {
    k in bins && bins[k] != null && |old(bins[k].products)| <= i < |bins[k].products|
  }

  /**
   * The effect of parseBins on the bins of `bins`: each listed bin of the
   * shelf gained one new product per listed name at its end, every new
   * product is a different new object, and every other bin is as it was.
   */
  twostate predicate Filled(bins: map<string, BinObject?>, contents: map<string, Json>)
    requires ContentsFit(contents, bins)
    reads Handles(bins)
  {
    && (forall k :: k in contents && k in bins && bins[k] != null ==>
          Appended(old(bins[k].products), bins[k].products, ProductNames(contents[k])))
    && (forall k, i :: Added(bins, k, i) ==> fresh(bins[k].products[i]))
    && (forall k1, i, k2, j ::
          (Added(bins, k1, i) && Added(bins, k2, j) && bins[k1].products[i] == bins[k2].products[j])
          ==> bins[k1] == bins[k2] && i == j)
    && (forall k :: k in bins && k !in contents && bins[k] != null ==>
          bins[k].products == old(bins[k].products))
  }

  /** The handles a shelf's map holds are the shelf's bins. */
  lemma HandlesAreBins(shelf: ShelfObject)
    requires shelf.Valid()
    ensures Handles(shelf.Bins()) == shelf.BinSet()
    ensures forall b :: b in shelf.BinSet() ==> allocated(b)
  {
    forall b | b in Handles(shelf.Bins()) ensures b in shelf.BinSet() {
      var k :| k in shelf.Bins() && shelf.Bins()[k] == b;
      MapOfHandle(shelf.entries, k);
    }
    forall b | b in shelf.BinSet() ensures b in Handles(shelf.Bins()) {
      var i :| 0 <= i < |shelf.entries| && shelf.entries[i].bin == b;
      var k := shelf.entries[i].key;
      KeyIndexAt(shelf.entries, i);
      MapOfMeaning(shelf.entries, k);
      assert k in shelf.Bins() && shelf.Bins()[k] == b;
    }
    forall b | b in shelf.BinSet() ensures allocated(b) {
      var i :| 0 <= i < |shelf.entries| && shelf.entries[i].bin == b;
    }
  }

  /**
   * The inner loop of parseBins: one new product per element of the bin's
   * list, pushed onto the end of the bin's products in list order.
   */
  method FillBin(bin: BinObject, value: Json)
    requires ReadableBin(value)
    modifies bin
    ensures Appended(old(bin.products), bin.products, ProductNames(value))
    ensures forall i :: |old(bin.products)| <= i < |bin.products| ==> fresh(bin.products[i])
    ensures forall i, j :: |old(bin.products)| <= i < j < |bin.products| ==>
      bin.products[i] != bin.products[j]
  {
    var size := Size(value);
    ghost var names := ProductNames(value);
    var index := 0;
    while index < size
      invariant index <= size
      invariant Appended(old(bin.products), bin.products, names[..index])
      invariant forall i :: |old(bin.products)| <= i < |bin.products| ==> fresh(bin.products[i])
      invariant forall i, j :: |old(bin.products)| <= i < j < |bin.products| ==>
        bin.products[i] != bin.products[j]
    {
      var product := new ProductObject(AsString(value.elems[index]).value);
      bin.products := bin.products + [product];
      index := index + 1;
    }
    assert names[..index] == names;
  }

  /**
   * FillBin, recording in `origin` the bin and position of each new product
   * (a ghost record: the products it adds are new, so no earlier entry is
   * overwritten).
   */
  method FillRecorded(bin: BinObject, value: Json, ghost origin: map<ProductObject, (BinObject, int)>)
    returns (ghost recorded: map<ProductObject, (BinObject, int)>)
    requires ReadableBin(value)
    requires forall p :: p in origin ==> allocated(p)
    modifies bin
    ensures Appended(old(bin.products), bin.products, ProductNames(value))
    ensures forall i :: |old(bin.products)| <= i < |bin.products| ==> fresh(bin.products[i])
    ensures forall p :: p in recorded ==> p in origin || fresh(p)
    ensures forall p :: p in origin ==> p in recorded && recorded[p] == origin[p]
    ensures forall i :: |old(bin.products)| <= i < |bin.products| ==>
      bin.products[i] in recorded && recorded[bin.products[i]] == (bin, i)
  {
    FillBin(bin, value);
    var made := map i | |old(bin.products)| <= i < |bin.products| :: bin.products[i] := (bin, i);
    recorded := origin + made;
  }

  /** No two names of a map of bins hold the same bin. */
  predicate DistinctHandles(bins: map<string, BinObject?>)
  {
    forall k1, k2 :: k1 in bins && k2 in bins && k1 != k2 && bins[k1] != null ==> bins[k1] != bins[k2]
  }

  /**
   * How far the loop of parseBins has come: `start` holds each bin's products
   * before the loop, the bins of the names in `done` are `visited` and have
   * their listed products appended, the other bins are as they were, and
   * `origin` records the bin and position of every product added so far.
   */
  ghost predicate Visiting(contents: map<string, Json>, bins: map<string, BinObject?>,
                           start: map<BinObject, seq<ProductObject>>, done: set<string>,
                           visited: set<BinObject>, origin: map<ProductObject, (BinObject, int)>)
    requires ContentsFit(contents, bins)
    reads start.Keys
  {
    && (forall k :: k in bins && bins[k] != null ==> bins[k] in start)
    && (forall k :: k in bins && bins[k] != null && bins[k] in visited ==> k in done)
    && (forall k :: k in done && k in contents && k in bins && bins[k] != null ==>
          && bins[k] in start && bins[k] in visited
          && Appended(start[bins[k]], bins[k].products, ProductNames(contents[k])))
    && (forall b :: b in start && b !in visited ==> b.products == start[b])
    && (forall b, i :: b in start && |start[b]| <= i < |b.products| ==>
          b.products[i] in origin && origin[b.products[i]] == (b, i))
  }

  /** One pass of parseBins' loop: the products listed for `binName` are pushed onto its bin. */
  method Visit(contents: map<string, Json>, bins: map<string, BinObject?>, binName: string,
               ghost start: map<BinObject, seq<ProductObject>>, ghost done: set<string>,
               ghost visited: set<BinObject>, ghost origin: map<ProductObject, (BinObject, int)>)
    returns (ghost visited': set<BinObject>, ghost origin': map<ProductObject, (BinObject, int)>)
    requires ContentsFit(contents, bins) && DistinctHandles(bins)
    requires binName in contents && binName !in done
    requires Visiting(contents, bins, start, done, visited, origin)
    requires forall p :: p in origin ==> allocated(p)
    modifies Handles(bins)
    ensures Visiting(contents, bins, start, done + {binName}, visited', origin')
    ensures forall p :: p in origin' ==> p in origin || fresh(p)
  {
    visited', origin' := visited, origin;
    if binName in bins && bins[binName] != null {
      var bin := bins[binName];
      assert bin.products == start[bin];
      if Size(contents[binName]) > 0 {
        origin' := FillRecorded(bin, contents[binName], origin);
        forall b, i | b in start && |start[b]| <= i < |b.products|
          ensures b.products[i] in origin' && origin'[b.products[i]] == (b, i)
        {
          if b != bin {
            assert b.products == old(b.products);
          }
        }
      } else {
        assert bin.products[..|start[bin]|] == start[bin];
      }
      visited' := visited + {bin};
    }
  }

  /**
   * The loop of parseBins over a map of distinct bins, with the state the
   * loop keeps: `start` is each bin's products before the loop.
   */
  method VisitAll(contents: map<string, Json>, bins: map<string, BinObject?>)
    returns (ghost start: map<BinObject, seq<ProductObject>>, ghost visited: set<BinObject>,
             ghost origin: map<ProductObject, (BinObject, int)>)
    requires ContentsFit(contents, bins) && DistinctHandles(bins)
    modifies Handles(bins)
    ensures forall k :: k in bins && bins[k] != null ==> bins[k] in start && start[bins[k]] == old(bins[k].products)
    ensures Visiting(contents, bins, start, contents.Keys, visited, origin)
    ensures forall p :: p in origin ==> fresh(p)
  {
    var remaining := contents.Keys;
    visited := {};
    start := map b | b in Handles(bins) :: b.products;
    origin := map[];
    while remaining != {}
      invariant remaining <= contents.Keys
      invariant Visiting(contents, bins, start, contents.Keys - remaining, visited, origin)
      invariant forall p :: p in origin ==> fresh(p)
      decreases remaining
    {
      var binName :| binName in remaining;
      visited, origin := Visit(contents, bins, binName, start, contents.Keys - remaining, visited, origin);
      assert (contents.Keys - remaining) + {binName} == contents.Keys - (remaining - {binName});
      remaining := remaining - {binName};
    }
    assert contents.Keys - remaining == contents.Keys;
  }

  /** The loop of parseBins over a map of distinct bins fills them. */
  method FillBins(contents: map<string, Json>, bins: map<string, BinObject?>)
    requires ContentsFit(contents, bins) && DistinctHandles(bins)
    modifies Handles(bins)
    ensures Filled(bins, contents)
  {
    ghost var start, visited, origin := VisitAll(contents, bins);
  }

  /**
   * parseBins: for every bin named under "bin_contents", one new product per
   * listed name is pushed onto the end of that bin's products. The members
   * are visited in name order; each names a different bin, so the order
   * does not show in the result.
   */
  method ParseBins(contents: map<string, Json>, shelf: ShelfObject)
    requires shelf.Valid() && ContentsFit(contents, shelf.Bins())
    modifies shelf.BinSet()
    ensures Filled(shelf.Bins(), contents)
  {
    var bins := shelf.Bins();
    HandlesAreBins(shelf);
    forall k1, k2 | k1 in bins && k2 in bins && k1 != k2 && bins[k1] != null
      ensures bins[k1] != bins[k2]
    {
      DistinctNamesDistinctBins(shelf.entries, k1, k2);
    }
    FillBins(contents, bins);
  }

  // ---------------------------------------------------------------------------
  // parseWorkOrders
  // ---------------------------------------------------------------------------

  /** A work order: the bin to pick from and the product to pick. */
  datatype WorkOrder = WorkOrder(bin: BinObject, product: ProductObject)

  /** Why the loader returns false. */
  datatype Failure =
    | MissingBinContents
    | MissingWorkOrder
    | WorkOrderNotArray
    | OrderNotObject
    | UnknownBin(binName: string)
    | UnknownProduct(productName: string)

  /** How a load ends: true, false for a reason, or an exception out of jsoncpp. */
  datatype Outcome = Parsed | Rejected(failure: Failure) | Raised

  /** What one element of "work_order" yields: an order, or the end of the load. */
  datatype Step = Order(order: WorkOrder) | Stop(outcome: Outcome)

  /** The member `key` of an object's members, null when absent. */
  function Field(members: map<string, Json>, key: string): Json
  {
    if key in members then members[key] else Null
  }

  /**
   * One element of "work_order" against the shelf's bins: it must be an
   * object, its "bin" must name a bin of the shelf, and that bin must hold a
   * product named by its "item" (the first one so named is picked).
   */
  function Decide(workOrder: Json, bins: map<string, BinObject?>): (s: Step)
    reads Handles(bins)
    ensures s.Order? ==>
      && workOrder.Obj?
      && AsString(Field(workOrder.members, "bin")).Some?
      && AsString(Field(workOrder.members, "item")).Some?
      && (var binName := AsString(Field(workOrder.members, "bin")).value;
          binName in bins && s.order.bin == bins[binName])
      && (var item := AsString(Field(workOrder.members, "item")).value;
          && s.order.product in s.order.bin.products && s.order.product.name == item
          && s.order.product == FirstNamed(s.order.bin.products, item))
    ensures s.Stop? ==> s.outcome != Parsed
    // which failure each kind of bad element gives
    ensures !workOrder.Obj? ==> s == Stop(Rejected(OrderNotObject))
    ensures workOrder.Obj?
      && (AsString(Field(workOrder.members, "bin")).None? || AsString(Field(workOrder.members, "item")).None?)
      ==> s == Stop(Raised)
    ensures workOrder.Obj?
      && AsString(Field(workOrder.members, "bin")).Some? && AsString(Field(workOrder.members, "item")).Some?
      ==> (var binName := AsString(Field(workOrder.members, "bin")).value;
           var item := AsString(Field(workOrder.members, "item")).value;
           if binName !in bins || bins[binName] == null then
             s == Stop(Rejected(UnknownBin(binName)))
           else if forall j :: 0 <= j < |bins[binName].products| ==> bins[binName].products[j].name != item then
             s == Stop(Rejected(UnknownProduct(item)))
           else
             s == Order(WorkOrder(bins[binName], FirstNamed(bins[binName].products, item))))
  {
    if !workOrder.Obj? then Stop(Rejected(OrderNotObject))
    else
      var binName := AsString(Field(workOrder.members, "bin"));
      var item := AsString(Field(workOrder.members, "item"));
      if binName.None? || item.None? then Stop(Raised)
      else if binName.value !in bins || bins[binName.value] == null then
        Stop(Rejected(UnknownBin(binName.value)))
      else
        var bin := bins[binName.value];
        var product := FirstNamed(bin.products, item.value);
        if product == null then Stop(Rejected(UnknownProduct(item.value)))
        else
          FirstNamedMeaning(bin.products, item.value);
          Order(WorkOrder(bin, product))
  }

  /** The orders a run appends and how it ends. */
  datatype Run = Run(orders: seq<WorkOrder>, outcome: Outcome)

  /**
   * parseWorkOrders over the elements in order: the orders of the elements
   * before the first failing one, and the outcome of that element (Parsed
   * when none fails).
   */
  function RunOrders(workOrders: seq<Json>, bins: map<string, BinObject?>): (r: Run)
    reads Handles(bins)
    ensures |r.orders| <= |workOrders|
    ensures forall j :: 0 <= j < |r.orders| ==> Decide(workOrders[j], bins) == Order(r.orders[j])
    ensures r.outcome == Parsed ==> |r.orders| == |workOrders|
    ensures r.outcome != Parsed ==>
      |r.orders| < |workOrders| && Decide(workOrders[|r.orders|], bins) == Stop(r.outcome)
    decreases |workOrders|
  {
    if workOrders == [] then Run([], Parsed)
    else
      var prev := RunOrders(workOrders[..|workOrders| - 1], bins);
      if prev.outcome != Parsed then prev
      else match Decide(workOrders[|workOrders| - 1], bins)
        case Stop(outcome) => Run(prev.orders, outcome)
        case Order(order) => Run(prev.orders + [order], Parsed)
  }

  /** Elements after a failing one are never read: the run ends where it failed. */
  lemma {:induction false} RunStopsAtFailure(workOrders: seq<Json>, k: nat, bins: map<string, BinObject?>)
    requires k <= |workOrders|
    requires RunOrders(workOrders[..k], bins).outcome != Parsed
    ensures RunOrders(workOrders, bins) == RunOrders(workOrders[..k], bins)
    decreases |workOrders|
  {
    if k == |workOrders| {
      assert workOrders[..k] == workOrders;
    } else {
      var init := workOrders[..|workOrders| - 1];
      assert init[..k] == workOrders[..k];
      RunStopsAtFailure(init, k, bins);
    }
  }

  /** One more element: the run goes on with its order, or ends with its outcome. */
  lemma RunExtends(workOrders: seq<Json>, k: nat, bins: map<string, BinObject?>)
    requires k < |workOrders|
    requires RunOrders(workOrders[..k], bins).outcome == Parsed
    ensures RunOrders(workOrders[..k + 1], bins) ==
      match Decide(workOrders[k], bins)
      case Order(order) => Run(RunOrders(workOrders[..k], bins).orders + [order], Parsed)
      case Stop(outcome) => Run(RunOrders(workOrders[..k], bins).orders, outcome)
  {
    assert workOrders[..k + 1][..k] == workOrders[..k];
  }

  /** The first element that yields no order ends the whole run with its outcome. */
  lemma RunEndsAt(workOrders: seq<Json>, k: nat, bins: map<string, BinObject?>)
    requires k < |workOrders|
    requires RunOrders(workOrders[..k], bins).outcome == Parsed
    requires Decide(workOrders[k], bins).Stop?
    ensures RunOrders(workOrders, bins) ==
      Run(RunOrders(workOrders[..k], bins).orders, Decide(workOrders[k], bins).outcome)
  {
    RunExtends(workOrders, k, bins);
    RunStopsAtFailure(workOrders, k + 1, bins);
  }

  /**
   * The run is determined element by element: it succeeds exactly when every
   * element yields an order, and then it holds one order per element in
   * array order.
   */
  lemma RunSucceedsIffEveryOrder(workOrders: seq<Json>, bins: map<string, BinObject?>)
    ensures RunOrders(workOrders, bins).outcome == Parsed <==>
      forall j :: 0 <= j < |workOrders| ==> Decide(workOrders[j], bins).Order?
    ensures RunOrders(workOrders, bins).outcome == Parsed ==>
      forall j :: 0 <= j < |workOrders| ==>
        RunOrders(workOrders, bins).orders[j] == Decide(workOrders[j], bins).order
  {
    var r := RunOrders(workOrders, bins);
    if r.outcome != Parsed {
      assert Decide(workOrders[|r.orders|], bins).Stop?;
    }
  }

  /**
   * An element of "work_order" the shelf can serve: an object whose "bin"
   * names a bin of the shelf that holds a product named by its "item".
   */
  predicate Fulfillable(workOrder: Json, bins: map<string, BinObject?>)
    reads Handles(bins)
  {
    && workOrder.Obj?
    && AsString(Field(workOrder.members, "bin")).Some?
    && AsString(Field(workOrder.members, "item")).Some?
    && var binName := AsString(Field(workOrder.members, "bin")).value;
       var item := AsString(Field(workOrder.members, "item")).value;
       && binName in bins && bins[binName] != null
       && exists j :: 0 <= j < |bins[binName].products| && bins[binName].products[j].name == item
  }

  /** parse loads every order exactly when the shelf can serve every element of "work_order". */
  lemma RunSucceedsIffFulfillable(workOrders: seq<Json>, bins: map<string, BinObject?>)
    ensures RunOrders(workOrders, bins).outcome == Parsed <==>
      forall j :: 0 <= j < |workOrders| ==> Fulfillable(workOrders[j], bins)
  {
    RunSucceedsIffEveryOrder(workOrders, bins);
    forall j | 0 <= j < |workOrders|
      ensures Decide(workOrders[j], bins).Order? <==> Fulfillable(workOrders[j], bins)
    {
      var w := workOrders[j];
      if Fulfillable(w, bins) {
        var binName := AsString(Field(w.members, "bin")).value;
        var item := AsString(Field(w.members, "item")).value;
        var k :| 0 <= k < |bins[binName].products| && bins[binName].products[k].name == item;
        assert !(forall i :: 0 <= i < |bins[binName].products| ==> bins[binName].products[i].name != item);
      }
    }
  }

  /**
   * One pass of parseWorkOrders' loop: the element's bin is looked up with
   * operator[] (an unknown name is left behind as a null entry) and its
   * product with BinObject::getProduct.
   */
  method ReadOrder(workOrder: Json, shelf: ShelfObject) returns (step: Step)
    requires shelf.Valid()
    modifies shelf
    ensures shelf.Valid() && shelf.shelfParts == old(shelf.shelfParts)
    ensures step == Decide(workOrder, old(shelf.Bins()))
    ensures step.Stop? && step.outcome.Rejected? && step.outcome.failure.UnknownBin?
      && step.outcome.failure.binName !in old(shelf.Bins())
      ==> shelf.Bins() == old(shelf.Bins())[step.outcome.failure.binName := null]
    ensures !(step.Stop? && step.outcome.Rejected? && step.outcome.failure.UnknownBin?
      && step.outcome.failure.binName !in old(shelf.Bins()))
      ==> shelf.entries == old(shelf.entries)
  {
    ghost var bins := shelf.Bins();
    HandlesAreBins(shelf);
    if !workOrder.Obj? {
      return Stop(Rejected(OrderNotObject));
    }
    var binName := AsString(Field(workOrder.members, "bin"));
    var productName := AsString(Field(workOrder.members, "item"));
    if binName.None? || productName.None? {
      return Stop(Raised);
    }
    var bin := shelf.Subscript(binName.value);
    assert unchanged(Handles(bins));
    if bin == null {
      return Stop(Rejected(UnknownBin(binName.value)));
    }
    var product := bin.GetProduct(productName.value);
    if product == null {
      return Stop(Rejected(UnknownProduct(productName.value)));
    }
    step := Order(WorkOrder(bin, product));
  }

  /**
   * parseWorkOrders: one order per element appended to `orders`, which is
   * never cleared; the first failing element ends the run, and the orders
   * appended before it stay.
   */
  method ParseWorkOrders(workOrders: seq<Json>, shelf: ShelfObject, orders: seq<WorkOrder>)
    returns (outcome: Outcome, result: seq<WorkOrder>)
    requires shelf.Valid()
    modifies shelf
    ensures shelf.Valid() && shelf.shelfParts == old(shelf.shelfParts)
    ensures var run := RunOrders(workOrders, old(shelf.Bins()));
      outcome == run.outcome && result == orders + run.orders
    ensures outcome.Rejected? && outcome.failure.UnknownBin? && outcome.failure.binName !in old(shelf.Bins())
      ==> shelf.Bins() == old(shelf.Bins())[outcome.failure.binName := null]
    ensures !(outcome.Rejected? && outcome.failure.UnknownBin? && outcome.failure.binName !in old(shelf.Bins()))
      ==> shelf.entries == old(shelf.entries)
  {
    ghost var bins := shelf.Bins();
    HandlesAreBins(shelf);
    result := orders;
    var workId := 0;
    while workId < |workOrders|
      invariant workId <= |workOrders|
      invariant shelf.Valid() && shelf.entries == old(shelf.entries)
      invariant shelf.shelfParts == old(shelf.shelfParts)
      invariant forall b :: b in Handles(bins) ==> allocated(b)
      invariant RunOrders(workOrders[..workId], bins).outcome == Parsed
      invariant result == orders + RunOrders(workOrders[..workId], bins).orders
    {
      label Before:
      var step := ReadOrder(workOrders[workId], shelf);
      assert unchanged@Before(Handles(bins));
      if step.Stop? {
        outcome := step.outcome;
        RunEndsAt(workOrders, workId, bins);
        return;
      }
      RunExtends(workOrders, workId, bins);
      result := result + [step.order];
      workId := workId + 1;
    }
    assert workOrders[..workId] == workOrders;
    outcome := Parsed;
  }

  // ---------------------------------------------------------------------------
  // parse
  // ---------------------------------------------------------------------------

  /**
   * What parse needs of the document: when "bin_contents" is an object, its
   * bins are bins of the shelf and its entries are readable.
   */
  predicate DocumentFits(root: Json, bins: map<string, BinObject?>)
  {
    root.Obj? && "bin_contents" in root.members && root.members["bin_contents"].Obj? ==>
      ContentsFit(root.members["bin_contents"].members, bins)
  }

  /**
   * parse, from the parsed document on: "bin_contents" must be present (null
   * counts as absent) and is loaded first; then "work_order" must be present
   * and an array, and its elements are loaded as orders.
   */
  method Parse(root: Json, shelf: ShelfObject, orders: seq<WorkOrder>)
    returns (outcome: Outcome, result: seq<WorkOrder>)
    requires shelf.Valid() && DocumentFits(root, shelf.Bins())
    modifies shelf, shelf.BinSet()
    ensures shelf.Valid() && shelf.shelfParts == old(shelf.shelfParts)
    // the root is neither an object nor null: root["bin_contents"] raises
    ensures !(root.Obj? || root.Null?) ==>
      outcome == Raised && result == orders && unchanged(shelf) && unchanged(shelf.BinSet())
    // "bin_contents" missing: false before anything is read
    ensures (root.Null? || (root.Obj? && Field(root.members, "bin_contents") == Null)) ==>
      outcome == Rejected(MissingBinContents) && result == orders
      && unchanged(shelf) && unchanged(shelf.BinSet())
    // "bin_contents" neither an object nor null: getMemberNames raises
    ensures root.Obj? && !(Field(root.members, "bin_contents").Obj? || Field(root.members, "bin_contents").Null?) ==>
      outcome == Raised && result == orders && unchanged(shelf) && unchanged(shelf.BinSet())
    // "bin_contents" loaded: the bins are filled whatever happens to the orders
    ensures root.Obj? && Field(root.members, "bin_contents").Obj? ==>
      Filled(old(shelf.Bins()), root.members["bin_contents"].members)
    ensures root.Obj? && Field(root.members, "bin_contents").Obj? && Field(root.members, "work_order") == Null ==>
      outcome == Rejected(MissingWorkOrder) && result == orders && shelf.entries == old(shelf.entries)
    ensures (root.Obj? && Field(root.members, "bin_contents").Obj?
             && !(Field(root.members, "work_order").Null? || Field(root.members, "work_order").Arr?)) ==>
      outcome == Rejected(WorkOrderNotArray) && result == orders && shelf.entries == old(shelf.entries)
    ensures root.Obj? && Field(root.members, "bin_contents").Obj? && Field(root.members, "work_order").Arr? ==>
      var run := RunOrders(Field(root.members, "work_order").elems, old(shelf.Bins()));
      outcome == run.outcome && result == orders + run.orders
    // an unknown bin name is left behind in the map as a null entry; nothing else changes it
    ensures root.Obj? && Field(root.members, "bin_contents").Obj? && Field(root.members, "work_order").Arr? ==>
      if outcome.Rejected? && outcome.failure.UnknownBin? && outcome.failure.binName !in old(shelf.Bins())
      then shelf.Bins() == old(shelf.Bins())[outcome.failure.binName := null]
      else shelf.entries == old(shelf.entries)
  {
    result := orders;
    var binContents := Member(root, "bin_contents");
    if binContents.None? {
      return Raised, result;
    }
    if binContents.value.Null? {
      return Rejected(MissingBinContents), result;
    }
    if !binContents.value.Obj? {
      return Raised, result;
    }
    ghost var bins := shelf.Bins();
    HandlesAreBins(shelf);
    ParseBins(binContents.value.members, shelf);
    assert shelf.entries == old(shelf.entries);
    assert Filled(bins, binContents.value.members);
    var workOrders := Field(root.members, "work_order");
    if workOrders.Null? {
      return Rejected(MissingWorkOrder), result;
    }
    if !workOrders.Arr? {
      return Rejected(WorkOrderNotArray), result;
    }
    label Loaded:
    outcome, result := ParseWorkOrders(workOrders.elems, shelf, orders);
    assert unchanged@Loaded(Handles(bins));
  }
}
