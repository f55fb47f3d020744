/**
 * The shelf's inventory database: bins kept in a std::map from bin name to a
 * (possibly null) bin handle, each bin holding an ordered vector of product
 * handles. Products are objects, so `==` on them is handle identity (what
 * deleteProduct compares) while `name` is what the lookups compare.
 */
module Shelf {
  import opened Wrappers
  import opened StringOrder
  import opened ShelfLayout

  class ProductObject {
    const name: string

    constructor (name: string)
      ensures this.name == name
    {
      this.name := name;
    }
  }

  // ---------------------------------------------------------------------------
  // Sequence specifications
  // ---------------------------------------------------------------------------

  /** The index of the first element satisfying `p`, if any. */
  function FirstIndex<T>(s: seq<T>, p: T -> bool): (r: Option<nat>)
    ensures r.Some? ==> r.value < |s| && p(s[r.value])
    ensures r.Some? ==> forall j :: 0 <= j < r.value ==> !p(s[j])
    ensures r.None? <==> forall j :: 0 <= j < |s| ==> !p(s[j])
    decreases |s|
  {
    if s == [] then None
    else if p(s[0]) then Some(0)
    else match FirstIndex(s[1..], p)
      case None => None
      case Some(k) => Some(k + 1)
  }

  /** A first index is unique: any index meeting the description is it. */
  lemma FirstIndexIs<T>(s: seq<T>, p: T -> bool, i: nat)
    requires i < |s| && p(s[i])
    requires forall j :: 0 <= j < i ==> !p(s[j])
    ensures FirstIndex(s, p) == Some(i)
  {
  }

  /** The first product carrying `name`, as BinObject::getProduct finds it; null if none does. */
  function FirstNamed(products: seq<ProductObject>, name: string): (r: ProductObject?)
  {
    match FirstIndex(products, (q: ProductObject) => q.name == name)
    case None => null
    case Some(i) => products[i]
  }

  /** What FirstNamed finds: a product of that name with no product of that name before it. */
  lemma FirstNamedMeaning(products: seq<ProductObject>, name: string)
    ensures FirstNamed(products, name) == null <==> forall j :: 0 <= j < |products| ==> products[j].name != name
    ensures FirstNamed(products, name) != null ==>
      exists i :: 0 <= i < |products| && products[i] == FirstNamed(products, name)
        && products[i].name == name && forall j :: 0 <= j < i ==> products[j].name != name
  {
    var r := FirstIndex(products, (q: ProductObject) => q.name == name);
    if r.Some? {
      assert products[r.value] == FirstNamed(products, name);
    }
  }

  /** The position of the first handle identical to `product`. */
  function IndexOf(products: seq<ProductObject>, product: ProductObject): (r: Option<nat>)
  {
    FirstIndex(products, (q: ProductObject) => q == product)
  }

  /** Erasing position `i` of a vector. */
  function RemoveAt<T>(s: seq<T>, i: nat): (r: seq<T>)
    requires i < |s|
    ensures |r| == |s| - 1
    ensures forall j :: 0 <= j < i ==> r[j] == s[j]
    ensures forall j :: i <= j < |r| ==> r[j] == s[j + 1]
  {
    s[..i] + s[i + 1..]
  }

  /**
   * Erasing the first occurrence of `product` removes exactly one copy of it and
   * leaves every other handle, later duplicates of `product` included.
   */
  lemma RemoveFirstOccurrence(products: seq<ProductObject>, product: ProductObject)
    requires IndexOf(products, product).Some?
    ensures multiset(RemoveAt(products, IndexOf(products, product).value))
      == multiset(products) - multiset{product}
    ensures product in multiset(products)
  {
    var i := IndexOf(products, product).value;
    assert products == products[..i] + [products[i]] + products[i + 1..];
  }

  /** Concatenation of a sequence of sequences, in order. */
  function Concat<T>(ss: seq<seq<T>>): seq<T>
  {
    if ss == [] then [] else Concat(ss[..|ss| - 1]) + ss[|ss| - 1]
  }

  function TotalLength<T>(ss: seq<seq<T>>): nat
  {
    if ss == [] then 0 else TotalLength(ss[..|ss| - 1]) + |ss[|ss| - 1]|
  }

  /** The concatenation is as long as all parts together. */
  lemma {:induction false} ConcatLength<T>(ss: seq<seq<T>>)
    ensures |Concat(ss)| == TotalLength(ss)
  {
    if ss != [] {
      ConcatLength(ss[..|ss| - 1]);
    }
  }

  /** Concatenating splits at any part boundary. */
  lemma {:induction false} ConcatSplit<T>(ss: seq<seq<T>>, k: nat)
    requires k <= |ss|
    ensures Concat(ss) == Concat(ss[..k]) + Concat(ss[k..])
    decreases |ss|
  {
    if k < |ss| {
      var n := |ss| - 1;
      ConcatSplit(ss[..n], k);
      assert ss[..n][..k] == ss[..k];
      assert ss[k..][..|ss[k..]| - 1] == ss[..n][k..];
    } else {
      assert ss[..k] == ss;
    }
  }

  // ---------------------------------------------------------------------------
  // Bins
  // ---------------------------------------------------------------------------

  class BinObject {
    const name: string
    /** The corners insertBinHelper sets right after building the bin. */
    const box: Box
    var products: seq<ProductObject>

    constructor (name: string, box: Box)
      ensures this.name == name && this.box == box && products == []
    {
      this.name := name;
      this.box := box;
      products := [];
    }

    /** getProducts(names): clears `names`, then lists every product's name in stored order. */
    method GetProductNames() returns (names: seq<string>)
      ensures |names| == |products|
      ensures forall i :: 0 <= i < |products| ==> names[i] == products[i].name
    {
      names := [];
      var i := 0;
      while i < |products|
        invariant i <= |products| && |names| == i
        invariant forall k :: 0 <= k < i ==> names[k] == products[k].name
      {
        names := names + [products[i].name];
        i := i + 1;
      }
    }

    /** getProduct(name): the first product whose name is `name`, null if there is none. */
    method GetProduct(name: string) returns (product: ProductObject?)
      ensures product == FirstNamed(products, name)
      ensures product != null ==> product in products && product.name == name
    {
      var i := 0;
      while i < |products|
        invariant i <= |products|
        invariant forall j :: 0 <= j < i ==> products[j].name != name
      {
        if products[i].name == name {
          FirstIndexIs(products, (q: ProductObject) => q.name == name, i);
          return products[i];
        }
        i := i + 1;
      }
      return null;
    }
  }

  // ---------------------------------------------------------------------------
  // The bin map: a std::map kept as its entries in ascending key order
  // ---------------------------------------------------------------------------

  datatype Entry = Entry(key: string, bin: BinObject?)

  predicate KeysAscending(entries: seq<Entry>)
  {
    forall i, j :: 0 <= i < j < |entries| ==> Less(entries[i].key, entries[j].key)
  }

  /** No bin handle is stored under two names. */
  predicate BinsDistinct(entries: seq<Entry>)
  {
    forall i, j :: 0 <= i < j < |entries| && entries[i].bin != null ==> entries[i].bin != entries[j].bin
  }

  function KeyIndex(entries: seq<Entry>, key: string): Option<nat>
  {
    FirstIndex(entries, (e: Entry) => e.key == key)
  }

  /** The handle stored under `key`, null when the key is absent or maps to null. */
  function BinAt(entries: seq<Entry>, key: string): BinObject?
  {
    match KeyIndex(entries, key)
    case None => null
    case Some(i) => entries[i].bin
  }

  function InsertAt<T>(s: seq<T>, i: nat, x: T): seq<T>
    requires i <= |s|
  {
    s[..i] + [x] + s[i..]
  }

  /** In a map the entry at position `i` is the one found under its key. */
  lemma {:induction false} KeyIndexAt(entries: seq<Entry>, i: nat)
    requires KeysAscending(entries) && i < |entries|
    ensures KeyIndex(entries, entries[i].key) == Some(i)
    ensures BinAt(entries, entries[i].key) == entries[i].bin
  {
    forall j | 0 <= j < i
      ensures entries[j].key != entries[i].key
    {
      if entries[j].key == entries[i].key { LessIrreflexive(entries[i].key); }
    }
    FirstIndexIs(entries, (e: Entry) => e.key == entries[i].key, i);
  }

  /**
   * Inserting a new key at its place in the order keeps the map a map and
   * changes no other key's entry.
   */
  lemma {:induction false} InsertNewKey(entries: seq<Entry>, i: nat, e: Entry)
    requires KeysAscending(entries) && i <= |entries|
    requires forall j :: 0 <= j < i ==> Less(entries[j].key, e.key)
    requires forall j :: i <= j < |entries| ==> Less(e.key, entries[j].key)
    ensures KeysAscending(InsertAt(entries, i, e))
    ensures KeyIndex(entries, e.key).None?
    ensures KeyIndex(InsertAt(entries, i, e), e.key) == Some(i)
    ensures BinAt(InsertAt(entries, i, e), e.key) == e.bin
    ensures forall k :: k != e.key ==> BinAt(InsertAt(entries, i, e), k) == BinAt(entries, k)
    ensures forall k :: k != e.key ==> (KeyIndex(InsertAt(entries, i, e), k).Some? <==> KeyIndex(entries, k).Some?)
  {
    var es := InsertAt(entries, i, e);
    assert es[i] == e;
    forall j | 0 <= j < |entries|
      ensures entries[j].key != e.key
    {
      if j < i {
        if entries[j].key == e.key { LessIrreflexive(e.key); }
      } else {
        if entries[j].key == e.key { LessIrreflexive(e.key); }
      }
    }
    KeyIndexAt(es, i);
    forall k | k != e.key
      ensures BinAt(es, k) == BinAt(entries, k)
      ensures KeyIndex(es, k).Some? <==> KeyIndex(entries, k).Some?
    {
      match KeyIndex(entries, k)
      case None =>
        assert forall j :: 0 <= j < |es| ==> es[j].key != k by {
          forall j | 0 <= j < |es| ensures es[j].key != k {
            if j < i { assert es[j] == entries[j]; }
            else if j > i { assert es[j] == entries[j - 1]; }
          }
        }
      case Some(m) =>
        var n := if m < i then m else m + 1;
        assert es[n] == entries[m];
        KeyIndexAt(entries, m);
        KeyIndexAt(es, n);
    }
  }

  /** Inserting a null handle, or a handle stored nowhere yet, keeps handles distinct. */
  lemma InsertKeepsBinsDistinct(entries: seq<Entry>, i: nat, e: Entry)
    requires BinsDistinct(entries) && i <= |entries|
    requires e.bin != null ==> forall j :: 0 <= j < |entries| ==> entries[j].bin != e.bin
    ensures BinsDistinct(InsertAt(entries, i, e))
  {
    var es := InsertAt(entries, i, e);
    forall a, b | 0 <= a < b < |es| && es[a].bin != null
      ensures es[a].bin != es[b].bin
    {
      if a < i && b < i { assert es[a] == entries[a] && es[b] == entries[b]; }
      else if a < i && b > i { assert es[a] == entries[a] && es[b] == entries[b - 1]; }
      else if a > i { assert es[a] == entries[a - 1] && es[b] == entries[b - 1]; }
    }
  }

  /**
   * The std::map the entries spell out; built from the back, so the first
   * entry for a key is the one that shows (a map has one entry per key).
   */
  function MapOf(entries: seq<Entry>): map<string, BinObject?>
    decreases |entries|
  {
    if entries == [] then map[]
    else MapOf(entries[1..])[entries[0].key := entries[0].bin]
  }

  /** The map holds a key exactly when an entry has it, with the first such entry's handle. */
  lemma {:induction false} MapOfMeaning(entries: seq<Entry>, k: string)
    ensures k in MapOf(entries) <==> KeyIndex(entries, k).Some?
    ensures k in MapOf(entries) ==> MapOf(entries)[k] == BinAt(entries, k)
    decreases |entries|
  {
    if entries != [] && entries[0].key != k {
      MapOfMeaning(entries[1..], k);
    }
  }

  /**
   * Two different names of the map hold two different bins (or a null), and
   * every bin the map holds is one of the entries' handles.
   */
  lemma DistinctNamesDistinctBins(entries: seq<Entry>, k1: string, k2: string)
    requires BinsDistinct(entries)
    requires k1 in MapOf(entries) && k2 in MapOf(entries) && k1 != k2
    requires MapOf(entries)[k1] != null
    ensures MapOf(entries)[k1] != MapOf(entries)[k2]
  {
    MapOfMeaning(entries, k1);
    MapOfMeaning(entries, k2);
    var i, j := KeyIndex(entries, k1).value, KeyIndex(entries, k2).value;
    assert entries[i].key == k1 && entries[j].key == k2;
    if i < j {
      assert entries[i].bin != entries[j].bin;
    } else {
      assert j != i;
      if entries[j].bin != null { assert entries[j].bin != entries[i].bin; }
    }
  }

  /** A handle found under a name is stored in some entry. */
  lemma MapOfHandle(entries: seq<Entry>, k: string)
    requires k in MapOf(entries)
    ensures exists i :: 0 <= i < |entries| && entries[i].bin == MapOf(entries)[k]
  {
    MapOfMeaning(entries, k);
    var i := KeyIndex(entries, k).value;
    assert entries[i].bin == MapOf(entries)[k];
  }

  /** Inserting a new key at its place adds exactly that key to the map. */
  lemma InsertNewKeyMap(entries: seq<Entry>, i: nat, e: Entry)
    requires KeysAscending(entries) && i <= |entries|
    requires forall j :: 0 <= j < i ==> Less(entries[j].key, e.key)
    requires forall j :: i <= j < |entries| ==> Less(e.key, entries[j].key)
    ensures KeysAscending(InsertAt(entries, i, e))
    ensures e.key !in MapOf(entries)
    ensures MapOf(InsertAt(entries, i, e)) == MapOf(entries)[e.key := e.bin]
  {
    var es := InsertAt(entries, i, e);
    InsertNewKey(entries, i, e);
    MapOfMeaning(entries, e.key);
    MapOfMeaning(es, e.key);
    forall k
      ensures k in MapOf(es) <==> k in MapOf(entries)[e.key := e.bin]
      ensures k in MapOf(es) ==> MapOf(es)[k] == MapOf(entries)[e.key := e.bin][k]
    {
      MapOfMeaning(entries, k);
      MapOfMeaning(es, k);
    }
  }

  /** `m` holds, under `key`, a bin with that name and those corners. */
  predicate Holds(m: map<string, BinObject?>, key: string, box: Box)
  {
    key in m && m[key] != null && m[key].name == key && m[key].box == box
  }

  /**
   * Storing four bins under four new, distinct names adds exactly those
   * names, keeps every other entry, and each name holds its own bin.
   */
  lemma ColumnPlaced(m0: map<string, BinObject?>, names: seq<string>, bins: seq<BinObject>, boxes: seq<Box>)
    requires |names| == 4 && |bins| == 4 && |boxes| == 4
    requires names[0] != names[1] && names[0] != names[2] && names[0] != names[3]
    requires names[1] != names[2] && names[1] != names[3] && names[2] != names[3]
    requires names[0] !in m0 && names[1] !in m0 && names[2] !in m0 && names[3] !in m0
    requires bins[0].name == names[0] && bins[1].name == names[1]
    requires bins[2].name == names[2] && bins[3].name == names[3]
    requires bins[0].box == boxes[0] && bins[1].box == boxes[1]
    requires bins[2].box == boxes[2] && bins[3].box == boxes[3]
    ensures var m := m0[names[0] := bins[0]][names[1] := bins[1]][names[2] := bins[2]][names[3] := bins[3]];
      && (forall k :: k in m <==> k in m0 || k in names)
      && (forall k :: k in m0 ==> m[k] == m0[k])
      && (forall i :: 0 <= i < 4 ==> Holds(m, names[i], boxes[i]))
      && (forall i :: 0 <= i < 4 ==> m[names[i]] == bins[i])
  {
  }

  /**
   * After `c` columns of the wall loop the map holds exactly the first `c`
   * columns' names, each with the bin the layout places there.
   */
  ghost predicate Built(m: map<string, BinObject?>, p: ShelfParams, c: nat)
    requires LetteringFits(p.numBins) && c <= COLUMNS
  {
    && (forall k :: k in m <==> k in LayoutNames(p.numBins)[..ROWS * c])
    && (forall w, r :: 0 <= w < c && 0 <= r < ROWS ==>
          Holds(m, BinName(p.numBins, BinId(w, r)), ExpectedBinBox(p, w, r)))
  }

  /** None of the next column's names is taken yet. */
  lemma NextColumnFree(m: map<string, BinObject?>, p: ShelfParams, c: nat)
    requires LetteringFits(p.numBins) && c < COLUMNS && Built(m, p, c)
    ensures forall r :: 0 <= r < ROWS ==> ColumnNames(p.numBins, c)[r] !in m
  {
    forall r | 0 <= r < ROWS
      ensures ColumnNames(p.numBins, c)[r] !in m
    {
      var name := ColumnNames(p.numBins, c)[r];
      if name in m {
        var prefix := LayoutNames(p.numBins)[..ROWS * c];
        var j :| 0 <= j < |prefix| && prefix[j] == name;
        var w := j / ROWS;
        assert prefix[j] == BinName(p.numBins, BinId(w, j % ROWS)) by {
          LayoutNamesAt(p.numBins, w, j % ROWS);
        }
        ColumnNamesDisjoint(p.numBins, w, c, j % ROWS);
        assert false;
      }
    }
  }

  /** Placing column `c` as insertBinHelper does takes Built from `c` to `c + 1` columns. */
  lemma ColumnStep(m0: map<string, BinObject?>, m1: map<string, BinObject?>, p: ShelfParams, c: nat)
    requires LetteringFits(p.numBins) && c < COLUMNS && Built(m0, p, c)
    requires forall k :: k in m1 <==> k in m0 || k in ColumnNames(p.numBins, c)
    requires forall k :: k in m0 ==> m1[k] == m0[k]
    requires forall r :: 0 <= r < ROWS ==>
      Holds(m1, ColumnNames(p.numBins, c)[r], ColumnBoxes(p, ColumnY(p, c), ColumnWidth(p, c))[r])
    ensures Built(m1, p, c + 1)
  {
    LayoutNamesPrefix(p.numBins, c);
    forall w, r | 0 <= w < c + 1 && 0 <= r < ROWS
      ensures Holds(m1, BinName(p.numBins, BinId(w, r)), ExpectedBinBox(p, w, r))
    {
      if w < c {
        assert Holds(m0, BinName(p.numBins, BinId(w, r)), ExpectedBinBox(p, w, r));
      } else {
        assert ColumnNames(p.numBins, c)[r] == BinName(p.numBins, BinId(w, r));
      }
    }
  }

  class ShelfObject {
    /** bins_: the entries of the std::map, in ascending key order. */
    var entries: seq<Entry>
    /** shelf_parts_: walls and surfaces appended by initialize. */
    var shelfParts: seq<ShelfPart>
    /**
     * The dimensions initialize reads from the parameter server; reading them
     * is not modelled, so they are fixed when the shelf is built.
     */
    const params: ShelfParams

    ghost predicate Valid()
      reads this
    {
      KeysAscending(entries) && BinsDistinct(entries)
    }

    constructor (params: ShelfParams)
      ensures Valid() && entries == [] && shelfParts == [] && this.params == params
    {
      this.params := params;
      entries := [];
      shelfParts := [];
    }

    /** bins_ as a map from bin name to bin handle (null for a null entry). */
    function Bins(): map<string, BinObject?>
      reads this
    {
      MapOf(entries)
    }

    /** The bins the map holds (non-null handles). */
    function BinSet(): set<BinObject>
      reads this
    {
      set i | 0 <= i < |entries| && entries[i].bin != null :: entries[i].bin
    }

    predicate NoNullBins()
      reads this
    {
      forall i :: 0 <= i < |entries| ==> entries[i].bin != null
    }

    /** Each bin's product list, bins in the map's key order. */
    function Contents(): seq<seq<ProductObject>>
      reads this, BinSet()
      requires NoNullBins()
    {
      seq(|entries|, i requires 0 <= i < |entries| && NoNullBins() reads this, BinSet() => entries[i].bin.products)
    }

    /**
     * Where a key goes in the map: every key before the returned position is
     * smaller, every key after it larger, and the key sits at that position
     * exactly when it is present.
     */
    method LowerBound(key: string) returns (i: nat)
      requires Valid()
      ensures i <= |entries|
      ensures forall j :: 0 <= j < i ==> Less(entries[j].key, key)
      ensures forall j :: i < j < |entries| ==> Less(key, entries[j].key)
      ensures i < |entries| && entries[i].key != key ==> Less(key, entries[i].key)
      ensures key in Bins() <==> i < |entries| && entries[i].key == key
      ensures key in Bins() ==> Bins()[key] == entries[i].bin
    {
      i := 0;
      while i < |entries| && Less(entries[i].key, key)
        invariant i <= |entries|
        invariant forall j :: 0 <= j < i ==> Less(entries[j].key, key)
      {
        i := i + 1;
      }
      if i < |entries| {
        LessTotal(entries[i].key, key);
        forall j | i < j < |entries|
          ensures Less(key, entries[j].key)
        {
          if entries[i].key != key { LessTransitive(key, entries[i].key, entries[j].key); }
        }
        if entries[i].key == key {
          KeyIndexAt(entries, i);
        }
      }
      MapOfMeaning(entries, key);
      if !(i < |entries| && entries[i].key == key) {
        forall j | 0 <= j < |entries|
          ensures entries[j].key != key
        {
          if entries[j].key == key { LessIrreflexive(key); }
        }
      }
    }

    /**
     * bins_[key]: the handle stored under `key`; an absent key is first
     * inserted with a null handle, at its place in the order.
     */
    method Subscript(key: string) returns (bin: BinObject?)
      requires Valid()
      modifies this
      ensures Valid() && shelfParts == old(shelfParts)
      ensures key in old(Bins()) ==> bin == old(Bins())[key] && entries == old(entries)
      ensures key !in old(Bins()) ==> bin == null && Bins() == old(Bins())[key := null]
    {
      var i := LowerBound(key);
      if i < |entries| && entries[i].key == key {
        bin := entries[i].bin;
      } else {
        InsertNewKeyMap(entries, i, Entry(key, null));
        InsertKeepsBinsDistinct(entries, i, Entry(key, null));
        entries := InsertAt(entries, i, Entry(key, null));
        bin := null;
      }
    }

    /** getBin(id): bins_["bin_" + char(64 + id)], inserting a null entry when absent. */
    method GetBin(binId: nat) returns (bin: BinObject?)
      requires Valid()
      modifies this
      ensures Valid() && shelfParts == old(shelfParts)
      ensures var name := GetBinName(binId);
        name in old(Bins()) ==> bin == old(Bins())[name] && entries == old(entries)
      ensures var name := GetBinName(binId);
        name !in old(Bins()) ==> bin == null && Bins() == old(Bins())[name := null]
    {
      bin := Subscript(GetBinName(binId));
    }

    /**
     * getProduct(bin, product): null when the bin is unknown or holds no
     * product of that name, else the first such product. Looking the bin up
     * with operator[] leaves a null entry behind for an unknown name.
     */
    method GetProduct(binName: string, productName: string) returns (product: ProductObject?)
      requires Valid()
      modifies this
      ensures Valid() && shelfParts == old(shelfParts)
      ensures binName in old(Bins()) ==> entries == old(entries)
      ensures binName !in old(Bins()) ==> product == null && Bins() == old(Bins())[binName := null]
      ensures binName in old(Bins()) && old(Bins())[binName] == null ==> product == null
      ensures binName in old(Bins()) && old(Bins())[binName] != null ==>
        product == FirstNamed(old(Bins())[binName].products, productName)
    {
      var bin := Subscript(binName);
      if bin == null {
        return null;
      }
      product := bin.GetProduct(productName);
    }

    /**
     * getAllProducts: clears the output, then appends every bin's products,
     * bins in ascending name order; always succeeds. Every entry must hold a
     * bin, since each one is dereferenced.
     */
    method GetAllProducts() returns (ok: bool, products: seq<ProductObject>)
      requires Valid() && NoNullBins()
      ensures ok
      ensures products == Concat(Contents())
    {
      products := [];
      var i := 0;
      while i < |entries|
        invariant i <= |entries|
        invariant products == Concat(Contents()[..i])
      {
        var bin := entries[i].bin;
        var j := 0;
        while j < |bin.products|
          invariant j <= |bin.products|
          invariant products == Concat(Contents()[..i]) + bin.products[..j]
        {
          products := products + [bin.products[j]];
          j := j + 1;
        }
        assert Contents()[..i + 1][..i] == Contents()[..i];
        assert bin.products[..j] == bin.products;
        i := i + 1;
      }
      assert Contents()[..i] == Contents();
      ok := true;
    }

    /**
     * deleteProduct(bin, product): erases the first handle identical to
     * `product` and succeeds; fails and changes nothing when there is none.
     */
    method DeleteProduct(bin: BinObject, product: ProductObject) returns (ok: bool)
      modifies bin
      ensures ok <==> product in old(bin.products)
      ensures match IndexOf(old(bin.products), product)
        case None => bin.products == old(bin.products)
        case Some(i) => bin.products == RemoveAt(old(bin.products), i)
    {
      var i := 0;
      while i < |bin.products|
        invariant i <= |bin.products|
        invariant forall j :: 0 <= j < i ==> bin.products[j] != product
      {
        if bin.products[i] == product {
          FirstIndexIs(bin.products, (q: ProductObject) => q == product, i);
          bin.products := RemoveAt(bin.products, i);
          return true;
        }
        i := i + 1;
      }
      return false;
    }

    // -------------------------------------------------------------------------
    // Layout (the wall, bin and surface loops of initialize)
    // -------------------------------------------------------------------------

    /** The map holds a bin under `key` with that name and those corners. */
    predicate HasBin(key: string, box: Box)
      reads this
    {
      Holds(Bins(), key, box)
    }

    /**
     * insertBinHelper: builds a bin named after `binId` with the corners
     * computed from the wall position, bin height and width, and inserts it
     * unless the name is taken (std::map::insert keeps the existing entry).
     */
    method InsertBinHelper(binId: int, height: real, width: real, wallY: real, binZ: real)
      returns (ok: bool, ghost bin: BinObject)
      requires Valid() && LetterFits(params.numBins, binId)
      modifies this
      ensures ok && Valid() && shelfParts == old(shelfParts)
      ensures fresh(bin) && bin.products == []
      ensures bin.name == BinName(params.numBins, binId)
      ensures bin.box == BinBox(params, wallY, binZ, width, height)
      ensures bin.name in old(Bins()) ==> entries == old(entries)
      ensures bin.name !in old(Bins()) ==> Bins() == old(Bins())[bin.name := bin]
    {
      var name := BinName(params.numBins, binId);
      var created := new BinObject(name, BinBox(params, wallY, binZ, width, height));
      bin := created;
      var i := LowerBound(name);
      if !(i < |entries| && entries[i].key == name) {
        InsertNewKeyMap(entries, i, Entry(name, created));
        InsertKeepsBinsDistinct(entries, i, Entry(name, created));
        entries := InsertAt(entries, i, Entry(name, created));
      }
      ok := true;
    }

    /** The four insertBinHelper calls of one column, bottom row first. */
    method InsertColumn(wallId: nat, width: real, wallY: real) returns (ghost column: set<BinObject>)
      requires Valid() && wallId < COLUMNS && LetteringFits(params.numBins)
      requires forall r :: 0 <= r < ROWS ==> ColumnNames(params.numBins, wallId)[r] !in Bins()
      modifies this
      ensures Valid() && shelfParts == old(shelfParts)
      ensures forall k :: k in Bins() <==> k in old(Bins()) || k in ColumnNames(params.numBins, wallId)
      ensures forall k :: k in old(Bins()) ==> Bins()[k] == old(Bins())[k]
      ensures forall r :: 0 <= r < ROWS ==>
        HasBin(ColumnNames(params.numBins, wallId)[r], ColumnBoxes(params, wallY, width)[r])
      ensures fresh(column) && forall b :: b in column ==> b.products == []
      ensures forall r :: 0 <= r < ROWS ==> Bins()[ColumnNames(params.numBins, wallId)[r]] in column
    {
      var names := ColumnNames(params.numBins, wallId);
      ColumnNamesDistinct(params.numBins, wallId);
      ghost var m0 := Bins();
      var binZ := params.firstBinFromBottom;
      assert binZ == BinZ(params, 0);
      var ok, b0 := InsertBinHelper(BinId(wallId, 0), params.binTallHeight, width, wallY, binZ);
      ghost var m1 := Bins();
      binZ := binZ + params.binTallHeight;
      assert binZ == BinZ(params, 1);
      var ok1, b1 := InsertBinHelper(BinId(wallId, 1), params.binShortHeight, width, wallY, binZ);
      ghost var m2 := Bins();
      binZ := binZ + params.binShortHeight;
      assert binZ == BinZ(params, 2);
      var ok2, b2 := InsertBinHelper(BinId(wallId, 2), params.binShortHeight, width, wallY, binZ);
      ghost var m3 := Bins();
      binZ := binZ + params.binShortHeight;
      assert binZ == BinZ(params, 3);
      var ok3, b3 := InsertBinHelper(BinId(wallId, 3), params.binTallHeight, width, wallY, binZ);
      assert m1 == m0[names[0] := b0];
      assert m2 == m1[names[1] := b1];
      assert m3 == m2[names[2] := b2];
      assert Bins() == m3[names[3] := b3];
      ColumnPlaced(m0, names, [b0, b1, b2, b3], ColumnBoxes(params, wallY, width));
      column := {b0, b1, b2, b3};
    }

    /**
     * The surface loop of initialize: surface `i` has its top at previous_z,
     * which then rises by the height of row `i`.
     */
    method AppendSurfaces()
      modifies this
      ensures entries == old(entries)
      ensures shelfParts == old(shelfParts) + SurfaceParts(params)
    {
      var previousZ := params.firstBinFromBottom;
      var i: nat := 0;
      while i < SURFACES
        invariant i <= SURFACES && entries == old(entries)
        invariant previousZ == SurfaceZ(params, i)
        invariant shelfParts == old(shelfParts) + SurfaceParts(params)[..i]
      {
        var topLeft := Vec3(params.shelfWidth, params.shelfDepth, previousZ);
        shelfParts := shelfParts + [Surface("surface_" + Digit(i), topLeft, topLeft.z - params.shelfSurfaceThickness)];
        var thisBinHeight := if i == 1 || i == 2 then params.binShortHeight else params.binTallHeight;
        previousZ := previousZ + thisBinHeight;
        i := i + 1;
      }
    }

    /**
     * The layout part of initialize: the wall loop (each wall appended, bins
     * built for the three columns, previous_y advanced) and the surface loop.
     * It runs once, on a shelf with no bins yet.
     */
    method Initialize() returns (ok: bool)
      requires Valid() && entries == [] && LetteringFits(params.numBins)
      modifies this
      ensures ok && Valid()
      ensures shelfParts == old(shelfParts) + WallParts(params) + SurfaceParts(params)
      ensures forall k :: k in Bins() <==> k in LayoutNames(params.numBins)
      ensures forall w, r :: 0 <= w < COLUMNS && 0 <= r < ROWS ==>
        HasBin(BinName(params.numBins, BinId(w, r)), ExpectedBinBox(params, w, r))
      ensures forall k :: k in Bins() ==> Bins()[k] != null && fresh(Bins()[k]) && Bins()[k].products == []
    {
      ghost var made: set<BinObject> := {};
      var previousY := params.shelfWallWidth * 0.5;
      var wallId: nat := 0;
      while wallId < WALLS
        invariant wallId <= WALLS
        invariant Valid()
        invariant previousY == PreviousY(params, wallId)
        invariant shelfParts == old(shelfParts) + WallParts(params)[..wallId]
        invariant Built(Bins(), params, Min(wallId, COLUMNS))
        invariant fresh(made) && forall b :: b in made ==> b.products == []
        invariant forall k :: k in Bins() ==> Bins()[k] != null && Bins()[k] in made
      {
        var thisWallWidth := if wallId == 1 || wallId == 2 then params.shelfInnerWallWidth else params.shelfWallWidth;
        var bottomRight := Vec3(0.0, previousY - thisWallWidth * 0.5, params.firstBinFromBottom);
        var topLeft := Vec3(params.shelfDepth, previousY + thisWallWidth * 0.5, params.shelfHeight);
        assert Box(bottomRight, topLeft) == WallBox(params, wallId);
        shelfParts := shelfParts + [Wall("wall_" + Digit(wallId), Box(bottomRight, topLeft))];
        assert WallParts(params)[..wallId + 1] == WallParts(params)[..wallId] + [WallPart(params, wallId)];
        var thisBinWidth :=
          if wallId == 0 then params.binRightWidth
          else if wallId == 1 then params.binMiddleWidth
          else if wallId == 2 then params.binLeftWidth
          else 0.0;
        previousY := previousY + thisBinWidth + thisWallWidth;
        if wallId < COLUMNS {
          ghost var before := Bins();
          NextColumnFree(before, params, wallId);
          ghost var column := InsertColumn(wallId, thisBinWidth, topLeft.y);
          made := made + column;
          ColumnStep(before, Bins(), params, wallId);
        }
        wallId := wallId + 1;
      }
      assert LayoutNames(params.numBins)[..ROWS * COLUMNS] == LayoutNames(params.numBins);
      AppendSurfaces();
      ok := true;
    }
  }
}
