/** An ordered collection of products and the order operation that buys from
    them line by line (store.py). */
module Stores {
  import opened Outcomes
  import opened Products

  // ---------------------------------------------------------------------------
  // Sequence helpers: list.remove and the comprehensions behind the queries
  // ---------------------------------------------------------------------------

  /** Where `x` occurs first in `s`. */
  function FirstIndex<T(==)>(s: seq<T>, x: T): (k: nat)
    requires x in s
    ensures k < |s| && s[k] == x && x !in s[..k]
  {
    if s[0] == x then 0
    else
      var k := FirstIndex(s[1..], x);
      assert s[..k + 1] == [s[0]] + s[1..][..k];
      k + 1
  }

  /** `s` with its first occurrence of `x` taken out, as list.remove does. */
  function RemoveFirst<T(==)>(s: seq<T>, x: T): (r: seq<T>)
    requires x in s
    ensures |r| == |s| - 1
    ensures r == s[..FirstIndex(s, x)] + s[FirstIndex(s, x) + 1..]
  {
    if s[0] == x then
      assert s == [x] + s[1..];
      s[1..]
    else
      var k := FirstIndex(s[1..], x);
      var t := s[1..];
      assert s == [s[0]] + t;
      assert s[..k + 1] == [s[0]] + t[..k];
      assert s[k + 2..] == t[k + 1..];
      [s[0]] + RemoveFirst(t, x)
  }

  /** After removing the first `x`, an element is still present iff it was
      present and is not `x`, or is `x` and occurred more than once. */
  lemma {:induction false} RemoveFirstMembership<T>(s: seq<T>, x: T, y: T)
    requires x in s
    ensures y in RemoveFirst(s, x) <==> y in s && (y != x || multiset(s)[x] > 1)
  {
    var t := s[1..];
    assert s == [s[0]] + t;
    assert multiset(s) == multiset{s[0]} + multiset(t);
    if s[0] == x {
      assert y in t <==> multiset(t)[y] > 0;
    } else {
      RemoveFirstMembership(t, x, y);
    }
  }

  /** What a stock level adds to the store's total: an unlimited stock adds nothing. */
  function Counted(s: Stock): nat
  {
    match s
    case Finite(n) => n
    case Unlimited => 0
  }

  /** Sum of the finite stock levels of `ps`, inactive products included. */
  function StockSum(ps: seq<Product>): (n: nat)
    reads ps
    ensures n == 0 <==> forall i | 0 <= i < |ps| :: ps[i].quantity == Finite(0) || ps[i].quantity.Unlimited?
    ensures forall i | 0 <= i < |ps| :: Counted(ps[i].quantity) <= n
  {
    if ps == [] then 0 else Counted(ps[0].quantity) + StockSum(ps[1..])
  }

  lemma {:induction false} StockSumAppend(a: seq<Product>, b: seq<Product>)
    ensures StockSum(a + b) == StockSum(a) + StockSum(b)
  {
    if a != [] {
      assert (a + b)[1..] == a[1..] + b;
      StockSumAppend(a[1..], b);
    } else {
      assert a + b == b;
    }
  }

  /** The active products of `ps`, in their original order. */
  function ActiveOnly(ps: seq<Product>): (r: seq<Product>)
    reads ps
    ensures |r| <= |ps|
    ensures forall i | 0 <= i < |r| :: r[i] in ps && r[i].active
    ensures forall i | 0 <= i < |ps| :: ps[i].active ==> ps[i] in r
    ensures (forall i | 0 <= i < |ps| :: ps[i].active) ==> r == ps
  {
    if ps == [] then []
    else if ps[0].active then [ps[0]] + ActiveOnly(ps[1..])
    else ActiveOnly(ps[1..])
  }

  /** Filtering distributes over concatenation, so the filter keeps order. */
  lemma {:induction false} ActiveOnlyAppend(a: seq<Product>, b: seq<Product>)
    ensures ActiveOnly(a + b) == ActiveOnly(a) + ActiveOnly(b)
  {
    if a == [] {
      assert a + b == b;
    } else {
      assert (a + b)[0] == a[0];
      assert (a + b)[1..] == a[1..] + b;
      ActiveOnlyAppend(a[1..], b);
    }
  }

  function Names(ps: seq<Product>): (ns: seq<string>)
    reads ps
    ensures |ns| == |ps|
    ensures forall i | 0 <= i < |ps| :: ns[i] == ps[i].name
  {
    if ps == [] then [] else [ps[0].name] + Names(ps[1..])
  }

  /** ', '.join(parts) */
  function Join(parts: seq<string>): (s: string)
    ensures |parts| == 1 ==> s == parts[0]
  {
    if parts == [] then ""
    else if |parts| == 1 then parts[0]
    else parts[0] + ", " + Join(parts[1..])
  }

  /** Joining two non-empty lists is joining each and putting one separator between. */
  lemma {:induction false} JoinAppend(a: seq<string>, b: seq<string>)
    requires a != [] && b != []
    ensures Join(a + b) == Join(a) + ", " + Join(b)
  {
    assert (a + b)[0] == a[0];
    assert (a + b)[1..] == a[1..] + b;
    if |a| > 1 {
      JoinAppend(a[1..], b);
    } else {
      assert a[1..] + b == b;
    }
  }

  lemma NamesAppend(a: seq<Product>, b: seq<Product>)
    ensures Names(a + b) == Names(a) + Names(b)
  {
  }

  // ---------------------------------------------------------------------------
  // The order operation, as a function of the products' states
  // ---------------------------------------------------------------------------

  /** The products named on the lines of an order. */
  function LineProducts(lines: seq<(Product, int)>): set<Product>
  {
    set i | 0 <= i < |lines| :: lines[i].0
  }

  /** The current state of each product in `ps`. */
  ghost function States(ps: set<Product>): map<Product, ProductState>
    reads ps
  {
    map p | p in ps :: p.State()
  }

  /** Every product on the lines has a state in `st`. */
  predicate Covers(lines: seq<(Product, int)>, st: map<Product, ProductState>)
  {
    forall i | 0 <= i < |lines| :: lines[i].0 in st
  }

  /** Buys the lines in turn from the states `st`, adding each charge to
      `acc`. The first failing line ends the order with its failure and with
      the states the earlier lines left: nothing is rolled back. */
  function Checkout(lines: seq<(Product, int)>, st: map<Product, ProductState>, acc: real)
    : (out: (Result<real>, map<Product, ProductState>))
    requires Covers(lines, st)
    ensures out.1.Keys == st.Keys
    decreases |lines|
  {
    if lines == [] then (Ok(acc), st)
    else
      var (p, q) := lines[0];
      var (res, s') := Purchase(st[p], q);
      match res
      case Err(e) => (Err(e), st)
      case Ok(t) => Checkout(lines[1..], st[p := s'], acc + t)
  }

  /** Units of `x` that the lines ask for, summed over all its lines. */
  function Ordered(lines: seq<(Product, int)>, x: Product): int
  {
    if lines == [] then 0
    else (if lines[0].0 == x then lines[0].1 else 0) + Ordered(lines[1..], x)
  }

  /** Undiscounted price of all lines, at the unit prices in `st`. */
  function Charged(lines: seq<(Product, int)>, st: map<Product, ProductState>): real
    requires Covers(lines, st)
  {
    if lines == [] then 0.0
    else Charge(st[lines[0].0].price, lines[0].1) + Charged(lines[1..], st)
  }

  /** `after` is `before` once `k` units in all have been bought from it
      successfully (and `before` itself when nothing was). */
  predicate Settled(before: ProductState, after: ProductState, k: int)
  {
    after.price == before.price &&
    if k == 0 then after == before
    else
      k > 0 && before.active &&
      match before.quantity
      case Unlimited => after == before
      case Finite(n) => k <= n && after.quantity == Finite(n - k) && (after.active <==> n != k)
  }

  lemma {:induction false} ChargedReadsPrices(lines: seq<(Product, int)>, st1: map<Product, ProductState>,
                                              st2: map<Product, ProductState>)
    requires Covers(lines, st1) && Covers(lines, st2)
    requires forall p | p in st1 && p in st2 :: st1[p].price == st2[p].price
    ensures Charged(lines, st1) == Charged(lines, st2)
  {
    if lines != [] {
      ChargedReadsPrices(lines[1..], st1, st2);
    }
  }

  lemma SettledThen(s0: ProductState, s1: ProductState, s2: ProductState, q: int, k: int)
    requires Settled(s0, s1, q) && q > 0
    requires Settled(s1, s2, k)
    ensures Settled(s0, s2, q + k)
  {
  }

  /** An order that succeeds charges the undiscounted sum of its lines and
      takes from each product exactly the units its lines ask for. */
  lemma {:induction false} CheckoutSucceeded(lines: seq<(Product, int)>, st: map<Product, ProductState>, acc: real)
    requires Covers(lines, st)
    requires Checkout(lines, st, acc).0.Ok?
    ensures forall i | 0 <= i < |lines| :: lines[i].1 > 0
    ensures Checkout(lines, st, acc).0.value == acc + Charged(lines, st)
    ensures forall x | x in st :: Settled(st[x], Checkout(lines, st, acc).1[x], Ordered(lines, x))
  {
    if lines != [] {
      var (p, q) := lines[0];
      var (res, s') := Purchase(st[p], q);
      var st' := st[p := s'];
      var rest := lines[1..];
      assert Covers(rest, st');
      CheckoutSucceeded(rest, st', acc + res.value);
      ChargedReadsPrices(rest, st', st);
      var after := Checkout(lines, st, acc).1;
      forall x | x in st
        ensures Settled(st[x], after[x], Ordered(lines, x))
      {
        if x == p {
          SettledThen(st[p], s', after[p], q, Ordered(rest, p));
        }
      }
    }
  }

  /** An order that fails does so at some line k: the lines before k were all
      bought and stay bought, line k's own purchase gives the failure, and the
      lines after k are not looked at. */
  lemma {:induction false} CheckoutFailed(lines: seq<(Product, int)>, st: map<Product, ProductState>, acc: real)
    returns (k: nat)
    requires Covers(lines, st)
    requires Checkout(lines, st, acc).0.Err?
    ensures k < |lines| && Covers(lines[..k], st)
    ensures Checkout(lines[..k], st, acc).0.Ok?
    ensures var mid := Checkout(lines[..k], st, acc).1;
            lines[k].0 in mid &&
            Purchase(mid[lines[k].0], lines[k].1).0 == Checkout(lines, st, acc).0 &&
            Checkout(lines, st, acc).1 == mid
  {
    var (p, q) := lines[0];
    var (res, s') := Purchase(st[p], q);
    if res.Err? {
      k := 0;
      assert lines[..0] == [];
    } else {
      var st' := st[p := s'];
      var rest := lines[1..];
      assert Covers(rest, st');
      var j := CheckoutFailed(rest, st', acc + res.value);
      k := j + 1;
      assert lines[..k][0] == lines[0];
      assert lines[..k][1..] == rest[..j];
    }
  }

  /** The argument of add_product: one product, a list of products, or
      anything else (which is refused). */
  datatype Addition = Single(product: Product) | Batch(items: seq<Product>) | Other

  class Store {
    var products: seq<Product>

    constructor Empty()
      ensures products == []
    {
      products := [];
    }

    /** Appends one product or extends by a list; refuses anything else and
        then changes nothing. */
    method AddProduct(arg: Addition) returns (r: Result<()>)
      modifies this
      ensures r.Err? <==> arg.Other?
      ensures r.Err? ==> r.error == NotAProduct && products == old(products)
      ensures arg.Single? ==> products == old(products) + [arg.product]
      ensures arg.Batch? ==> products == old(products) + arg.items
      ensures arg.Single? ==> Contains(arg.product)
    {
      match arg {
        case Single(p) =>
          products := products + [p];
        case Batch(ps) =>
          products := products + ps;
        case Other =>
          return Err(NotAProduct);
      }
      r := Ok(());
    }

    /** Takes out the first occurrence of `p`; refuses a product that is not there. */
    method RemoveProduct(p: Product) returns (r: Result<()>)
      modifies this
      ensures r.Ok? <==> p in old(products)
      ensures r.Ok? ==> products == RemoveFirst(old(products), p)
      ensures r.Err? ==> r.error == NotInStore && products == old(products)
      ensures r.Ok? ==> (Contains(p) <==> multiset(old(products))[p] > 1)
    {
      if p !in products {
        return Err(NotInStore);
      }
      RemoveFirstMembership(products, p, p);
      products := RemoveFirst(products, p);
      r := Ok(());
    }

    function TotalQuantity(): nat
      reads this, products
    {
      StockSum(products)
    }

    function AllProducts(): seq<Product>
      reads this, products
    {
      ActiveOnly(products)
    }

    /** Membership in the product sequence, by identity. */
    function Contains(p: Product): (b: bool)
      reads this
      ensures b <==> exists i | 0 <= i < |products| :: products[i] == p
    {
      p in products
    }

    /** The product names joined by ", ", or None for an empty store. */
    function Describe(): (d: Option<string>)
      reads this, products
      ensures d.None? <==> products == []
      ensures |products| == 1 ==> d == Some(products[0].name)
    {
      if products == [] then None else Some(Join(Names(products)))
    }

    /** A new store holding this store's products followed by the other's;
        neither operand changes. */
    method Plus(other: Store) returns (s: Store)
      ensures fresh(s)
      ensures s.products == products + other.products
    {
      s := new Store.Empty();
      var res := s.AddProduct(Batch(products + other.products));
    }

    /** Buys every line in turn and sums the charges; the outcome and the
        products' new states are those of Checkout. */
    method Order(lines: seq<(Product, int)>) returns (r: Result<real>)
      modifies LineProducts(lines)
      ensures var (res, after) := Checkout(lines, old(States(LineProducts(lines))), 0.0);
              r == res && States(LineProducts(lines)) == after
      ensures forall p | p in LineProducts(lines) :: p.name == old(p.name)
    {
      ghost var ps := LineProducts(lines);
      var total := 0.0;
      var i := 0;
      while i < |lines|
        invariant i <= |lines|
        invariant States(ps).Keys == ps
        invariant Covers(lines[i..], States(ps))
        invariant Checkout(lines[i..], States(ps), total) == Checkout(lines, old(States(ps)), 0.0)
        invariant forall p | p in ps :: p.name == old(p.name)
      {
        var (p, q) := lines[i];
        ghost var before := States(ps);
        assert lines[i..][0] == (p, q) && lines[i..][1..] == lines[i + 1..];
        var res := p.Buy(q);
        assert States(ps) == before[p := p.State()];
        if res.Err? {
          assert States(ps) == before;
          return Err(res.error);
        }
        total := total + res.value;
        i := i + 1;
      }
      r := Ok(total);
    }
  }

  /** The queries on a store made by Plus: stock totals add up, the active
      products are those of the left operand then those of the right, the
      description is the two descriptions joined by one separator, and a
      product is in it iff it is in either operand. */
  lemma CombinedQueries(a: Store, b: Store, s: Store)
    requires s.products == a.products + b.products
    ensures s.TotalQuantity() == a.TotalQuantity() + b.TotalQuantity()
    ensures s.AllProducts() == a.AllProducts() + b.AllProducts()
    ensures a.products != [] && b.products != [] ==>
              s.Describe() == Some(a.Describe().value + ", " + b.Describe().value)
    ensures forall p: Product :: s.Contains(p) <==> a.Contains(p) || b.Contains(p)
  {
    StockSumAppend(a.products, b.products);
    ActiveOnlyAppend(a.products, b.products);
    NamesAppend(a.products, b.products);
    if a.products != [] && b.products != [] {
      JoinAppend(Names(a.products), Names(b.products));
    }
  }

  /** Store(products): an empty store, then add_product on the argument. */
  method NewStore(arg: Addition) returns (r: Result<Store>)
    ensures r.Err? <==> arg.Other?
    ensures r.Err? ==> r.error == NotAProduct
    ensures r.Ok? && arg.Single? ==> fresh(r.value) && r.value.products == [arg.product]
    ensures r.Ok? && arg.Batch? ==> fresh(r.value) && r.value.products == arg.items
  {
    var s := new Store.Empty();
    var res := s.AddProduct(arg);
    if res.Err? {
      return Err(res.error);
    }
    r := Ok(s);
  }
}
