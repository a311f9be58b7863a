/** A catalogue entry: name, unit price, stock level and an active flag, all
    held in a mutable object (product.py). */
module Products {
  import opened Outcomes

  /** A stock level. `Unlimited` is the floating-point infinity that
      set_quantity accepts: it is never depleted and never reaches zero. */
  datatype Stock = Finite(n: nat) | Unlimited

  /** What set_quantity may be handed: a whole number of units (possibly
      negative) or infinity. */
  datatype Amount = Units(k: int) | Infinity

  /** The part of a product that purchasing reads and writes. */
  datatype ProductState = ProductState(price: real, quantity: Stock, active: bool)

  /** The stock level an accepted amount stands for. */
  function StockOf(a: Amount): Stock
    requires a.Units? ==> a.k >= 0
  {
    match a
    case Units(k) => Finite(k)
    case Infinity => Unlimited
  }

  /** Construction-time validation: the name is checked first, then the
      price, then the quantity; the first failing check is reported. */
  function Validate(name: string, price: real, quantity: int): (e: Option<Error>)
    ensures e == None <==> name != [] && price >= 0.0 && quantity >= 0
    ensures name == [] ==> e == Some(EmptyName)
    ensures name != [] && price < 0.0 ==> e == Some(NegativePrice)
    ensures name != [] && price >= 0.0 && quantity < 0 ==> e == Some(NegativeQuantity)
  {
    if name == [] then Some(EmptyName)
    else if price < 0.0 then Some(NegativePrice)
    else if quantity < 0 then Some(NegativeQuantity)
    else None
  }

  /** What q units cost at the given unit price. */
  function Charge(price: real, q: int): (c: real)
    ensures price >= 0.0 && q >= 0 ==> c >= 0.0
  {
    price * q as real
  }

  /** The effect of buying `q` units from a product in state `s`: the charge
      (or the failure) and the state afterwards. */
  function Purchase(s: ProductState, q: int): (out: (Result<real>, ProductState))
    // the three failures, each with its precedence over the later ones
    ensures out.0 == Err(InactiveProduct) <==> !s.active
    ensures out.0 == Err(NonPositiveQuantity) <==> s.active && q <= 0
    ensures out.0 == Err(InsufficientStock) <==>
              s.active && q > 0 && s.quantity.Finite? && q > s.quantity.n
    // and no other: an active product sells any positive amount its stock covers
    ensures out.0.Ok? <==> s.active && q > 0 && (s.quantity.Finite? ==> q <= s.quantity.n)
    // a failed purchase changes nothing
    ensures out.0.Err? ==> out.1 == s
    // a successful one charges price * q, never touches the price, and takes q units
    ensures out.0.Ok? ==> q > 0 && out.0.value == Charge(s.price, q) && out.1.price == s.price
    ensures out.0.Ok? && s.quantity.Finite? ==>
              out.1.quantity == Finite(s.quantity.n - q) && (out.1.active <==> s.quantity.n != q)
    ensures out.0.Ok? && s.quantity.Unlimited? ==> out.1 == s
    // a non-negative price never yields a negative charge
    ensures out.0.Ok? && s.price >= 0.0 ==> out.0.value >= 0.0
  {
    if !s.active then (Err(InactiveProduct), s)
    else if q <= 0 then (Err(NonPositiveQuantity), s)
    else match s.quantity
      case Unlimited => (Ok(Charge(s.price, q)), s)
      case Finite(n) =>
        if q > n then (Err(InsufficientStock), s)
        else (Ok(Charge(s.price, q)), s.(quantity := Finite(n - q), active := n - q != 0))
  }

  /** Buying a units and then b units succeeds exactly when buying a + b units
      at once does, and then ends in the same state and charges the same. */
  lemma PurchaseSplit(s: ProductState, a: int, b: int)
    requires a > 0 && b > 0
    ensures var (r1, s1) := Purchase(s, a);
            var (r2, s2) := Purchase(s1, b);
            var (r, s') := Purchase(s, a + b);
            (r.Ok? <==> r1.Ok? && r2.Ok?) &&
            (r.Ok? ==> s' == s2 && r.value == r1.value + r2.value)
  {
  }

  class Product {
    var name: string
    var price: real
    var quantity: Stock
    var active: bool

    /** What construction established and no operation undoes. */
    ghost predicate Valid()
      reads this
    {
      name != [] && price >= 0.0
    }

    function State(): ProductState
      reads this
    {
      ProductState(price, quantity, active)
    }

    /** A new product holds exactly its arguments and starts active, even
        with zero stock. */
    constructor (name: string, price: real, quantity: int)
      requires Validate(name, price, quantity) == None
      ensures Valid()
      ensures this.name == name && this.price == price
      ensures this.quantity == Finite(quantity) && active
    {
      this.name := name;
      this.price := price;
      this.quantity := Finite(quantity);
      this.active := true;
    }

    /** Replaces the stock level; zero deactivates, anything else activates.
        A negative count is refused and changes nothing. */
    method SetQuantity(amount: Amount) returns (r: Result<()>)
      modifies this
      ensures old(Valid()) ==> Valid()
      ensures name == old(name) && price == old(price)
      ensures r.Err? <==> amount.Units? && amount.k < 0
      ensures r.Err? ==> r.error == NegativeQuantity && quantity == old(quantity) && active == old(active)
      ensures r.Ok? ==> quantity == StockOf(amount) && (active <==> quantity != Finite(0))
    {
      if amount.Units? && amount.k < 0 {
        return Err(NegativeQuantity);
      }
      quantity := StockOf(amount);
      if quantity == Finite(0) {
        active := false;
      } else {
        active := true;
      }
      r := Ok(());
    }

    /** Ends active whatever the flag was, so a second call changes nothing. */
    method Activate()
      modifies this
      ensures old(Valid()) ==> Valid()
      ensures active
      ensures name == old(name) && price == old(price) && quantity == old(quantity)
    {
      if !active {
        active := true;
      }
    }

    /** Ends inactive whatever the flag was, so a second call changes nothing. */
    method Deactivate()
      modifies this
      ensures old(Valid()) ==> Valid()
      ensures !active
      ensures name == old(name) && price == old(price) && quantity == old(quantity)
    {
      if active {
        active := false;
      }
    }

    /** Buys `q` units: the outcome and the new state are those of Purchase. */
    method Buy(q: int) returns (r: Result<real>)
      modifies this
      ensures old(Valid()) ==> Valid()
      ensures name == old(name)
      ensures (r, State()) == Purchase(old(State()), q)
      ensures old(Valid()) && r.Ok? ==> r.value >= 0.0
    {
      if !active {
        return Err(InactiveProduct);
      }
      if q <= 0 {
        return Err(NonPositiveQuantity);
      }
      match quantity {
        case Unlimited =>
          // infinity minus q is still infinity, and never equals zero
          r := Ok(Charge(price, q));
        case Finite(n) =>
          if q > n {
            return Err(InsufficientStock);
          }
          quantity := Finite(n - q);
          r := Ok(Charge(price, q));
          if n - q == 0 {
            Deactivate();
          }
      }
    }
  }

  /** Product(name, price, quantity): validates, then allocates. */
  method NewProduct(name: string, price: real, quantity: int) returns (r: Result<Product>)
    ensures r.Ok? <==> Validate(name, price, quantity) == None
    ensures r.Err? ==> Validate(name, price, quantity) == Some(r.error)
    ensures r.Ok? ==> fresh(r.value) && r.value.Valid() && r.value.active &&
                      r.value.name == name && r.value.price == price &&
                      r.value.quantity == Finite(quantity)
  {
    var e := Validate(name, price, quantity);
    if e.Some? {
      return Err(e.value);
    }
    var p := new Product(name, price, quantity);
    r := Ok(p);
  }
}
