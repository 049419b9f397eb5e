/** The records the catalog's cart code passes around: the catalog product,
    a line item of the cart, the checkout form, the commands sent to the
    cart store and the effects a cart view performs. Money is integer cents. */
module CartTypes {
  import opened Optional

  /** A catalog product; `price` is in cents. */
  datatype Product = Product(
    id: string,
    name: string,
    description: string,
    price: nat,
    image: string,
    category: string,
    shareableLink: Option<string>,
    createdAt: int)

  /** One line of the cart: a product id with a snapshot of its name and
      price (in cents) and a quantity. */
  datatype CartItem = CartItem(productId: string, name: string, price: nat, quantity: nat)

  /** The customer details typed into the checkout form. */
  datatype CheckoutForm = CheckoutForm(name: string, phone: string, address: string)

  /** The commands a view sends to the cart store with `dispatch`. */
  datatype Cmd =
    | AddItem(productId: string, name: string, price: nat, quantity: int)
    | UpdateQuantity(productId: string, quantity: int)
    | RemoveItem(productId: string)
    | ClearCart

  /** What a view does to the outside world, in the order it does it. */
  datatype Effect =
    | PreventDefault
    | Dispatch(cmd: Cmd)
    | OpenWindow(url: string, target: string)
    | Close

  /** A command that cannot bring a quantity below 1: every quantity it
      carries is at least 1. */
  predicate KeepsQuantitiesPositive(c: Cmd) {
    match c
    case AddItem(_, _, _, q) => q >= 1
    case UpdateQuantity(_, q) => q >= 1
    case RemoveItem(_) => true
    case ClearCart => true
  }

  predicate EffectKeepsQuantitiesPositive(e: Effect) {
    e.Dispatch? ==> KeepsQuantitiesPositive(e.cmd)
  }

  /** Every command in an effect log keeps quantities at least 1. */
  predicate LogKeepsQuantitiesPositive(log: seq<Effect>) {
    forall i :: 0 <= i < |log| ==> EffectKeepsQuantitiesPositive(log[i])
  }

  /** The commands an effect log dispatches, in order. */
  function Dispatched(log: seq<Effect>): (cmds: seq<Cmd>)
    ensures |cmds| <= |log|
  {
    if log == [] then []
    else (if log[0].Dispatch? then [log[0].cmd] else []) + Dispatched(log[1..])
  }

  lemma {:induction false} DispatchedAppend(a: seq<Effect>, b: seq<Effect>)
    ensures Dispatched(a + b) == Dispatched(a) + Dispatched(b)
  {
    if a == [] {
      assert a + b == b;
    } else {
      var ab := a + b;
      assert ab[0] == a[0] && ab[1..] == a[1..] + b;
      var head := if a[0].Dispatch? then [a[0].cmd] else [];
      DispatchedAppend(a[1..], b);
      calc {
        Dispatched(ab);
        head + Dispatched(a[1..] + b);
        head + (Dispatched(a[1..]) + Dispatched(b));
        (head + Dispatched(a[1..])) + Dispatched(b);
        Dispatched(a) + Dispatched(b);
      }
    }
  }

  /** A log that keeps quantities positive dispatches only such commands. */
  lemma {:induction false} DispatchedKeepQuantitiesPositive(log: seq<Effect>)
    requires LogKeepsQuantitiesPositive(log)
    ensures forall i :: 0 <= i < |Dispatched(log)| ==> KeepsQuantitiesPositive(Dispatched(log)[i])
  {
    if log != [] {
      DispatchedKeepQuantitiesPositive(log[1..]);
    }
  }
}
