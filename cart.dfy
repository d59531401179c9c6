/** The shopping cart shared by the cashier's intake form and the customer's
    order page: a list of service lines keyed by service id, with merge-on-add,
    removal, a recomputed total, and the two quantity policies of the two pages. */
module Cart {
  import opened Seqs
  import Api

  /** A catalogue entry as the `/services` listing returns it. */
  datatype Service = Service(id: int, name: string, unit: string, price: real)

  /** A cart line: the service's fields plus the chosen quantity. */
  datatype Line = Line(id: int, name: string, unit: string, price: real, quantity: real)

  /** `{...service, quantity: q}`. */
  function LineOf(s: Service, q: real): Line
  {
    Line(s.id, s.name, s.unit, s.price, q)
  }

  predicate HasLine(cart: seq<Line>, id: int)
  {
    exists i :: 0 <= i < |cart| && cart[i].id == id
  }

  /** No two lines share a service id. */
  predicate DistinctIds(cart: seq<Line>)
  {
    forall i, j :: 0 <= i < j < |cart| ==> cart[i].id != cart[j].id
  }

  /** Every line with service id `id` gets quantity `f(quantity)`; the
      other lines are left as they are. */
  function WithQuantity(cart: seq<Line>, id: int, f: real -> real): (r: seq<Line>)
    ensures |r| == |cart|
    ensures forall i :: 0 <= i < |cart| ==> r[i].id == cart[i].id
    ensures forall i :: 0 <= i < |cart| && cart[i].id == id ==> r[i] == cart[i].(quantity := f(cart[i].quantity))
    ensures forall i :: 0 <= i < |cart| && cart[i].id != id ==> r[i] == cart[i]
  {
    seq(|cart|, i requires 0 <= i < |cart| =>
      if cart[i].id == id then cart[i].(quantity := f(cart[i].quantity)) else cart[i])
  }

  /** `addToCart`: a service already in the cart gets one more unit on its
      line; any other service is appended as a new line with quantity 1. */
  function AddToCart(cart: seq<Line>, s: Service): (r: seq<Line>)
    ensures HasLine(r, s.id)
    ensures |r| == if HasLine(cart, s.id) then |cart| else |cart| + 1
    ensures forall i :: 0 <= i < |cart| ==> r[i].id == cart[i].id
  {
    if HasLine(cart, s.id) then WithQuantity(cart, s.id, q => q + 1.0)
    else
      var r := cart + [LineOf(s, 1.0)];
      assert r[|cart|].id == s.id;
      r
  }

  /** Keeps the lines of every service but `id`. */
  function Other(id: int): Line -> bool
  {
    (l: Line) => l.id != id
  }

  /** `removeFromCart`: the lines whose id differs from `id`, in order. */
  function Remove(cart: seq<Line>, id: int): (r: seq<Line>)
    ensures !HasLine(r, id)
    ensures forall i :: 0 <= i < |cart| && cart[i].id != id ==> cart[i] in r
    ensures forall l :: l in r ==> l in cart
  {
    Filter(cart, Other(id))
  }

  /** Removing an id that is not in the cart leaves the cart as it is. */
  lemma RemoveAbsent(cart: seq<Line>, id: int)
    requires !HasLine(cart, id)
    ensures Remove(cart, id) == cart
  {
    FilterKeepsAll(cart, Other(id));
  }

  /** Removal keeps the surviving lines in their original order. */
  lemma RemoveKeepsOrder(a: seq<Line>, b: seq<Line>, id: int)
    ensures Remove(a + b, id) == Remove(a, id) + Remove(b, id)
  {
    FilterAppend(a, b, Other(id));
  }

  /** The cashier's `updateCartQty`: a quantity of 0 or less deletes the
      line, any other quantity replaces the line's quantity. */
  function SetQuantity(cart: seq<Line>, id: int, qty: real): (r: seq<Line>)
  {
    if qty <= 0.0 then Remove(cart, id) else WithQuantity(cart, id, _ => qty)
  }

  /** `parseFloat(x.toFixed(1))` for a non-negative quantity: the nearest
      tenth, halves rounded up. */
  function Round1(x: real): real
  {
    ((x * 10.0 + 0.5).Floor as real) / 10.0
  }

  /** A whole number of tenths. */
  predicate IsTenths(x: real)
  {
    (x * 10.0).Floor as real == x * 10.0
  }

  function Max(a: real, b: real): real { if a >= b then a else b }

  /** The customer's `updateQty`: add `delta`, never go below 0.1, round to
      one decimal place. */
  function StepQuantity(cart: seq<Line>, id: int, delta: real): (r: seq<Line>)
  {
    WithQuantity(cart, id, q => Round1(Max(0.1, q + delta)))
  }

  /** What one line costs: unit price times quantity. */
  function Subtotal(l: Line): real
  {
    l.price * l.quantity
  }

  /** `reduce((acc, item) => acc + item.price * item.quantity, 0)`. */
  function Total(cart: seq<Line>): real
  {
    if cart == [] then 0.0 else Total(cart[..|cart| - 1]) + Subtotal(cart[|cart| - 1])
  }

  /** The request lines of an order: service id and quantity of each cart
      line, in cart order; name, unit and price are not sent. */
  function ItemsPayload(cart: seq<Line>): (r: seq<Api.OrderItem>)
    ensures |r| == |cart|
    ensures forall i :: 0 <= i < |cart| ==> r[i].serviceId == cart[i].id && r[i].quantity == cart[i].quantity
  {
    seq(|cart|, i requires 0 <= i < |cart| => Api.OrderItem(cart[i].id, cart[i].quantity))
  }

  // ---------------------------------------------------------------------
  // Merge-on-add

  /** Adding a service that has a line raises that line's quantity by one,
      leaves every other line unchanged and adds no line. */
  lemma AddExisting(cart: seq<Line>, s: Service, k: int)
    requires DistinctIds(cart)
    requires 0 <= k < |cart| && cart[k].id == s.id
    ensures AddToCart(cart, s) == cart[k := cart[k].(quantity := cart[k].quantity + 1.0)]
  {
    var r := AddToCart(cart, s);
    assert HasLine(cart, s.id);
    assert forall i :: 0 <= i < |cart| && i != k ==> r[i] == cart[i];
  }

  /** Adding a service without a line appends exactly one line, quantity 1,
      at the end. */
  lemma AddNew(cart: seq<Line>, s: Service)
    requires !HasLine(cart, s.id)
    ensures AddToCart(cart, s) == cart + [LineOf(s, 1.0)]
    ensures AddToCart(cart, s)[|cart|].quantity == 1.0
  {
  }

  /** Adding the same service twice to an empty cart gives one line with
      quantity 2, not two lines. */
  lemma AddTwice(s: Service)
    ensures AddToCart(AddToCart([], s), s) == [LineOf(s, 2.0)]
  {
    var once := AddToCart([], s);
    assert once == [LineOf(s, 1.0)];
    assert HasLine(once, s.id);
  }

  // ---------------------------------------------------------------------
  // The two quantity policies

  /** Cashier: a quantity of zero or less removes the line. */
  lemma SetNonPositiveRemoves(cart: seq<Line>, id: int, qty: real)
    requires qty <= 0.0
    ensures SetQuantity(cart, id, qty) == Remove(cart, id)
    ensures !HasLine(SetQuantity(cart, id, qty), id)
  {
  }

  /** Cashier: a positive quantity changes that line's quantity and nothing
      else. */
  lemma SetPositiveChangesOnlyThatLine(cart: seq<Line>, id: int, qty: real)
    requires qty > 0.0
    ensures |SetQuantity(cart, id, qty)| == |cart|
    ensures forall i :: 0 <= i < |cart| ==>
      SetQuantity(cart, id, qty)[i] == if cart[i].id == id then cart[i].(quantity := qty) else cart[i]
  {
  }

  /** Rounding to tenths yields a whole number of tenths, at most 0.05
      away, and keeps 0.1 as the lower bound. */
  lemma Round1Properties(x: real)
    ensures IsTenths(Round1(x))
    ensures -0.05 < Round1(x) - x <= 0.05
    ensures x >= 0.1 ==> Round1(x) >= 0.1
  {
    var f := (x * 10.0 + 0.5).Floor;
    assert Round1(x) * 10.0 == f as real;
  }

  /** A quantity that is already a whole number of tenths is not changed by
      the rounding. */
  lemma Round1OfTenths(x: real)
    requires IsTenths(x)
    ensures Round1(x) == x
  {
    var k := (x * 10.0).Floor;
    assert (x * 10.0 + 0.5).Floor == k;
  }

  /** Customer: the step changes only the targeted line, never below 0.1
      and always to a whole number of tenths; the minus button therefore
      never removes a line. */
  lemma StepChangesOnlyThatLine(cart: seq<Line>, id: int, delta: real)
    ensures |StepQuantity(cart, id, delta)| == |cart|
    ensures forall i :: 0 <= i < |cart| && cart[i].id != id ==> StepQuantity(cart, id, delta)[i] == cart[i]
    ensures forall i :: 0 <= i < |cart| && cart[i].id == id ==>
      var l := StepQuantity(cart, id, delta)[i];
      l == cart[i].(quantity := l.quantity) && l.quantity >= 0.1 && IsTenths(l.quantity)
    ensures HasLine(cart, id) ==> HasLine(StepQuantity(cart, id, delta), id)
  {
    var r := StepQuantity(cart, id, delta);
    forall i | 0 <= i < |cart| && cart[i].id == id
      ensures r[i].quantity >= 0.1 && IsTenths(r[i].quantity)
    {
      Round1Properties(Max(0.1, cart[i].quantity + delta));
    }
  }

  // ---------------------------------------------------------------------
  // Totals

  lemma {:induction false} TotalAppend(a: seq<Line>, b: seq<Line>)
    ensures Total(a + b) == Total(a) + Total(b)
    decreases |b|
  {
    if b == [] {
      assert a + b == a;
    } else {
      var b' := b[..|b| - 1];
      assert (a + b)[..|a + b| - 1] == a + b';
      TotalAppend(a, b');
    }
  }

  /** `cart.reduce((acc, item) => acc + item.price * item.quantity, acc)`:
      the running sum taken from the front. */
  function SumFrom(acc: real, cart: seq<Line>): real
    decreases |cart|
  {
    if cart == [] then acc else SumFrom(acc + Subtotal(cart[0]), cart[1..])
  }

  /** The total is what the front-to-back `reduce` from 0 computes. */
  lemma TotalIsFold(cart: seq<Line>)
    ensures Total(cart) == SumFrom(0.0, cart)
  {
    FoldAddsTotal(0.0, cart);
  }

  lemma {:induction false} FoldAddsTotal(acc: real, cart: seq<Line>)
    decreases |cart|
    ensures SumFrom(acc, cart) == acc + Total(cart)
  {
    if cart != [] {
      var head, tail := cart[0], cart[1..];
      var h := Subtotal(head);
      assert SumFrom(acc, cart) == SumFrom(acc + h, tail);
      FoldAddsTotal(acc + h, tail);
      assert cart == [head] + tail;
      TotalAppend([head], tail);
      TotalOfLines([], head);
      assert Total(cart) == h + Total(tail);
    }
  }

  /** The total is the sum of price times quantity over the lines; an empty
      cart totals 0 and a single line totals its subtotal. */
  lemma TotalOfLines(a: seq<Line>, l: Line)
    ensures Total([]) == 0.0
    ensures Total([l]) == Subtotal(l)
    ensures Total(a + [l]) == Total(a) + Subtotal(l)
  {
    assert [l][..0] == [];
    assert (a + [l])[..|a|] == a;
  }

  /** Replacing one line changes the total by the difference of the two
      subtotals. */
  lemma TotalUpdate(cart: seq<Line>, k: int, l: Line)
    requires 0 <= k < |cart|
    ensures Total(cart[k := l]) == Total(cart) - Subtotal(cart[k]) + Subtotal(l)
  {
    var pre, post := cart[..k], cart[k + 1..];
    assert cart == pre + [cart[k]] + post;
    assert cart[k := l] == pre + [l] + post;
    TotalAppend(pre + [cart[k]], post);
    TotalAppend(pre + [l], post);
    TotalOfLines(pre, cart[k]);
    TotalOfLines(pre, l);
  }

  lemma OneMoreUnit(l: Line)
    ensures Subtotal(l.(quantity := l.quantity + 1.0)) == Subtotal(l) + l.price
  {
  }

  /** One more unit on line `k` raises the total by its unit price. */
  lemma BumpRaisesTotal(cart: seq<Line>, k: int)
    requires 0 <= k < |cart|
    ensures Total(cart[k := cart[k].(quantity := cart[k].quantity + 1.0)]) == Total(cart) + cart[k].price
  {
    TotalUpdate(cart, k, cart[k].(quantity := cart[k].quantity + 1.0));
    OneMoreUnit(cart[k]);
  }

  /** Adding a service that has a line raises the total by that line's
      unit price. */
  lemma AddExistingRaisesTotal(cart: seq<Line>, s: Service, k: int)
    requires DistinctIds(cart)
    requires 0 <= k < |cart| && cart[k].id == s.id
    ensures Total(AddToCart(cart, s)) == Total(cart) + cart[k].price
  {
    AddExisting(cart, s, k);
    BumpRaisesTotal(cart, k);
  }

  /** Adding a service without a line raises the total by its price. */
  lemma AddNewRaisesTotal(cart: seq<Line>, s: Service)
    requires !HasLine(cart, s.id)
    ensures Total(AddToCart(cart, s)) == Total(cart) + s.price
  {
    AddNew(cart, s);
    TotalOfLines(cart, LineOf(s, 1.0));
  }

  /** In a cart with distinct ids, removing the id of line `k` drops
      exactly that line. */
  lemma RemoveDropsOneLine(cart: seq<Line>, k: int)
    requires DistinctIds(cart)
    requires 0 <= k < |cart|
    ensures Remove(cart, cart[k].id) == cart[..k] + cart[k + 1..]
  {
    var id := cart[k].id;
    var pre, post := cart[..k], cart[k + 1..];
    assert !HasLine(pre, id) by {
      forall i | 0 <= i < |pre| ensures pre[i].id != id { assert pre[i] == cart[i]; }
    }
    assert !HasLine(post, id) by {
      forall i | 0 <= i < |post| ensures post[i].id != id { assert post[i] == cart[k + 1 + i]; }
    }
    assert cart == pre + ([cart[k]] + post);
    RemoveBetween(pre, cart[k], post);
  }

  /** Removing the id of a line that no other line shares drops just that
      line. */
  lemma RemoveBetween(pre: seq<Line>, x: Line, post: seq<Line>)
    requires !HasLine(pre, x.id) && !HasLine(post, x.id)
    ensures Remove(pre + ([x] + post), x.id) == pre + post
  {
    var id := x.id;
    RemoveKeepsOrder(pre, [x] + post, id);
    RemoveKeepsOrder([x], post, id);
    RemoveAbsent(pre, id);
    RemoveAbsent(post, id);
    assert Remove([x], id) == [] by {
      FilterDropsAll([x], Other(id));
    }
    assert Remove([x] + post, id) == post;
  }

  /** Dropping line `k` lowers the total by its subtotal. */
  lemma DropLowersTotal(cart: seq<Line>, k: int)
    requires 0 <= k < |cart|
    ensures Total(cart[..k] + cart[k + 1..]) == Total(cart) - Subtotal(cart[k])
  {
    var pre, x, post := cart[..k], cart[k], cart[k + 1..];
    assert pre + [x] == cart[..k + 1];
    assert cart == cart[..k + 1] + post;
    TotalAround(pre, x, post);
  }

  /** The total of a cart split around one line. */
  lemma TotalAround(pre: seq<Line>, x: Line, post: seq<Line>)
    ensures Total((pre + [x]) + post) == Total(pre + post) + Subtotal(x)
  {
    TotalAppend(pre, post);
    TotalAppend(pre + [x], post);
    TotalOfLines(pre, x);
  }

  /** Removing a line of a cart with distinct ids lowers the total by that
      line's subtotal. */
  lemma RemoveLowersTotal(cart: seq<Line>, k: int)
    requires DistinctIds(cart)
    requires 0 <= k < |cart|
    ensures Total(Remove(cart, cart[k].id)) == Total(cart) - Subtotal(cart[k])
  {
    RemoveDropsOneLine(cart, k);
    DropLowersTotal(cart, k);
  }

  // ---------------------------------------------------------------------
  // Ids stay unique

  lemma AddKeepsIdsDistinct(cart: seq<Line>, s: Service)
    requires DistinctIds(cart)
    ensures DistinctIds(AddToCart(cart, s))
  {
  }

  lemma RemoveKeepsIdsDistinct(cart: seq<Line>, id: int)
    requires DistinctIds(cart)
    ensures DistinctIds(Remove(cart, id))
  {
    RemoveSubsequence(cart, id);
  }

  /** Every pair of surviving lines appears in the same order in the input. */
  lemma {:induction false} RemoveSubsequence(cart: seq<Line>, id: int)
    requires DistinctIds(cart)
    ensures DistinctIds(Remove(cart, id))
  {
    if cart != [] {
      var tail := cart[1..];
      assert DistinctIds(tail) by {
        forall i, j | 0 <= i < j < |tail| ensures tail[i].id != tail[j].id {
          assert tail[i] == cart[i + 1] && tail[j] == cart[j + 1];
        }
      }
      RemoveSubsequence(tail, id);
      var rest := Remove(tail, id);
      assert Remove(cart, id) == (if cart[0].id != id then [cart[0]] else []) + rest;
      if cart[0].id != id {
        forall l | l in rest ensures l.id != cart[0].id {
          var j :| 0 <= j < |tail| && tail[j] == l;
          assert cart[j + 1] == l;
        }
        ConsDistinct(cart[0], rest);
      }
    }
  }

  /** A line whose id no line of a distinct cart has can go in front. */
  lemma ConsDistinct(x: Line, rest: seq<Line>)
    requires DistinctIds(rest)
    requires forall l :: l in rest ==> l.id != x.id
    ensures DistinctIds([x] + rest)
  {
    var c := [x] + rest;
    forall i, j | 0 <= i < j < |c| ensures c[i].id != c[j].id {
      assert c[j] == rest[j - 1];
      if i > 0 {
        assert c[i] == rest[i - 1];
      }
    }
  }

  /** An edit of the cashier's cart. */
  datatype CashierEdit = AddService(s: Service) | SetQty(id: int, qty: real) | RemoveLine(id: int)

  /** An edit of the customer's cart. */
  datatype CustomerEdit = AddItem(s: Service) | StepQty(id: int, delta: real) | RemoveItem(id: int)

  function ApplyCashier(cart: seq<Line>, e: CashierEdit): seq<Line>
  {
    match e
    case AddService(s) => AddToCart(cart, s)
    case SetQty(id, qty) => SetQuantity(cart, id, qty)
    case RemoveLine(id) => Remove(cart, id)
  }

  function ApplyCustomer(cart: seq<Line>, e: CustomerEdit): seq<Line>
  {
    match e
    case AddItem(s) => AddToCart(cart, s)
    case StepQty(id, delta) => StepQuantity(cart, id, delta)
    case RemoveItem(id) => Remove(cart, id)
  }

  function RunCashier(cart: seq<Line>, edits: seq<CashierEdit>): seq<Line>
    decreases |edits|
  {
    if edits == [] then cart else RunCashier(ApplyCashier(cart, edits[0]), edits[1..])
  }

  function RunCustomer(cart: seq<Line>, edits: seq<CustomerEdit>): seq<Line>
    decreases |edits|
  {
    if edits == [] then cart else RunCustomer(ApplyCustomer(cart, edits[0]), edits[1..])
  }

  lemma CashierEditKeepsIdsDistinct(cart: seq<Line>, e: CashierEdit)
    requires DistinctIds(cart)
    ensures DistinctIds(ApplyCashier(cart, e))
  {
    match e
    case AddService(s) => AddKeepsIdsDistinct(cart, s);
    case SetQty(id, qty) => if qty <= 0.0 { RemoveKeepsIdsDistinct(cart, id); }
    case RemoveLine(id) => RemoveKeepsIdsDistinct(cart, id);
  }

  /** The cashier's cart keeps one line per service under any sequence of
      adds, quantity changes and removals. */
  lemma {:induction false} CashierEditsKeepIdsDistinct(cart: seq<Line>, edits: seq<CashierEdit>)
    requires DistinctIds(cart)
    ensures DistinctIds(RunCashier(cart, edits))
    decreases |edits|
  {
    if edits != [] {
      CashierEditKeepsIdsDistinct(cart, edits[0]);
      CashierEditsKeepIdsDistinct(ApplyCashier(cart, edits[0]), edits[1..]);
    }
  }

  /** What the customer's cart always satisfies: one line per service, and
      every quantity a whole number of tenths of at least 0.1. */
  predicate CustomerCartValid(cart: seq<Line>)
  {
    DistinctIds(cart) && forall i :: 0 <= i < |cart| ==> cart[i].quantity >= 0.1 && IsTenths(cart[i].quantity)
  }

  lemma CustomerEditKeepsValid(cart: seq<Line>, e: CustomerEdit)
    requires CustomerCartValid(cart)
    ensures CustomerCartValid(ApplyCustomer(cart, e))
  {
    match e
    case AddItem(s) =>
      var r := AddToCart(cart, s);
      forall i | 0 <= i < |r| ensures r[i].quantity >= 0.1 && IsTenths(r[i].quantity) {
        if i < |cart| && cart[i].id == s.id && HasLine(cart, s.id) {
          var q := cart[i].quantity;
          assert r[i].quantity == q + 1.0;
          assert (q * 10.0 + 10.0).Floor == (q * 10.0).Floor + 10;
        }
      }
    case StepQty(id, delta) => StepChangesOnlyThatLine(cart, id, delta);
    case RemoveItem(id) => RemoveKeepsIdsDistinct(cart, id);
  }

  /** The customer's cart stays valid under any sequence of edits, starting
      from the empty cart the page opens with. */
  lemma {:induction false} CustomerEditsKeepValid(cart: seq<Line>, edits: seq<CustomerEdit>)
    requires CustomerCartValid(cart)
    ensures CustomerCartValid(RunCustomer(cart, edits))
    decreases |edits|
  {
    if edits != [] {
      CustomerEditKeepsValid(cart, edits[0]);
      CustomerEditsKeepValid(ApplyCustomer(cart, edits[0]), edits[1..]);
    }
  }
}
