/**
 The cart slice of the storefront's store (src/features/Cart/cartSlice.js):
 an ordered list of lines, a total, the owning user and the time of the last
 change, transformed by three reducers, `addCartItem`, `removeCartItem` and
 `clearCart`.

 The reducers are pure state transformers here. The wall clock they read is a
 parameter `now`; everything else they do is modelled as written, including
 that they validate nothing (no precondition on prices or quantities).
 */
module Cart {
  import opened Catalog
  import opened Seqs

  /** What `new Date().toLocaleString()` returns; only its identity matters. */
  type Timestamp = string

  /** One cart line: the product spread into the payload plus the number of
      units. Every field except `quantity` is fixed when the line is created. */
  datatype Line = Line(product: Product, quantity: int) {
    function Id(): ProductId { product.id }
    function Subtotal(): int { product.price * quantity }
  }

  datatype CartState = CartState(
    user: string,
    updatedAt: Timestamp,
    total: int,
    items: seq<Line>
  )

  /** The owner recorded in the initial state; no reducer ever changes it. */
  const PlaceholderUser: string := "userIdLoggedIn"

  /** The slice's `initialState`, stamped with the time the store is created. */
  function Initial(now: Timestamp): (r: CartState)
    ensures r.items == [] && r.total == 0 && r.user == PlaceholderUser
    ensures Valid(r)
  {
    CartState(PlaceholderUser, now, 0, [])
  }

  /** Sum of price × quantity, folded from the first line to the last as
      `items.reduce((acc, l) => acc += l.price * l.quantity, 0)` does. */
  function Sum(items: seq<Line>): int
    decreases |items|
  {
    if |items| == 0 then 0
    else Sum(items[..|items| - 1]) + items[|items| - 1].Subtotal()
  }

  //----------------------------------------------------------------------
  // Invariants
  //----------------------------------------------------------------------

  /** The stored total agrees with the lines. */
  predicate Consistent(c: CartState) {
    c.total == Sum(c.items)
  }

  predicate HasId(items: seq<Line>, id: ProductId) {
    exists i :: 0 <= i < |items| && items[i].Id() == id
  }

  /** No two lines share a product id. */
  predicate UniqueIds(items: seq<Line>) {
    forall i, j :: 0 <= i < j < |items| ==> items[i].Id() != items[j].Id()
  }

  predicate PositiveQuantities(items: seq<Line>) {
    forall i :: 0 <= i < |items| ==> items[i].quantity >= 1
  }

  predicate Valid(c: CartState) {
    Consistent(c) && UniqueIds(c.items)
  }

  //----------------------------------------------------------------------
  // Reducers
  //----------------------------------------------------------------------

  function Bump(l: Line, q: int): Line {
    l.(quantity := l.quantity + q)
  }

  /** The `items.map` of the merge branch: every line carrying `id` gets `q`
      more units, every other line is returned as it was. */
  function IncreaseQuantity(items: seq<Line>, id: ProductId, q: int): (r: seq<Line>)
    ensures |r| == |items|
    ensures forall j :: 0 <= j < |items| ==>
      r[j] == if items[j].Id() == id then Bump(items[j], q) else items[j]
    decreases |items|
  {
    if |items| == 0 then []
    else
      var last := items[|items| - 1];
      IncreaseQuantity(items[..|items| - 1], id, q)
        + [if last.Id() == id then Bump(last, q) else last]
  }

  /** `addCartItem`: merge into the line with the payload's id when there is
      one, otherwise append the payload; then recompute the total and
      refresh the timestamp. */
  function AddCartItem(c: CartState, payload: Line, now: Timestamp): (r: CartState)
    ensures r.user == c.user && r.updatedAt == now
    ensures Consistent(r)
    ensures HasId(c.items, payload.Id()) ==>
      |r.items| == |c.items| &&
      forall j :: 0 <= j < |c.items| ==>
        r.items[j] == if c.items[j].Id() == payload.Id()
                      then Bump(c.items[j], payload.quantity)
                      else c.items[j]
    ensures !HasId(c.items, payload.Id()) ==> r.items == c.items + [payload]
  {
    var items :=
      if HasId(c.items, payload.Id())
      then IncreaseQuantity(c.items, payload.Id(), payload.quantity)
      else c.items + [payload];
    CartState(c.user, now, Sum(items), items)
  }

  /** The predicate `item.id !== payload` of `removeCartItem`. */
  function OtherThan(id: ProductId): Line -> bool {
    (l: Line) => l.Id() != id
  }

  /** `removeCartItem`: keep the lines whose id differs, recompute the total
      and refresh the timestamp. */
  function RemoveCartItem(c: CartState, id: ProductId, now: Timestamp): (r: CartState)
    ensures r.user == c.user && r.updatedAt == now
    ensures Consistent(r)
    ensures forall l :: l in r.items <==> l in c.items && l.Id() != id
    ensures forall l :: multiset(r.items)[l] == if l.Id() != id then multiset(c.items)[l] else 0
    ensures SubsequenceOf(r.items, c.items)
  {
    var items := Filter(c.items, OtherThan(id));
    FilterIsSubsequence(c.items, OtherThan(id));
    CartState(c.user, now, Sum(items), items)
  }

  /** `clearCart`: drop every line and zero the total. Unlike the other two
      reducers it leaves `updatedAt` as it was. */
  function ClearCart(c: CartState): (r: CartState)
    ensures Valid(r) && r.items == [] && r.total == 0
    ensures r.user == c.user && r.updatedAt == c.updatedAt
  {
    c.(items := [], total := 0)
  }

  /** The reduce loop the reducers run over the updated lines computes `Sum`. */
  method ReduceTotal(items: seq<Line>) returns (total: int)
    ensures total == Sum(items)
  {
    total := 0;
    var i := 0;
    while i < |items|
      invariant 0 <= i <= |items|
      invariant total == Sum(items[..i])
    {
      assert items[..i + 1][..i] == items[..i];
      total := total + items[i].Subtotal();
      i := i + 1;
    }
    assert items[..|items|] == items;
  }

  //----------------------------------------------------------------------
  // Facts about Sum, HasId and UniqueIds
  //----------------------------------------------------------------------

  lemma {:induction false} SumAppend(a: seq<Line>, b: seq<Line>)
    ensures Sum(a + b) == Sum(a) + Sum(b)
    decreases |b|
  {
    if |b| == 0 {
      assert a + b == a;
    } else {
      var b' := b[..|b| - 1];
      SumAppend(a, b');
      assert (a + b)[..|a + b| - 1] == a + b';
    }
  }

  lemma SumSingle(l: Line)
    ensures Sum([l]) == l.Subtotal()
  {
    assert [l][..0] == [];
  }

  /** A line splits a cart with unique ids into two parts without its id. */
  lemma UniqueSplit(items: seq<Line>, i: int)
    requires UniqueIds(items)
    requires 0 <= i < |items|
    ensures items == items[..i] + [items[i]] + items[i + 1..]
    ensures !HasId(items[..i], items[i].Id())
    ensures !HasId(items[i + 1..], items[i].Id())
  {
  }

  lemma UniqueAppend(items: seq<Line>, l: Line)
    requires UniqueIds(items)
    requires !HasId(items, l.Id())
    ensures UniqueIds(items + [l])
  {
    var s := items + [l];
    forall i, j | 0 <= i < j < |s|
      ensures s[i].Id() != s[j].Id()
    {
      if j == |items| {
        assert s[i] == items[i];
      }
    }
  }

  lemma IncreaseQuantityAbsent(items: seq<Line>, id: ProductId, q: int)
    requires !HasId(items, id)
    ensures IncreaseQuantity(items, id, q) == items
  {
  }

  lemma IncreaseQuantityAppend(a: seq<Line>, b: seq<Line>, id: ProductId, q: int)
    ensures IncreaseQuantity(a + b, id, q) == IncreaseQuantity(a, id, q) + IncreaseQuantity(b, id, q)
  {
    var lhs := IncreaseQuantity(a + b, id, q);
    var rhs := IncreaseQuantity(a, id, q) + IncreaseQuantity(b, id, q);
    forall j | 0 <= j < |lhs|
      ensures lhs[j] == rhs[j]
    {
      if j >= |a| {
        assert (a + b)[j] == b[j - |a|];
      }
    }
  }

  lemma UniqueFilter(items: seq<Line>, keep: Line -> bool)
    requires UniqueIds(items)
    ensures UniqueIds(Filter(items, keep))
    decreases |items|
  {
    if |items| > 0 {
      var init := items[..|items| - 1];
      var last := items[|items| - 1];
      UniqueFilter(init, keep);
      if keep(last) {
        var f := Filter(init, keep);
        forall k | 0 <= k < |f|
          ensures f[k].Id() != last.Id()
        {
          assert f[k] in init;
          var m :| 0 <= m < |init| && init[m] == f[k];
          assert items[m] == init[m];
        }
        UniqueAppend(f, last);
      }
    }
  }

  //----------------------------------------------------------------------
  // What each reducer does to the lines and to the total
  //----------------------------------------------------------------------

  lemma SumSplit(a: seq<Line>, x: Line, b: seq<Line>)
    ensures Sum(a + [x] + b) == Sum(a) + x.Subtotal() + Sum(b)
  {
    SumAppend(a + [x], b);
    SumAppend(a, [x]);
    SumSingle(x);
  }

  lemma IncreaseQuantitySplit(a: seq<Line>, x: Line, b: seq<Line>, q: int)
    requires !HasId(a, x.Id()) && !HasId(b, x.Id())
    ensures IncreaseQuantity(a + [x] + b, x.Id(), q) == a + [Bump(x, q)] + b
  {
    var id := x.Id();
    IncreaseQuantityAppend(a + [x], b, id, q);
    IncreaseQuantityAppend(a, [x], id, q);
    IncreaseQuantityAbsent(a, id, q);
    IncreaseQuantityAbsent(b, id, q);
    assert IncreaseQuantity([x], id, q)[0] == Bump(x, q);
  }

  /** In a cart with unique ids, giving line `i` `q` more units raises the
      sum by that line's price times `q`. */
  lemma IncreaseQuantitySum(items: seq<Line>, i: int, q: int)
    requires UniqueIds(items)
    requires 0 <= i < |items|
    ensures Sum(IncreaseQuantity(items, items[i].Id(), q)) == Sum(items) + items[i].product.price * q
  {
    var a, x, b := items[..i], items[i], items[i + 1..];
    UniqueSplit(items, i);
    IncreaseQuantitySplit(a, x, b, q);
    SumSplit(a, x, b);
    SumSplit(a, Bump(x, q), b);
    assert x.product.price * (x.quantity + q) == x.product.price * x.quantity + x.product.price * q;
  }

  /** Adding an id already in the cart creates no line: the matching line
      gains the payload's quantity and keeps its product fields, every other
      line stays where it was, and a valid cart's total grows by the matching
      line's own price times the added quantity. */
  lemma AddToPresent(c: CartState, payload: Line, now: Timestamp, i: int)
    requires 0 <= i < |c.items| && c.items[i].Id() == payload.Id()
    ensures var r := AddCartItem(c, payload, now);
      && |r.items| == |c.items|
      && r.items[i].product == c.items[i].product
      && r.items[i].quantity == c.items[i].quantity + payload.quantity
      && (forall j :: 0 <= j < |c.items| && c.items[j].Id() != payload.Id() ==> r.items[j] == c.items[j])
      && (Valid(c) ==> r.total == c.total + c.items[i].product.price * payload.quantity)
  {
    assert HasId(c.items, payload.Id());
    if Valid(c) {
      IncreaseQuantitySum(c.items, i, payload.quantity);
    }
  }

  /** Adding a new id appends the payload after the unchanged earlier lines,
      and a consistent total grows by the payload's subtotal. */
  lemma AddToAbsent(c: CartState, payload: Line, now: Timestamp)
    requires !HasId(c.items, payload.Id())
    ensures var r := AddCartItem(c, payload, now);
      && |r.items| == |c.items| + 1
      && r.items[..|c.items|] == c.items
      && r.items[|c.items|] == payload
      && (Consistent(c) ==> r.total == c.total + payload.Subtotal())
  {
    SumAppend(c.items, [payload]);
    SumSingle(payload);
  }

  lemma AddKeepsUniqueIds(c: CartState, payload: Line, now: Timestamp)
    requires UniqueIds(c.items)
    ensures UniqueIds(AddCartItem(c, payload, now).items)
  {
    if !HasId(c.items, payload.Id()) {
      UniqueAppend(c.items, payload);
    }
  }

  /** Adding a positive quantity keeps every line's quantity positive. */
  lemma AddKeepsPositive(c: CartState, payload: Line, now: Timestamp)
    requires PositiveQuantities(c.items)
    requires payload.quantity >= 1
    ensures PositiveQuantities(AddCartItem(c, payload, now).items)
  {
  }

  /** An add touches only lines carrying the payload's id: every line with
      another id was already in the cart. */
  lemma AddLeavesOthers(c: CartState, payload: Line, now: Timestamp)
    ensures forall l :: l in AddCartItem(c, payload, now).items && l.Id() != payload.Id() ==> l in c.items
  {
    var r := AddCartItem(c, payload, now);
    forall l | l in r.items && l.Id() != payload.Id()
      ensures l in c.items
    {
      var j :| 0 <= j < |r.items| && r.items[j] == l;
      if HasId(c.items, payload.Id()) {
        assert c.items[j].Id() != payload.Id();
        assert l == c.items[j];
      } else {
        assert j < |c.items|;
        assert l == c.items[j];
      }
    }
  }

  /** Adding the same product twice leaves one line holding both quantities
      and a total that counts both. */
  lemma AddTwice(c: CartState, p: Product, q1: int, q2: int, t1: Timestamp, t2: Timestamp)
    requires Valid(c) && !HasId(c.items, p.id)
    ensures var r := AddCartItem(AddCartItem(c, Line(p, q1), t1), Line(p, q2), t2);
      && r.items == c.items + [Line(p, q1 + q2)]
      && r.total == c.total + p.price * (q1 + q2)
  {
    var c1 := AddCartItem(c, Line(p, q1), t1);
    AddToAbsent(c, Line(p, q1), t1);
    AddKeepsUniqueIds(c, Line(p, q1), t1);
    var n := |c.items|;
    assert c1.items[n].Id() == p.id;
    AddToPresent(c1, Line(p, q2), t2, n);
    var r := AddCartItem(c1, Line(p, q2), t2);
    forall j | 0 <= j < n
      ensures r.items[j] == c.items[j]
    {
      assert c1.items[j] == c.items[j];
    }
    assert r.items == c.items + [Line(p, q1 + q2)];
  }

  /** Removing an id that is not in the cart leaves the lines, and a
      consistent total, as they were. */
  lemma RemoveAbsent(c: CartState, id: ProductId, now: Timestamp)
    requires !HasId(c.items, id)
    ensures var r := RemoveCartItem(c, id, now);
      && r.items == c.items
      && (Consistent(c) ==> r.total == c.total)
  {
    FilterKeepsAll(c.items, OtherThan(id));
  }

  /** Removing an id held by line `i` of a cart with unique ids takes out
      exactly that line and lowers a consistent total by its subtotal. */
  lemma RemovePresent(c: CartState, id: ProductId, now: Timestamp, i: int)
    requires UniqueIds(c.items)
    requires 0 <= i < |c.items| && c.items[i].Id() == id
    ensures var r := RemoveCartItem(c, id, now);
      && r.items == c.items[..i] + c.items[i + 1..]
      && (Consistent(c) ==> r.total == c.total - c.items[i].Subtotal())
  {
    var keep := OtherThan(id);
    var a, x, b := c.items[..i], c.items[i], c.items[i + 1..];
    UniqueSplit(c.items, i);
    FilterAppend(a + [x], b, keep);
    FilterAppend(a, [x], keep);
    FilterKeepsAll(a, keep);
    FilterKeepsAll(b, keep);
    assert Filter([x], keep) == [] by {
      assert [x][..0] == [];
    }
    SumAppend(a + [x], b);
    SumAppend(a, [x]);
    SumAppend(a, b);
    SumSingle(x);
  }

  lemma RemoveKeepsUniqueIds(c: CartState, id: ProductId, now: Timestamp)
    requires UniqueIds(c.items)
    ensures UniqueIds(RemoveCartItem(c, id, now).items)
  {
    UniqueFilter(c.items, OtherThan(id));
  }

  lemma RemoveKeepsPositive(c: CartState, id: ProductId, now: Timestamp)
    requires PositiveQuantities(c.items)
    ensures PositiveQuantities(RemoveCartItem(c, id, now).items)
  {
    var r := RemoveCartItem(c, id, now);
    forall k | 0 <= k < |r.items|
      ensures r.items[k].quantity >= 1
    {
      assert r.items[k] in c.items;
    }
  }

  /** Clearing a cart that still has its placeholder owner gives back the
      initial state, stamped with the time of the last add or remove. */
  lemma ClearIsInitial(c: CartState)
    requires c.user == PlaceholderUser
    ensures ClearCart(c) == Initial(c.updatedAt)
  {
  }

  /** With non-negative prices and positive quantities the total cannot be
      negative. */
  lemma {:induction false} SumNonNegative(items: seq<Line>)
    requires forall i :: 0 <= i < |items| ==> items[i].product.price >= 0
    requires PositiveQuantities(items)
    ensures Sum(items) >= 0
    decreases |items|
  {
    if |items| > 0 {
      var last := items[|items| - 1];
      SumNonNegative(items[..|items| - 1]);
      assert last.product.price * last.quantity >= 0 by {
        assert last.product.price >= 0 && last.quantity >= 1;
      }
    }
  }

  //----------------------------------------------------------------------
  // Sequences of dispatched actions
  //----------------------------------------------------------------------

  datatype Action =
    | AddItem(payload: Line, at: Timestamp)
    | RemoveItem(id: ProductId, at: Timestamp)
    | ClearItems

  /** The slice reducer: one dispatched action applied to the cart. */
  function Apply(c: CartState, a: Action): (r: CartState)
    ensures Consistent(r) && r.user == c.user
    ensures a.ClearItems? ==> r.updatedAt == c.updatedAt
    ensures a.AddItem? ==> r.updatedAt == a.at
    ensures a.RemoveItem? ==> r.updatedAt == a.at
  {
    match a
    case AddItem(payload, at) => AddCartItem(c, payload, at)
    case RemoveItem(id, at) => RemoveCartItem(c, id, at)
    case ClearItems => ClearCart(c)
  }

  function Run(c: CartState, actions: seq<Action>): CartState
    decreases |actions|
  {
    if |actions| == 0 then c else Run(Apply(c, actions[0]), actions[1..])
  }

  predicate AddsPositive(actions: seq<Action>) {
    forall i :: 0 <= i < |actions| && actions[i].AddItem? ==> actions[i].payload.quantity >= 1
  }

  /** Every reducer keeps ids unique and the total in step with the lines,
      and none of them changes the owner. */
  lemma {:induction false} RunKeepsValid(c: CartState, actions: seq<Action>)
    requires Valid(c)
    ensures Valid(Run(c, actions))
    ensures Run(c, actions).user == c.user
    decreases |actions|
  {
    if |actions| > 0 {
      var c' := Apply(c, actions[0]);
      match actions[0] {
        case AddItem(payload, at) => AddKeepsUniqueIds(c, payload, at);
        case RemoveItem(id, at) => RemoveKeepsUniqueIds(c, id, at);
        case ClearItems =>
      }
      RunKeepsValid(c', actions[1..]);
    }
  }

  /** As long as every added payload has a positive quantity, so does every
      line of the cart. */
  lemma {:induction false} RunKeepsPositive(c: CartState, actions: seq<Action>)
    requires PositiveQuantities(c.items)
    requires AddsPositive(actions)
    ensures PositiveQuantities(Run(c, actions).items)
    decreases |actions|
  {
    if |actions| > 0 {
      var c' := Apply(c, actions[0]);
      match actions[0] {
        case AddItem(payload, at) => AddKeepsPositive(c, payload, at);
        case RemoveItem(id, at) => RemoveKeepsPositive(c, id, at);
        case ClearItems =>
      }
      assert AddsPositive(actions[1..]) by {
        forall i | 0 <= i < |actions| - 1 && actions[1..][i].AddItem?
          ensures actions[1..][i].payload.quantity >= 1
        {
          assert actions[1..][i] == actions[i + 1];
        }
      }
      RunKeepsPositive(c', actions[1..]);
    }
  }

  /** A run of adds of one product leaves every line of any other product
      as it found it: such a line was already in the cart. */
  lemma {:induction false} RunOfAddsLeavesOthers(c: CartState, actions: seq<Action>, p: Product)
    requires forall k :: 0 <= k < |actions| ==> actions[k].AddItem? && actions[k].payload.product == p
    ensures forall l :: l in Run(c, actions).items && l.Id() != p.id ==> l in c.items
    decreases |actions|
  {
    if |actions| > 0 {
      var c' := Apply(c, actions[0]);
      AddLeavesOthers(c, actions[0].payload, actions[0].at);
      assert forall k :: 0 <= k < |actions| - 1 ==> actions[1..][k] == actions[k + 1];
      RunOfAddsLeavesOthers(c', actions[1..], p);
    }
  }

  /** Every cart reachable from the initial state has unique ids, a total
      equal to its lines' sum, and the placeholder owner. */
  lemma ReachableIsValid(now: Timestamp, actions: seq<Action>)
    ensures Valid(Run(Initial(now), actions))
    ensures Run(Initial(now), actions).user == PlaceholderUser
  {
    RunKeepsValid(Initial(now), actions);
  }

  /** A concrete run, first half: two adds of product 1 merge into one
      line of five units, with a total of 50. */
  lemma WorkedExampleMerge(t: Timestamp, p1: Product)
    requires p1.id == 1 && p1.price == 10
    ensures var c := AddCartItem(AddCartItem(Initial(t), Line(p1, 2), t), Line(p1, 3), t);
      c.items == [Line(p1, 5)] && c.total == 50
  {
    var c1 := AddCartItem(Initial(t), Line(p1, 2), t);
    AddToAbsent(Initial(t), Line(p1, 2), t);
    assert c1.items == [Line(p1, 2)];
    AddToPresent(c1, Line(p1, 3), t, 0);
    SumSingle(Line(p1, 5));
  }

  /** A concrete run, second step: adding product 2 appends its line and
      brings the total to 55. */
  lemma WorkedExampleAppend(c: CartState, t: Timestamp, p1: Product, p2: Product)
    requires p1.id == 1 && p1.price == 10
    requires p2.id == 2 && p2.price == 5
    requires c.items == [Line(p1, 5)] && c.total == 50
    ensures var c' := AddCartItem(c, Line(p2, 1), t);
      c'.items == [Line(p1, 5), Line(p2, 1)] && c'.total == 55
  {
    SumSingle(Line(p1, 5));
    AddToAbsent(c, Line(p2, 1), t);
  }

  /** A concrete run, last step: removing product 1 from the two-line cart
      leaves product 2's line alone, with a total of 5. */
  lemma WorkedExampleRemove(c: CartState, t: Timestamp, p1: Product, p2: Product)
    requires p1.id == 1 && p1.price == 10
    requires p2.id == 2 && p2.price == 5
    requires c.items == [Line(p1, 5), Line(p2, 1)] && c.total == 55
    ensures RemoveCartItem(c, 1, t).items == [Line(p2, 1)]
    ensures RemoveCartItem(c, 1, t).total == 5
  {
    assert UniqueIds(c.items);
    RemovePresent(c, 1, t, 0);
    assert c.items[1..] == [Line(p2, 1)];
    SumSingle(Line(p2, 1));
  }
}
