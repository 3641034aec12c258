/**
 The stock ledger: an append-only list of movements, on-hand quantities aggregated from it, and the
 guard against negative stock under which every movement is appended.
 */
module Stock {
  import opened Wrappers
  import opened Sums

  datatype Kind = In | Out | Adjustment

  /** The quantity of an adjustment is signed; the sign of the others is in the kind. */
  datatype Movement = Movement(product: nat, kind: Kind, quantity: int, key: Option<string>)

  datatype Error = NotFound | NotTracked | InsufficientStock | NotDraft | ConcurrencyConflict

  datatype Result<T> = Ok(value: T) | Err(error: Error)

  function ProductOf(m: Movement): nat {
    m.product
  }

  function SignedQuantity(m: Movement): int {
    if m.kind == Out then -m.quantity else m.quantity
  }

  /** The signed sum of the movements of a product. */
  function OnHand(ledger: seq<Movement>, product: nat): int {
    SumOf(ledger, ProductOf, SignedQuantity, product)
  }

  ghost predicate NonNegative(ledger: seq<Movement>) {
    forall p: nat :: OnHand(ledger, p) >= 0
  }

  /** What the request schema admits. */
  predicate WellFormed(m: Movement) {
    if m.kind == Adjustment then m.quantity != 0 else m.quantity > 0
  }

  /** The movement appended, or the reason why not; `tracked` says which products exist and are tracked. */
  function Append(ledger: seq<Movement>, tracked: map<nat, bool>, m: Movement): Result<seq<Movement>> {
    if m.product !in tracked then Err(NotFound)
    else if !tracked[m.product] then Err(NotTracked)
    else if OnHand(ledger, m.product) + SignedQuantity(m) < 0 then Err(InsufficientStock)
    else Ok(ledger + [m])
  }

  /**
   When a movement is accepted, and when each refusal is given: an unknown product, one whose stock is not
   tracked, and a movement that would leave less than nothing. An issue counts against the stock, a receipt
   for it, an adjustment with its own sign.
   */
  lemma AppendExactly(ledger: seq<Movement>, tracked: map<nat, bool>, m: Movement)
    ensures var change := match m.kind case In => m.quantity case Out => 0 - m.quantity case Adjustment => m.quantity;
      match Append(ledger, tracked, m)
      case Ok(ledger') =>
        ledger' == ledger + [m] && m.product in tracked && tracked[m.product] && OnHand(ledger, m.product) + change >= 0
      case Err(error) =>
        if m.product !in tracked then error == NotFound
        else if !tracked[m.product] then error == NotTracked
        else error == InsufficientStock && OnHand(ledger, m.product) + change < 0
  {
  }

  lemma OnHandAfter(ledger: seq<Movement>, m: Movement, p: nat)
    ensures OnHand(ledger + [m], p) == OnHand(ledger, p) + if m.product == p then SignedQuantity(m) else 0
  {
    SumOfSnoc(ledger, m, ProductOf, SignedQuantity, p);
  }

  /** The guard keeps every product at zero or above. */
  lemma AppendKeepsNonNegative(ledger: seq<Movement>, tracked: map<nat, bool>, m: Movement)
    requires NonNegative(ledger) && Append(ledger, tracked, m).Ok?
    ensures NonNegative(Append(ledger, tracked, m).value)
  {
    forall p: nat
      ensures OnHand(ledger + [m], p) >= 0
    {
      OnHandAfter(ledger, m, p);
    }
  }

  // ---- The grouped aggregate ----

  type GroupKey = (nat, Kind)

  datatype Group = Group(product: nat, kind: Kind, sum: int)

  function KeyOf(m: Movement): GroupKey {
    (m.product, m.kind)
  }

  function Quantity(m: Movement): int {
    m.quantity
  }

  function GroupProduct(g: Group): nat {
    g.product
  }

  function GroupKeyOf(g: Group): GroupKey {
    (g.product, g.kind)
  }

  function GroupSigned(g: Group): int {
    if g.kind == Out then -g.sum else g.sum
  }

  /** What `GROUP BY product, type` over the given products promises, in whatever order it answers. */
  ghost predicate IsGrouping(groups: seq<Group>, ledger: seq<Movement>, products: set<nat>) {
    && (forall i, j | 0 <= i < j < |groups| :: GroupKeyOf(groups[i]) != GroupKeyOf(groups[j]))
    && (forall g | g in groups :: g.product in products && g.sum == SumOf(ledger, KeyOf, Quantity, GroupKeyOf(g)))
    && (forall m | m in ledger && m.product in products :: exists g :: g in groups && GroupKeyOf(g) == KeyOf(m))
  }

  /** A product's signed sum is its receipts and adjustments minus its issues. */
  lemma {:induction false} OnHandByKind(ledger: seq<Movement>, p: nat)
    ensures OnHand(ledger, p) ==
      SumOf(ledger, KeyOf, Quantity, (p, In)) + SumOf(ledger, KeyOf, Quantity, (p, Adjustment))
      - SumOf(ledger, KeyOf, Quantity, (p, Out))
  {
    if ledger == [] {
    } else {
      OnHandByKind(ledger[..|ledger| - 1], p);
    }
  }

  lemma {:induction false} GroupsByKind(groups: seq<Group>, p: nat)
    ensures SumOf(groups, GroupProduct, GroupSigned, p) ==
      SumOf(groups, GroupKeyOf, GroupSigned, (p, In)) + SumOf(groups, GroupKeyOf, GroupSigned, (p, Adjustment))
      + SumOf(groups, GroupKeyOf, GroupSigned, (p, Out))
  {
    if groups == [] {
    } else {
      GroupsByKind(groups[..|groups| - 1], p);
    }
  }

  /** With one group per key, the sum under a key is that group's. */
  lemma {:induction false} OneGroupPerKey(groups: seq<Group>, i: nat)
    requires i < |groups|
    requires forall i, j | 0 <= i < j < |groups| :: GroupKeyOf(groups[i]) != GroupKeyOf(groups[j])
    ensures SumOf(groups, GroupKeyOf, GroupSigned, GroupKeyOf(groups[i])) == GroupSigned(groups[i])
  {
    var n := |groups| - 1;
    if i == n {
      SumOfAbsent(groups[..n], GroupKeyOf, GroupSigned, GroupKeyOf(groups[i]));
    } else {
      OneGroupPerKey(groups[..n], i);
    }
  }

  lemma GroupSumUnderKey(groups: seq<Group>, ledger: seq<Movement>, products: set<nat>, p: nat, kind: Kind)
    requires IsGrouping(groups, ledger, products) && p in products
    ensures SumOf(groups, GroupKeyOf, GroupSigned, (p, kind))
         == (if kind == Out then -1 else 1) * SumOf(ledger, KeyOf, Quantity, (p, kind))
  {
    if i :| 0 <= i < |groups| && GroupKeyOf(groups[i]) == (p, kind) {
      OneGroupPerKey(groups, i);
    } else {
      SumOfAbsent(groups, GroupKeyOf, GroupSigned, (p, kind));
      SumOfAbsent(ledger, KeyOf, Quantity, (p, kind));
    }
  }

  /** Whatever order the groups come in, they add up to the signed sum of the ledger. */
  lemma GroupsGiveOnHand(groups: seq<Group>, ledger: seq<Movement>, products: set<nat>, p: nat)
    requires IsGrouping(groups, ledger, products) && p in products
    ensures SumOf(groups, GroupProduct, GroupSigned, p) == OnHand(ledger, p)
  {
    GroupsByKind(groups, p);
    OnHandByKind(ledger, p);
    GroupSumUnderKey(groups, ledger, products, p, In);
    GroupSumUnderKey(groups, ledger, products, p, Out);
    GroupSumUnderKey(groups, ledger, products, p, Adjustment);
  }

  function GetOrZero(m: map<nat, int>, p: nat): int {
    if p in m then m[p] else 0
  }

  /** Folds the groups into one quantity per product; a product without a movement reads as zero. */
  method AggregateQuantities(groups: seq<Group>, ghost ledger: seq<Movement>, products: set<nat>)
    returns (quantities: map<nat, int>)
    requires IsGrouping(groups, ledger, products)
    ensures forall p | p in products :: GetOrZero(quantities, p) == OnHand(ledger, p)
    ensures quantities.Keys <= products
  {
    quantities := map[];
    for i := 0 to |groups|
      invariant forall p: nat :: GetOrZero(quantities, p) == SumOf(groups[..i], GroupProduct, GroupSigned, p)
      invariant quantities.Keys <= products
    {
      var group := groups[i];
      var delta := if group.kind == Out then -group.sum else group.sum;
      assert groups[..i + 1] == groups[..i] + [group];
      forall p: nat
        ensures SumOf(groups[..i + 1], GroupProduct, GroupSigned, p)
             == SumOf(groups[..i], GroupProduct, GroupSigned, p) + if group.product == p then delta else 0
      {
        SumOfSnoc(groups[..i], group, GroupProduct, GroupSigned, p);
      }
      quantities := quantities[group.product := GetOrZero(quantities, group.product) + delta];
    }
    assert groups[..|groups|] == groups;
    forall p | p in products
      ensures GetOrZero(quantities, p) == OnHand(ledger, p)
    {
      GroupsGiveOnHand(groups, ledger, products, p);
    }
  }
}
