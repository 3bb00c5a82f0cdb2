/**
 * Tier ("package") pricing: validating and ordering a product's tiers, and
 * the line total of a cart entry under exact-quantity tier pricing.
 */
module Pricing {
  import opened Wrappers
  import opened Backend
  import Sorting

  datatype TierField = Quantity | TotalPrice

  /** One finding of `ValidateTiers`: the position of the tier, the field at fault and the text shown. */
  datatype TierValidationError = TierValidationError(index: int, field: TierField, message: string)

  const NotPositiveMessage := "Jumlah harus lebih dari 0"
  const DuplicateMessage := "Jumlah sudah ada"
  const NegativePriceMessage := "Harga tidak boleh negatif"

  function NotPositive(i: int): TierValidationError { TierValidationError(i, Quantity, NotPositiveMessage) }
  function Duplicate(i: int): TierValidationError { TierValidationError(i, Quantity, DuplicateMessage) }
  function NegativePrice(i: int): TierValidationError { TierValidationError(i, TotalPrice, NegativePriceMessage) }

  // ---------------------------------------------------------------------------
  // validateTiers
  // ---------------------------------------------------------------------------

  /** Some earlier tier has the same quantity as the tier at `i`. */
  ghost predicate SeenBefore(tiers: seq<Tier>, i: int)
    requires 0 <= i < |tiers|
  {
    exists j :: 0 <= j < i && tiers[j].quantity == tiers[i].quantity
  }

  /** The findings for the tier at `i`, in the order they are reported. */
  ghost function ErrorsAt(tiers: seq<Tier>, i: int): seq<TierValidationError>
    requires 0 <= i < |tiers|
  {
    (if tiers[i].quantity <= 0 then [NotPositive(i)] else []) +
    (if SeenBefore(tiers, i) then [Duplicate(i)] else []) +
    (if tiers[i].totalPrice < 0 then [NegativePrice(i)] else [])
  }

  /** The findings of each position of the list; a position outside it has none. */
  ghost function FindingsOf(tiers: seq<Tier>): int -> seq<TierValidationError>
  {
    (k: int) => if 0 <= k < |tiers| then ErrorsAt(tiers, k) else []
  }

  /** The blocks `f(0)`, ..., `f(n - 1)` one after the other. */
  ghost function Blocks(f: int -> seq<TierValidationError>, n: nat): seq<TierValidationError>
  {
    if n == 0 then [] else Blocks(f, n - 1) + f(n - 1)
  }

  /** The findings for the first `n` tiers, tier by tier. */
  ghost function TierErrors(tiers: seq<Tier>, n: int): seq<TierValidationError>
    requires 0 <= n <= |tiers|
  {
    Blocks(FindingsOf(tiers), n)
  }

  /** What a well-formed tier list is: positive, pairwise distinct quantities and non-negative prices. */
  ghost predicate ValidTiers(tiers: seq<Tier>)
  {
    && (forall i :: 0 <= i < |tiers| ==> tiers[i].quantity > 0 && tiers[i].totalPrice >= 0)
    && (forall i, j :: 0 <= i < j < |tiers| ==> tiers[i].quantity != tiers[j].quantity)
  }

  /**
   * Checks every tier in order for a non-positive quantity, a quantity already
   * seen in an earlier tier and a negative price, collecting the findings.
   */
  method ValidateTiers(tiers: seq<Tier>) returns (errors: seq<TierValidationError>)
    ensures errors == TierErrors(tiers, |tiers|)
  {
    errors := [];
    var quantities: set<int> := {};
    var index := 0;
    while index < |tiers|
      invariant 0 <= index <= |tiers|
      invariant quantities == set j | 0 <= j < index :: tiers[j].quantity
      invariant errors == TierErrors(tiers, index)
    {
      var tier := tiers[index];
      var found := CheckTier(tiers, index, quantities);
      SeenStep(tiers, quantities, index);
      quantities := quantities + {tier.quantity};
      TierErrorsStep(tiers, index);
      errors := errors + found;
      index := index + 1;
    }
  }

  /** The findings for the tier at `index`, given the quantities of the tiers before it. */
  method CheckTier(tiers: seq<Tier>, index: int, quantities: set<int>) returns (found: seq<TierValidationError>)
    requires 0 <= index < |tiers|
    requires quantities == set j | 0 <= j < index :: tiers[j].quantity
    ensures found == ErrorsAt(tiers, index)
  {
    var tier := tiers[index];
    SeenStep(tiers, quantities, index);
    found := [];
    if tier.quantity <= 0 {
      found := found + [NotPositive(index)];
    }
    if tier.quantity in quantities {
      found := found + [Duplicate(index)];
    }
    if tier.totalPrice < 0 {
      found := found + [NegativePrice(index)];
    }
  }

  /** The quantities of the tiers before `index`, and whether the tier at `index` repeats one of them. */
  lemma SeenStep(tiers: seq<Tier>, quantities: set<int>, index: int)
    requires 0 <= index < |tiers|
    requires quantities == set j | 0 <= j < index :: tiers[j].quantity
    ensures tiers[index].quantity in quantities <==> SeenBefore(tiers, index)
    ensures quantities + {tiers[index].quantity} == set j | 0 <= j < index + 1 :: tiers[j].quantity
  {
  }

  /** One more tier appends that tier's findings. */
  lemma TierErrorsStep(tiers: seq<Tier>, n: int)
    requires 0 <= n < |tiers|
    ensures TierErrors(tiers, n + 1) == TierErrors(tiers, n) + ErrorsAt(tiers, n)
  {
  }

  lemma {:induction false} TierErrorsMember(tiers: seq<Tier>, n: int, e: TierValidationError)
    requires 0 <= n <= |tiers|
    ensures e in TierErrors(tiers, n) <==> 0 <= e.index < n && e in ErrorsAt(tiers, e.index)
  {
    FindingsIndexed(tiers, n);
    BlocksMember(FindingsOf(tiers), n, e);
  }

  /** Every block holds at most three findings, each about the block's own position. */
  ghost predicate Indexed(f: int -> seq<TierValidationError>, n: int)
  {
    forall k :: 0 <= k < n ==> |f(k)| <= 3 && forall a :: 0 <= a < |f(k)| ==> f(k)[a].index == k
  }

  lemma FindingsIndexed(tiers: seq<Tier>, n: int)
    requires 0 <= n <= |tiers|
    ensures Indexed(FindingsOf(tiers), n)
  {
    forall k | 0 <= k < n
      ensures |FindingsOf(tiers)(k)| <= 3
      ensures forall a :: 0 <= a < |FindingsOf(tiers)(k)| ==> FindingsOf(tiers)(k)[a].index == k
    {
      ErrorsAtShape(tiers, k);
    }
  }

  /** A finding is among the blocks exactly when it is in the block of its own position. */
  lemma {:induction false} BlocksMember(f: int -> seq<TierValidationError>, n: nat, e: TierValidationError)
    requires Indexed(f, n)
    ensures e in Blocks(f, n) <==> 0 <= e.index < n && e in f(e.index)
  {
    if n > 0 {
      BlocksMember(f, n - 1, e);
      MemberStep(Blocks(f, n - 1), f(n - 1), e, n - 1, 0 <= e.index < n && e in f(e.index));
    }
  }

  /** Membership after appending the findings about tier `k` to those about the tiers before it. */
  lemma MemberStep(prev: seq<TierValidationError>, own: seq<TierValidationError>, e: TierValidationError, k: int, inAt: bool)
    requires 0 <= k
    requires e in prev <==> 0 <= e.index < k && inAt
    requires forall a :: 0 <= a < |own| ==> own[a].index == k
    requires e.index == k ==> (inAt <==> e in own)
    ensures e in prev + own <==> 0 <= e.index < k + 1 && inAt
  {
  }

  /** The findings are empty exactly when the tier list is well formed. */
  lemma {:induction false} ValidateEmptyIffValid(tiers: seq<Tier>)
    ensures TierErrors(tiers, |tiers|) == [] <==> ValidTiers(tiers)
  {
    if TierErrors(tiers, |tiers|) == [] {
      forall i | 0 <= i < |tiers|
        ensures tiers[i].quantity > 0 && tiers[i].totalPrice >= 0
      {
        TierErrorsMember(tiers, |tiers|, NotPositive(i));
        TierErrorsMember(tiers, |tiers|, NegativePrice(i));
      }
      forall i, j | 0 <= i < j < |tiers|
        ensures tiers[i].quantity != tiers[j].quantity
      {
        TierErrorsMember(tiers, |tiers|, Duplicate(j));
      }
    } else {
      var e := TierErrors(tiers, |tiers|)[0];
      TierErrorsMember(tiers, |tiers|, e);
      if SeenBefore(tiers, e.index) && e == Duplicate(e.index) {
        var j :| 0 <= j < e.index && tiers[j].quantity == tiers[e.index].quantity;
      }
    }
  }

  /** A tier with a quantity of at most zero is flagged on its quantity field, and no other tier is. */
  lemma {:induction false} NotPositiveFlagged(tiers: seq<Tier>, i: int)
    requires 0 <= i < |tiers|
    ensures NotPositive(i) in TierErrors(tiers, |tiers|) <==> tiers[i].quantity <= 0
  {
    TierErrorsMember(tiers, |tiers|, NotPositive(i));
  }

  /**
   * A repeated quantity is flagged on every occurrence after the first and
   * never on the first occurrence.
   */
  lemma {:induction false} DuplicateFlagged(tiers: seq<Tier>, i: int)
    requires 0 <= i < |tiers|
    ensures Duplicate(i) in TierErrors(tiers, |tiers|) <==>
            exists j :: 0 <= j < i && tiers[j].quantity == tiers[i].quantity
  {
    TierErrorsMember(tiers, |tiers|, Duplicate(i));
  }

  /** The later of two tiers with equal quantities is flagged as a duplicate. */
  lemma {:induction false} LaterDuplicateFlagged(tiers: seq<Tier>, i: int, j: int)
    requires 0 <= i < j < |tiers| && tiers[i].quantity == tiers[j].quantity
    ensures Duplicate(j) in TierErrors(tiers, |tiers|)
  {
    DuplicateFlagged(tiers, j);
  }

  /** The first tier carrying a given quantity gets no duplicate finding. */
  lemma {:induction false} FirstOccurrenceNotFlagged(tiers: seq<Tier>, i: int)
    requires 0 <= i < |tiers|
    requires forall j :: 0 <= j < i ==> tiers[j].quantity != tiers[i].quantity
    ensures Duplicate(i) !in TierErrors(tiers, |tiers|)
  {
    DuplicateFlagged(tiers, i);
  }

  /** A tier with a negative price is flagged on its price field, and no other tier is. */
  lemma {:induction false} NegativePriceFlagged(tiers: seq<Tier>, i: int)
    requires 0 <= i < |tiers|
    ensures NegativePrice(i) in TierErrors(tiers, |tiers|) <==> tiers[i].totalPrice < 0
  {
    TierErrorsMember(tiers, |tiers|, NegativePrice(i));
  }

  /** Every finding is one of the three kinds, for an existing tier, and only when its condition holds. */
  lemma {:induction false} FindingsJustified(tiers: seq<Tier>, e: TierValidationError)
    requires e in TierErrors(tiers, |tiers|)
    ensures 0 <= e.index < |tiers|
    ensures e == NotPositive(e.index) ==> tiers[e.index].quantity <= 0
    ensures e == Duplicate(e.index) ==> exists j :: 0 <= j < e.index && tiers[j].quantity == tiers[e.index].quantity
    ensures e == NegativePrice(e.index) ==> tiers[e.index].totalPrice < 0
    ensures e == NotPositive(e.index) || e == Duplicate(e.index) || e == NegativePrice(e.index)
  {
    TierErrorsMember(tiers, |tiers|, e);
  }

  /** Findings come out in non-decreasing tier order, each for a tier that exists. */
  lemma {:induction false} FindingsOrdered(tiers: seq<Tier>, n: int)
    requires 0 <= n <= |tiers|
    ensures forall a :: 0 <= a < |TierErrors(tiers, n)| ==> 0 <= TierErrors(tiers, n)[a].index < n
    ensures forall a, b :: 0 <= a < b < |TierErrors(tiers, n)| ==>
              TierErrors(tiers, n)[a].index <= TierErrors(tiers, n)[b].index
  {
    FindingsIndexed(tiers, n);
    BlocksOrdered(FindingsOf(tiers), n);
  }

  lemma {:induction false} BlocksOrdered(f: int -> seq<TierValidationError>, n: nat)
    requires Indexed(f, n)
    ensures forall a :: 0 <= a < |Blocks(f, n)| ==> 0 <= Blocks(f, n)[a].index < n
    ensures forall a, b :: 0 <= a < b < |Blocks(f, n)| ==> Blocks(f, n)[a].index <= Blocks(f, n)[b].index
  {
    if n > 0 {
      BlocksOrdered(f, n - 1);
      OrderedStep(Blocks(f, n - 1), f(n - 1), n - 1);
    }
  }

  /** Appending findings about tier `k` to ordered findings about the tiers before it keeps them ordered. */
  lemma OrderedStep(prev: seq<TierValidationError>, own: seq<TierValidationError>, k: int)
    requires 0 <= k
    requires forall a :: 0 <= a < |prev| ==> 0 <= prev[a].index < k
    requires forall a, b :: 0 <= a < b < |prev| ==> prev[a].index <= prev[b].index
    requires forall a :: 0 <= a < |own| ==> own[a].index == k
    ensures forall a :: 0 <= a < |prev + own| ==> 0 <= (prev + own)[a].index < k + 1
    ensures forall a, b :: 0 <= a < b < |prev + own| ==> (prev + own)[a].index <= (prev + own)[b].index
  {
  }

  /** The number of findings for tier `i`. */
  function CountFor(errors: seq<TierValidationError>, i: int): nat
  {
    if errors == [] then 0
    else CountFor(errors[..|errors| - 1], i) + (if errors[|errors| - 1].index == i then 1 else 0)
  }

  lemma {:induction false} CountForAppend(a: seq<TierValidationError>, b: seq<TierValidationError>, i: int)
    ensures CountFor(a + b, i) == CountFor(a, i) + CountFor(b, i)
  {
    if b != [] {
      assert (a + b)[..|a + b| - 1] == a + b[..|b| - 1];
      CountForAppend(a, b[..|b| - 1], i);
    } else {
      assert a + b == a;
    }
  }

  /** Tier `i` gets at most three findings, and a position past the list gets none. */
  lemma {:induction false} AtMostThreePerTier(tiers: seq<Tier>, n: int, i: int)
    requires 0 <= n <= |tiers|
    ensures CountFor(TierErrors(tiers, n), i) <= 3
    ensures !(0 <= i < n) ==> CountFor(TierErrors(tiers, n), i) == 0
  {
    FindingsIndexed(tiers, n);
    BlocksCount(FindingsOf(tiers), n, i);
  }

  lemma {:induction false} BlocksCount(f: int -> seq<TierValidationError>, n: nat, i: int)
    requires Indexed(f, n)
    ensures CountFor(Blocks(f, n), i) <= 3
    ensures !(0 <= i < n) ==> CountFor(Blocks(f, n), i) == 0
  {
    if n > 0 {
      BlocksCount(f, n - 1, i);
      var own := f(n - 1);
      if i == n - 1 {
        CountForBound(own, i);
      } else {
        CountForOther(own, i);
      }
      CountStep(Blocks(f, n), Blocks(f, n - 1), own, i, n - 1);
    }
  }

  /** Appending at most three findings about tier `k` to the findings of the tiers before it. */
  lemma CountStep(all: seq<TierValidationError>, prev: seq<TierValidationError>, own: seq<TierValidationError>, i: int, k: int)
    requires all == prev + own
    requires 0 <= k && CountFor(prev, i) <= 3 && (!(0 <= i < k) ==> CountFor(prev, i) == 0)
    requires CountFor(own, i) <= 3 && (i != k ==> CountFor(own, i) == 0)
    ensures CountFor(all, i) <= 3
    ensures !(0 <= i < k + 1) ==> CountFor(all, i) == 0
  {
    CountForAppend(prev, own, i);
  }

  /** A tier gets at most three findings, all about itself. */
  lemma ErrorsAtShape(tiers: seq<Tier>, k: int)
    requires 0 <= k < |tiers|
    ensures |ErrorsAt(tiers, k)| <= 3
    ensures forall a :: 0 <= a < |ErrorsAt(tiers, k)| ==> ErrorsAt(tiers, k)[a].index == k
  {
    var p := if tiers[k].quantity <= 0 then [NotPositive(k)] else [];
    var d := if SeenBefore(tiers, k) then [Duplicate(k)] else [];
    var q := if tiers[k].totalPrice < 0 then [NegativePrice(k)] else [];
    assert ErrorsAt(tiers, k) == p + d + q;
    assert forall e: TierValidationError :: e in p + d + q ==> e.index == k;
  }

  lemma {:induction false} CountForBound(errors: seq<TierValidationError>, i: int)
    ensures CountFor(errors, i) <= |errors|
  {
    if errors != [] {
      CountForBound(errors[..|errors| - 1], i);
    }
  }

  lemma {:induction false} CountForOther(errors: seq<TierValidationError>, i: int)
    requires forall a :: 0 <= a < |errors| ==> errors[a].index != i
    ensures CountFor(errors, i) == 0
  {
    if errors != [] {
      CountForOther(errors[..|errors| - 1], i);
    }
  }

  // ---------------------------------------------------------------------------
  // normalizeTiers
  // ---------------------------------------------------------------------------

  predicate QuantityLe(a: Tier, b: Tier)
  {
    a.quantity <= b.quantity
  }

  lemma {:induction false} QuantityLePreorder(tiers: seq<Tier>)
    ensures Sorting.PreorderOn(QuantityLe, tiers)
  {
  }

  /** A copy of the tiers ordered by ascending quantity; nothing is removed or checked. */
  function NormalizeTiers(tiers: seq<Tier>): (r: seq<Tier>)
    ensures multiset(r) == multiset(tiers)
    ensures forall i, j :: 0 <= i < j < |r| ==> r[i].quantity <= r[j].quantity
  {
    QuantityLePreorder(tiers);
    Sorting.SortSorted(tiers, QuantityLe);
    Sorting.Sort(tiers, QuantityLe)
  }

  /** Tiers already in ascending quantity order come back as they are. */
  lemma {:induction false} NormalizeSortedUnchanged(tiers: seq<Tier>)
    requires forall i, j :: 0 <= i < j < |tiers| ==> tiers[i].quantity <= tiers[j].quantity
    ensures NormalizeTiers(tiers) == tiers
  {
    Sorting.SortOfSorted(tiers, QuantityLe);
  }

  /** Normalizing twice is normalizing once. */
  lemma {:induction false} NormalizeIdempotent(tiers: seq<Tier>)
    ensures NormalizeTiers(NormalizeTiers(tiers)) == NormalizeTiers(tiers)
  {
    NormalizeSortedUnchanged(NormalizeTiers(tiers));
  }

  /** Reordering does not change what validation reports as empty or not. */
  lemma {:induction false} NormalizePreservesValidity(tiers: seq<Tier>)
    requires ValidTiers(tiers)
    ensures ValidTiers(NormalizeTiers(tiers))
  {
    var r := NormalizeTiers(tiers);
    forall i | 0 <= i < |r| ensures r[i].quantity > 0 && r[i].totalPrice >= 0 {
      assert r[i] in multiset(tiers);
    }
    forall i, j | 0 <= i < j < |r| ensures r[i].quantity != r[j].quantity {
      assert r[i] in multiset(tiers) && r[j] in multiset(tiers);
      var a :| 0 <= a < |tiers| && tiers[a] == r[i];
      var b :| 0 <= b < |tiers| && tiers[b] == r[j];
      if a == b {
        TwoPositionsCount(r, i, j);
        SingleOccurrence(tiers, a);
      }
    }
  }

  lemma {:induction false} TwoPositionsCount(r: seq<Tier>, i: int, j: int)
    requires 0 <= i < j < |r| && r[i] == r[j]
    ensures multiset(r)[r[i]] >= 2
  {
    assert r == r[..i] + [r[i]] + r[i + 1..j] + [r[j]] + r[j + 1..];
  }

  /** In a list with distinct quantities every tier occurs exactly once. */
  lemma {:induction false} SingleOccurrence(tiers: seq<Tier>, a: int)
    requires 0 <= a < |tiers|
    requires forall i, j :: 0 <= i < j < |tiers| ==> tiers[i].quantity != tiers[j].quantity
    ensures multiset(tiers)[tiers[a]] == 1
  {
    var last := |tiers| - 1;
    assert tiers == tiers[..last] + [tiers[last]];
    if a == last {
      assert tiers[a] !in tiers[..last];
    } else {
      SingleOccurrence(tiers[..last], a);
      assert tiers[last] != tiers[a];
    }
  }

  // ---------------------------------------------------------------------------
  // calculateLineTotal
  // ---------------------------------------------------------------------------

  /** `k` is the position of the first tier whose quantity is exactly `quantity`. */
  predicate FirstMatch(tiers: seq<Tier>, quantity: int, k: int)
  {
    0 <= k < |tiers| && tiers[k].quantity == quantity &&
    forall j :: 0 <= j < k ==> tiers[j].quantity != quantity
  }

  /** `tiers.find(t => t.quantity === quantity)`. */
  function FindTier(tiers: seq<Tier>, quantity: int): (r: Option<Tier>)
    ensures r.None? <==> forall j :: 0 <= j < |tiers| ==> tiers[j].quantity != quantity
    ensures forall k :: FirstMatch(tiers, quantity, k) ==> r == Some(tiers[k])
  {
    if tiers == [] then None
    else if tiers[0].quantity == quantity then Some(tiers[0])
    else
      var r := FindTier(tiers[1..], quantity);
      assert forall k :: FirstMatch(tiers, quantity, k) ==> FirstMatch(tiers[1..], quantity, k - 1);
      r
  }

  /**
   * The amount charged for `quantity` units of `product`: the total price of
   * the first tier for exactly that quantity, otherwise the unit price times
   * the quantity.
   */
  function CalculateLineTotal(product: Product, quantity: int): (r: int)
    ensures forall k :: FirstMatch(product.tiers, quantity, k) ==> r == product.tiers[k].totalPrice
    ensures (forall j :: 0 <= j < |product.tiers| ==> product.tiers[j].quantity != quantity) ==>
              r == product.price * quantity
  {
    match FindTier(product.tiers, quantity)
    case Some(tier) => tier.totalPrice
    case None => product.price * quantity
  }

  /** A matching tier decides the line total whatever the base price. */
  lemma {:induction false} LineTotalIgnoresPriceOnMatch(product: Product, quantity: int, price: int)
    requires exists j :: 0 <= j < |product.tiers| && product.tiers[j].quantity == quantity
    ensures CalculateLineTotal(product.(price := price), quantity) == CalculateLineTotal(product, quantity)
  {
  }

  /** Without tiers the line total is plain per-unit pricing. */
  lemma {:induction false} LineTotalWithoutTiers(product: Product, quantity: int)
    requires product.tiers == []
    ensures CalculateLineTotal(product, quantity) == product.price * quantity
  {
  }

  /** Zero units cost nothing unless a tier is defined for quantity zero. */
  lemma {:induction false} LineTotalOfZero(product: Product)
    requires forall j :: 0 <= j < |product.tiers| ==> product.tiers[j].quantity != 0
    ensures CalculateLineTotal(product, 0) == 0
  {
  }

  /** With non-negative prices and a non-negative quantity the line total is non-negative. */
  lemma {:induction false} LineTotalNonNegative(product: Product, quantity: int)
    requires product.price >= 0 && quantity >= 0
    requires forall j :: 0 <= j < |product.tiers| ==> product.tiers[j].totalPrice >= 0
    ensures CalculateLineTotal(product, quantity) >= 0
  {
    var r := FindTier(product.tiers, quantity);
    if r.Some? {
      var k := FirstIndex(product.tiers, quantity);
    }
  }

  /** The position of the first tier with the given quantity, when there is one. */
  lemma {:induction false} FirstIndex(tiers: seq<Tier>, quantity: int) returns (k: int)
    requires exists j :: 0 <= j < |tiers| && tiers[j].quantity == quantity
    ensures FirstMatch(tiers, quantity, k)
  {
    if tiers[0].quantity == quantity {
      k := 0;
    } else {
      var j :| 0 <= j < |tiers| && tiers[j].quantity == quantity;
      assert tiers[1..][j - 1].quantity == quantity;
      k := FirstIndex(tiers[1..], quantity);
      k := k + 1;
    }
  }

  /** A five-unit package at 12000 for a product at 3000 a unit. */
  lemma {:induction false} PackagePriceExample()
    ensures var p := Product(1, None, [Tier(5, 12000)], "Kopi", "pcs", 10, 3000);
      CalculateLineTotal(p, 5) == 12000 && CalculateLineTotal(p, 3) == 9000 && CalculateLineTotal(p, 6) == 18000
  {
    var p := Product(1, None, [Tier(5, 12000)], "Kopi", "pcs", 10, 3000);
    assert FirstMatch(p.tiers, 5, 0);
  }
}
