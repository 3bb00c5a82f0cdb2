/**
 * The product dialog's package-price editor: the editable tier rows with the
 * findings shown against them, and the submit pipeline that skips blank rows,
 * parses, validates and orders the tiers before the product is saved.
 *
 * The JavaScript number parsing is a pair of parameters: `parseInt` stands for
 * `parseInt` and `parseFloor` for `Math.floor(parseFloat(..))`, each giving
 * `None` where JavaScript gives NaN.
 */
module ProductForm {
  import opened Wrappers
  import opened Backend
  import opened Pricing
  import Seqs
  import Text

  /** One editable tier row, as typed. */
  datatype TierInput = TierInput(quantity: string, totalPrice: string)

  /** The arguments of the save call. */
  datatype ProductRequest = ProductRequest(
    id: Option<int>,
    name: string,
    sku: Option<string>,
    unit: string,
    price: int,
    stock: int,
    tiers: seq<Tier>)

  /** What a submit comes to before the remote call: a refusal with its messages, or a request. */
  datatype SubmitOutcome =
    | Rejected(message: string, tierErrors: seq<TierValidationError>)
    | Ready(request: ProductRequest)

  const NameRequiredMessage := "Nama produk wajib diisi"
  const UnitRequiredMessage := "Satuan wajib diisi"
  const PriceInvalidMessage := "Harga harus berupa angka positif"
  const StockInvalidMessage := "Stok harus berupa angka positif"
  const TierParseMessage := "Semua paket harga harus diisi dengan angka yang valid"
  const TierInvalidMessage := "Ada kesalahan pada paket harga. Periksa kembali."
  const SaveFailedMessage := "Gagal menyimpan produk"

  // ---------------------------------------------------------------------------
  // Row editing
  // ---------------------------------------------------------------------------

  /** `rows.filter((_, i) => i !== index)`. */
  function DropIndex<T>(rows: seq<T>, index: int): (r: seq<T>)
    ensures r == if 0 <= index < |rows| then rows[..index] + rows[index + 1..] else rows
  {
    if rows == [] then []
    else
      var last := |rows| - 1;
      var kept := DropIndex(rows[..last], index);
      assert rows == rows[..last] + [rows[last]];
      if index == last then kept else kept + [rows[last]]
  }

  /** The row with `field` replaced by `value`. */
  function WithField(row: TierInput, field: TierField, value: string): TierInput
  {
    match field
    case Quantity => row.(quantity := value)
    case TotalPrice => row.(totalPrice := value)
  }

  /** Keeps the findings that are not about row `index`. */
  function NotAt(index: int): TierValidationError -> bool
  {
    (e: TierValidationError) => e.index != index
  }

  /** Keeps the findings that are not about `field` of row `index`. */
  function NotFor(index: int, field: TierField): TierValidationError -> bool
  {
    (e: TierValidationError) => !(e.index == index && e.field == field)
  }

  /** `k` is the first finding about `field` of row `index`. */
  predicate FirstErrorFor(errors: seq<TierValidationError>, index: int, field: TierField, k: int)
  {
    0 <= k < |errors| && errors[k].index == index && errors[k].field == field &&
    forall j :: 0 <= j < k ==> !(errors[j].index == index && errors[j].field == field)
  }

  /** The message shown under `field` of row `index`: that of the first finding about it. */
  function FindTierError(errors: seq<TierValidationError>, index: int, field: TierField): (r: Option<string>)
    ensures r.None? <==> forall j :: 0 <= j < |errors| ==> !(errors[j].index == index && errors[j].field == field)
    ensures forall k :: FirstErrorFor(errors, index, field, k) ==> r == Some(errors[k].message)
  {
    if errors == [] then None
    else if errors[0].index == index && errors[0].field == field then Some(errors[0].message)
    else
      assert forall k :: FirstErrorFor(errors, index, field, k) ==> FirstErrorFor(errors[1..], index, field, k - 1);
      FindTierError(errors[1..], index, field)
  }

  // ---------------------------------------------------------------------------
  // Parsing the rows
  // ---------------------------------------------------------------------------

  /** A row counts as a tier unless both of its fields are blank. */
  predicate Filled(row: TierInput)
  {
    !(Text.IsBlank(row.quantity) && Text.IsBlank(row.totalPrice))
  }

  /** The tier a filled row parses to, `None` when either field is not a number. */
  function ParseRow(row: TierInput, parseInt: string -> Option<int>, parseFloor: string -> Option<int>): Option<Tier>
  {
    match (parseInt(row.quantity), parseFloor(row.totalPrice))
    case (Some(q), Some(p)) => Some(Tier(q, p))
    case _ => None
  }

  /** The tiers of the rows, in order, skipping blank rows; `None` as soon as a filled row does not parse. */
  function ParseTierRows(rows: seq<TierInput>, parseInt: string -> Option<int>, parseFloor: string -> Option<int>): Option<seq<Tier>>
  {
    if rows == [] then Some([])
    else
      match ParseTierRows(rows[..|rows| - 1], parseInt, parseFloor)
      case None => None
      case Some(done) =>
        var row := rows[|rows| - 1];
        if !Filled(row) then Some(done)
        else match ParseRow(row, parseInt, parseFloor)
          case None => None
          case Some(tier) => Some(done + [tier])
  }

  /** Once a prefix of the rows fails to parse, the whole list does. */
  lemma {:induction false} ParseFailureSticks(rows: seq<TierInput>, i: int, parseInt: string -> Option<int>, parseFloor: string -> Option<int>)
    requires 0 <= i <= |rows|
    requires ParseTierRows(rows[..i], parseInt, parseFloor).None?
    ensures ParseTierRows(rows, parseInt, parseFloor).None?
  {
    if i < |rows| {
      var front := rows[..|rows| - 1];
      assert front[..i] == rows[..i];
      ParseFailureSticks(front, i, parseInt, parseFloor);
    } else {
      assert rows[..i] == rows;
    }
  }

  /**
   * Parsing succeeds exactly when every filled row parses, and then yields the
   * filled rows' tiers in their order, blank rows skipped.
   */
  lemma ParseTierRowsMeaning(rows: seq<TierInput>, parseInt: string -> Option<int>, parseFloor: string -> Option<int>)
    ensures ParseTierRows(rows, parseInt, parseFloor).Some? <==>
            forall i :: 0 <= i < |rows| && Filled(rows[i]) ==> ParseRow(rows[i], parseInt, parseFloor).Some?
    ensures ParseTierRows(rows, parseInt, parseFloor).Some? ==>
            var filled := Seqs.Filter(rows, Filled);
            var tiers := ParseTierRows(rows, parseInt, parseFloor).value;
            |tiers| == |filled| &&
            forall k :: 0 <= k < |filled| ==> ParseRow(filled[k], parseInt, parseFloor) == Some(tiers[k])
  {
    ParseTierRowsSucceeds(rows, parseInt, parseFloor);
    ParseTierRowsYields(rows, parseInt, parseFloor);
  }

  /** Parsing succeeds exactly when every filled row parses. */
  lemma {:induction false} ParseTierRowsSucceeds(rows: seq<TierInput>, parseInt: string -> Option<int>, parseFloor: string -> Option<int>)
    ensures ParseTierRows(rows, parseInt, parseFloor).Some? <==>
            forall i :: 0 <= i < |rows| && Filled(rows[i]) ==> ParseRow(rows[i], parseInt, parseFloor).Some?
  {
    if rows != [] {
      var front := rows[..|rows| - 1];
      ParseTierRowsSucceeds(front, parseInt, parseFloor);
      assert forall i :: 0 <= i < |front| ==> front[i] == rows[i];
    }
  }

  /** A successful parse yields one tier per filled row, in order. */
  lemma {:induction false} ParseTierRowsYields(rows: seq<TierInput>, parseInt: string -> Option<int>, parseFloor: string -> Option<int>)
    ensures ParseTierRows(rows, parseInt, parseFloor).Some? ==>
            var filled := Seqs.Filter(rows, Filled);
            var tiers := ParseTierRows(rows, parseInt, parseFloor).value;
            |tiers| == |filled| &&
            forall k :: 0 <= k < |filled| ==> ParseRow(filled[k], parseInt, parseFloor) == Some(tiers[k])
  {
    if rows != [] && ParseTierRows(rows, parseInt, parseFloor).Some? {
      var front, row := rows[..|rows| - 1], rows[|rows| - 1];
      ParseTierRowsYields(front, parseInt, parseFloor);
      assert rows == front + [row];
      Seqs.FilterAppend(front, [row], Filled);
      var tiers := ParseTierRows(rows, parseInt, parseFloor).value;
      var filled := Seqs.Filter(rows, Filled);
      var done := ParseTierRows(front, parseInt, parseFloor).value;
      if Filled(row) {
        assert Seqs.Filter([row], Filled) == [row];
        assert filled == Seqs.Filter(front, Filled) + [row];
        assert tiers == done + [ParseRow(row, parseInt, parseFloor).value];
        YieldsAppend(Seqs.Filter(front, Filled), done, row, ParseRow(row, parseInt, parseFloor).value, parseInt, parseFloor);
      } else {
        assert Seqs.Filter([row], Filled) == [];
        assert filled == Seqs.Filter(front, Filled);
      }
    }
  }

  /** A parsed row appended to rows parsed one to one keeps them one to one. */
  lemma YieldsAppend(filled: seq<TierInput>, tiers: seq<Tier>, row: TierInput, tier: Tier,
                     parseInt: string -> Option<int>, parseFloor: string -> Option<int>)
    requires |tiers| == |filled| && forall k :: 0 <= k < |filled| ==> ParseRow(filled[k], parseInt, parseFloor) == Some(tiers[k])
    requires ParseRow(row, parseInt, parseFloor) == Some(tier)
    ensures |tiers + [tier]| == |filled + [row]|
    ensures forall k :: 0 <= k < |filled + [row]| ==> ParseRow((filled + [row])[k], parseInt, parseFloor) == Some((tiers + [tier])[k])
  {
  }

  // ---------------------------------------------------------------------------
  // The submit pipeline
  // ---------------------------------------------------------------------------

  /** `product?.id || null`: a product id of zero is falsy and is sent as no id. */
  function RequestId(editingId: Option<int>): Option<int>
  {
    if editingId == Some(0) then None else editingId
  }

  /** `sku.trim() || null`. */
  function RequestSku(sku: string): Option<string>
  {
    if Text.Trim(sku) == "" then None else Some(Text.Trim(sku))
  }

  /** The first complaint about the name, unit, price and stock fields, checked in that order. */
  function FieldError(name: string, unit: string, price: string, stock: string,
                      parseInt: string -> Option<int>, parseFloor: string -> Option<int>): (r: Option<string>)
    ensures r.None? <==> !Text.IsBlank(name) && !Text.IsBlank(unit) &&
                         parseFloor(price).Some? && parseFloor(price).value >= 0 &&
                         parseInt(stock).Some? && parseInt(stock).value >= 0
    ensures Text.IsBlank(name) ==> r == Some(NameRequiredMessage)
  {
    if Text.IsBlank(name) then Some(NameRequiredMessage)
    else if Text.IsBlank(unit) then Some(UnitRequiredMessage)
    else if parseFloor(price).None? || parseFloor(price).value < 0 then Some(PriceInvalidMessage)
    else if parseInt(stock).None? || parseInt(stock).value < 0 then Some(StockInvalidMessage)
    else None
  }

  /** The outcome of a submit up to the remote call, from the form's fields. */
  ghost function PrepareSubmit(
    editingId: Option<int>, name: string, sku: string, unit: string, price: string, stock: string,
    rows: seq<TierInput>, parseInt: string -> Option<int>, parseFloor: string -> Option<int>): SubmitOutcome
  {
    match FieldError(name, unit, price, stock, parseInt, parseFloor)
    case Some(message) => Rejected(message, [])
    case None =>
      match ParseTierRows(rows, parseInt, parseFloor)
      case None => Rejected(TierParseMessage, [])
      case Some(tiers) =>
        if TierErrors(tiers, |tiers|) != [] then Rejected(TierInvalidMessage, TierErrors(tiers, |tiers|))
        else Ready(ProductRequest(RequestId(editingId), Text.Trim(name), RequestSku(sku), Text.Trim(unit),
                                  parseFloor(price).value, parseInt(stock).value, NormalizeTiers(tiers)))
  }

  /**
   * Whatever is sent has a non-blank name and unit, a non-negative price and
   * stock, and tiers that are valid and in ascending quantity order: exactly
   * the normalised tiers parsed from the filled rows.
   */
  lemma {:induction false} SentRequestWellFormed(
    editingId: Option<int>, name: string, sku: string, unit: string, price: string, stock: string,
    rows: seq<TierInput>, parseInt: string -> Option<int>, parseFloor: string -> Option<int>)
    requires PrepareSubmit(editingId, name, sku, unit, price, stock, rows, parseInt, parseFloor).Ready?
    ensures var req := PrepareSubmit(editingId, name, sku, unit, price, stock, rows, parseInt, parseFloor).request;
      && req.name != "" && req.unit != "" && req.price >= 0 && req.stock >= 0
      && ParseTierRows(rows, parseInt, parseFloor).Some?
      && req.tiers == NormalizeTiers(ParseTierRows(rows, parseInt, parseFloor).value)
      && ValidTiers(req.tiers)
      && (forall i, j :: 0 <= i < j < |req.tiers| ==> req.tiers[i].quantity < req.tiers[j].quantity)
  {
    assert FieldError(name, unit, price, stock, parseInt, parseFloor).None?;
    var tiers := ParseTierRows(rows, parseInt, parseFloor).value;
    assert TierErrors(tiers, |tiers|) == [];
    ValidateEmptyIffValid(tiers);
    NormalizePreservesValidity(tiers);
    var r := NormalizeTiers(tiers);
    forall i, j | 0 <= i < j < |r| ensures r[i].quantity < r[j].quantity {
      assert r[i].quantity != r[j].quantity;
    }
  }

  /** Tiers that parse but fail validation are reported, and nothing is sent. */
  lemma {:induction false} InvalidTiersBlockSubmit(
    editingId: Option<int>, name: string, sku: string, unit: string, price: string, stock: string,
    rows: seq<TierInput>, parseInt: string -> Option<int>, parseFloor: string -> Option<int>, tiers: seq<Tier>)
    requires !Text.IsBlank(name) && !Text.IsBlank(unit)
    requires parseFloor(price).Some? && parseFloor(price).value >= 0
    requires parseInt(stock).Some? && parseInt(stock).value >= 0
    requires ParseTierRows(rows, parseInt, parseFloor) == Some(tiers)
    requires !ValidTiers(tiers)
    ensures PrepareSubmit(editingId, name, sku, unit, price, stock, rows, parseInt, parseFloor) ==
            Rejected(TierInvalidMessage, TierErrors(tiers, |tiers|))
  {
    ValidateEmptyIffValid(tiers);
  }

  /**
   * The findings of a submit are numbered by position among the filled rows,
   * not by the row they are shown against: with a blank first row, a bad
   * quantity in the second row is reported for row 0.
   */
  lemma {:induction false} FindingIndexSkipsBlankRows(parseInt: string -> Option<int>, parseFloor: string -> Option<int>)
    requires parseInt("0") == Some(0) && parseFloor("5") == Some(5)
    ensures var rows := [TierInput("", ""), TierInput("0", "5")];
      && ParseTierRows(rows, parseInt, parseFloor) == Some([Tier(0, 5)])
      && TierErrors([Tier(0, 5)], 1) == [NotPositive(0)]
      && !Filled(rows[0])
  {
    var rows := [TierInput("", ""), TierInput("0", "5")];
    assert !Text.IsWhitespace("0"[0]);
    assert !Filled(rows[0]) && Filled(rows[1]);
    assert rows[..1] == [TierInput("", "")];
    assert rows[..1][..0] == [];
    assert ParseTierRows(rows[..1], parseInt, parseFloor) == Some([]);
    assert ParseRow(rows[1], parseInt, parseFloor) == Some(Tier(0, 5));
    assert rows[..|rows| - 1] == rows[..1];
    assert [] + [Tier(0, 5)] == [Tier(0, 5)];
    assert TierErrors([Tier(0, 5)], 1) == ErrorsAt([Tier(0, 5)], 0);
  }

  /**
   * The row loop of submit: walks the rows in order, skips blank ones and
   * stops at the first filled row that does not parse.
   */
  method ParseRows(rows: seq<TierInput>, parseInt: string -> Option<int>, parseFloor: string -> Option<int>)
    returns (parsed: Option<seq<Tier>>)
    ensures parsed == ParseTierRows(rows, parseInt, parseFloor)
  {
    var parsedTiers: seq<Tier> := [];
    var i := 0;
    while i < |rows|
      invariant 0 <= i <= |rows|
      invariant ParseTierRows(rows[..i], parseInt, parseFloor) == Some(parsedTiers)
    {
      var tier := rows[i];
      assert rows[..i + 1][..i] == rows[..i];
      if Text.IsBlank(tier.quantity) && Text.IsBlank(tier.totalPrice) {
        i := i + 1;
        continue;
      }
      var qty := parseInt(tier.quantity);
      var tierPrice := parseFloor(tier.totalPrice);
      if qty.None? || tierPrice.None? {
        ParseFailureSticks(rows, i + 1, parseInt, parseFloor);
        return None;
      }
      parsedTiers := parsedTiers + [Tier(qty.value, tierPrice.value)];
      i := i + 1;
    }
    assert rows[..i] == rows;
    return Some(parsedTiers);
  }

  /**
   * Everything submit does before the remote call: the field checks, the row
   * loop, validation of the parsed tiers and the request it would send.
   */
  method PrepareRequest(editingId: Option<int>, name: string, sku: string, unit: string, price: string,
                        stock: string, rows: seq<TierInput>,
                        parseInt: string -> Option<int>, parseFloor: string -> Option<int>)
    returns (outcome: SubmitOutcome)
    ensures outcome == PrepareSubmit(editingId, name, sku, unit, price, stock, rows, parseInt, parseFloor)
  {
    if Text.IsBlank(name) {
      return Rejected(NameRequiredMessage, []);
    }
    if Text.IsBlank(unit) {
      return Rejected(UnitRequiredMessage, []);
    }
    var priceNum := parseFloor(price);
    if priceNum.None? || priceNum.value < 0 {
      return Rejected(PriceInvalidMessage, []);
    }
    var stockNum := parseInt(stock);
    if stockNum.None? || stockNum.value < 0 {
      return Rejected(StockInvalidMessage, []);
    }
    var parsed := ParseRows(rows, parseInt, parseFloor);
    if parsed.None? {
      return Rejected(TierParseMessage, []);
    }
    var parsedTiers := parsed.value;
    if |parsedTiers| > 0 {
      var validationErrors := ValidateTiers(parsedTiers);
      if |validationErrors| > 0 {
        return Rejected(TierInvalidMessage, validationErrors);
      }
    }
    var normalizedTiers := NormalizeTiers(parsedTiers);
    return Ready(ProductRequest(RequestId(editingId), Text.Trim(name), RequestSku(sku), Text.Trim(unit),
                                priceNum.value, stockNum.value, normalizedTiers));
  }

  // ---------------------------------------------------------------------------
  // The dialog state
  // ---------------------------------------------------------------------------

  class ProductFormDialog {
    var editingId: Option<int>
    var name: string
    var sku: string
    var unit: string
    var price: string
    var stock: string
    var tiers: seq<TierInput>
    var error: string
    var tierErrors: seq<TierValidationError>

    /** A dialog opened for a new product (`editingId` None) or for editing an existing one. */
    constructor (editingId: Option<int>)
      ensures this.editingId == editingId
      ensures name == "" && sku == "" && unit == "" && price == "" && stock == ""
      ensures tiers == [] && error == "" && tierErrors == []
    {
      this.editingId := editingId;
      name, sku, unit, price, stock := "", "", "", "", "";
      tiers := [];
      error := "";
      tierErrors := [];
    }

    /** Appends one empty row. */
    method AddTier()
      modifies this`tiers
      ensures tiers == old(tiers) + [TierInput("", "")]
    {
      tiers := tiers + [TierInput("", "")];
    }

    /** Deletes row `index` and the findings about it; findings on later rows keep their old numbers. */
    method RemoveTier(index: int)
      modifies this`tiers, this`tierErrors
      ensures tiers == DropIndex(old(tiers), index)
      ensures tierErrors == Seqs.Filter(old(tierErrors), NotAt(index))
    {
      tiers := DropIndex(tiers, index);
      tierErrors := Seqs.Filter(tierErrors, NotAt(index));
    }

    /** Replaces `field` of row `index` and clears the findings about that field of that row. */
    method UpdateTier(index: int, field: TierField, value: string)
      requires 0 <= index < |tiers|
      modifies this`tiers, this`tierErrors
      ensures tiers == old(tiers)[index := WithField(old(tiers)[index], field, value)]
      ensures tierErrors == Seqs.Filter(old(tierErrors), NotFor(index, field))
    {
      var newTiers := tiers;
      newTiers := newTiers[index := WithField(newTiers[index], field, value)];
      tiers := newTiers;
      tierErrors := Seqs.Filter(tierErrors, NotFor(index, field));
    }

    /** The finding shown under `field` of row `index`. */
    function GetTierError(index: int, field: TierField): Option<string>
      reads this
    {
      FindTierError(tierErrors, index, field)
    }

    /**
     * Submit: checks name, unit, price and stock, parses the filled rows in
     * order, validates and orders the tiers and only then saves. Returns the
     * request sent, if any; `remoteFailure` is the message of a failed save.
     * A successful save empties the form.
     */
    method HandleSubmit(parseInt: string -> Option<int>, parseFloor: string -> Option<int>, remoteFailure: Option<string>)
      returns (sent: Option<ProductRequest>)
      modifies this
      ensures Applied(PrepareSubmit(old(editingId), old(name), old(sku), old(unit), old(price), old(stock),
                                    old(tiers), parseInt, parseFloor), remoteFailure, sent)
    {
      var outcome := PrepareRequest(editingId, name, sku, unit, price, stock, tiers, parseInt, parseFloor);
      sent := Apply(outcome, remoteFailure);
    }

    /**
     * The state after a submit whose checks came to `outcome`: a refusal is
     * shown with its findings and nothing else changes; a request is sent, and
     * then the form is emptied, or the save's failure is shown.
     */
    twostate predicate Applied(outcome: SubmitOutcome, remoteFailure: Option<string>, new sent: Option<ProductRequest>)
      reads this
    {
      && editingId == old(editingId)
      && (outcome.Rejected? ==>
            && sent == None && error == outcome.message && tierErrors == outcome.tierErrors
            && unchanged(this`name, this`sku, this`unit, this`price, this`stock, this`tiers))
      && (outcome.Ready? ==> sent == Some(outcome.request))
      && (outcome.Ready? && remoteFailure.None? ==>
            name == "" && sku == "" && unit == "" && price == "" && stock == "" &&
            tiers == [] && error == "" && tierErrors == [])
      && (outcome.Ready? && remoteFailure.Some? ==>
            && error == (if remoteFailure.value == "" then SaveFailedMessage else remoteFailure.value)
            && tierErrors == []
            && unchanged(this`name, this`sku, this`unit, this`price, this`stock, this`tiers))
    }

    /** Puts the outcome of the checks into the form's state. */
    method Apply(outcome: SubmitOutcome, remoteFailure: Option<string>) returns (sent: Option<ProductRequest>)
      modifies this
      ensures Applied(outcome, remoteFailure, sent)
    {
      match outcome {
        case Rejected(message, findings) =>
          error, tierErrors := message, findings;
          sent := None;
        case Ready(request) =>
          sent := Some(request);
          match remoteFailure {
            case None =>
              name, sku, unit, price, stock, tiers, error, tierErrors := "", "", "", "", "", [], "", [];
            case Some(message) =>
              error, tierErrors := if message == "" then SaveFailedMessage else message, [];
          }
      }
    }
  }

  // ---------------------------------------------------------------------------
  // Facts about the row editor
  // ---------------------------------------------------------------------------

  /** Removing a row keeps the other rows in order, one position earlier past the removed one. */
  lemma {:induction false} RemoveTierShiftsRows(rows: seq<TierInput>, index: int, j: int)
    requires 0 <= index < |rows| && 0 <= j < |rows| && j != index
    ensures var r := DropIndex(rows, index);
      |r| == |rows| - 1 && r[if j < index then j else j - 1] == rows[j]
  {
  }

  /**
   * Removing a row drops exactly the findings about it and renumbers none: a
   * finding about a later row keeps its index, which now names the row after it.
   */
  lemma {:induction false} RemoveTierKeepsLaterIndices(errors: seq<TierValidationError>, index: int, e: TierValidationError)
    requires e in errors
    ensures e in Seqs.Filter(errors, NotAt(index)) <==> e.index != index
  {
  }

  /** Editing a field clears exactly the findings about that field of that row, keeping the rest in order. */
  lemma {:induction false} UpdateTierClearsOnlyThatField(errors: seq<TierValidationError>, index: int, field: TierField)
    ensures forall e :: e in Seqs.Filter(errors, NotFor(index, field)) <==>
              e in errors && !(e.index == index && e.field == field)
    ensures Seqs.IsSubsequence(Seqs.Filter(errors, NotFor(index, field)), errors)
  {
  }
}
