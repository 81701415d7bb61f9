/**
 * The create-product form (src/app/dashboard/inventory/components/ProductForm.tsx):
 * field edits, the hand-written validation and the submission. Amounts are
 * integers in cents; a number input enters as the result of `parseFloat`
 * on its text (None when it is not a number).
 */
module ProductForm {
  import opened Wrappers
  import opened Types
  import Text

  datatype FormData = FormData(
    name: string,
    sku: string,
    category: string,
    stockQuantity: int,
    sellingPrice: int,
    costPrice: int,
    supplierId: string)

  const InitialForm: FormData := FormData("", "", "", 0, 0, 0, "")

  datatype Field = Name | Sku | Category | StockQuantity | SellingPrice | CostPrice | SupplierId

  /** The inputs rendered with `type="number"`. */
  predicate IsNumberField(f: Field) {
    f == StockQuantity || f == SellingPrice || f == CostPrice
  }

  /** A field's current value: text fields hold strings, number fields numbers. */
  datatype FieldValue = Str(s: string) | Num(n: int)

  function Get(d: FormData, f: Field): FieldValue {
    match f
    case Name => Str(d.name)
    case Sku => Str(d.sku)
    case Category => Str(d.category)
    case StockQuantity => Num(d.stockQuantity)
    case SellingPrice => Num(d.sellingPrice)
    case CostPrice => Num(d.costPrice)
    case SupplierId => Str(d.supplierId)
  }

  /**
   * `handleChange`: the named field gets `parseFloat(value) || 0` for a
   * number input and the raw text otherwise; nothing else changes.
   */
  function WithChange(d: FormData, f: Field, value: string, parsed: Option<int>): (r: FormData)
    ensures Get(r, f) == if IsNumberField(f) then Num(parsed.GetOr(0)) else Str(value)
    ensures forall g :: g != f ==> Get(r, g) == Get(d, g)
  {
    var n := parsed.GetOr(0);
    match f
    case Name => d.(name := value)
    case Sku => d.(sku := value)
    case Category => d.(category := value)
    case StockQuantity => d.(stockQuantity := n)
    case SellingPrice => d.(sellingPrice := n)
    case CostPrice => d.(costPrice := n)
    case SupplierId => d.(supplierId := value)
  }

  /** Whether a field fails its rule: required texts must be non-empty, amounts must not be negative. */
  predicate HasProblem(d: FormData, f: Field) {
    match Get(d, f)
    case Str(s) => s == ""
    case Num(n) => n < 0
  }

  function ErrorMessage(f: Field): string {
    match f
    case Name => "Name is required"
    case Sku => "SKU is required"
    case Category => "Category is required"
    case StockQuantity => "Stock cannot be negative"
    case SellingPrice => "Price cannot be negative"
    case CostPrice => "Cost cannot be negative"
    case SupplierId => "Please select a vendor"
  }

  /** The `errors` object: at most one message per field. */
  datatype FormErrors = FormErrors(
    name: Option<string>,
    sku: Option<string>,
    category: Option<string>,
    stockQuantity: Option<string>,
    sellingPrice: Option<string>,
    costPrice: Option<string>,
    supplierId: Option<string>)

  const NoErrors: FormErrors := FormErrors(None, None, None, None, None, None, None)

  function ErrorAt(e: FormErrors, f: Field): Option<string> {
    match f
    case Name => e.name
    case Sku => e.sku
    case Category => e.category
    case StockQuantity => e.stockQuantity
    case SellingPrice => e.sellingPrice
    case CostPrice => e.costPrice
    case SupplierId => e.supplierId
  }

  /** `Object.keys(errors).length`: the number of fields with a message. */
  function KeyCount(e: FormErrors): (n: nat)
    ensures n <= 7
    ensures n == 0 <==> e == NoErrors
  {
    (if e.name.Some? then 1 else 0) + (if e.sku.Some? then 1 else 0) + (if e.category.Some? then 1 else 0)
    + (if e.stockQuantity.Some? then 1 else 0) + (if e.sellingPrice.Some? then 1 else 0)
    + (if e.costPrice.Some? then 1 else 0) + (if e.supplierId.Some? then 1 else 0)
  }

  /** No key at all means no field has a message. */
  lemma NoErrorsIff(e: FormErrors)
    ensures e == NoErrors <==> forall f :: ErrorAt(e, f) == None
  {
    if forall f :: ErrorAt(e, f) == None {
      assert ErrorAt(e, Name) == None && ErrorAt(e, Sku) == None && ErrorAt(e, Category) == None;
      assert ErrorAt(e, StockQuantity) == None && ErrorAt(e, SellingPrice) == None;
      assert ErrorAt(e, CostPrice) == None && ErrorAt(e, SupplierId) == None;
    }
  }

  function MessageIf(problem: bool, f: Field): Option<string> {
    if problem then Some(ErrorMessage(f)) else None
  }

  /** The errors `validateForm` records: exactly the failing fields, each with its message. */
  function ErrorsOf(d: FormData): (e: FormErrors)
    ensures forall f :: ErrorAt(e, f) == if HasProblem(d, f) then Some(ErrorMessage(f)) else None
  {
    FormErrors(MessageIf(d.name == "", Name), MessageIf(d.sku == "", Sku), MessageIf(d.category == "", Category),
               MessageIf(d.stockQuantity < 0, StockQuantity), MessageIf(d.sellingPrice < 0, SellingPrice),
               MessageIf(d.costPrice < 0, CostPrice), MessageIf(d.supplierId == "", SupplierId))
  }

  /** The form is accepted iff every required text is filled and no amount is negative (zero is fine). */
  lemma AcceptedIff(d: FormData)
    ensures KeyCount(ErrorsOf(d)) == 0 <==>
      d.name != "" && d.sku != "" && d.category != "" && d.supplierId != ""
      && d.stockQuantity >= 0 && d.sellingPrice >= 0 && d.costPrice >= 0
  {
  }

  /** The initial, untouched form fails exactly on the four required texts. */
  lemma InitialFormErrors()
    ensures forall f :: ErrorAt(ErrorsOf(InitialForm), f).Some? <==> f in {Name, Sku, Category, SupplierId}
    ensures KeyCount(ErrorsOf(InitialForm)) == 4
  {
  }

  /** The body posted to /products: the form's fields with `supplierId` put through `parseInt(…, 10)`. */
  datatype ProductSubmission = ProductSubmission(
    name: string,
    sku: string,
    category: string,
    stockQuantity: int,
    sellingPrice: int,
    costPrice: int,
    supplierId: Option<int>)

  function SubmissionOf(d: FormData): (s: ProductSubmission)
    ensures s.name == d.name && s.sku == d.sku && s.category == d.category
    ensures s.stockQuantity == d.stockQuantity && s.sellingPrice == d.sellingPrice && s.costPrice == d.costPrice
    ensures s.supplierId == Text.ParseInt(d.supplierId)
  {
    ProductSubmission(d.name, d.sku, d.category, d.stockQuantity, d.sellingPrice, d.costPrice,
                      Text.ParseInt(d.supplierId))
  }

  /** The vendor select holds `String(vendor.id)`, so choosing a vendor submits that vendor's id. */
  lemma SelectedVendorSubmitted(d: FormData, vendorId: int)
    ensures SubmissionOf(d.(supplierId := Text.IntToString(vendorId))).supplierId == Some(vendorId)
  {
    Text.ParseIntToString(vendorId);
  }

  const SuccessAlert: string := "Product created successfully!"
  const ErrorPrefix: string := "Error: "
  const DefaultError: string := "Failed to create product."

  class ProductFormState {
    var formData: FormData
    var errors: FormErrors
    var loading: bool

    constructor ()
      ensures formData == InitialForm && errors == NoErrors && !loading
    {
      formData := InitialForm;
      errors := NoErrors;
      loading := false;
    }

    method HandleChange(f: Field, value: string, parsed: Option<int>)
      modifies this
      ensures formData == WithChange(old(formData), f, value, parsed)
      ensures errors == old(errors) && loading == old(loading)
    {
      formData := WithChange(formData, f, value, parsed);
    }

    /** `handleSelectChange`: the vendor select sets `supplierId` only. */
    method HandleSelectChange(value: string)
      modifies this
      ensures formData == old(formData).(supplierId := value)
      ensures errors == old(errors) && loading == old(loading)
    {
      formData := formData.(supplierId := value);
    }

    /** `validateForm`: checks the fields one after another, stores the errors, and reports whether there were none. */
    method ValidateForm() returns (valid: bool)
      modifies this
      ensures errors == ErrorsOf(formData) && formData == old(formData) && loading == old(loading)
      ensures valid <==> KeyCount(errors) == 0
    {
      var d := formData;
      var newErrors := NoErrors;
      if d.name == "" { newErrors := newErrors.(name := Some(ErrorMessage(Name))); }
      if d.sku == "" { newErrors := newErrors.(sku := Some(ErrorMessage(Sku))); }
      if d.category == "" { newErrors := newErrors.(category := Some(ErrorMessage(Category))); }
      if d.stockQuantity < 0 { newErrors := newErrors.(stockQuantity := Some(ErrorMessage(StockQuantity))); }
      if d.sellingPrice < 0 { newErrors := newErrors.(sellingPrice := Some(ErrorMessage(SellingPrice))); }
      if d.costPrice < 0 { newErrors := newErrors.(costPrice := Some(ErrorMessage(CostPrice))); }
      if d.supplierId == "" { newErrors := newErrors.(supplierId := Some(ErrorMessage(SupplierId))); }
      assert newErrors == ErrorsOf(d);
      errors := newErrors;
      valid := KeyCount(errors) == 0;
    }

    /**
     * `handleSubmit`: an invalid form posts nothing; a valid one posts its
     * submission, and `onSuccess` runs only when the post succeeds.
     */
    method HandleSubmit(postOk: bool, message: ServerMessage)
      returns (posted: Option<ProductSubmission>, alertText: Option<string>, successCalled: bool)
      modifies this
      ensures formData == old(formData) && errors == ErrorsOf(formData)
      ensures KeyCount(ErrorsOf(formData)) != 0 ==>
        posted == None && alertText == None && !successCalled && loading == old(loading)
      ensures KeyCount(ErrorsOf(formData)) == 0 ==> posted == Some(SubmissionOf(formData)) && !loading
      ensures KeyCount(ErrorsOf(formData)) == 0 && postOk ==> alertText == Some(SuccessAlert) && successCalled
      ensures KeyCount(ErrorsOf(formData)) == 0 && !postOk ==>
        alertText == Some(ErrorPrefix + MessageText(message, DefaultError, TemplateSeparator)) && !successCalled
    {
      var valid := ValidateForm();
      if !valid {
        return None, None, false;
      }
      loading := true;
      var submissionData := SubmissionOf(formData);
      posted := Some(submissionData);
      if postOk {
        alertText := Some(SuccessAlert);
        successCalled := true;
      } else {
        alertText := Some(ErrorPrefix + MessageText(message, DefaultError, TemplateSeparator));
        successCalled := false;
      }
      loading := false;
    }
  }
}
