/** frontend/src/pages/AddProductPage.jsx: the add-product form's state
    (its text fields and its error messages), the price filter applied on
    every keystroke, the validation run before submitting, and the payload
    sent. Rendering, the loading flag and navigation are not modelled. */
module AddProductPage {
  import opened Text
  import opened Js

  /** The fields the form starts with. */
  const FORM_FIELDS: set<string> := {"name", "description", "price", "image"}

  /** A character the price field keeps: `[0-9.]`. */
  predicate IsPriceChar(c: char) {
    IsDigit(c) || c == '.'
  }

  predicate IsPriceText(s: string) {
    forall i :: 0 <= i < |s| ==> IsPriceChar(s[i])
  }

  /** `value.replace(/[^0-9.]/g, '')`: the digits and dots of `value`, in
      their order; every one of them is kept. */
  function FilterPrice(value: string): (r: string)
    ensures IsPriceText(r)
    ensures Subsequence(r, value)
    ensures forall c :: c in value && IsPriceChar(c) ==> c in r
    ensures forall c :: c in r ==> c in value
  {
    FilterIsSubsequence(value, IsPriceChar);
    Filter(value, IsPriceChar)
  }

  /** Text that is already a price passes the filter unchanged, so the
      filter applied twice is the filter applied once. */
  lemma FilterPriceKeepsPrices(value: string)
    ensures IsPriceText(value) ==> FilterPrice(value) == value
    ensures FilterPrice(FilterPrice(value)) == FilterPrice(value)
  {
    if IsPriceText(value) {
      FilterKeepsAll(value, IsPriceChar);
    }
    FilterIdempotent(value, IsPriceChar);
  }

  // ---------------------------------------------------------------------
  // parseFloat on price text
  // ---------------------------------------------------------------------

  /** A JavaScript number as parseFloat yields it from digits and dots:
      NaN, or mantissa / 10^scale. */
  datatype Number = NaN | Finite(mantissa: nat, scale: nat)

  /** The longest run of digits at the start of s. */
  function DigitRun(s: string): (r: string)
    ensures |r| <= |s| && r == s[..|r|]
    ensures forall i :: 0 <= i < |r| ==> IsDigit(r[i])
    ensures |r| < |s| ==> !IsDigit(s[|r|])
  {
    if s == [] || !IsDigit(s[0]) then [] else [s[0]] + DigitRun(s[1..])
  }

  /** `parseFloat(s)` for text of digits and dots: the digits before the
      first dot and those right after it; NaN when there are none. */
  function ParseFloat(s: string): (n: Number)
    requires IsPriceText(s)
    ensures n.NaN? <==> DigitRun(s) == [] && (s == [] || s[0] != '.' || DigitRun(s[1..]) == [])
  {
    var whole := DigitRun(s);
    var rest := s[|whole|..];
    var fraction := if rest != [] && rest[0] == '.' then DigitRun(rest[1..]) else [];
    if whole == [] && fraction == [] then Number.NaN
    else Finite(ParseDigits(whole + fraction), |fraction|)
  }

  /** Decimal text of a whole number parses back to that number. */
  lemma ParseFloatOfDigits(n: nat)
    ensures IsPriceText(Digits(n)) && ParseFloat(Digits(n)) == Finite(n, 0)
  {
    var s := Digits(n);
    DigitRunOfDigits(s);
    assert s + [] == s;
    ParseDigitsOfDigits(n);
  }

  lemma {:induction false} DigitRunOfDigits(s: string)
    requires forall i :: 0 <= i < |s| ==> IsDigit(s[i])
    ensures DigitRun(s) == s
  {
    if s != [] {
      DigitRunOfDigits(s[1..]);
    }
  }

  /** `!price || parseFloat(price) <= 0`. NaN compares false, so a price
      with no digit next to its first dot (".", "..") is not refused. */
  predicate PriceProblem(price: string)
    requires IsPriceText(price)
  {
    price == "" || (ParseFloat(price).Finite? && ParseFloat(price).mantissa == 0)
  }

  /** "." passes the price check and parses to NaN. */
  lemma DotPassesPriceCheck()
    ensures IsPriceText(".") && !PriceProblem(".") && ParseFloat(".") == Number.NaN
  {
    assert DigitRun(".") == [];
    assert ".."[1..] == ".";
    assert DigitRun("."[1..]) == [];
  }

  /** A positive whole price is accepted, and zero is refused. */
  lemma WholePriceCheck(n: nat)
    ensures IsPriceText(Digits(n)) && (PriceProblem(Digits(n)) <==> n == 0)
  {
    ParseFloatOfDigits(n);
  }

  // ---------------------------------------------------------------------
  // Validation
  // ---------------------------------------------------------------------

  /** The form's text holds every field and its price is price text. */
  ghost predicate WellFormed(form: map<string, string>) {
    FORM_FIELDS <= form.Keys && IsPriceText(form["price"])
  }

  /** The errors validateForm records for a form: one per field that is
      blank after trimming (price: empty or not positive), nothing else. */
  function Problems(form: map<string, string>): (errors: map<string, string>)
    requires FORM_FIELDS <= form.Keys && IsPriceText(form["price"])
    ensures errors.Keys <= FORM_FIELDS
    ensures "name" in errors <==> IsBlank(form["name"])
    ensures "price" in errors <==> PriceProblem(form["price"])
    ensures "description" in errors <==> IsBlank(form["description"])
    ensures "image" in errors <==> IsBlank(form["image"])
    ensures "name" in errors ==> errors["name"] == "Product name is required"
    ensures "price" in errors ==> errors["price"] == "Please enter a valid price"
    ensures "description" in errors ==> errors["description"] == "Description is required"
    ensures "image" in errors ==> errors["image"] == "Image URL is required"
  {
    var e0: map<string, string> := map[];
    var e1 := if IsBlank(form["name"]) then e0["name" := "Product name is required"] else e0;
    var e2 := if PriceProblem(form["price"]) then e1["price" := "Please enter a valid price"] else e1;
    var e3 := if IsBlank(form["description"]) then e2["description" := "Description is required"] else e2;
    if IsBlank(form["image"]) then e3["image" := "Image URL is required"] else e3
  }

  /** What handleSubmit sends: the form's text with the price replaced by
      its parsed number. */
  datatype Payload = Payload(text: map<string, string>, price: Number)

  function PayloadOf(form: map<string, string>): (p: Payload)
    requires FORM_FIELDS <= form.Keys && IsPriceText(form["price"])
    ensures p.text.Keys == form.Keys - {"price"}
    ensures forall k :: k in p.text ==> p.text[k] == form[k]
    ensures p.price == ParseFloat(form["price"])
  {
    Payload(form - {"price"}, ParseFloat(form["price"]))
  }

  /** A form whose price is "." is submitted, with a NaN price. */
  lemma DotPriceIsSubmitted(form: map<string, string>)
    requires FORM_FIELDS <= form.Keys && form["price"] == "."
    requires !IsBlank(form["name"]) && !IsBlank(form["description"]) && !IsBlank(form["image"])
    ensures IsPriceText(form["price"]) && Problems(form) == map[] && PayloadOf(form).price == Number.NaN
  {
    DotPassesPriceCheck();
    var errors := Problems(form);
    assert errors.Keys == {};
  }

  class AddProductForm {
    /** `formData`: the text of each field. */
    var formData: map<string, string>
    /** `errors`: a message per field, "" once cleared. */
    var errors: map<string, string>

    ghost predicate Valid()
      reads this
    {
      WellFormed(formData)
    }

    constructor ()
      ensures Valid()
      ensures formData == map["name" := "", "description" := "", "price" := "", "image" := ""]
      ensures errors == map[]
    {
      formData := map["name" := "", "description" := "", "price" := "", "image" := ""];
      errors := map[];
    }

    /** `handleChange`: the edited field takes the new text (the price only
        its digits and dots), and that field's error alone is cleared. */
    method HandleChange(name: string, value: string)
      requires Valid()
      modifies this
      ensures Valid()
      ensures formData == old(formData)[name := if name == "price" then FilterPrice(value) else value]
      ensures name in old(errors) && old(errors)[name] != "" ==> errors == old(errors)[name := ""]
      ensures !(name in old(errors) && old(errors)[name] != "") ==> errors == old(errors)
    {
      formData := formData[name := if name == "price" then FilterPrice(value) else value];
      if name in errors && errors[name] != "" {
        errors := errors[name := ""];
      }
    }

    /** `validateForm`: records the problems field by field and answers
        whether there were none. */
    method ValidateForm() returns (ok: bool)
      requires Valid()
      modifies this
      ensures Valid() && formData == old(formData)
      ensures errors == Problems(formData)
      ensures ok <==> errors == map[]
    {
      var newErrors: map<string, string> := map[];
      if IsBlank(formData["name"]) {
        newErrors := newErrors["name" := "Product name is required"];
      }
      if PriceProblem(formData["price"]) {
        newErrors := newErrors["price" := "Please enter a valid price"];
      }
      if IsBlank(formData["description"]) {
        newErrors := newErrors["description" := "Description is required"];
      }
      if IsBlank(formData["image"]) {
        newErrors := newErrors["image" := "Image URL is required"];
      }
      errors := newErrors;
      ok := |newErrors| == 0;
    }

    /** `handleSubmit`: validates, then sends the payload; `failure` is the
        message of the create request's error, if it fails. */
    method Submit(failure: Option<string>) returns (sent: Option<Payload>)
      requires Valid()
      modifies this
      ensures Valid() && formData == old(formData)
      ensures sent.Some? <==> Problems(formData) == map[]
      ensures sent.Some? ==> sent.value == PayloadOf(formData)
      ensures sent.None? ==> errors == Problems(formData)
      ensures sent.Some? && failure.Some? ==> errors == map["submit" := failure.value]
      ensures sent.Some? && failure.None? ==> errors == map[]
    {
      var ok := ValidateForm();
      if !ok {
        return None;
      }
      sent := Some(PayloadOf(formData));
      if failure.Some? {
        errors := map["submit" := failure.value];
      }
    }
  }
}
