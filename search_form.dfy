/**
 * The search form of src/pages/index.tsx: field validation (`validateForm`),
 * the Search button's enable rule, the guard of the search handler, and the
 * "Good Price" badge shown on a result card.
 */
module SearchForm {
  import opened Wrappers
  import opened Strings
  import Carfax

  /** The per-field error messages; the empty string means no error. */
  datatype FormErrors = FormErrors(make: string, model: string, zipCode: string)

  const NoErrors: FormErrors := FormErrors("", "", "")

  const SelectMake: string := "Please select a make"
  const SelectModel: string := "Please select a model"
  const EnterZip: string := "Please enter a zip code"
  const InvalidZip: string := "Please enter a valid 5-digit zip code"

  /** The pattern `^\d{5}$`: exactly five characters, each an ASCII digit. */
  predicate IsZipCode(s: string)
  {
    |s| == 5 && AllDigits(s)
  }

  predicate NoneSet(e: FormErrors)
  {
    e.make == "" && e.model == "" && e.zipCode == ""
  }

  /**
   * The errors `validateForm` computes. Each field's message depends on that
   * field alone; an empty zip code and a malformed one get different messages;
   * and no message is set exactly when make and model are non-empty and the
   * zip code is five digits.
   */
  function ErrorsFor(make: string, model: string, zipCode: string): (e: FormErrors)
    ensures e.make == "" <==> make != ""
    ensures e.make != "" ==> e.make == SelectMake
    ensures e.model == "" <==> model != ""
    ensures e.model != "" ==> e.model == SelectModel
    ensures zipCode == "" ==> e.zipCode == EnterZip
    ensures zipCode != "" && !IsZipCode(zipCode) ==> e.zipCode == InvalidZip
    ensures e.zipCode == "" <==> IsZipCode(zipCode)
    ensures NoneSet(e) <==> make != "" && model != "" && IsZipCode(zipCode)
  {
    FormErrors(
      if make == "" then SelectMake else "",
      if model == "" then SelectModel else "",
      if zipCode == "" then EnterZip else if !IsZipCode(zipCode) then InvalidZip else "")
  }

  /** The Search button is enabled when nothing is loading and make, model and zip code are all filled in. */
  predicate SearchEnabled(isLoading: bool, make: string, model: string, zipCode: string)
  {
    !(isLoading || make == "" || model == "" || zipCode == "")
  }

  /**
   * A click on the enabled button can fail validation only on the zip code's
   * format, and then that is the one message shown.
   */
  lemma EnabledSearchFailsOnlyOnZip(isLoading: bool, make: string, model: string, zipCode: string)
    requires SearchEnabled(isLoading, make, model, zipCode)
    ensures NoneSet(ErrorsFor(make, model, zipCode)) <==> IsZipCode(zipCode)
    ensures !IsZipCode(zipCode) ==> ErrorsFor(make, model, zipCode) == FormErrors("", "", InvalidZip)
  {
  }

  /** The "Good Price" badge: a positive MSRP and a price below it. */
  predicate GoodPrice(msrp: int, price: int)
  {
    msrp > 0 && price < msrp
  }

  /** On a reshaped listing the badge compares the raw listing's current price with its MSRP. */
  lemma GoodPriceOfListing(l: Carfax.Listing)
    ensures GoodPrice(Carfax.Reshape(l).msrp, Carfax.Reshape(l).price) <==> l.msrp > 0 && l.currentPrice < l.msrp
  {
  }

  /** The listing search the handler starts: `getCarfax` with the form's values and the first radius value. */
  datatype SearchRequest = SearchRequest(zipCode: string, make: string, model: string, radius: int)

  /** The page's form state. */
  class SearchPage {
    var make: string
    var model: string
    var zipCode: string
    var radius: int
    var isLoading: bool
    var errors: FormErrors

    constructor ()
      ensures make == "" && model == "" && zipCode == "" && radius == 50
      ensures !isLoading && errors == NoErrors
    {
      make, model, zipCode := "", "", "";
      radius := 50;
      isLoading := false;
      errors := NoErrors;
    }

    /**
     * `validateForm`: fills in a fresh error record field by field, stores it,
     * and reports whether no message was set. The form's values are unchanged.
     */
    method ValidateForm() returns (ok: bool)
      modifies this
      ensures errors == ErrorsFor(make, model, zipCode)
      ensures ok <==> make != "" && model != "" && IsZipCode(zipCode)
      ensures make == old(make) && model == old(model) && zipCode == old(zipCode)
      ensures radius == old(radius) && isLoading == old(isLoading)
    {
      var newErrors := NoErrors;
      if make == "" {
        newErrors := newErrors.(make := SelectMake);
      }
      if model == "" {
        newErrors := newErrors.(model := SelectModel);
      }
      if zipCode == "" {
        newErrors := newErrors.(zipCode := EnterZip);
      } else if !IsZipCode(zipCode) {
        newErrors := newErrors.(zipCode := InvalidZip);
      }
      errors := newErrors;
      ok := newErrors.make == "" && newErrors.model == "" && newErrors.zipCode == "";
    }

    /**
     * `handleSearch` up to the listing request: nothing is requested when
     * validation fails (and the loading flag is left alone); otherwise the
     * request carries the form's values, and the loading flag is cleared once
     * the request has settled, whether it succeeded or threw.
     */
    method HandleSearch() returns (request: Option<SearchRequest>)
      modifies this
      ensures errors == ErrorsFor(make, model, zipCode)
      ensures make == old(make) && model == old(model) && zipCode == old(zipCode) && radius == old(radius)
      ensures request.Some? <==> make != "" && model != "" && IsZipCode(zipCode)
      ensures request.Some? ==> request.value == SearchRequest(zipCode, make, model, radius) && !isLoading
      ensures request.None? ==> isLoading == old(isLoading)
    {
      var ok := ValidateForm();
      if !ok {
        return None;
      }
      isLoading := true;
      request := Some(SearchRequest(zipCode, make, model, radius));
      isLoading := false;
    }
  }
}
