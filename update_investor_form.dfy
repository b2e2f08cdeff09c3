/**
 * The edit-investor page (`EditInvestorPage` component): loading the stored
 * record into the form, the edit handlers, the update request and logo
 * uploads.
 */
module UpdateInvestor {
  import opened Wrappers
  import opened Seqs
  import opened InvestorForm

  /** The investor record as the server returns it; `None` is a missing (or null) field. */
  datatype RawInvestor = RawInvestor(
    name: Option<string>,
    website: Option<string>,
    image: Option<string>,
    description: Option<string>,
    geography: Option<string>,
    investmentStages: Option<string>,
    businessModel: Option<seq<string>>,
    investorType: Option<string>,
    sectorInterested: Option<seq<string>>,
    checkSize: Option<string>,
    headquarter: Option<string>,
    contactLink: Option<string>,
    portfolioCompanies: Option<seq<CompanyValue>>)

  /** How the record fetch settled: the body's `investor` field (absent or present), or a failed request. */
  datatype FetchOutcome = Fetched(investor: Option<RawInvestor>) | FetchFailed

  const FetchFailedMessage: string := "Failed to fetch investor data."
  const UpdatedMessage: string := "Investor updated successfully!"
  const UpdateFallbackMessage: string := "An error occurred while updating the investor."
  const InvestorsPath: string := "/investors"

  /** `{ ...company, logoType: company.logo ? "url" : "upload" }`. */
  function WithLogoType(c: CompanyValue): CompanyValue {
    c.(logoType := Some(if c.logo != "" then "url" else "upload"))
  }

  /** The fetched entries, each given a logo type: "url" exactly when it has a logo. */
  function NormalizeCompanies(cs: seq<CompanyValue>): (r: seq<CompanyValue>)
    ensures |r| == |cs|
    ensures forall i :: 0 <= i < |cs| ==> r[i].logoType.Some?
    ensures forall i :: 0 <= i < |cs| ==> (r[i].logoType == Some("url") <==> cs[i].logo != "")
    ensures forall i :: 0 <= i < |cs| ==> (r[i].logoType == Some("upload") <==> cs[i].logo == "")
    ensures forall i :: 0 <= i < |cs| ==> r[i].(logoType := cs[i].logoType) == cs[i]
  {
    if cs == [] then [] else [WithLogoType(cs[0])] + NormalizeCompanies(cs[1..])
  }

  /**
   * The form state built from a fetched record: missing text fields become
   * "", missing lists become [], the image source is "url" when there is an
   * image and "upload" otherwise, and every entry gets a logo type. A record
   * without a portfolio list makes `.map` throw: there is no form (`None`).
   */
  function NormalizeInvestor(raw: RawInvestor): Option<FormData<CompanyValue>> {
    match raw.portfolioCompanies
    case None => None
    case Some(cs) =>
      Some(FormData(
        OrElse(raw.name, ""), OrElse(raw.website, ""), OrElse(raw.image, ""),
        if Truthy(raw.image) then "url" else "upload",
        OrElse(raw.description, ""), OrElse(raw.geography, ""), OrElse(raw.investmentStages, ""),
        raw.businessModel.GetOr([]), OrElse(raw.investorType, ""), raw.sectorInterested.GetOr([]),
        OrElse(raw.checkSize, ""), OrElse(raw.headquarter, ""), OrElse(raw.contactLink, ""),
        NormalizeCompanies(cs)))
  }

  /** A text field of the built form against the record's field: its value when present, "" when missing. */
  predicate TextFrom(field: Option<string>, v: string) {
    (field.None? ==> v == "") && (field.Some? ==> v == field.value)
  }

  lemma NormalizeInvestorSpec(raw: RawInvestor)
    ensures NormalizeInvestor(raw).Some? <==> raw.portfolioCompanies.Some?
    ensures NormalizeInvestor(raw).Some? ==>
      var f := NormalizeInvestor(raw).value;
      && TextFrom(raw.name, f.name) && TextFrom(raw.website, f.website) && TextFrom(raw.image, f.image)
      && TextFrom(raw.description, f.description) && TextFrom(raw.geography, f.geography)
      && TextFrom(raw.investmentStages, f.investmentStages) && TextFrom(raw.investorType, f.investorType)
      && TextFrom(raw.checkSize, f.checkSize) && TextFrom(raw.headquarter, f.headquarter)
      && TextFrom(raw.contactLink, f.contactLink)
      && (f.imageSource == "url" <==> f.image != "")
      && (f.imageSource == "upload" <==> f.image == "")
      && (raw.businessModel.None? ==> f.businessModel == [])
      && (raw.businessModel.Some? ==> f.businessModel == raw.businessModel.value)
      && (raw.sectorInterested.None? ==> f.sectorInterested == [])
      && (raw.sectorInterested.Some? ==> f.sectorInterested == raw.sectorInterested.value)
      && |f.portfolioCompanies| == |raw.portfolioCompanies.value|
      && (forall i :: 0 <= i < |f.portfolioCompanies| ==>
            (f.portfolioCompanies[i].logoType == Some("url") <==> raw.portfolioCompanies.value[i].logo != "") &&
            f.portfolioCompanies[i].(logoType := raw.portfolioCompanies.value[i].logoType) == raw.portfolioCompanies.value[i])
  {
  }

  /**
   * `error.response?.data?.message || fallback`: the server's message when
   * there is a non-empty one, else the fixed fallback; never empty.
   */
  function UpdateErrorMessage(o: RequestOutcome): (r: string)
    ensures r != ""
    ensures o.ResponseError? && o.message.Some? && o.message.value != "" ==> r == o.message.value
    ensures !(o.ResponseError? && o.message.Some? && o.message.value != "") ==> r == UpdateFallbackMessage
  {
    if o.ResponseError? then OrElse(o.message, UpdateFallbackMessage) else UpdateFallbackMessage
  }

  class UpdateInvestorForm {
    const id: string
    var formData: FormData<Company>
    var loading: bool
    var imageLoading: bool
    var error: string
    var success: string
    var navigatedTo: Option<string>

    ghost predicate Valid()
      reads this
    {
      NoDuplicates(formData.portfolioCompanies)
    }

    function Companies(): seq<CompanyValue>
      reads this, formData.portfolioCompanies
    {
      Values(formData.portfolioCompanies)
    }

    /** The form as plain values. */
    function FormValue(): FormData<CompanyValue>
      reads this, formData.portfolioCompanies
    {
      WithEntries(formData, Companies())
    }

    twostate predicate SlotsUnchanged()
      reads this
    {
      loading == old(loading) && imageLoading == old(imageLoading) &&
      error == old(error) && success == old(success) && navigatedTo == old(navigatedTo)
    }

    constructor (id: string)
      ensures Valid() && this.id == id && formData == Blank()
      ensures !loading && !imageLoading && error == "" && success == "" && navigatedTo == None
    {
      this.id := id;
      formData := Blank();
      loading, imageLoading := false, false;
      error, success := "", "";
      navigatedTo := None;
    }

    /**
     * The record fetch of the page's effect: a record with a portfolio list
     * replaces the form by its normalisation (with new entry objects); a
     * failed request, a body without `investor` or a record without a
     * portfolio list sets the fetch error instead.
     */
    method FinishFetch(outcome: FetchOutcome)
      requires Valid()
      modifies this
      ensures Valid()
      ensures loading == old(loading) && imageLoading == old(imageLoading)
      ensures success == old(success) && navigatedTo == old(navigatedTo)
      ensures outcome.Fetched? && outcome.investor.Some? && NormalizeInvestor(outcome.investor.value).Some? ==>
        FormValue() == NormalizeInvestor(outcome.investor.value).value &&
        error == old(error) &&
        forall c :: c in formData.portfolioCompanies ==> fresh(c)
      ensures !(outcome.Fetched? && outcome.investor.Some? && NormalizeInvestor(outcome.investor.value).Some?) ==>
        formData == old(formData) && error == FetchFailedMessage
    {
      if outcome.FetchFailed? || outcome.investor.None? || NormalizeInvestor(outcome.investor.value).None? {
        error := FetchFailedMessage;
        return;
      }
      var f := NormalizeInvestor(outcome.investor.value).value;
      var cs := NewCompanies(f.portfolioCompanies);
      formData := WithEntries(f, cs);
    }

    /**
     * The first half of `handleSubmit`: with a required field empty, sets the
     * validation error, sends nothing and leaves `loading` alone; otherwise
     * sets `loading` and sends the form (`requested`).
     */
    method StartSubmit() returns (requested: bool)
      requires Valid()
      modifies this
      ensures Valid() && formData == old(formData)
      ensures requested <==> HasRequiredFields(formData)
      ensures !requested ==> error == RequiredFieldsMessage && loading == old(loading)
      ensures requested ==> loading && error == old(error)
      ensures imageLoading == old(imageLoading) && success == old(success) && navigatedTo == old(navigatedTo)
    {
      if !HasRequiredFields(formData) {
        error := RequiredFieldsMessage;
        return false;
      }
      loading := true;
      requested := true;
    }

    /**
     * The second half of `handleSubmit`: a 200 reports success and navigates
     * to the investor list; another resolved status changes nothing; a
     * failure sets the server's message or the fallback. `loading` ends false.
     */
    method FinishSubmit(outcome: RequestOutcome)
      requires Valid()
      modifies this
      ensures Valid() && formData == old(formData) && !loading && imageLoading == old(imageLoading)
      ensures outcome == Responded(200) ==>
        success == UpdatedMessage && navigatedTo == Some(InvestorsPath) && error == old(error)
      ensures outcome.Responded? && outcome.status != 200 ==>
        success == old(success) && navigatedTo == old(navigatedTo) && error == old(error)
      ensures !outcome.Responded? ==>
        error == UpdateErrorMessage(outcome) && success == old(success) && navigatedTo == old(navigatedTo)
    {
      if outcome.Responded? {
        if outcome.status == 200 {
          success := UpdatedMessage;
          navigatedTo := Some(InvestorsPath);
        }
      } else {
        error := UpdateErrorMessage(outcome);
      }
      loading := false;
    }

    /** `handleInputChange`: writes one text field. */
    method HandleInputChange(field: ScalarField, value: string)
      requires Valid()
      modifies this
      ensures Valid() && formData == SetScalar(old(formData), field, value) && SlotsUnchanged()
    {
      formData := SetScalar(formData, field, value);
    }

    /** `handleCheckboxChange`: toggles `value` in the named list. */
    method HandleCheckboxChange(field: ListField, value: string)
      requires Valid()
      modifies this
      ensures Valid() && formData == ToggleSelection(old(formData), field, value) && SlotsUnchanged()
    {
      formData := ToggleSelection(formData, field, value);
    }

    /** `handleRemoveSelection`: drops every occurrence of `value` from the list named by `typ`. */
    method HandleRemoveSelection(typ: string, value: string)
      requires Valid()
      modifies this
      ensures Valid() && formData == RemoveSelection(old(formData), typ, value) && SlotsUnchanged()
    {
      formData := RemoveSelection(formData, typ, value);
    }

    /**
     * `toggleLogoType`: sets the logo type of entry `index` in place and
     * clears its logo; no other entry changes. An index without an entry
     * throws before any update.
     */
    method ToggleLogoType(index: int, logoType: string)
      requires Valid()
      modifies this, Slot(formData.portfolioCompanies, index)
      ensures Valid() && formData == old(formData) && SlotsUnchanged()
      ensures 0 <= index < |Companies()| ==>
        Companies() == old(Companies())[index := old(Companies())[index].(logoType := Some(logoType), logo := "")]
      ensures !(0 <= index < |Companies()|) ==> Companies() == old(Companies())
    {
      var cs := formData.portfolioCompanies;
      if !(0 <= index < |cs|) {
        return;
      }
      cs[index].logoType := Some(logoType);
      cs[index].logo := "";
      formData := formData.(portfolioCompanies := cs);
    }

    /** `removeCompany`: drops entry `index`, keeping the others in order; an out-of-range index changes nothing. */
    method RemoveCompany(index: int)
      requires Valid()
      modifies this
      ensures Valid() && SlotsUnchanged()
      ensures formData == old(formData).(portfolioCompanies := RemoveAt(old(formData.portfolioCompanies), index))
      ensures 0 <= index < |old(Companies())| ==> Companies() == old(Companies())[..index] + old(Companies())[index + 1..]
      ensures !(0 <= index < |old(Companies())|) ==> Companies() == old(Companies())
    {
      var cs := formData.portfolioCompanies;
      RemoveAtNoDuplicates(cs, index);
      ValuesRemoveAt(cs, index);
      RemoveAtSpec(Values(cs), index);
      formData := formData.(portfolioCompanies := RemoveAt(cs, index));
    }

    /** `handlePortfolioChange`: writes one field of entry `index` in place; nothing else changes. */
    method HandlePortfolioChange(index: int, field: CompanyField, value: string)
      requires Valid()
      modifies this, Slot(formData.portfolioCompanies, index)
      ensures Valid() && formData == old(formData) && SlotsUnchanged()
      ensures 0 <= index < |Companies()| ==>
        Companies() == old(Companies())[index := WithField(old(Companies())[index], field, value)]
      ensures !(0 <= index < |Companies()|) ==> Companies() == old(Companies())
    {
      var cs := formData.portfolioCompanies;
      if !(0 <= index < |cs|) {
        return;
      }
      cs[index].SetField(field, value);
      formData := formData.(portfolioCompanies := cs);
    }

    /** `addPortfolioCompany`: appends a new entry with logo source "upload" and no logo type. */
    method AddPortfolioCompany()
      requires Valid()
      modifies this
      ensures Valid() && SlotsUnchanged()
      ensures formData == old(formData).(portfolioCompanies := formData.portfolioCompanies)
      ensures |formData.portfolioCompanies| == |old(formData.portfolioCompanies)| + 1
      ensures formData.portfolioCompanies[..|old(formData.portfolioCompanies)|] == old(formData.portfolioCompanies)
      ensures fresh(formData.portfolioCompanies[|old(formData.portfolioCompanies)|])
      ensures Companies() == old(Companies()) + [BlankCompany()]
    {
      var c := new Company(BlankCompany());
      var cs := formData.portfolioCompanies;
      formData := formData.(portfolioCompanies := cs + [c]);
      assert formData.portfolioCompanies[..|cs|] == cs;
    }

    /**
     * The first half of `handleImageUpload`: with no file selected nothing
     * happens; otherwise `imageLoading` is set. The form the handler's closure
     * holds is returned for the second half.
     */
    method StartImageUpload(hasFile: bool) returns (started: bool, snapshot: FormData<Company>)
      requires Valid()
      modifies this
      ensures Valid() && formData == old(formData) && snapshot == formData
      ensures started == hasFile
      ensures imageLoading == (hasFile || old(imageLoading))
      ensures loading == old(loading) && error == old(error) && success == old(success) && navigatedTo == old(navigatedTo)
    {
      snapshot := formData;
      started := hasFile;
      if hasFile {
        imageLoading := true;
      }
    }

    /**
     * The second half of `handleImageUpload`: a URL in the response goes into
     * the logo of entry `index` of the form captured when the upload started,
     * and that whole form replaces the current one (edits made meanwhile are
     * lost; the assignment reaches the shared entry object). A rejected body
     * or a failure sets an error. `imageLoading` ends false.
     */
    method FinishImageUpload(index: int, snapshot: FormData<Company>, outcome: UploadOutcome)
      requires Valid() && NoDuplicates(snapshot.portfolioCompanies)
      modifies this, Slot(snapshot.portfolioCompanies, index)
      ensures Valid() && !imageLoading
      ensures loading == old(loading) && navigatedTo == old(navigatedTo)
      ensures var res := ClassifyUpload(outcome);
        var cs := snapshot.portfolioCompanies;
        if res.ApplyUrl? && 0 <= index < |cs| then
          formData == snapshot &&
          Values(cs) == old(Values(cs))[index := old(cs[index].Value()).(logo := res.url)] &&
          success == UploadSuccessMessage && error == ""
        else
          formData == old(formData) && success == old(success) && Values(cs) == old(Values(cs)) &&
          error == (if res.Rejected? then UploadRejectedMessage else UploadErrorMessage)
    {
      var res := ClassifyUpload(outcome);
      var cs := snapshot.portfolioCompanies;
      if res.ApplyUrl? {
        if 0 <= index < |cs| {
          cs[index].logo := res.url;
          formData := snapshot;
          success, error := UploadSuccessMessage, "";
        } else {
          // `updatedPortfolio[index]` is undefined: the assignment throws and the catch reports it.
          error := UploadErrorMessage;
        }
      } else if res.Rejected? {
        error := UploadRejectedMessage;
      } else {
        error := UploadErrorMessage;
      }
      imageLoading := false;
    }
  }
}
