/**
 * The create-investor page (`InvestorForm` component): its form record,
 * upload previews and loading / error / success slots, and the handlers that
 * update them.
 */
module CreateInvestor {
  import opened Wrappers
  import opened Seqs
  import opened Text
  import opened InvestorForm

  const CreatedMessage: string := "Investor added successfully!"
  const SubmitFailedMessage: string := "Error occurred while submitting the form."
  const ServerErrorPrefix: string := "Server error: "
  const NetworkErrorMessage: string := "Network error: " + "Please check your internet connection."
  const UnexpectedErrorMessage: string := "An unexpected error occurred."

  /**
   * The error a settled create request leaves: none after a 200; the generic
   * message after another resolved status; otherwise, in priority order, the
   * server's message (an absent message reads "undefined", as string
   * concatenation renders it), the network message, or the fallback.
   */
  function CreateErrorMessage(o: RequestOutcome): (r: string)
    ensures r == "" <==> o == Responded(200)
    ensures o.ResponseError? <==> StartsWith(r, ServerErrorPrefix)
    ensures o.ResponseError? && o.message.Some? ==> r[|ServerErrorPrefix|..] == o.message.value
    ensures o.NoResponse? <==> r == NetworkErrorMessage
    ensures o.OtherError? <==> r == UnexpectedErrorMessage
    ensures o.Responded? && o.status != 200 <==> r == SubmitFailedMessage
  {
    // The four messages already differ in their first character.
    assert SubmitFailedMessage[0] == 'E' && NetworkErrorMessage[0] == 'N' && UnexpectedErrorMessage[0] == 'A';
    match o
    case Responded(status) => if status == 200 then "" else SubmitFailedMessage
    case ResponseError(message) =>
      var r := ServerErrorPrefix + message.GetOr("undefined");
      assert r[0] == 'S';
      r
    case NoResponse => NetworkErrorMessage
    case OtherError => UnexpectedErrorMessage
  }

  class CreateInvestorForm {
    var formData: FormData<Company>
    var loading: bool
    var error: string
    var success: string
    var uploadedProfileImagePreview: string
    var urlProfileImagePreview: string
    var uploadedPortfolioPreviews: map<int, string>  // a sparse array: index -> preview
    var urlPortfolioPreviews: map<int, string>

    /** No entry object occurs twice in the list (each "Add Company" creates a new one). */
    ghost predicate Valid()
      reads this
    {
      NoDuplicates(formData.portfolioCompanies)
    }

    /** The current values of the portfolio entries. */
    function Companies(): seq<CompanyValue>
      reads this, formData.portfolioCompanies
    {
      Values(formData.portfolioCompanies)
    }

    twostate predicate SlotsUnchanged()
      reads this
    {
      loading == old(loading) && error == old(error) && success == old(success)
    }

    twostate predicate PreviewsUnchanged()
      reads this
    {
      uploadedProfileImagePreview == old(uploadedProfileImagePreview) &&
      urlProfileImagePreview == old(urlProfileImagePreview) &&
      uploadedPortfolioPreviews == old(uploadedPortfolioPreviews) &&
      urlPortfolioPreviews == old(urlPortfolioPreviews)
    }

    constructor ()
      ensures Valid() && formData == Blank()
      ensures !loading && error == "" && success == ""
      ensures uploadedProfileImagePreview == "" && urlProfileImagePreview == ""
      ensures uploadedPortfolioPreviews == map[] && urlPortfolioPreviews == map[]
    {
      formData := Blank();
      loading, error, success := false, "", "";
      uploadedProfileImagePreview, urlProfileImagePreview := "", "";
      uploadedPortfolioPreviews, urlPortfolioPreviews := map[], map[];
    }

    /** `handleCheckboxChange`: toggles `value` in the named list; nothing else changes. */
    method HandleCheckboxChange(field: ListField, value: string)
      requires Valid()
      modifies this
      ensures Valid()
      ensures formData == ToggleSelection(old(formData), field, value)
      ensures SlotsUnchanged() && PreviewsUnchanged()
    {
      formData := ToggleSelection(formData, field, value);
    }

    /** `handleImageSourceChange`: sets the profile image source and clears the image. */
    method HandleImageSourceChange(value: string)
      requires Valid()
      modifies this
      ensures Valid()
      ensures formData == old(formData).(imageSource := value, image := "")
      ensures SlotsUnchanged() && PreviewsUnchanged()
    {
      formData := formData.(imageSource := value, image := "");
    }

    /** `removeCompany`: drops entry `index`, keeping the others in order; an out-of-range index changes nothing. */
    method RemoveCompany(index: int)
      requires Valid()
      modifies this
      ensures Valid()
      ensures formData == old(formData).(portfolioCompanies := RemoveAt(old(formData.portfolioCompanies), index))
      ensures 0 <= index < |old(Companies())| ==> Companies() == old(Companies())[..index] + old(Companies())[index + 1..]
      ensures !(0 <= index < |old(Companies())|) ==> Companies() == old(Companies())
      ensures SlotsUnchanged() && PreviewsUnchanged()
    {
      var cs := formData.portfolioCompanies;
      RemoveAtNoDuplicates(cs, index);
      ValuesRemoveAt(cs, index);
      RemoveAtSpec(Values(cs), index);
      formData := formData.(portfolioCompanies := RemoveAt(cs, index));
    }

    /** `addPortfolioCompany`: appends a new blank entry whose logo source is "upload"; existing entries are untouched. */
    method AddPortfolioCompany()
      requires Valid()
      modifies this
      ensures Valid()
      ensures |formData.portfolioCompanies| == |old(formData.portfolioCompanies)| + 1
      ensures formData == old(formData).(portfolioCompanies := formData.portfolioCompanies)
      ensures formData.portfolioCompanies[..|old(formData.portfolioCompanies)|] == old(formData.portfolioCompanies)
      ensures fresh(formData.portfolioCompanies[|old(formData.portfolioCompanies)|])
      ensures Companies() == old(Companies()) + [BlankCompany()]
      ensures SlotsUnchanged() && PreviewsUnchanged()
    {
      var c := new Company(BlankCompany());
      var cs := formData.portfolioCompanies;
      formData := formData.(portfolioCompanies := cs + [c]);
      assert formData.portfolioCompanies[..|cs|] == cs;
    }

    /**
     * `handleSubmit`: with a required field empty, sets the validation error
     * and sends nothing. Otherwise posts the form (`requested`) and applies
     * the outcome: a 200 resets the form and reports success; anything else
     * sets the classified error and clears success. `loading` is never set.
     */
    method HandleSubmit(outcome: RequestOutcome) returns (requested: bool)
      requires Valid()
      modifies this
      ensures Valid()
      ensures requested <==> HasRequiredFields(old(formData))
      ensures !requested ==> error == RequiredFieldsMessage && formData == old(formData) && success == old(success)
      ensures requested && outcome == Responded(200) ==>
        formData == Blank() && success == CreatedMessage && error == ""
      ensures requested && outcome != Responded(200) ==>
        formData == old(formData) && success == "" && error == CreateErrorMessage(outcome)
      ensures loading == old(loading) && PreviewsUnchanged()
    {
      if !HasRequiredFields(formData) {
        error := RequiredFieldsMessage;
        return false;
      }
      requested := true;
      if outcome == Responded(200) {
        success := CreatedMessage;
        error := "";
        formData := Blank();
      } else {
        error := CreateErrorMessage(outcome);
        success := "";
      }
    }

    /**
     * The first half of `handleImageUpload`, up to the request: with no file
     * selected nothing happens; otherwise the object URL `preview` of the file
     * goes to the profile preview (`field` "image") or to the indexed logo
     * preview ("portfolioLogo" with an index), and `loading` is set. The
     * entry list the handler's closure holds is returned for the second half.
     */
    method StartImageUpload(preview: Option<string>, field: string, index: Option<int>)
      returns (started: bool, snapshot: seq<Company>)
      requires Valid()
      modifies this
      ensures Valid()
      ensures started <==> preview.Some?
      ensures snapshot == formData.portfolioCompanies && NoDuplicates(snapshot)
      ensures formData == old(formData) && error == old(error) && success == old(success)
      ensures !started ==> loading == old(loading) && PreviewsUnchanged()
      ensures started ==> loading
      ensures urlProfileImagePreview == old(urlProfileImagePreview) && urlPortfolioPreviews == old(urlPortfolioPreviews)
      ensures uploadedProfileImagePreview ==
        if started && field == "image" then preview.value else old(uploadedProfileImagePreview)
      ensures uploadedPortfolioPreviews ==
        if started && field != "image" && field == "portfolioLogo" && index.Some?
        then old(uploadedPortfolioPreviews)[index.value := preview.value]
        else old(uploadedPortfolioPreviews)
    {
      snapshot := formData.portfolioCompanies;
      if preview.None? {
        return false, snapshot;
      }
      started := true;
      if field == "image" {
        uploadedProfileImagePreview := preview.value;
      } else if field == "portfolioLogo" && index.Some? {
        uploadedPortfolioPreviews := uploadedPortfolioPreviews[index.value := preview.value];
      }
      loading := true;
    }

    /**
     * The second half of `handleImageUpload`, when the upload settles. A URL
     * in the response goes into `image`, or into the `logo` of entry `index`
     * of `snapshot` -- the entry list captured when the upload started --
     * and that list replaces the current one, so entries added or removed
     * meanwhile are lost while the assignment reaches the shared entry object.
     * A rejected body or a failure sets an error; `loading` ends false.
     */
    method FinishImageUpload(field: string, index: Option<int>, snapshot: seq<Company>, outcome: UploadOutcome)
      requires Valid() && NoDuplicates(snapshot)
      modifies this, if index.Some? then Slot(snapshot, index.value) else {}
      ensures Valid() && !loading && PreviewsUnchanged()
      ensures var res := ClassifyUpload(outcome);
        if res.ApplyUrl? && field == "image" then
          formData == old(formData).(image := res.url) && success == UploadSuccessMessage && error == ""
        else if res.ApplyUrl? && field == "portfolioLogo" && index.Some? then
          if 0 <= index.value < |snapshot| then
            formData == old(formData).(portfolioCompanies := snapshot) &&
            Values(snapshot) == old(Values(snapshot))[index.value := old(snapshot[index.value].Value()).(logo := res.url)] &&
            success == UploadSuccessMessage && error == ""
          else
            formData == old(formData) && success == old(success) && error == UploadErrorMessage
        else if res.ApplyUrl? then
          formData == old(formData) && success == UploadSuccessMessage && error == ""
        else if res.Rejected? then
          formData == old(formData) && success == old(success) && error == UploadRejectedMessage
        else
          formData == old(formData) && success == old(success) && error == UploadErrorMessage
      ensures !(ClassifyUpload(outcome).ApplyUrl? && field == "portfolioLogo" && index.Some? && 0 <= index.value < |snapshot|) ==>
        Values(snapshot) == old(Values(snapshot))
    {
      var res := ClassifyUpload(outcome);
      if res.ApplyUrl? {
        if field == "image" {
          formData := formData.(image := res.url);
          success, error := UploadSuccessMessage, "";
        } else if field == "portfolioLogo" && index.Some? {
          if 0 <= index.value < |snapshot| {
            snapshot[index.value].logo := res.url;
            formData := formData.(portfolioCompanies := snapshot);
            success, error := UploadSuccessMessage, "";
          } else {
            // `updatedPortfolio[index]` is undefined: the assignment throws and the catch reports it.
            error := UploadErrorMessage;
          }
        } else {
          success, error := UploadSuccessMessage, "";
        }
      } else if res.Rejected? {
        error := UploadRejectedMessage;
      } else {
        error := UploadErrorMessage;
      }
      loading := false;
    }

    /**
     * `handleInputChange`: writes a text field; typing into the image field
     * while the image source is "url" also sets the URL preview.
     */
    method HandleInputChange(field: ScalarField, value: string)
      requires Valid()
      modifies this
      ensures Valid()
      ensures formData == SetScalar(old(formData), field, value)
      ensures urlProfileImagePreview ==
        if field == Image && old(formData.imageSource) == "url" then value else old(urlProfileImagePreview)
      ensures SlotsUnchanged()
      ensures uploadedProfileImagePreview == old(uploadedProfileImagePreview)
      ensures uploadedPortfolioPreviews == old(uploadedPortfolioPreviews) && urlPortfolioPreviews == old(urlPortfolioPreviews)
    {
      var source := formData.imageSource;
      formData := SetScalar(formData, field, value);
      if field == Image && source == "url" {
        urlProfileImagePreview := value;
      }
    }

    /** `handleRemoveSelection`: drops every occurrence of `value` from the list named by `typ`; any other `typ` changes nothing. */
    method HandleRemoveSelection(typ: string, value: string)
      requires Valid()
      modifies this
      ensures Valid()
      ensures formData == RemoveSelection(old(formData), typ, value)
      ensures SlotsUnchanged() && PreviewsUnchanged()
    {
      formData := RemoveSelection(formData, typ, value);
    }

    /**
     * `handlePortfolioChange`: writes one field of entry `index` in place (the
     * list keeps the same entry objects); writing the logo of an entry whose
     * logo source is "url" also sets that index's URL preview. An index
     * without an entry throws before any update, so nothing changes.
     */
    method HandlePortfolioChange(index: int, field: CompanyField, value: string)
      requires Valid()
      modifies this, Slot(formData.portfolioCompanies, index)
      ensures Valid()
      ensures formData == old(formData)
      ensures 0 <= index < |Companies()| ==>
        Companies() == old(Companies())[index := WithField(old(Companies())[index], field, value)]
      ensures !(0 <= index < |Companies()|) ==> Companies() == old(Companies())
      ensures urlPortfolioPreviews ==
        if 0 <= index < |Companies()| && field == LogoField && old(Companies())[index].logoSource == Some("url")
        then old(urlPortfolioPreviews)[index := value]
        else old(urlPortfolioPreviews)
      ensures SlotsUnchanged()
      ensures uploadedProfileImagePreview == old(uploadedProfileImagePreview)
      ensures urlProfileImagePreview == old(urlProfileImagePreview)
      ensures uploadedPortfolioPreviews == old(uploadedPortfolioPreviews)
    {
      var cs := formData.portfolioCompanies;
      if !(0 <= index < |cs|) {
        return;
      }
      cs[index].SetField(field, value);
      formData := formData.(portfolioCompanies := cs);
      if field == LogoField && cs[index].logoSource == Some("url") {
        urlPortfolioPreviews := urlPortfolioPreviews[index := value];
      }
    }

    /**
     * `handlePortfolioLogoSourceChange`: sets the logo source of entry
     * `index` in place, clears its logo and clears both of that index's
     * previews. An index without an entry throws before any update.
     */
    method HandlePortfolioLogoSourceChange(index: int, value: string)
      requires Valid()
      modifies this, Slot(formData.portfolioCompanies, index)
      ensures Valid()
      ensures formData == old(formData)
      ensures 0 <= index < |Companies()| ==>
        Companies() == old(Companies())[index := old(Companies())[index].(logoSource := Some(value), logo := "")] &&
        uploadedPortfolioPreviews == old(uploadedPortfolioPreviews)[index := ""] &&
        urlPortfolioPreviews == old(urlPortfolioPreviews)[index := ""]
      ensures !(0 <= index < |Companies()|) ==> Companies() == old(Companies()) && PreviewsUnchanged()
      ensures SlotsUnchanged()
      ensures uploadedProfileImagePreview == old(uploadedProfileImagePreview)
      ensures urlProfileImagePreview == old(urlProfileImagePreview)
    {
      var cs := formData.portfolioCompanies;
      if !(0 <= index < |cs|) {
        return;
      }
      cs[index].logoSource := Some(value);
      cs[index].logo := "";
      formData := formData.(portfolioCompanies := cs);
      uploadedPortfolioPreviews := uploadedPortfolioPreviews[index := ""];
      urlPortfolioPreviews := urlPortfolioPreviews[index := ""];
    }
  }
}
