/**
 * What the create and edit investor forms share: the form record, the
 * portfolio-company entries, the request outcomes and the pure state updates
 * both forms' handlers are built from.
 */
module InvestorForm {
  import opened Wrappers
  import opened Seqs

  /** The fields of one portfolio-company entry, as a value. */
  datatype CompanyValue = CompanyValue(
    name: string,
    logo: string,
    logoSource: Option<string>,  // "url" or "upload"; absent on entries fetched from the server
    link: string,
    logoType: Option<string>)    // set only by the edit form

  /** The fields a company input writes through `handlePortfolioChange` (the input's `name`). */
  datatype CompanyField = NameField | LogoField | LinkField

  function WithField(c: CompanyValue, field: CompanyField, value: string): CompanyValue {
    match field
    case NameField => c.(name := value)
    case LogoField => c.(logo := value)
    case LinkField => c.(link := value)
  }

  /** `{ name: "", logo: "", logoSource: "upload", link: "" }`, the entry "Add Company" appends. */
  function BlankCompany(): CompanyValue {
    CompanyValue("", "", Some("upload"), "", None)
  }

  /**
   * A portfolio-company entry. The source keeps these as JavaScript objects
   * and several handlers assign to their fields in place after copying only
   * the array that holds them, so the model keeps them as objects too.
   */
  class Company {
    var name: string
    var logo: string
    var logoSource: Option<string>
    var link: string
    var logoType: Option<string>

    function Value(): CompanyValue
      reads this
    {
      CompanyValue(name, logo, logoSource, link, logoType)
    }

    constructor (v: CompanyValue)
      ensures Value() == v
    {
      name, logo, logoSource, link, logoType := v.name, v.logo, v.logoSource, v.link, v.logoType;
    }

    /** `company[field] = value`. */
    method SetField(field: CompanyField, value: string)
      modifies this
      ensures Value() == WithField(old(Value()), field, value)
    {
      match field
      case NameField => name := value;
      case LogoField => logo := value;
      case LinkField => link := value;
    }
  }

  /** The current values of a list of entries. */
  function Values(cs: seq<Company>): (r: seq<CompanyValue>)
    reads cs
    ensures |r| == |cs|
    ensures forall i :: 0 <= i < |cs| ==> r[i] == cs[i].Value()
  {
    if cs == [] then [] else [cs[0].Value()] + Values(cs[1..])
  }

  /** Removing an entry from the list removes its value from the list of values. */
  lemma ValuesRemoveAt(cs: seq<Company>, index: int)
    ensures Values(RemoveAt(cs, index)) == RemoveAt(Values(cs), index)
  {
    RemoveAtSpec(cs, index);
    RemoveAtSpec(Values(cs), index);
    if 0 <= index < |cs| {
      var l, r := Values(RemoveAt(cs, index)), RemoveAt(Values(cs), index);
      assert |l| == |r|;
      forall k | 0 <= k < |l| ensures l[k] == r[k] {
        if k < index {
          assert l[k] == cs[k].Value();
        } else {
          assert l[k] == cs[k + 1].Value();
        }
      }
    }
  }

  /** One new entry object per value, in order (`array.map` building fresh objects). */
  method NewCompanies(vs: seq<CompanyValue>) returns (cs: seq<Company>)
    ensures Values(cs) == vs
    ensures NoDuplicates(cs)
    ensures forall c :: c in cs ==> fresh(c)
  {
    cs := [];
    var i := 0;
    while i < |vs|
      invariant 0 <= i <= |vs| && |cs| == i
      invariant forall k :: 0 <= k < i ==> cs[k].Value() == vs[k]
      invariant forall c :: c in cs ==> fresh(c)
      invariant NoDuplicates(cs)
    {
      var c := new Company(vs[i]);
      cs := cs + [c];
      i := i + 1;
    }
  }

  /** The entry objects an indexed assignment `list[index].f = ...` may write: none when `index` is out of range. */
  function Slot(cs: seq<Company>, index: int): set<Company> {
    if 0 <= index < |cs| then {cs[index]} else {}
  }

  /** The form record; `E` is `Company` for the live state and `CompanyValue` for plain values. */
  datatype FormData<E> = FormData(
    name: string,
    website: string,
    image: string,
    imageSource: string,
    description: string,
    geography: string,
    investmentStages: string,
    businessModel: seq<string>,
    investorType: string,
    sectorInterested: seq<string>,
    checkSize: string,
    headquarter: string,
    contactLink: string,
    portfolioCompanies: seq<E>)

  /** The initial (and, after a successful create, reset) form: every field empty, image source "url". */
  function Blank<E>(): FormData<E> {
    FormData("", "", "", "url", "", "", "", [], "", [], "", "", "", [])
  }

  /** `f` with its entry list replaced by `cs` (possibly of another entry type). */
  function WithEntries<E, F>(f: FormData<E>, cs: seq<F>): FormData<F> {
    FormData(f.name, f.website, f.image, f.imageSource, f.description, f.geography, f.investmentStages,
      f.businessModel, f.investorType, f.sectorInterested, f.checkSize, f.headquarter, f.contactLink, cs)
  }

  /** The text fields `handleInputChange` writes (the input's `name`). */
  datatype ScalarField =
    | Name | Website | Image | Description | Geography | InvestmentStages
    | InvestorType | CheckSize | Headquarter | ContactLink

  /** `{ ...formData, [name]: value }` for a text field. */
  function SetScalar<E>(f: FormData<E>, field: ScalarField, value: string): FormData<E> {
    match field
    case Name => f.(name := value)
    case Website => f.(website := value)
    case Image => f.(image := value)
    case Description => f.(description := value)
    case Geography => f.(geography := value)
    case InvestmentStages => f.(investmentStages := value)
    case InvestorType => f.(investorType := value)
    case CheckSize => f.(checkSize := value)
    case Headquarter => f.(headquarter := value)
    case ContactLink => f.(contactLink := value)
  }

  /** The two multi-select lists. */
  datatype ListField = BusinessModel | SectorInterested

  function GetList<E>(f: FormData<E>, field: ListField): seq<string> {
    match field
    case BusinessModel => f.businessModel
    case SectorInterested => f.sectorInterested
  }

  function SetList<E>(f: FormData<E>, field: ListField, s: seq<string>): FormData<E> {
    match field
    case BusinessModel => f.(businessModel := s)
    case SectorInterested => f.(sectorInterested := s)
  }

  /** `handleCheckboxChange`: toggles `value` in the named list. */
  function ToggleSelection<E>(f: FormData<E>, field: ListField, value: string): FormData<E> {
    SetList(f, field, Toggle(GetList(f, field), value))
  }

  /** Only the toggled list changes, and in it only the membership of `value` flips. */
  lemma ToggleSelectionSpec<E>(f: FormData<E>, field: ListField, value: string, other: ListField, x: string)
    ensures other != field ==> GetList(ToggleSelection(f, field, value), other) == GetList(f, other)
    ensures x in GetList(ToggleSelection(f, field, value), field) <==> (if x == value then value !in GetList(f, field) else x in GetList(f, field))
    ensures ToggleSelection(f, field, value).portfolioCompanies == f.portfolioCompanies
    ensures ToggleSelection(f, field, value).(businessModel := f.businessModel, sectorInterested := f.sectorInterested) == f
  {
    ToggleMembership(GetList(f, field), value, x);
  }

  /** The list a `handleRemoveSelection(type, ...)` call names, if `type` is one of the two list names. */
  function SelectionField(typ: string): Option<ListField> {
    if typ == "businessModel" then Some(BusinessModel)
    else if typ == "sectorInterested" then Some(SectorInterested)
    else None
  }

  /** `handleRemoveSelection`: drops every occurrence of `value` from the named list; any other `type` changes nothing. */
  function RemoveSelection<E>(f: FormData<E>, typ: string, value: string): FormData<E> {
    match SelectionField(typ)
    case Some(field) => SetList(f, field, RemoveAll(GetList(f, field), value))
    case None => f
  }

  lemma RemoveSelectionSpec<E>(f: FormData<E>, typ: string, value: string)
    ensures SelectionField(typ).None? ==> RemoveSelection(f, typ, value) == f
    ensures SelectionField(typ).Some? ==>
      var field := SelectionField(typ).value;
      var r := RemoveSelection(f, typ, value);
      value !in GetList(r, field) &&
      IsSubsequence(GetList(r, field), GetList(f, field)) &&
      (forall x :: x != value ==> multiset(GetList(r, field))[x] == multiset(GetList(f, field))[x]) &&
      r.(businessModel := f.businessModel, sectorInterested := f.sectorInterested) == f &&
      (forall other :: other != field ==> GetList(r, other) == GetList(f, other))
  {
    if SelectionField(typ).Some? {
      RemoveAllSpec(GetList(f, SelectionField(typ).value), value);
    }
  }

  lemma RemoveSelectionIdempotent<E>(f: FormData<E>, typ: string, value: string)
    ensures RemoveSelection(RemoveSelection(f, typ, value), typ, value) == RemoveSelection(f, typ, value)
  {
    if SelectionField(typ).Some? {
      RemoveAllIdempotent(GetList(f, SelectionField(typ).value), value);
    }
  }

  /** The validation message shown when a required field is empty. */
  const RequiredFieldsMessage: string := "Please fill out all required fields."

  /** Name, website and description are all non-empty (truthy). */
  predicate HasRequiredFields<E>(f: FormData<E>) {
    f.name != "" && f.website != "" && f.description != ""
  }

  /** How an HTTP request of the forms settled. */
  datatype RequestOutcome =
    | Responded(status: int)                  // the request resolved with this status
    | ResponseError(message: Option<string>)  // it failed with a response; the body's `message`
    | NoResponse                              // it failed after sending, with no response
    | OtherError                              // it failed before a request was made

  /** How a file upload settled: the body's `status` (truthy or not) and the `url` of each item of its `data`. */
  datatype UploadOutcome = Uploaded(status: bool, urls: Option<seq<string>>) | UploadFailed

  /** What the upload handlers make of an upload outcome. */
  datatype UploadResult =
    | ApplyUrl(url: string)  // a truthy status and data: `data[0].url`
    | Rejected               // the body reported no success
    | Errored                // the request failed, or reading `data[0].url` failed

  function ClassifyUpload(o: UploadOutcome): (r: UploadResult)
    ensures r.ApplyUrl? <==> o.Uploaded? && o.status && o.urls.Some? && o.urls.value != []
    ensures r.ApplyUrl? ==> r.url == o.urls.value[0]
    ensures r.Rejected? <==> o.Uploaded? && !(o.status && o.urls.Some?)
  {
    match o
    case UploadFailed => Errored
    case Uploaded(status, urls) =>
      if status && urls.Some? then
        (if urls.value == [] then Errored else ApplyUrl(urls.value[0]))
      else Rejected
  }

  const UploadSuccessMessage: string := "Image uploaded successfully!"
  const UploadRejectedMessage: string := "Image upload failed. Please try again."
  const UploadErrorMessage: string := "An error occurred while uploading the image."
}
