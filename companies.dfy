/**
 * The branch (company) management page of src/pages/Companies.tsx: loading
 * the companies, adding one from a five-field form whose fields are
 * trimmed and whose name must not be blank, and deleting one.
 */
module Companies {
  import opened Common
  import opened Records

  /** The add form: `newCompany`. */
  datatype CompanyForm = CompanyForm(name: string, contactPerson: string, email: string, phone: string, address: string)

  const BlankCompanyForm := CompanyForm("", "", "", "", "")

  const NameRequired := "Company name is required"
  const AddFailed := "Failed to add company"
  const DeleteFailed := "Failed to delete company"
  const LoadFailed := "Failed to load companies"

  /** The row `handleAddCompany` inserts: every field of the form, trimmed. */
  function TrimForm(f: CompanyForm): (r: CompanyForm)
    ensures IsTrimmed(r.name) && IsTrimmed(r.contactPerson) && IsTrimmed(r.email)
    ensures IsTrimmed(r.phone) && IsTrimmed(r.address)
  {
    TrimSlice(f.name);
    TrimSlice(f.contactPerson);
    TrimSlice(f.email);
    TrimSlice(f.phone);
    TrimSlice(f.address);
    CompanyForm(Trim(f.name), Trim(f.contactPerson), Trim(f.email), Trim(f.phone), Trim(f.address))
  }

  /** Trimming a trimmed form changes nothing, and the trimmed name is empty exactly when the name is all white space. */
  lemma TrimFormProperties(f: CompanyForm)
    ensures TrimForm(TrimForm(f)) == TrimForm(f)
    ensures TrimForm(f).name == [] <==> AllSpace(f.name)
  {
    TrimIdempotent(f.name);
    TrimIdempotent(f.contactPerson);
    TrimIdempotent(f.email);
    TrimIdempotent(f.phone);
    TrimIdempotent(f.address);
    TrimBlank(f.name);
  }

  /**
   * Each field of the inserted row is the form's own field of that name, with
   * only white space removed from its ends: nothing the user typed is dropped
   * or moved to another column.
   */
  lemma TrimFormKeepsFields(f: CompanyForm)
    ensures TrimmedFrom(TrimForm(f).name, f.name)
    ensures TrimmedFrom(TrimForm(f).contactPerson, f.contactPerson)
    ensures TrimmedFrom(TrimForm(f).email, f.email)
    ensures TrimmedFrom(TrimForm(f).phone, f.phone)
    ensures TrimmedFrom(TrimForm(f).address, f.address)
  {
    TrimIsTrimmedFrom(f.name);
    TrimIsTrimmedFrom(f.contactPerson);
    TrimIsTrimmedFrom(f.email);
    TrimIsTrimmedFrom(f.phone);
    TrimIsTrimmedFrom(f.address);
  }

  /** `companies.filter((company) => company.id !== id)`. */
  function DeleteById(companies: seq<Company>, id: string): (r: seq<Company>)
    ensures forall c :: c in r <==> c in companies && c.id != id
  {
    Keep(companies, (c: Company) => c.id != id)
  }

  /** Deleting the one company with that id leaves the companies before and after it, in order. */
  lemma DeleteRemovesOnlyTarget(before: seq<Company>, target: Company, after: seq<Company>)
    requires forall c :: c in before + after ==> c.id != target.id
    ensures DeleteById(before + [target] + after, target.id) == before + after
  {
    KeepSplice(before, target, after, (c: Company) => c.id != target.id);
  }

  class CompaniesPage {
    var companies: seq<Company>
    var newCompany: CompanyForm
    var loading: bool
    var error: Option<string>
    var isAdding: bool

    constructor ()
      ensures companies == [] && newCompany == BlankCompanyForm
      ensures loading && error == None && !isAdding
    {
      companies := [];
      newCompany := BlankCompanyForm;
      loading := true;
      error := None;
      isAdding := false;
    }

    /** `fetchCompanies`: returned rows (or none) replace the list; a failure records the load error. */
    method Fetch(result: Fetched<Company>)
      modifies this
      ensures result.Returned? ==> companies == result.Rows() && error == old(error)
      ensures result.Failed? ==> companies == old(companies) && error == Some(LoadFailed)
      ensures !loading && newCompany == old(newCompany) && isAdding == old(isAdding)
    {
      loading := true;
      if result.Returned? {
        companies := result.Rows();
      } else {
        error := Some(LoadFailed);
      }
      loading := false;
    }

    /** The form's inputs. */
    method EditForm(form: CompanyForm)
      modifies this
      ensures newCompany == form
      ensures companies == old(companies) && loading == old(loading) && error == old(error) && isAdding == old(isAdding)
    {
      newCompany := form;
    }

    /**
     * `handleAddCompany`. A name that is blank once trimmed records the
     * "required" error and sends nothing, leaving everything else as it was.
     * Otherwise the trimmed form is sent; the rows the insert returns go in
     * front of the list, the form is cleared and the error removed; a failed
     * insert records the "failed" error. `isAdding` is false afterwards.
     */
    method AddCompany(outcome: Fetched<Company>) returns (sent: Option<CompanyForm>)
      modifies this
      ensures Trim(old(newCompany).name) == [] ==>
        && sent == None && error == Some(NameRequired)
        && companies == old(companies) && newCompany == old(newCompany) && isAdding == old(isAdding)
      ensures Trim(old(newCompany).name) != [] ==>
        && sent == Some(TrimForm(old(newCompany)))
        && !isAdding
        && (outcome.Returned? ==> companies == outcome.Rows() + old(companies) && newCompany == BlankCompanyForm && error == None)
        && (outcome.Failed? ==> companies == old(companies) && newCompany == old(newCompany) && error == Some(AddFailed))
      ensures loading == old(loading)
    {
      if Trim(newCompany.name) == [] {
        error := Some(NameRequired);
        return None;
      }
      isAdding := true;
      sent := Some(TrimForm(newCompany));
      if outcome.Returned? {
        companies := outcome.Rows() + companies;
        newCompany := BlankCompanyForm;
        error := None;
      } else {
        error := Some(AddFailed);
      }
      isAdding := false;
    }

    /**
     * `handleDeleteCompany`: nothing happens unless the user confirms; then a
     * successful delete removes the company from the list and a failed one
     * records the delete error.
     */
    method DeleteCompany(id: string, confirmed: bool, deleteOk: bool)
      modifies this
      ensures confirmed && deleteOk ==> companies == DeleteById(old(companies), id) && error == old(error)
      ensures confirmed && !deleteOk ==> companies == old(companies) && error == Some(DeleteFailed)
      ensures !confirmed ==> companies == old(companies) && error == old(error)
      ensures newCompany == old(newCompany) && loading == old(loading) && isAdding == old(isAdding)
    {
      if !confirmed {
        return;
      }
      if deleteOk {
        companies := DeleteById(companies, id);
      } else {
        error := Some(DeleteFailed);
      }
    }
  }
}
