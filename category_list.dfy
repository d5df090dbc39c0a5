/**
 * The category management page of src/pages/CategoryList.tsx: loading the
 * categories, adding one from a name-and-description form whose fields are
 * trimmed and whose name must not be blank, and deleting one.
 */
module CategoryList {
  import opened Common
  import opened Records

  /** The add form: `newCategory`. */
  datatype CategoryForm = CategoryForm(name: string, description: string)

  const BlankCategoryForm := CategoryForm("", "")

  const NameRequired := "Category name is required"
  const AddFailed := "Failed to add category"
  const DeleteFailed := "Failed to delete category"
  const LoadFailed := "Failed to load categories"

  /** The row `handleAddCategory` inserts: the name and description, trimmed. */
  function TrimForm(f: CategoryForm): (r: CategoryForm)
    ensures IsTrimmed(r.name) && IsTrimmed(r.description)
  {
    TrimSlice(f.name);
    TrimSlice(f.description);
    CategoryForm(Trim(f.name), Trim(f.description))
  }

  /** Trimming a trimmed form changes nothing, and the trimmed name is empty exactly when the name is all white space. */
  lemma TrimFormProperties(f: CategoryForm)
    ensures TrimForm(TrimForm(f)) == TrimForm(f)
    ensures TrimForm(f).name == [] <==> AllSpace(f.name)
  {
    TrimIdempotent(f.name);
    TrimIdempotent(f.description);
    TrimBlank(f.name);
  }

  /**
   * The inserted name and description are the form's own, with only white
   * space removed from their ends.
   */
  lemma TrimFormKeepsFields(f: CategoryForm)
    ensures TrimmedFrom(TrimForm(f).name, f.name)
    ensures TrimmedFrom(TrimForm(f).description, f.description)
  {
    TrimIsTrimmedFrom(f.name);
    TrimIsTrimmedFrom(f.description);
  }

  /** `categories.filter((category) => category.id !== id)`. */
  function DeleteById(categories: seq<Category>, id: string): (r: seq<Category>)
    ensures forall c :: c in r <==> c in categories && c.id != id
  {
    Keep(categories, (c: Category) => c.id != id)
  }

  /** Deleting the one category with that id leaves the categories before and after it, in order. */
  lemma DeleteRemovesOnlyTarget(before: seq<Category>, target: Category, after: seq<Category>)
    requires forall c :: c in before + after ==> c.id != target.id
    ensures DeleteById(before + [target] + after, target.id) == before + after
  {
    KeepSplice(before, target, after, (c: Category) => c.id != target.id);
  }

  class CategoryListPage {
    var categories: seq<Category>
    var newCategory: CategoryForm
    var loading: bool
    var error: Option<string>
    var isAdding: bool

    constructor ()
      ensures categories == [] && newCategory == BlankCategoryForm
      ensures loading && error == None && !isAdding
    {
      categories := [];
      newCategory := BlankCategoryForm;
      loading := true;
      error := None;
      isAdding := false;
    }

    /** `fetchCategories`: returned rows (or none) replace the list; a failure records the load error. */
    method Fetch(result: Fetched<Category>)
      modifies this
      ensures result.Returned? ==> categories == result.Rows() && error == old(error)
      ensures result.Failed? ==> categories == old(categories) && error == Some(LoadFailed)
      ensures !loading && newCategory == old(newCategory) && isAdding == old(isAdding)
    {
      loading := true;
      if result.Returned? {
        categories := result.Rows();
      } else {
        error := Some(LoadFailed);
      }
      loading := false;
    }

    /** The form's inputs. */
    method EditForm(form: CategoryForm)
      modifies this
      ensures newCategory == form
      ensures categories == old(categories) && loading == old(loading) && error == old(error) && isAdding == old(isAdding)
    {
      newCategory := form;
    }

    /**
     * `handleAddCategory`. A name that is blank once trimmed records the
     * "required" error and sends nothing, leaving everything else as it was.
     * Otherwise the trimmed form is sent; the rows the insert returns go in
     * front of the list, the form is cleared and the error removed; a failed
     * insert records the "failed" error. `isAdding` is false afterwards.
     */
    method AddCategory(outcome: Fetched<Category>) returns (sent: Option<CategoryForm>)
      modifies this
      ensures Trim(old(newCategory).name) == [] ==>
        && sent == None && error == Some(NameRequired)
        && categories == old(categories) && newCategory == old(newCategory) && isAdding == old(isAdding)
      ensures Trim(old(newCategory).name) != [] ==>
        && sent == Some(TrimForm(old(newCategory)))
        && !isAdding
        && (outcome.Returned? ==> categories == outcome.Rows() + old(categories) && newCategory == BlankCategoryForm && error == None)
        && (outcome.Failed? ==> categories == old(categories) && newCategory == old(newCategory) && error == Some(AddFailed))
      ensures loading == old(loading)
    {
      if Trim(newCategory.name) == [] {
        error := Some(NameRequired);
        return None;
      }
      isAdding := true;
      sent := Some(TrimForm(newCategory));
      if outcome.Returned? {
        categories := outcome.Rows() + categories;
        newCategory := BlankCategoryForm;
        error := None;
      } else {
        error := Some(AddFailed);
      }
      isAdding := false;
    }

    /**
     * `handleDeleteCategory`: nothing happens unless the user confirms; then
     * a successful delete removes the category from the list and a failed
     * one records the delete error.
     */
    method DeleteCategory(id: string, confirmed: bool, deleteOk: bool)
      modifies this
      ensures confirmed && deleteOk ==> categories == DeleteById(old(categories), id) && error == old(error)
      ensures confirmed && !deleteOk ==> categories == old(categories) && error == Some(DeleteFailed)
      ensures !confirmed ==> categories == old(categories) && error == old(error)
      ensures newCategory == old(newCategory) && loading == old(loading) && isAdding == old(isAdding)
    {
      if !confirmed {
        return;
      }
      if deleteOk {
        categories := DeleteById(categories, id);
      } else {
        error := Some(DeleteFailed);
      }
    }
  }
}
