/**
 * The companies page: the search filter over the stored companies, the row
 * menu, and the create / edit / delete submissions with their guards.
 */
module CompaniesPage {
  import opened Wrappers
  import opened Text
  import Seqs
  import opened JsValues
  import opened Companies
  import Dropdown

  /** The search matches a company when it occurs, case-insensitively, in its name or url. */
  predicate Matches(c: Company, term: string) {
    Includes(Lower(c.name), Lower(term)) || Includes(Lower(c.url), Lower(term))
  }

  /**
   * `filteredCompanies`: the matching companies in store order. `sortBy` is
   * not an input, so the chosen sort never changes what is shown.
   */
  function FilteredCompanies(companies: seq<Company>, term: string): (r: seq<Company>)
    ensures Seqs.IsSubsequence(r, companies)
    ensures forall c | c in r :: c in companies && Matches(c, term)
    ensures forall i | 0 <= i < |companies| && Matches(companies[i], term) :: companies[i] in r
    ensures forall c | c in companies :: multiset(r)[c] == if Matches(c, term) then multiset(companies)[c] else 0
  {
    var p := (c: Company) => Matches(c, term);
    Seqs.FilterIsSubsequence(companies, p);
    Seqs.FilterMultiset(companies, p);
    Seqs.Filter(companies, p)
  }

  /** An empty search shows every company, in store order. */
  lemma EmptySearchKeepsAll(companies: seq<Company>)
    ensures FilteredCompanies(companies, "") == companies
  {
    forall i | 0 <= i < |companies|
      ensures Matches(companies[i], "")
    {
      IncludesTrivial(Lower(companies[i].name));
    }
  }

  /** The create / edit form. */
  datatype CompanyForm = CompanyForm(name: string, url: string)

  const EmptyForm := CompanyForm("", "")

  /** Both fields filled: the only check either submit makes. */
  predicate Complete(f: CompanyForm) {
    f.name != "" && f.url != ""
  }

  /** The page's own state; `sortBy` is chosen but never read. */
  datatype Page = Page(
    openDropdown: Option<Scalar>,
    showCreateModal: bool,
    showEditModal: bool,
    editingCompany: Option<Company>,
    form: CompanyForm,
    sortBy: string)

  const InitialPage := Page(None, false, false, None, EmptyForm, "name")

  /** What a submit dispatches. */
  datatype CompanyRequest =
    | CreateCompany(name: string, url: string, token: JsValue)
    | UpdateCompany(id: Scalar, name: string, url: string, token: JsValue)
    | DeleteCompany(id: Scalar, token: JsValue)

  /** The page after a handler, and the request it dispatched, if any. */
  datatype Submitted = Submitted(page: Page, dispatched: Option<CompanyRequest>)

  /**
   * `handleCreateCompany`: nothing happens unless both fields are filled
   * and the url is accepted; a fulfilled create empties the form and closes
   * the modal, a rejected one leaves the page as it was. The url input of
   * both company forms is `type="url"`, so the browser fires the submit
   * handler only for a url it accepts as an absolute URL; that verdict is
   * `urlAccepted`, and a blocked submit leaves the page as it was.
   */
  function SubmitCreate(p: Page, token: JsValue, urlAccepted: bool, succeeded: bool): (r: Submitted)
    ensures r.dispatched.Some? <==> Complete(p.form) && urlAccepted
    ensures r.dispatched.Some? ==> r.dispatched.value == CreateCompany(p.form.name, p.form.url, token)
    ensures !urlAccepted ==> r == Submitted(p, None)
    ensures !Complete(p.form) || !urlAccepted || !succeeded ==> r.page == p
    ensures Complete(p.form) && urlAccepted && succeeded ==> r.page == p.(form := EmptyForm, showCreateModal := false)
  {
    if !urlAccepted || !Complete(p.form) then Submitted(p, None)
    else
      var page := if succeeded then p.(form := EmptyForm, showCreateModal := false) else p;
      Submitted(page, Some(CreateCompany(p.form.name, p.form.url, token)))
  }

  /**
   * `handleEditCompany`: the same guards; with no company being edited,
   * reading its id throws inside the `try`, so nothing is dispatched. A
   * fulfilled update empties the form, forgets the company and closes the
   * modal.
   */
  function SubmitEdit(p: Page, token: JsValue, urlAccepted: bool, succeeded: bool): (r: Submitted)
    ensures r.dispatched.Some? <==> Complete(p.form) && urlAccepted && p.editingCompany.Some?
    ensures r.dispatched.Some? ==>
      r.dispatched.value == UpdateCompany(p.editingCompany.value.id, p.form.name, p.form.url, token)
    ensures !urlAccepted ==> r == Submitted(p, None)
    ensures r.dispatched.None? || !succeeded ==> r.page == p
    ensures r.dispatched.Some? && succeeded ==>
      r.page == p.(form := EmptyForm, editingCompany := None, showEditModal := false)
  {
    if !urlAccepted || !Complete(p.form) then Submitted(p, None)
    else match p.editingCompany
      case None => Submitted(p, None)
      case Some(c) =>
        var page := if succeeded then p.(form := EmptyForm, editingCompany := None, showEditModal := false) else p;
        Submitted(page, Some(UpdateCompany(c.id, p.form.name, p.form.url, token)))
  }

  /**
   * `handleDeleteCompany`: a declined confirmation does nothing; a confirmed
   * one dispatches the delete and then closes the menu, whatever the
   * outcome.
   */
  function SubmitDelete(p: Page, id: Scalar, token: JsValue, confirmed: bool): (r: Submitted)
    ensures !confirmed ==> r == Submitted(p, None)
    ensures confirmed ==> r.dispatched == Some(DeleteCompany(id, token)) && r.page == p.(openDropdown := None)
  {
    if confirmed then Submitted(p.(openDropdown := None), Some(DeleteCompany(id, token)))
    else Submitted(p, None)
  }

  /** `handleDropdownToggle`. */
  function ToggleMenu(p: Page, id: Scalar): (r: Page)
    ensures r.openDropdown == Dropdown.Toggle(p.openDropdown, id)
    ensures r.(openDropdown := p.openDropdown) == p
  {
    p.(openDropdown := Dropdown.Toggle(p.openDropdown, id))
  }

  /** `openEditModal`: the form takes the company's fields, the company is remembered, the menu closes. */
  function OpenEditModal(p: Page, c: Company): (r: Page)
    ensures r.form == CompanyForm(c.name, c.url) && r.editingCompany == Some(c)
    ensures r.showEditModal && r.openDropdown.None?
    ensures r.showCreateModal == p.showCreateModal && r.sortBy == p.sortBy
  {
    p.(editingCompany := Some(c), form := CompanyForm(c.name, c.url), showEditModal := true, openDropdown := None)
  }

  /**
   * Opening the editor on a company with a name and url and submitting it
   * unchanged dispatches an update of that company with its own fields
   * exactly when the browser accepts its stored url; when the update is
   * fulfilled the editor is closed and forgotten.
   */
  lemma EditAfterOpen(p: Page, c: Company, token: JsValue, urlAccepted: bool, succeeded: bool)
    requires c.name != "" && c.url != ""
    ensures var r := SubmitEdit(OpenEditModal(p, c), token, urlAccepted, succeeded);
      && (urlAccepted ==> r.dispatched == Some(UpdateCompany(c.id, c.name, c.url, token)))
      && (!urlAccepted ==> r == Submitted(OpenEditModal(p, c), None))
      && (urlAccepted && succeeded ==> !r.page.showEditModal && r.page.editingCompany.None? && r.page.form == EmptyForm)
  {
  }

  /** A company with an empty name or url opens in the editor, but submitting it unchanged dispatches nothing. */
  lemma IncompleteEditDispatchesNothing(p: Page, c: Company, token: JsValue, urlAccepted: bool, succeeded: bool)
    requires c.name == "" || c.url == ""
    ensures SubmitEdit(OpenEditModal(p, c), token, urlAccepted, succeeded) == Submitted(OpenEditModal(p, c), None)
  {
  }
}
