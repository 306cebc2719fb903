/**
 * The assistants list page, which works on a fixed list of sample
 * assistants: its search-and-status filter, the specialization badge and
 * the row menu.
 */
module AssistantsPage {
  import opened Wrappers
  import opened Text
  import Seqs
  import opened JsValues
  import Dropdown

  /** A listed assistant, with the fields the page reads. */
  datatype Listing = Listing(id: Scalar, name: string, description: string, status: string, specialization: string)

  /** The four sample assistants the page lists. */
  const SampleAssistants: seq<Listing> := [
    Listing(JNum(1), "Customer Support Bot", "Handles customer inquiries and support tickets", "active", "customer_support"),
    Listing(JNum(2), "Sales Assistant", "Qualifies leads and handles sales inquiries", "active", "sales"),
    Listing(JNum(3), "Technical Support", "Provides technical assistance and troubleshooting", "inactive", "technical"),
    Listing(JNum(4), "Appointment Scheduler", "Handles appointment booking and scheduling", "active", "scheduling")
  ]

  /** The search matches when it occurs, case-insensitively, in the name or the description. */
  predicate MatchesSearch(a: Listing, term: string) {
    Includes(Lower(a.name), Lower(term)) || Includes(Lower(a.description), Lower(term))
  }

  /** The status filter: `all`, or exactly the assistant's status. */
  predicate MatchesStatus(a: Listing, filterStatus: string) {
    filterStatus == "all" || a.status == filterStatus
  }

  /**
   * `filteredAssistants`: the assistants matching both the search and the
   * status filter, in list order. `sortBy` is not an input.
   */
  function FilteredAssistants(assistants: seq<Listing>, term: string, filterStatus: string): (r: seq<Listing>)
    ensures Seqs.IsSubsequence(r, assistants)
    ensures forall a | a in r :: a in assistants && MatchesSearch(a, term) && MatchesStatus(a, filterStatus)
    ensures forall i | 0 <= i < |assistants| && MatchesSearch(assistants[i], term) && MatchesStatus(assistants[i], filterStatus) ::
      assistants[i] in r
    ensures forall a | a in assistants ::
      multiset(r)[a] == if MatchesSearch(a, term) && MatchesStatus(a, filterStatus) then multiset(assistants)[a] else 0
  {
    var p := (a: Listing) => MatchesSearch(a, term) && MatchesStatus(a, filterStatus);
    Seqs.FilterIsSubsequence(assistants, p);
    Seqs.FilterMultiset(assistants, p);
    Seqs.Filter(assistants, p)
  }

  /** With `all` and an empty search every assistant is shown, in order. */
  lemma AllAndEmptyKeepsAll(assistants: seq<Listing>)
    ensures FilteredAssistants(assistants, "", "all") == assistants
  {
    forall i | 0 <= i < |assistants|
      ensures MatchesSearch(assistants[i], "")
    {
      IncludesTrivial(Lower(assistants[i].name));
    }
  }

  /** A status other than `all` shows only assistants in that status. */
  lemma StatusFilterExact(assistants: seq<Listing>, term: string, filterStatus: string)
    requires filterStatus != "all"
    ensures forall a | a in FilteredAssistants(assistants, term, filterStatus) :: a.status == filterStatus
  {
  }

  /** The badge labels, keyed by specialization. */
  const Labels: map<string, string> := map[
    "customer_support" := "Customer Support",
    "sales" := "Sales",
    "technical" := "Technical",
    "scheduling" := "Scheduling",
    "general" := "General"]

  /** The badge colours, keyed the same way. */
  const Colors: map<string, string> := map[
    "customer_support" := "bg-blue-100 text-blue-800",
    "sales" := "bg-green-100 text-green-800",
    "technical" := "bg-purple-100 text-purple-800",
    "scheduling" := "bg-orange-100 text-orange-800",
    "general" := "bg-gray-100 text-gray-800"]

  /** `labels[specialization] || "General"`. */
  function SpecializationLabel(key: string): (r: string)
    ensures key in Labels ==> r == Labels[key]
    ensures key !in Labels ==> r == "General"
    ensures r in Labels.Values
  {
    assert Labels["general"] == "General";
    if key in Labels && Labels[key] != "" then Labels[key] else "General"
  }

  /** `colors[specialization] || colors.general`. */
  function SpecializationColor(key: string): (r: string)
    ensures key in Colors ==> r == Colors[key]
    ensures key !in Colors ==> r == Colors["general"]
  {
    if key in Colors && Colors[key] != "" then Colors[key] else Colors["general"]
  }

  /** Every sample assistant's specialization has its own label and colour. */
  lemma SamplesHaveLabels()
    ensures forall i | 0 <= i < |SampleAssistants| ::
      SampleAssistants[i].specialization in Labels && SampleAssistants[i].specialization in Colors
  {
  }

  /** The row-menu handlers: edit, delete and service each only close the menu. */
  datatype MenuAction = Edit | Delete | Service

  /** `openDropdown` after a toggle or a menu action. */
  function MenuAfter(open: Option<Scalar>, click: Option<MenuAction>, id: Scalar): (r: Option<Scalar>)
    ensures click.None? ==> r == Dropdown.Toggle(open, id)
    ensures click.Some? ==> r.None?
  {
    match click
    case None => Dropdown.Toggle(open, id)
    case Some(_) => None
  }

  /** Opening a row's menu and choosing any action leaves every menu closed. */
  lemma OpenThenActClosed(id: Scalar, action: MenuAction)
    ensures MenuAfter(MenuAfter(None, None, id), Some(action), id).None?
    ensures MenuAfter(None, None, id) == Some(id)
  {
  }
}
