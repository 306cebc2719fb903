/**
 * The company assistants page: which stored assistants belong to the
 * company in the route, the company name it shows, and the date fallback.
 */
module CompanyAssistantsPage {
  import opened Wrappers
  import Seqs
  import opened JsValues
  import opened Assistants

  /** The three places an assistant may carry its company's id. */
  function IdCandidates(a: Assistant): (c: seq<JsValue>)
    ensures |c| == 3
  {
    [a.companyIdField, a.companyIdCamel, Field(a.company, "id")]
  }

  predicate NotNullish(v: JsValue) {
    !(v.Undefined? || v.Null?)
  }

  /** The non-nullish candidates, each as `String(value)`. */
  function CandidateStrings(a: Assistant): (r: seq<string>)
    ensures |r| <= 3
  {
    Seqs.Map(Seqs.Filter(IdCandidates(a), NotNullish), StringOf)
  }

  /** `String(companyId)` for the route parameter, which is absent when the route has none. */
  function RouteString(routeId: Option<string>): (r: string)
    ensures routeId.Some? ==> r == routeId.value
    ensures routeId.None? ==> r == "undefined"
  {
    match routeId
    case Some(s) => s
    case None => "undefined"
  }

  /** `idCandidates.includes(String(companyId))`. */
  predicate BelongsTo(a: Assistant, routeId: Option<string>) {
    RouteString(routeId) in CandidateStrings(a)
  }

  /** An assistant belongs exactly when one of its non-nullish candidates prints as the route id. */
  lemma BelongsToIff(a: Assistant, routeId: Option<string>)
    ensures BelongsTo(a, routeId) <==>
      exists j | 0 <= j < 3 :: NotNullish(IdCandidates(a)[j]) && StringOf(IdCandidates(a)[j]) == RouteString(routeId)
  {
    var c := IdCandidates(a);
    var kept := Seqs.Filter(c, NotNullish);
    var r := CandidateStrings(a);
    var t := RouteString(routeId);
    if t in r {
      var k :| 0 <= k < |r| && r[k] == t;
      assert kept[k] in kept;
      var j :| 0 <= j < 3 && c[j] == kept[k];
      assert NotNullish(c[j]) && StringOf(c[j]) == t;
    }
    if exists j | 0 <= j < 3 :: NotNullish(c[j]) && StringOf(c[j]) == t {
      var j :| 0 <= j < 3 && NotNullish(c[j]) && StringOf(c[j]) == t;
      assert c[j] in kept;
      var k :| 0 <= k < |kept| && kept[k] == c[j];
      assert r[k] == t;
    }
  }

  /**
   * An assistant with no company id anywhere belongs to no company, even
   * when the route id is itself the text `undefined`.
   */
  lemma MissingIdNeverMatches(a: Assistant, routeId: Option<string>)
    requires forall j | 0 <= j < 3 :: !NotNullish(IdCandidates(a)[j])
    ensures !BelongsTo(a, routeId)
  {
    BelongsToIff(a, routeId);
  }

  /** `companyAssistants`: the stored assistants that belong to the route's company, in store order. */
  function CompanyAssistants(assistants: seq<Assistant>, routeId: Option<string>): (r: seq<Assistant>)
    ensures Seqs.IsSubsequence(r, assistants)
    ensures forall a | a in r :: a in assistants && BelongsTo(a, routeId)
    ensures forall i | 0 <= i < |assistants| && BelongsTo(assistants[i], routeId) :: assistants[i] in r
    ensures forall a | a in assistants :: multiset(r)[a] == if BelongsTo(a, routeId) then multiset(assistants)[a] else 0
  {
    var p := (a: Assistant) => BelongsTo(a, routeId);
    Seqs.FilterIsSubsequence(assistants, p);
    Seqs.FilterMultiset(assistants, p);
    Seqs.Filter(assistants, p)
  }

  /**
   * The company-name effect: when the shown name is falsy and some
   * assistant matched, it becomes the first match's `company_name`, else its
   * `company.name`, else stays as it was.
   */
  function FillCompanyName(name: JsValue, matches: seq<Assistant>): (r: JsValue)
    ensures Truthy(name) || |matches| == 0 ==> r == name
    ensures !Truthy(name) && |matches| > 0 && Truthy(matches[0].companyName) ==> r == matches[0].companyName
    ensures !Truthy(name) && |matches| > 0 && !Truthy(matches[0].companyName) ==>
      r == JsOr(Field(matches[0].company, "name"), name)
  {
    if !Truthy(name) && |matches| > 0 then
      JsOr(matches[0].companyName, JsOr(Field(matches[0].company, "name"), name))
    else name
  }

  /** The effect re-runs after it sets the name; running it again changes nothing. */
  lemma FillCompanyNameSettles(name: JsValue, matches: seq<Assistant>)
    ensures FillCompanyName(FillCompanyName(name, matches), matches) == FillCompanyName(name, matches)
  {
  }

  /** A name that came with the navigation is never replaced. */
  lemma NavigationNameKept(name: JsValue, assistants: seq<Assistant>, routeId: Option<string>)
    requires Truthy(name)
    ensures FillCompanyName(name, CompanyAssistants(assistants, routeId)) == name
  {
  }

  /**
   * `formatDate`: `N/A` for a falsy input; otherwise the runtime's
   * rendering of the parsed date (`rendered`, `None` when it is invalid).
   */
  function FormatDate(dateString: JsValue, rendered: Option<string>): (r: string)
    ensures !Truthy(dateString) ==> r == "N/A"
    ensures Truthy(dateString) && rendered.None? ==> r == "N/A"
    ensures Truthy(dateString) && rendered.Some? ==> r == rendered.value
  {
    if !Truthy(dateString) then "N/A"
    else match rendered
      case None => "N/A"
      case Some(s) => s
  }
}
