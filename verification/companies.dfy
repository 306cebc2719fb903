/** The companies slice: the company record, the reducer and the selectors. */
module Companies {
  import opened Wrappers
  import Seqs
  import opened JsValues
  import EntitySlice

  /** A company as the server returns it. */
  datatype Company = Company(id: Scalar, name: string, url: string, createdAt: string, updatedAt: string)

  function IdOf(c: Company): Scalar {
    c.id
  }

  type State = EntitySlice.State<Company>

  /** The rejection message each request kind falls back to. */
  function DefaultMessage(op: EntitySlice.Op): string {
    match op
    case Fetch => "Failed to fetch companies"
    case Create => "Failed to create company"
    case Update => "Failed to update company"
    case Delete => "Failed to delete company"
  }

  /**
   * The companies reducer: the shared entity transitions with the
   * companies' default messages. Pending and rejected cases never touch the
   * list; a rejection's error is its payload or the default.
   */
  function Reduce(s: State, a: EntitySlice.Action<Company>): (r: State)
    ensures a.Pending? ==> r.loading && r.error.None? && r.data == s.data
    ensures a.Rejected? ==> !r.loading && r.data == s.data
    ensures a.Rejected? && Present(a.payload) ==> r.error == Some(a.payload.value)
    ensures a.Rejected? && !Present(a.payload) ==> r.error == Some(DefaultMessage(a.op))
    ensures a.FetchFulfilled? ==> r.data == a.items && !r.loading
    ensures a.CreateFulfilled? ==> r.data == s.data + [a.item]
    ensures a.UpdateFulfilled? ==> |r.data| == |s.data| && !r.loading
    ensures a.UpdateFulfilled? ==>
      forall i | Seqs.IsFirstMatch(s.data, EntitySlice.HasId(IdOf, a.item.id), i) :: r.data[i] == a.item
    ensures a.UpdateFulfilled? ==>
      forall i | 0 <= i < |s.data| && !Seqs.IsFirstMatch(s.data, EntitySlice.HasId(IdOf, a.item.id), i) ::
        r.data[i] == s.data[i]
    ensures a.DeleteFulfilled? ==> !r.loading && Seqs.IsSubsequence(r.data, s.data)
    ensures a.DeleteFulfilled? ==> forall c | c in r.data :: c in s.data && c.id != a.id
    ensures a.DeleteFulfilled? ==>
      forall c | c in s.data :: multiset(r.data)[c] == if c.id != a.id then multiset(s.data)[c] else 0
    ensures a.ResetState? ==> r == s.(error := None)
    ensures a.ClearData? ==> r == s.(data := [])
  {
    EntitySlice.Reduce(s, a, IdOf, DefaultMessage)
  }

  /** `selectCompanyById`: the first company with the id, or `undefined` (not `null`). */
  function SelectById(s: State, id: Scalar): (r: Lookup<Company>)
    ensures r.Found? <==> exists i :: Seqs.IsFirstMatch(s.data, EntitySlice.HasId(IdOf, id), i)
    ensures r.Found? ==> r.value in s.data && r.value.id == id
    ensures forall i | Seqs.IsFirstMatch(s.data, EntitySlice.HasId(IdOf, id), i) :: r == Found(s.data[i])
    ensures r.Missing? ==> r.how == AsUndefined && forall i | 0 <= i < |s.data| :: s.data[i].id != id
  {
    var p := EntitySlice.HasId(IdOf, id);
    match Seqs.FindIndex(s.data, p)
    case Some(i) =>
      assert Seqs.IsFirstMatch(s.data, p, i);
      Found(s.data[i])
    case None => Missing(AsUndefined)
  }

  /** A created company is found by its id when no earlier company carried it. */
  lemma CreateThenSelect(s: State, c: Company)
    requires forall i | 0 <= i < |s.data| :: s.data[i].id != c.id
    ensures SelectById(Reduce(s, EntitySlice.CreateFulfilled(c)), c.id) == Found(c)
  {
    var after := Reduce(s, EntitySlice.CreateFulfilled(c)).data;
    assert Seqs.IsFirstMatch(after, EntitySlice.HasId(IdOf, c.id), |s.data|);
  }
}
