/**
 * The shape the assistants and companies slices share: an entity list with
 * `loading` and `error` flags, and the transitions their reducers apply for
 * the fetch / create / update / delete request lifecycles.
 */
module EntitySlice {
  import opened Wrappers
  import Seqs
  import opened JsValues

  /** `{ data, loading, error }`; `error` is `null` when `None`. */
  datatype State<T> = State(data: seq<T>, loading: bool, error: Option<string>)

  /** `initialState`: no entities, idle, no error. */
  function Initial<T>(): State<T> {
    State([], false, None)
  }

  /** The four request kinds, each with its own rejection message. */
  datatype Op = Fetch | Create | Update | Delete

  /** The actions both slices handle. A rejection's payload is absent or empty when `None`. */
  datatype Action<T> =
    | ResetState
    | ClearData
    | Pending(op: Op)
    | Rejected(op: Op, payload: Option<string>)
    | FetchFulfilled(items: seq<T>)
    | CreateFulfilled(item: T)
    | UpdateFulfilled(item: T)
    | DeleteFulfilled(id: Scalar)

  /** `e => idOf(e) === id`. */
  function HasId<T(!new)>(idOf: T -> Scalar, id: Scalar): (p: T -> bool)
    ensures forall e :: p(e) <==> idOf(e) == id
  {
    e => idOf(e) == id
  }

  /** `resetXState`: only the error is cleared. */
  function OnReset<T>(s: State<T>): (r: State<T>)
    ensures r.error.None?
    ensures r.data == s.data && r.loading == s.loading
  {
    s.(error := None)
  }

  /** `clearX`: only the list is emptied. */
  function OnClear<T>(s: State<T>): (r: State<T>)
    ensures r.data == []
    ensures r.loading == s.loading && r.error == s.error
  {
    s.(data := [])
  }

  /** Every pending case: loading, no error, the list untouched. */
  function OnPending<T>(s: State<T>): (r: State<T>)
    ensures r.loading && r.error.None?
    ensures r.data == s.data
  {
    s.(loading := true, error := None)
  }

  /** Every rejected case: idle, and the error is the payload or the operation's default. */
  function OnRejected<T>(s: State<T>, payload: Option<string>, default: string): (r: State<T>)
    ensures !r.loading && r.data == s.data
    ensures Present(payload) ==> r.error == Some(payload.value)
    ensures !Present(payload) ==> r.error == Some(default)
  {
    s.(loading := false, error := Some(OrElse(payload, default)))
  }

  /** Fetch fulfilled: the list is replaced wholesale; the error is left as it was. */
  function OnFetched<T>(s: State<T>, items: seq<T>): (r: State<T>)
    ensures r.data == items && !r.loading && r.error == s.error
  {
    s.(data := items, loading := false)
  }

  /** Create fulfilled: `data.push(item)`. */
  function OnCreated<T>(s: State<T>, item: T): (r: State<T>)
    ensures |r.data| == |s.data| + 1
    ensures r.data[..|s.data|] == s.data && r.data[|s.data|] == item
    ensures !r.loading && r.error == s.error
  {
    s.(data := s.data + [item], loading := false)
  }

  /**
   * Update fulfilled: the first entity carrying the payload's id becomes the
   * payload; with no such entity the list is unchanged.
   */
  function OnUpdated<T(!new)>(s: State<T>, item: T, idOf: T -> Scalar): (r: State<T>)
    ensures |r.data| == |s.data|
    ensures forall i | Seqs.IsFirstMatch(s.data, HasId(idOf, idOf(item)), i) :: r.data[i] == item
    ensures forall i | 0 <= i < |s.data| && !Seqs.IsFirstMatch(s.data, HasId(idOf, idOf(item)), i) ::
      r.data[i] == s.data[i]
    ensures (forall i | 0 <= i < |s.data| :: idOf(s.data[i]) != idOf(item)) ==> r.data == s.data
    ensures forall i | 0 <= i < |s.data| :: idOf(r.data[i]) == idOf(s.data[i])
    ensures !r.loading && r.error == s.error
  {
    var p := HasId(idOf, idOf(item));
    var data := Seqs.ReplaceFirst(s.data, p, item);
    assert forall i | 0 <= i < |s.data| && !p(s.data[i]) :: !Seqs.IsFirstMatch(s.data, p, i);
    s.(data := data, loading := false)
  }

  /** Delete fulfilled: every entity carrying the id goes; the rest keep their order. */
  function OnDeleted<T(==)>(s: State<T>, id: Scalar, idOf: T -> Scalar): (r: State<T>)
    ensures forall x | x in r.data :: x in s.data && idOf(x) != id
    ensures forall i | 0 <= i < |s.data| && idOf(s.data[i]) != id :: s.data[i] in r.data
    ensures Seqs.IsSubsequence(r.data, s.data)
    ensures forall x | x in s.data :: multiset(r.data)[x] == if idOf(x) != id then multiset(s.data)[x] else 0
    ensures !r.loading && r.error == s.error
  {
    var p := (e: T) => idOf(e) != id;
    Seqs.FilterIsSubsequence(s.data, p);
    Seqs.FilterMultiset(s.data, p);
    s.(data := Seqs.Filter(s.data, p), loading := false)
  }

  /**
   * The slice reducer, given the entity's id and the four default messages.
   * `loading` is set by exactly the pending cases and cleared by every
   * settled case; `error` is cleared by pending and reset and set only by
   * rejections.
   */
  function Reduce<T(==,!new)>(s: State<T>, a: Action<T>, idOf: T -> Scalar, defaults: Op -> string): (r: State<T>)
    ensures a.Pending? ==> r.loading
    ensures (a.ResetState? || a.ClearData?) ==> r.loading == s.loading
    ensures !(a.Pending? || a.ResetState? || a.ClearData?) ==> !r.loading
    ensures (a.Pending? || a.ResetState?) ==> r.error.None?
    ensures r.error.Some? && r.error != s.error ==> a.Rejected?
    ensures a.Rejected? ==> r.error == Some(OrElse(a.payload, defaults(a.op)))
    ensures (a.Pending? || a.Rejected? || a.ResetState?) ==> r.data == s.data
  {
    match a
    case ResetState => OnReset(s)
    case ClearData => OnClear(s)
    case Pending(_) => OnPending(s)
    case Rejected(op, payload) => OnRejected(s, payload, defaults(op))
    case FetchFulfilled(items) => OnFetched(s, items)
    case CreateFulfilled(item) => OnCreated(s, item)
    case UpdateFulfilled(item) => OnUpdated(s, item, idOf)
    case DeleteFulfilled(id) => OnDeleted(s, id, idOf)
  }

  /** Deleting the id of an entity just created, when no other entity carried it, restores the list. */
  lemma DeleteUndoesCreate<T>(s: State<T>, item: T, idOf: T -> Scalar)
    requires forall i | 0 <= i < |s.data| :: idOf(s.data[i]) != idOf(item)
    ensures OnDeleted(OnCreated(s, item), idOf(item), idOf).data == s.data
  {
    var p := (e: T) => idOf(e) != idOf(item);
    Seqs.FilterAppend(s.data, [item], p);
    assert Seqs.Filter([item], p) == [];
  }

  /** Applying the same update twice is the same as applying it once. */
  lemma UpdateIdempotent<T(!new)>(s: State<T>, item: T, idOf: T -> Scalar)
    ensures OnUpdated(OnUpdated(s, item, idOf), item, idOf).data == OnUpdated(s, item, idOf).data
  {
    var p := HasId(idOf, idOf(item));
    var once := OnUpdated(s, item, idOf).data;
    var twice := OnUpdated(OnUpdated(s, item, idOf), item, idOf).data;
    forall i | 0 <= i < |once| ensures twice[i] == once[i] {
      if Seqs.IsFirstMatch(once, p, i) {
        assert twice[i] == item;
      }
    }
  }
}
