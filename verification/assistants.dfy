/**
 * The assistants slice: the assistant record as the pages read it, the
 * reducer (the shared entity transitions plus the phone-number update) and
 * the selectors.
 */
module Assistants {
  import opened Wrappers
  import Seqs
  import opened JsValues
  import EntitySlice

  /**
   * An assistant as the server returns it. Fields the server may omit or
   * send with another type are loosely typed; `company` is the nested
   * `{ id, name }` object when present.
   */
  datatype Assistant = Assistant(
    id: Scalar,
    assistantName: Option<string>,
    description: JsValue,
    specialization: JsValue,
    isActive: JsValue,
    defaultPhone: JsValue,
    companyIdField: JsValue,
    companyIdCamel: JsValue,
    company: JsValue,
    companyName: JsValue,
    updatedAt: JsValue)

  function IdOf(a: Assistant): Scalar {
    a.id
  }

  type State = EntitySlice.State<Assistant>

  /** The rejection message each request kind falls back to. */
  function DefaultMessage(op: EntitySlice.Op): string {
    match op
    case Fetch => "Failed to fetch assistants"
    case Create => "Failed to create assistant"
    case Update => "Failed to update assistant"
    case Delete => "Failed to delete assistant"
  }

  /** The slice's actions: the shared ones and `updateAssistantWithPhoneNumber`. */
  datatype Action =
    | Entity(a: EntitySlice.Action<Assistant>)
    | UpdateWithPhoneNumber(assistantId: Scalar, phoneNumber: JsValue)

  /**
   * `updateAssistantWithPhoneNumber`: the first assistant with the id gets
   * `default_phone` set; nothing else changes, `loading` and `error`
   * included.
   */
  function SetPhoneNumber(s: State, assistantId: Scalar, phone: JsValue): (r: State)
    ensures |r.data| == |s.data|
    ensures forall i | Seqs.IsFirstMatch(s.data, EntitySlice.HasId(IdOf, assistantId), i) ::
      r.data[i] == s.data[i].(defaultPhone := phone)
    ensures forall i | 0 <= i < |s.data| && !Seqs.IsFirstMatch(s.data, EntitySlice.HasId(IdOf, assistantId), i) ::
      r.data[i] == s.data[i]
    ensures r.loading == s.loading && r.error == s.error
  {
    var p := EntitySlice.HasId(IdOf, assistantId);
    match Seqs.FindIndex(s.data, p)
    case None => s
    case Some(i) =>
      assert Seqs.IsFirstMatch(s.data, p, i);
      s.(data := s.data[i := s.data[i].(defaultPhone := phone)])
  }

  /** Only `default_phone` of an assistant can change; its id and company fields do not. */
  lemma SetPhoneNumberKeepsIds(s: State, assistantId: Scalar, phone: JsValue)
    ensures forall i | 0 <= i < |s.data| ::
      var after := SetPhoneNumber(s, assistantId, phone).data[i];
      after.(defaultPhone := s.data[i].defaultPhone) == s.data[i]
  {
  }

  /**
   * The assistants reducer: the shared transitions with the assistants'
   * default messages, and the phone update, which touches only the first
   * assistant with the id.
   */
  function Reduce(s: State, action: Action): (r: State)
    ensures action.Entity? ==> r == EntitySlice.Reduce(s, action.a, IdOf, DefaultMessage)
    ensures action.Entity? && action.a.Rejected? ==>
      && r.data == s.data && !r.loading
      && r.error == Some(if Present(action.a.payload) then action.a.payload.value else DefaultMessage(action.a.op))
    ensures action.UpdateWithPhoneNumber? ==> r.loading == s.loading && r.error == s.error && |r.data| == |s.data|
    ensures action.UpdateWithPhoneNumber? ==>
      forall i | Seqs.IsFirstMatch(s.data, EntitySlice.HasId(IdOf, action.assistantId), i) ::
        r.data[i] == s.data[i].(defaultPhone := action.phoneNumber)
    ensures action.UpdateWithPhoneNumber? ==>
      forall i | 0 <= i < |s.data| && !Seqs.IsFirstMatch(s.data, EntitySlice.HasId(IdOf, action.assistantId), i) ::
        r.data[i] == s.data[i]
    ensures action.UpdateWithPhoneNumber? && (forall x | x in s.data :: x.id != action.assistantId) ==> r == s
  {
    match action
    case Entity(a) => EntitySlice.Reduce(s, a, IdOf, DefaultMessage)
    case UpdateWithPhoneNumber(id, phone) => SetPhoneNumber(s, id, phone)
  }

  /** A rejection with no message reports its own operation's default. */
  lemma RejectedWithoutPayload(s: State, op: EntitySlice.Op)
    ensures Reduce(s, Entity(EntitySlice.Rejected(op, None))).error == Some(DefaultMessage(op))
    ensures Reduce(s, Entity(EntitySlice.Rejected(op, None))).data == s.data
  {
  }

  // ---------------------------------------------------------------------
  // Selectors
  // ---------------------------------------------------------------------

  /** `{ total, active, inactive }`. */
  datatype Stats = Stats(total: nat, active: nat, inactive: int)

  function ActiveFlag(a: Assistant): bool {
    Truthy(a.isActive)
  }

  /**
   * `selectAssistantStats`: `active` counts the assistants whose
   * `is_active` is truthy, and `inactive` is the rest.
   */
  function SelectStats(s: State): (r: Stats)
    ensures r.total == |s.data|
    ensures r.active == |Seqs.Filter(s.data, ActiveFlag)|
    ensures r.active <= r.total && r.inactive >= 0
    ensures r.active + r.inactive == r.total
  {
    var total := |s.data|;
    var active := Seqs.CountWhere(s.data, ActiveFlag);
    Stats(total, active, total - active)
  }

  /** Adding an active assistant raises `active` by one; an inactive one raises `inactive`. */
  lemma StatsAfterCreate(s: State, a: Assistant)
    ensures var before := SelectStats(s);
      var after := SelectStats(EntitySlice.OnCreated(s, a));
      after.total == before.total + 1
      && (ActiveFlag(a) ==> after.active == before.active + 1 && after.inactive == before.inactive)
      && (!ActiveFlag(a) ==> after.active == before.active && after.inactive == before.inactive + 1)
  {
    Seqs.FilterAppend(s.data, [a], ActiveFlag);
    assert EntitySlice.OnCreated(s, a).data == s.data + [a];
  }

  /** `selectAssistantById(id)`: the first assistant with the id, or `null`. */
  function SelectById(s: State, id: Scalar): (r: Lookup<Assistant>)
    ensures r.Found? <==> exists i :: Seqs.IsFirstMatch(s.data, EntitySlice.HasId(IdOf, id), i)
    ensures r.Found? ==> r.value in s.data && r.value.id == id
    ensures forall i | Seqs.IsFirstMatch(s.data, EntitySlice.HasId(IdOf, id), i) :: r == Found(s.data[i])
    ensures r.Missing? ==> r.how == AsNull && forall i | 0 <= i < |s.data| :: s.data[i].id != id
  {
    var p := EntitySlice.HasId(IdOf, id);
    match Seqs.FindIndex(s.data, p)
    case Some(i) =>
      assert Seqs.IsFirstMatch(s.data, p, i);
      assert p(s.data[i]) && s.data[i].id == id;
      Found(s.data[i])
    case None =>
      assert forall i | 0 <= i < |s.data| :: !p(s.data[i]);
      Missing(AsNull)
  }

  /** After an update the updated assistant is what `selectAssistantById` finds. */
  lemma UpdateThenSelect(s: State, a: Assistant)
    requires exists i | 0 <= i < |s.data| :: s.data[i].id == a.id
    ensures SelectById(EntitySlice.OnUpdated(s, a, IdOf), a.id) == Found(a)
  {
    var p := EntitySlice.HasId(IdOf, a.id);
    var w :| 0 <= w < |s.data| && s.data[w].id == a.id;
    assert p(s.data[w]);
    var j := Seqs.FindIndex(s.data, p).value;
    assert Seqs.IsFirstMatch(s.data, p, j);
    var after := EntitySlice.OnUpdated(s, a, IdOf).data;
    assert Seqs.IsFirstMatch(after, p, j);
  }

  /** After a delete nothing carries the id any more. */
  lemma DeleteThenSelect(s: State, id: Scalar)
    ensures SelectById(EntitySlice.OnDeleted(s, id, IdOf), id) == Missing(AsNull)
  {
  }
}
