/**
 * The admin dashboard: its initial fetch, the avatar letter and colour of
 * each assistant, the five-row preview and the phone badge.
 */
module AdminDashboard {
  import opened Wrappers
  import opened Text
  import Seqs
  import opened JsValues
  import opened Assistants
  import EntitySlice
  import AssistantRequests

  // ---------------------------------------------------------------------
  // Initial fetch
  // ---------------------------------------------------------------------

  /**
   * The fetch as written: with a truthy token the dashboard calls
   * `fetchAssistants(token)`, passing the bare string where the thunk
   * destructures `{ token, companyId }`.
   */
  function DashboardFetchAsWritten(env: Option<AssistantRequests.Env>, token: Option<string>): (r: Option<AssistantRequests.Request>)
    ensures r.Some? <==> Present(token)
    ensures r.Some? ==> r.value == AssistantRequests.FetchAssistantsCall(env, Str(token.value))
  {
    if Present(token) then Some(AssistantRequests.FetchAssistantsCall(env, Str(token.value))) else None
  }

  /** As written, the user's token never reaches the request: it goes out with the test token. */
  lemma DashboardTokenIgnored(env: Option<AssistantRequests.Env>, token: string)
    requires token != ""
    ensures var r := DashboardFetchAsWritten(env, Some(token)).value;
      && r.authorization == AssistantRequests.FixedAuthorization
      && r.url == AssistantRequests.GetBaseUrl(env) + "/api/assistants"
  {
  }

  /** The fetch as evidently intended: `fetchAssistants({ token })`. */
  function DashboardFetch(env: Option<AssistantRequests.Env>, token: Option<string>): (r: Option<AssistantRequests.Request>)
    ensures r.Some? <==> Present(token)
    ensures r.Some? ==> r.value == AssistantRequests.FetchAssistantsCall(env, Obj([("token", Str(token.value))]))
  {
    if Present(token) then Some(AssistantRequests.FetchAssistantsCall(env, Obj([("token", Str(token.value))]))) else None
  }

  /** The intended fetch sends the user's own token, and no company filter. */
  lemma DashboardFetchSendsToken(env: Option<AssistantRequests.Env>, token: string)
    requires token != ""
    ensures var r := DashboardFetch(env, Some(token)).value;
      && r.authorization == "Bearer " + token
      && r.url == AssistantRequests.GetBaseUrl(env) + "/api/assistants"
  {
    var entries := [("token", Str(token))];
    assert FieldOf(entries, "token") == Str(token);
    assert FieldOf(entries, "companyId") == Undefined;
  }

  // ---------------------------------------------------------------------
  // Avatar
  // ---------------------------------------------------------------------

  /** `getFirstLetter`: the first character upper-cased, or `?` for a missing or empty name. */
  function FirstLetter(name: Option<string>): (r: string)
    ensures |r| == 1
    ensures !Present(name) ==> r == "?"
    ensures Present(name) ==> r[0] == UpperChar(name.value[0]) && !IsLower(r[0])
  {
    if Present(name) then [UpperChar(name.value[0])] else "?"
  }

  const Palette: seq<string> := ["blue", "indigo", "purple", "green", "red", "orange", "teal"]

  /**
   * `charCodeAt(0)`: the first UTF-16 code unit, which for a character
   * beyond the Basic Multilingual Plane is its high surrogate.
   */
  function CharCode(c: char): (n: nat)
    ensures n < 0x10000
    ensures (c as int) < 0x10000 ==> n == c as int
    ensures (c as int) >= 0x10000 ==> 0xD800 <= n < 0xDC00
  {
    var x := c as int;
    if x < 0x10000 then x else 0xD800 + (x - 0x10000) / 0x400
  }

  /** `getColor`: `blue` for a missing or empty name, else the palette entry at the first code unit mod 7. */
  function Color(name: Option<string>): (r: string)
    ensures r in Palette
    ensures !Present(name) ==> r == "blue"
    ensures Present(name) ==> r == Palette[CharCode(name.value[0]) % 7]
  {
    if Present(name) then Palette[CharCode(name.value[0]) % 7] else Palette[0]
  }

  /** Names that start with the same character get the same letter and the same colour. */
  lemma SameInitialSameAvatar(a: string, b: string)
    requires a != "" && b != "" && a[0] == b[0]
    ensures Color(Some(a)) == Color(Some(b))
    ensures FirstLetter(Some(a)) == FirstLetter(Some(b))
  {
  }

  /** Characters whose codes are seven apart share a colour: the palette cycles. */
  lemma ColorCycles(c: char, d: char)
    requires (d as int) < 0x10000 && (c as int) + 7 == d as int
    ensures Color(Some([c])) == Color(Some([d]))
  {
    var n := CharCode(c);
    assert CharCode(d) == n + 7;
    PaletteIndexCycles(n);
    assert Color(Some([c])) == Palette[n % 7];
  }

  /** Adding seven to a code unit does not move its palette index. */
  lemma PaletteIndexCycles(n: nat)
    ensures (n + 7) % 7 == n % 7
  {
  }

  // ---------------------------------------------------------------------
  // The assistant preview
  // ---------------------------------------------------------------------

  /** `assistants.slice(0, 5)`: the rows the dashboard renders. */
  function Preview(assistants: seq<Assistant>): (r: seq<Assistant>)
    ensures |r| <= 5 && |r| <= |assistants|
    ensures forall j | 0 <= j < |r| :: r[j] == assistants[j]
  {
    Seqs.Take(assistants, 5)
  }

  /** The "View All" button: more than five assistants. */
  predicate ShowsViewAll(assistants: seq<Assistant>) {
    |assistants| > 5
  }

  /** The button appears exactly when the preview leaves some assistant out. */
  lemma ViewAllIffTruncated(assistants: seq<Assistant>)
    ensures ShowsViewAll(assistants) <==> Preview(assistants) != assistants
    ensures !ShowsViewAll(assistants) ==> Preview(assistants) == assistants
  {
    if ShowsViewAll(assistants) {
      assert |Preview(assistants)| < |assistants|;
    }
  }

  /** `Boolean(assistant.default_phone?.phone_number)`. */
  predicate HasPhoneNumber(a: Assistant) {
    Truthy(Field(a.defaultPhone, "phone_number"))
  }

  /**
   * After `updateAssistantWithPhoneNumber` with a phone object carrying a
   * non-empty number, the updated assistant shows the phone badge.
   */
  lemma PhoneBadgeAfterUpdate(s: State, id: Scalar, number: string, i: nat)
    requires number != ""
    requires Seqs.IsFirstMatch(s.data, EntitySlice.HasId(IdOf, id), i)
    ensures HasPhoneNumber(SetPhoneNumber(s, id, Obj([("phone_number", Str(number))])).data[i])
  {
    var phone := Obj([("phone_number", Str(number))]);
    assert SetPhoneNumber(s, id, phone).data[i].defaultPhone == phone;
    assert FieldOf(phone.entries, "phone_number") == Str(number);
  }

  /** A phone object without a number, or an absent phone, shows no badge. */
  lemma NoNumberNoBadge(a: Assistant)
    requires !a.defaultPhone.Obj? || forall k | 0 <= k < |a.defaultPhone.entries| :: a.defaultPhone.entries[k].0 != "phone_number"
    ensures !HasPhoneNumber(a)
  {
  }
}
