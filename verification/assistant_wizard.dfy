/**
 * The three-step "create assistant" wizard: the language toggle of step 1,
 * the step / completed-steps machine, the payload posted after step 2, and
 * step 2's draft editor for databases and their columns.
 */
module AssistantWizard {
  import opened Wrappers
  import opened Text
  import Seqs
  import opened JsValues

  /** The languages offered in step 1, English first. */
  const AvailableLanguages := ["English", "Spanish", "French", "German", "Chinese", "Japanese"]

  /**
   * `handleLanguageToggle`: a selected language is removed (every copy of
   * it); an unselected one is appended at the end.
   */
  function ToggleLanguage(languages: seq<string>, lang: string): (r: seq<string>)
    ensures lang in languages ==> lang !in r
    ensures lang in languages ==> forall l | l in languages && l != lang :: l in r
    ensures lang in languages ==> forall l | l in r :: l in languages
    ensures lang !in languages ==> r == languages + [lang]
  {
    if lang in languages then Seqs.Filter(languages, l => l != lang)
    else languages + [lang]
  }

  /** Selecting a language and deselecting it again restores the list. */
  lemma ToggleTwiceRestores(languages: seq<string>, lang: string)
    requires lang !in languages
    ensures ToggleLanguage(ToggleLanguage(languages, lang), lang) == languages
  {
    var p := (l: string) => l != lang;
    Seqs.FilterAppend(languages, [lang], p);
    assert Seqs.Filter([lang], p) == [];
  }

  /** Deselecting keeps the other languages in their order. */
  lemma ToggleOffKeepsOrder(languages: seq<string>, lang: string)
    requires lang in languages
    ensures Seqs.IsSubsequence(ToggleLanguage(languages, lang), languages)
  {
    Seqs.FilterIsSubsequence(languages, l => l != lang);
  }

  /** `formData.languages.join(",")`, the single `language` field of the request. */
  function LanguageField(languages: seq<string>): string {
    Join(languages, ",")
  }

  /**
   * The joined field splits back into the selected languages when at least
   * one (comma-free) language is selected. An empty selection is sent as the
   * empty string, which reads back as one empty language, not as none.
   */
  lemma LanguageFieldRoundTrip(languages: seq<string>)
    requires forall k | 0 <= k < |languages| :: ',' !in languages[k]
    ensures |languages| > 0 ==> Split(LanguageField(languages), ',') == languages
    ensures |languages| == 0 ==> LanguageField(languages) == "" && Split(LanguageField(languages), ',') == [""]
  {
    if |languages| > 0 {
      assert "," == [','];
      SplitJoin(languages, ',');
    }
  }

  /** Every offered language is free of commas, so any non-empty selection round-trips. */
  lemma AvailableLanguagesHaveNoComma()
    ensures forall k | 0 <= k < |AvailableLanguages| :: ',' !in AvailableLanguages[k]
  {
  }

  // ---------------------------------------------------------------------
  // Step 2: the draft database / column editor
  // ---------------------------------------------------------------------

  /** One column of a draft table. */
  datatype Column = Column(name: string, displayName: string, colType: string, required: bool, isPrimaryKey: bool)

  /** The column draft the editor starts from and returns to after each add. */
  const DefaultColumn := Column("", "", "string", false, false)

  /** The database being drafted: it has no `name` until it is saved. */
  datatype DatabaseDraft = DatabaseDraft(displayName: string, description: string, columns: seq<Column>)

  const EmptyDraft := DatabaseDraft("", "", [])

  /** A saved database: the draft's fields plus the derived `name`. */
  datatype Database = Database(displayName: string, description: string, columns: seq<Column>, name: string)

  /** The editor's state together with the form's database list. */
  datatype Editor = Editor(
    databases: seq<Database>,
    draft: DatabaseDraft,
    addingDatabase: bool,
    newColumn: Column,
    addingColumn: bool)

  /**
   * Step 2's local state as it is when the step mounts: no draft, both
   * forms closed. The step is rendered inside `StepProgress`, a component
   * declared within the wizard's own render, so every `setFormData` gives
   * it a new identity and React mounts step 2 afresh in this state.
   */
  function Mounted(databases: seq<Database>): Editor {
    Editor(databases, EmptyDraft, false, DefaultColumn, false)
  }

  /** The editor after a handler ran, and the `alert` it raised, if any. */
  datatype Edited = Edited(editor: Editor, alert: Option<string>)

  const DatabaseNameAlert := "Please enter a database name"
  const ColumnNameAlert := "Please fill in column name and display name"

  /**
   * `s.toLowerCase().replace(/\s+/g, "_")`. Unlike the CSV header rule
   * nothing is trimmed, so surrounding whitespace becomes `_` as well.
   */
  function Slug(s: string): (r: string)
    ensures NoSpace(r) && NoUpper(r)
    ensures |r| <= |s|
    ensures NoSpace(s) && NoUpper(s) ==> r == s
  {
    CollapseSpaces(Lower(s))
  }

  /** A leading blank is not trimmed away: the slug starts with `_`. */
  lemma SlugKeepsLeadingBlank(s: string)
    requires |s| > 0 && IsSpace(s[0])
    ensures |Slug(s)| > 0 && Slug(s)[0] == '_'
  {
    assert IsSpace(Lower(s)[0]);
  }

  /** `handleAddNewDatabase`: an empty draft, with the add form open. */
  function AddNewDatabase(e: Editor): (r: Editor)
    ensures r.draft == EmptyDraft && r.addingDatabase
    ensures r.databases == e.databases && r.newColumn == e.newColumn && r.addingColumn == e.addingColumn
  {
    e.(draft := EmptyDraft, addingDatabase := true)
  }

  /**
   * `handleSaveDatabase`: a blank display name raises an alert and changes
   * nothing; otherwise the draft is appended under its slug, and the write
   * to the form remounts step 2, closing both forms.
   */
  function SaveDatabase(e: Editor): (r: Edited)
    ensures Trim(e.draft.displayName) == "" <==> r.alert.Some?
    ensures r.alert.Some? ==> r.editor == e && r.alert.value == DatabaseNameAlert
    ensures r.alert.None? ==>
      && |r.editor.databases| == |e.databases| + 1
      && r.editor.databases[..|e.databases|] == e.databases
      && r.editor.databases[|e.databases|]
         == Database(e.draft.displayName, e.draft.description, e.draft.columns, Slug(e.draft.displayName))
      && r.editor.draft == EmptyDraft
      && !r.editor.addingDatabase
      && r.editor.newColumn == DefaultColumn && !r.editor.addingColumn
  {
    if Trim(e.draft.displayName) == "" then Edited(e, Some(DatabaseNameAlert))
    else
      var d := e.draft;
      var saved := Database(d.displayName, d.description, d.columns, Slug(d.displayName));
      Edited(Mounted(e.databases + [saved]), None)
  }

  /** A saved database's name is a slug: no whitespace and no upper case. */
  lemma SavedNamesAreSlugs(e: Editor)
    requires SaveDatabase(e).alert.None?
    ensures var db := SaveDatabase(e).editor.databases[|e.databases|];
      NoSpace(db.name) && NoUpper(db.name) && Trim(db.displayName) != ""
  {
  }

  /**
   * `handleAddColumn`: a blank name or display name raises an alert and
   * changes nothing; otherwise the column is appended to the draft with its
   * name slugged, and the column form returns to its defaults. Duplicate
   * names and several primary keys are accepted.
   */
  function AddColumn(e: Editor): (r: Edited)
    ensures (Trim(e.newColumn.name) == "" || Trim(e.newColumn.displayName) == "") <==> r.alert.Some?
    ensures r.alert.Some? ==> r.editor == e && r.alert.value == ColumnNameAlert
    ensures r.alert.None? ==>
      && |r.editor.draft.columns| == |e.draft.columns| + 1
      && r.editor.draft.columns[..|e.draft.columns|] == e.draft.columns
      && r.editor.draft.columns[|e.draft.columns|] == e.newColumn.(name := Slug(e.newColumn.name))
      && r.editor.draft.displayName == e.draft.displayName
      && r.editor.draft.description == e.draft.description
      && r.editor.newColumn == DefaultColumn && !r.editor.addingColumn
      && r.editor.databases == e.databases && r.editor.addingDatabase == e.addingDatabase
  {
    var c := e.newColumn;
    if Trim(c.name) == "" || Trim(c.displayName) == "" then Edited(e, Some(ColumnNameAlert))
    else
      var added := c.(name := Slug(c.name));
      var d := e.draft.(columns := e.draft.columns + [added]);
      Edited(e.(draft := d, newColumn := DefaultColumn, addingColumn := false), None)
  }

  /** `handleDeleteColumn(i)`: the draft loses column `i`, if it exists. */
  function DeleteColumn(e: Editor, i: int): (r: Editor)
    ensures |r.draft.columns| <= |e.draft.columns|
    ensures !(0 <= i < |e.draft.columns|) ==> r == e
    ensures 0 <= i < |e.draft.columns| ==>
      |r.draft.columns| == |e.draft.columns| - 1
      && multiset(r.draft.columns) + multiset{e.draft.columns[i]} == multiset(e.draft.columns)
    ensures forall j | 0 <= j < i && j < |r.draft.columns| :: r.draft.columns[j] == e.draft.columns[j]
    ensures 0 <= i < |e.draft.columns| ==>
      forall j | i <= j < |r.draft.columns| :: r.draft.columns[j] == e.draft.columns[j + 1]
    ensures r.databases == e.databases && r.draft.displayName == e.draft.displayName
  {
    Seqs.RemoveAtMultiset(e.draft.columns, i);
    var cols := Seqs.RemoveAt(e.draft.columns, i);
    if !(0 <= i < |e.draft.columns|) then e
    else e.(draft := e.draft.(columns := cols))
  }

  /**
   * `handleDeleteDatabase(i)`: database `i` goes, if it exists. The form is
   * written even when nothing is removed, so step 2 always remounts: the
   * draft is dropped and both forms close.
   */
  function DeleteDatabase(e: Editor, i: int): (r: Editor)
    ensures |r.databases| <= |e.databases|
    ensures !(0 <= i < |e.databases|) ==> r.databases == e.databases
    ensures 0 <= i < |e.databases| ==>
      |r.databases| == |e.databases| - 1
      && multiset(r.databases) + multiset{e.databases[i]} == multiset(e.databases)
    ensures forall j | 0 <= j < i && j < |r.databases| :: r.databases[j] == e.databases[j]
    ensures 0 <= i < |e.databases| ==> forall j | i <= j < |r.databases| :: r.databases[j] == e.databases[j + 1]
    ensures r.draft == EmptyDraft && !r.addingDatabase
    ensures r.newColumn == DefaultColumn && !r.addingColumn
  {
    Seqs.RemoveAtMultiset(e.databases, i);
    Mounted(Seqs.RemoveAt(e.databases, i))
  }

  /** Deleting a database just saved restores the list, with step 2 freshly mounted. */
  lemma DeleteUndoesSave(e: Editor)
    requires SaveDatabase(e).alert.None?
    ensures DeleteDatabase(SaveDatabase(e).editor, |e.databases|) == Mounted(e.databases)
  {
    var after := SaveDatabase(e).editor.databases;
    assert Seqs.RemoveAt(after, |e.databases|) == after[..|e.databases|];
  }

  // ---------------------------------------------------------------------
  // The request posted after step 2
  // ---------------------------------------------------------------------

  /** The wizard's form. `services` and `phone_number` are never edited or sent. */
  datatype Form = Form(
    assistantName: string,
    description: string,
    agentDescription: string,
    websiteUrl: string,
    specialization: string,
    callPreference: string,
    languages: seq<string>,
    isActive: bool,
    databases: seq<Database>)

  const InitialForm := Form("", "", "", "", "general", "inbound", ["English"], true, [])

  function ColumnValue(c: Column): JsValue {
    Obj([("name", Str(c.name)), ("display_name", Str(c.displayName)), ("type", Str(c.colType)),
         ("required", Bool(c.required)), ("is_primary_key", Bool(c.isPrimaryKey))])
  }

  /** A saved database as the object the form holds: draft keys first, then `name`. */
  function DatabaseValue(db: Database): JsValue {
    Obj([("display_name", Str(db.displayName)), ("description", Str(db.description)),
         ("columns", Arr(Seqs.Map(db.columns, ColumnValue))), ("name", Str(db.name))])
  }

  /**
   * `assistantData`, in key order. The form never sets `dataSource` or
   * `uploadedFile`, so their fallbacks `""` and `null` are always sent.
   */
  function CreatePayload(f: Form, token: string): (entries: seq<(string, JsValue)>)
    ensures |entries| == 12
    ensures entries[4] == ("language", Str(LanguageField(f.languages)))
    ensures entries[9] == ("dataSource", Str("")) && entries[10] == ("uploadedFile", JsValue.Null)
    ensures entries[11] == ("token", Str(token))
    ensures entries[8].0 == "databases" && entries[8].1.Arr? && |entries[8].1.items| == |f.databases|
  {
    [ ("assistant_name", Str(f.assistantName)),
      ("is_active", Bool(f.isActive)),
      ("specialization", Str(f.specialization)),
      ("call_preference", Str(f.callPreference)),
      ("language", Str(LanguageField(f.languages))),
      ("description", Str(f.description)),
      ("website_url", Str(f.websiteUrl)),
      ("agent_description", Str(f.agentDescription)),
      ("databases", Arr(Seqs.Map(f.databases, DatabaseValue))),
      ("dataSource", Str("")),
      ("uploadedFile", JsValue.Null),
      ("token", Str(token)) ]
  }

  // ---------------------------------------------------------------------
  // The step machine
  // ---------------------------------------------------------------------

  /** `currentStep`, `completedSteps` and the created `assistant` (initially `null`). */
  datatype Wizard = Wizard(step: int, completed: seq<int>, assistant: JsValue)

  const InitialWizard := Wizard(1, [], JsValue.Null)

  /**
   * What leaving step 2 met: the token `getToken` produced, and the
   * `createAssistant` result — `Some(payload)` when it was fulfilled.
   */
  datatype CreateAttempt = CreateAttempt(token: Option<string>, created: Option<JsValue>)

  /** The request `goToNextStep` dispatches: only from step 2, and only with a token. */
  function NextStepRequest(w: Wizard, f: Form, attempt: CreateAttempt): (r: Option<seq<(string, JsValue)>>)
    ensures r.Some? <==> w.step == 2 && Present(attempt.token)
    ensures r.Some? ==> r.value == CreatePayload(f, attempt.token.value)
  {
    if w.step == 2 && Present(attempt.token) then Some(CreatePayload(f, attempt.token.value)) else None
  }

  /**
   * Whether the browser lets step 1's form submit, which is the only way
   * step 1 reaches `goToNextStep`: `assistant_name` and `description` are
   * `required`, and `website_url` is a `type="url"` input that must be empty
   * or hold a URL the browser accepts (that test is `urlAccepted`).
   */
  predicate Step1Submits(f: Form, urlAccepted: bool) {
    f.assistantName != "" && f.description != "" && (f.websiteUrl == "" || urlAccepted)
  }

  /**
   * Pressing "Next". Step 1 advances only when its form submits. Step 2
   * advances only when the token is present and the creation was
   * fulfilled, keeping the created assistant. Step 3 stays put.
   */
  function NextStep(w: Wizard, f: Form, urlAccepted: bool, attempt: CreateAttempt): (r: Wizard)
    ensures w.step == 1 && !Step1Submits(f, urlAccepted) ==> r == w
    ensures w.step == 2 && Present(attempt.token) && attempt.created.Some? ==>
      r == Wizard(3, w.completed + [2], attempt.created.value)
    ensures w.step == 2 && !(Present(attempt.token) && attempt.created.Some?) ==> r == w
    ensures w.step != 2 && w.step < 3 && (w.step == 1 ==> Step1Submits(f, urlAccepted)) ==>
      r == w.(step := w.step + 1, completed := w.completed + [w.step])
    ensures w.step >= 3 ==> r == w
  {
    if w.step == 1 && !Step1Submits(f, urlAccepted) then w
    else if w.step == 2 then
      if Present(attempt.token) && attempt.created.Some? then
        Wizard(w.step + 1, w.completed + [w.step], attempt.created.value)
      else w
    else if w.step < 3 then
      w.(step := w.step + 1, completed := w.completed + [w.step])
    else w
  }

  /** `goToPreviousStep`: one step back from steps 2 and 3; `completedSteps` is kept. */
  function PreviousStep(w: Wizard): (r: Wizard)
    ensures w.step > 1 ==> r.step == w.step - 1
    ensures w.step <= 1 ==> r == w
    ensures r.completed == w.completed && r.assistant == w.assistant
  {
    if w.step > 1 then w.(step := w.step - 1) else w
  }

  /** The buttons the wizard's user presses. */
  datatype Press = Next(form: Form, urlAccepted: bool, attempt: CreateAttempt) | Previous

  function Apply(w: Wizard, p: Press): Wizard {
    match p
    case Next(f, url, a) => NextStep(w, f, url, a)
    case Previous => PreviousStep(w)
  }

  function Run(w: Wizard, presses: seq<Press>): Wizard
    decreases |presses|
  {
    if |presses| == 0 then w else Run(Apply(w, presses[0]), presses[1..])
  }

  /**
   * What every reachable wizard satisfies: the step is 1, 2 or 3; only steps
   * 1 and 2 are ever recorded as completed; reaching step 2 required
   * completing step 1, and reaching step 3 required completing step 2.
   */
  ghost predicate Valid(w: Wizard) {
    && 1 <= w.step <= 3
    && (forall k | 0 <= k < |w.completed| :: w.completed[k] == 1 || w.completed[k] == 2)
    && (w.step >= 2 ==> 1 in w.completed)
    && (w.step == 3 ==> 2 in w.completed)
  }

  lemma InitialValid()
    ensures Valid(InitialWizard)
  {
  }

  /** Each press keeps the wizard valid. */
  lemma ApplyKeepsValid(w: Wizard, p: Press)
    requires Valid(w)
    ensures Valid(Apply(w, p))
  {
    var r := Apply(w, p);
    if p.Next? && r.completed != w.completed {
      assert r.completed == w.completed + [w.step];
      assert forall k | 0 <= k < |w.completed| :: r.completed[k] == w.completed[k];
      assert r.completed[|w.completed|] == w.step;
    }
  }

  /** Any sequence of presses from the start keeps the wizard valid. */
  lemma {:induction false} RunKeepsValid(w: Wizard, presses: seq<Press>)
    requires Valid(w)
    ensures Valid(Run(w, presses))
    decreases |presses|
  {
    if |presses| > 0 {
      ApplyKeepsValid(w, presses[0]);
      RunKeepsValid(Apply(w, presses[0]), presses[1..]);
    }
  }

  /** In particular every wizard reachable from the start is on step 1, 2 or 3. */
  lemma ReachableStepInRange(presses: seq<Press>)
    ensures 1 <= Run(InitialWizard, presses).step <= 3
  {
    InitialValid();
    RunKeepsValid(InitialWizard, presses);
  }
}
