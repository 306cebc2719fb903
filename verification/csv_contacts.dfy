/**
 * The campaign page's contact import: a naive CSV reader that splits the
 * trimmed file on `\n` and each line on `,`, deletes every `"` and trims the
 * pieces. It does not implement the quoting rules of section 2 of RFC 4180:
 * a quoted field holding a comma is split like any other text. Also the
 * edits on the imported rows, the paged preview, and the guards in front of
 * the bulk-call request.
 */
module CsvContacts {
  import opened Wrappers
  import opened Text
  import Seqs
  import opened JsValues

  /** One imported contact: header name to cell text. */
  type Row = map<string, string>

  /**
   * `normalizeFieldName`: lower-case, turn each whitespace run into `_`,
   * then trim (which finds nothing left to remove).
   */
  function NormalizeFieldName(s: string): (r: string)
    ensures NoSpace(r) && NoUpper(r)
    ensures |r| <= |s|
    ensures NoUpper(s) && NoSpace(s) ==> r == s
  {
    Trim(CollapseSpaces(Lower(s)))
  }

  /** Normalizing a normalized name changes nothing. */
  lemma NormalizeIdempotent(s: string)
    ensures NormalizeFieldName(NormalizeFieldName(s)) == NormalizeFieldName(s)
  {
  }

  /** A whitespace run inside a field name becomes exactly one `_`. */
  lemma NormalizeRun(a: string, w: string, b: string)
    requires NoSpace(a) && NoSpace(b) && |w| > 0 && AllSpace(w)
    ensures NormalizeFieldName(a + w + b) == Lower(a) + "_" + Lower(b)
  {
    var la, lw, lb := Lower(a), Lower(w), Lower(b);
    LowerAppend(a + w, b);
    LowerAppend(a, w);
    assert Lower(a + w + b) == la + lw + lb;
    assert NoSpace(la) && NoSpace(lb) && AllSpace(lw);
    CollapseSpacesRun(la, lw, lb);
    assert CollapseSpaces(la) == la && CollapseSpaces(lb) == lb;
    NoSpaceJoin(la, lb);
  }

  /** Two space-free pieces joined by `_` are space-free. */
  lemma NoSpaceJoin(x: string, y: string)
    requires NoSpace(x) && NoSpace(y)
    ensures NoSpace(x + "_" + y)
  {
    var r := x + "_" + y;
    forall i | 0 <= i < |r| ensures !IsSpace(r[i]) {
      if i < |x| { assert r[i] == x[i]; }
      else if i > |x| { assert r[i] == y[i - |x| - 1]; }
    }
  }

  /** A header or value cell: trimmed, then every `"` removed. */
  function CleanCell(s: string): (r: string)
    ensures '"' !in r
    ensures |r| <= |s|
  {
    RemoveChar(Trim(s), '"')
  }

  /** A header cell: cleaned, then normalized. */
  function HeaderName(cell: string): (r: string)
    ensures '"' !in r && NoSpace(r) && NoUpper(r)
  {
    var c := CleanCell(cell);
    var r := NormalizeFieldName(c);
    assert forall i | 0 <= i < |Lower(c)| :: Lower(c)[i] != '"';
    assert forall i | 0 <= i < |CollapseSpaces(Lower(c))| :: CollapseSpaces(Lower(c))[i] != '"';
    r
  }

  /** `content.trim().split("\n")`: never empty, since splitting always yields a piece. */
  function Lines(content: string): (lines: seq<string>)
    ensures |lines| >= 1
    ensures |lines| == CountChar(Trim(content), '\n') + 1
  {
    Split(Trim(content), '\n')
  }

  /** The values of one data line, cleaned, in column order. */
  function LineValues(line: string): (vs: seq<string>)
    ensures |vs| == CountChar(line, ',') + 1
    ensures forall k | 0 <= k < |vs| :: '"' !in vs[k] && ',' !in vs[k]
  {
    var cells := Split(line, ',');
    var vs := Seqs.Map(cells, CleanCell);
    assert forall k | 0 <= k < |vs| :: vs[k] == CleanCell(cells[k]);
    forall k | 0 <= k < |vs| ensures ',' !in vs[k] {
      NoNewChar(Trim(cells[k]), ',', '"');
    }
    vs
  }

  /** Removing one character and trimming never introduce a character that was absent. */
  lemma NoNewChar(s: string, c: char, x: char)
    requires c !in s
    ensures c !in RemoveChar(s, x)
  {
  }

  /** The header names of the first line, one per comma-separated cell. */
  function HeaderRow(content: string): (hs: seq<string>)
    ensures |hs| == CountChar(Lines(content)[0], ',') + 1
    ensures forall k | 0 <= k < |hs| :: '"' !in hs[k] && NoSpace(hs[k]) && NoUpper(hs[k])
  {
    Seqs.Map(Split(Lines(content)[0], ','), HeaderName)
  }

  /**
   * `parseCsvHeaders`. Its "CSV file is empty." error is unreachable: the
   * line list always holds at least one line.
   */
  function ParseCsvHeaders(content: string): (r: Result<seq<string>, string>)
    ensures r.Success?
    ensures |r.value| == CountChar(Lines(content)[0], ',') + 1
    ensures forall k | 0 <= k < |r.value| :: '"' !in r.value[k] && NoSpace(r.value[k]) && NoUpper(r.value[k])
  {
    var lines := Lines(content);
    if |lines| < 1 then Failure("CSV file is empty.")
    else Success(HeaderRow(content))
  }

  /** An empty file has the single header `""`. */
  lemma EmptyContentHeaders()
    ensures ParseCsvHeaders("") == Success([""])
  {
    assert Trim("") == "";
    assert Lines("") == [""];
    assert Split("", ',') == [""];
    assert HeaderName("") == "";
    assert Seqs.Map([""], HeaderName) == [""];
  }

  /** `values[k] || ""`: a missing or empty value reads as `""`. */
  function CellAt(values: seq<string>, k: nat): (v: string)
    ensures k < |values| ==> v == values[k]
    ensures k >= |values| ==> v == ""
  {
    if k < |values| && values[k] != "" then values[k] else ""
  }

  /** `k` is the rightmost position holding `headers[k]`. */
  predicate IsLastOccurrence(headers: seq<string>, k: int) {
    0 <= k < |headers| && forall j | k < j < |headers| :: headers[j] != headers[k]
  }

  /** `row` has one key per header name, and no other key. */
  ghost predicate KeyedBy(row: Row, headers: seq<string>) {
    forall h :: h in row <==> h in headers
  }

  /** Each header of `row` holds the value of its rightmost column. */
  ghost predicate RightmostWins(row: Row, headers: seq<string>, values: seq<string>)
    requires KeyedBy(row, headers)
  {
    forall k | IsLastOccurrence(headers, k) :: row[headers[k]] == CellAt(values, k)
  }

  /**
   * `headers.forEach((h, k) => { row[h] = values[k] || ""; })`: one key per
   * distinct header; a repeated header keeps the value of its rightmost
   * column, because later assignments overwrite earlier ones.
   */
  function BuildRow(headers: seq<string>, values: seq<string>): (row: Row)
    ensures KeyedBy(row, headers)
    ensures RightmostWins(row, headers, values)
    decreases |headers|
  {
    if |headers| == 0 then map[]
    else
      var n := |headers| - 1;
      var prev := BuildRow(headers[..n], values);
      BuildRowStep(headers, values, prev);
      prev[headers[n] := CellAt(values, n)]
  }

  /** One `forEach` step: assigning the last header keeps both properties. */
  lemma BuildRowStep(headers: seq<string>, values: seq<string>, prev: Row)
    requires |headers| > 0
    requires KeyedBy(prev, headers[..|headers| - 1])
    requires RightmostWins(prev, headers[..|headers| - 1], values)
    ensures KeyedBy(prev[headers[|headers| - 1] := CellAt(values, |headers| - 1)], headers)
    ensures RightmostWins(prev[headers[|headers| - 1] := CellAt(values, |headers| - 1)], headers, values)
  {
    BuildRowStepKeys(headers, values, prev);
    BuildRowStepValues(headers, values, prev);
  }

  lemma BuildRowStepKeys(headers: seq<string>, values: seq<string>, prev: Row)
    requires |headers| > 0
    requires KeyedBy(prev, headers[..|headers| - 1])
    ensures KeyedBy(prev[headers[|headers| - 1] := CellAt(values, |headers| - 1)], headers)
  {
    var n := |headers| - 1;
    var prefix := headers[..n];
    var row := prev[headers[n] := CellAt(values, n)];
    forall h ensures h in row <==> h in headers {
      if h in headers && h != headers[n] {
        var k :| 0 <= k < |headers| && headers[k] == h;
        assert prefix[k] == h;
      }
      if h in prefix {
        var k :| 0 <= k < n && prefix[k] == h;
        assert headers[k] == h;
      }
    }
  }

  lemma BuildRowStepValues(headers: seq<string>, values: seq<string>, prev: Row)
    requires |headers| > 0
    requires KeyedBy(prev, headers[..|headers| - 1])
    requires RightmostWins(prev, headers[..|headers| - 1], values)
    requires KeyedBy(prev[headers[|headers| - 1] := CellAt(values, |headers| - 1)], headers)
    ensures RightmostWins(prev[headers[|headers| - 1] := CellAt(values, |headers| - 1)], headers, values)
  {
    var n := |headers| - 1;
    var prefix := headers[..n];
    var row := prev[headers[n] := CellAt(values, n)];
    forall k | IsLastOccurrence(headers, k) ensures row[headers[k]] == CellAt(values, k) {
      if k < n {
        assert headers[n] != headers[k];
        assert IsLastOccurrence(prefix, k) by {
          forall j | k < j < n ensures prefix[j] != prefix[k] {
            assert prefix[j] == headers[j];
          }
        }
        assert prefix[k] == headers[k];
        assert row[headers[k]] == prev[headers[k]];
      }
    }
  }

  /** `parseCsvContent`: one row per line after the first, in file order. */
  function ParseCsvContent(content: string): (rows: seq<Row>)
    ensures |rows| == |Lines(content)| - 1
    ensures forall i | 0 <= i < |rows| :: KeyedBy(rows[i], HeaderRow(content))
    ensures forall i | 0 <= i < |rows| ::
      RightmostWins(rows[i], HeaderRow(content), LineValues(Lines(content)[i + 1]))
  {
    var lines := Lines(content);
    DataRows(HeaderRow(content), lines[1..])
  }

  /** One row per data line, each built against the same header list. */
  function DataRows(headers: seq<string>, lines: seq<string>): (rows: seq<Row>)
    ensures |rows| == |lines|
    ensures forall i | 0 <= i < |rows| :: KeyedBy(rows[i], headers)
    ensures forall i | 0 <= i < |rows| :: RightmostWins(rows[i], headers, LineValues(lines[i]))
  {
    if |lines| == 0 then []
    else
      var tail := DataRows(headers, lines[1..]);
      assert forall i | 1 <= i < |lines| :: lines[1..][i - 1] == lines[i];
      [BuildRow(headers, LineValues(lines[0]))] + tail
  }

  /** The rows are keyed by exactly the headers `parseCsvHeaders` reports. */
  lemma RowsKeyedByHeaders(content: string, i: int)
    requires 0 <= i < |ParseCsvContent(content)|
    ensures forall h :: h in ParseCsvContent(content)[i] <==> h in ParseCsvHeaders(content).value
  {
  }

  /** A value cell beyond the last comma of a short line reads as `""`; surplus values are dropped. */
  lemma ShortLineValue(content: string, i: int, k: int)
    requires 0 <= i < |ParseCsvContent(content)|
    requires IsLastOccurrence(HeaderRow(content), k)
    requires k > CountChar(Lines(content)[i + 1], ',')
    ensures ParseCsvContent(content)[i][HeaderRow(content)[k]] == ""
  {
    var rows := ParseCsvContent(content);
    assert RightmostWins(rows[i], HeaderRow(content), LineValues(Lines(content)[i + 1]));
  }

  /** `handleDeleteContact(i)`: row `i` goes, the others keep their order. */
  function DeleteContact(rows: seq<Row>, i: int): (r: seq<Row>)
    ensures |r| <= |rows|
    ensures 0 <= i < |rows| ==> |r| == |rows| - 1 && multiset(r) + multiset{rows[i]} == multiset(rows)
    ensures forall j | 0 <= j < i && j < |r| :: r[j] == rows[j]
    ensures 0 <= i < |rows| ==> forall j | i <= j < |r| :: r[j] == rows[j + 1]
    ensures !(0 <= i < |rows|) ==> r == rows
  {
    Seqs.RemoveAtMultiset(rows, i);
    Seqs.RemoveAt(rows, i)
  }

  /**
   * `handleEditContact(i, field, value)`: only `field` of row `i` changes.
   * The page only offers indices of rendered rows.
   */
  function EditContact(rows: seq<Row>, i: int, field: string, value: string): (r: seq<Row>)
    requires 0 <= i < |rows|
    ensures |r| == |rows|
    ensures r[i].Keys == rows[i].Keys + {field} && r[i][field] == value
    ensures forall key | key in rows[i] && key != field :: r[i][key] == rows[i][key]
    ensures forall j | 0 <= j < |rows| && j != i :: r[j] == rows[j]
  {
    rows[i := rows[i][field := value]]
  }

  /** The preview limit a freshly imported file starts with. */
  const InitialPreviewLimit: nat := 10

  /** `handleShowMore`: the limit grows by ten. */
  function ShowMore(limit: nat): nat {
    limit + 10
  }

  /** `csvRowData.slice(0, previewLimit)`: the rendered rows. */
  function PreviewRows(rows: seq<Row>, limit: nat): (shown: seq<Row>)
    ensures |shown| == if limit < |rows| then limit else |rows|
    ensures shown == rows[..|shown|]
  {
    Seqs.Take(rows, limit)
  }

  /** The "Show 10 more" control appears exactly when some row is not rendered. */
  predicate ShowMoreVisible(rows: seq<Row>, limit: nat)
    ensures ShowMoreVisible(rows, limit) <==> |PreviewRows(rows, limit)| < |rows|
  {
    limit < |rows|
  }

  /** The "Showing all" note appears when every row of a list longer than ten is rendered. */
  predicate ShowingAllVisible(rows: seq<Row>, limit: nat)
    ensures ShowingAllVisible(rows, limit) ==> PreviewRows(rows, limit) == rows
  {
    limit >= |rows| && |rows| > 10
  }

  /** Pressing "Show 10 more" reveals up to ten more rows, keeping the ones already shown. */
  lemma ShowMoreReveals(rows: seq<Row>, limit: nat)
    requires ShowMoreVisible(rows, limit)
    ensures |PreviewRows(rows, ShowMore(limit))| == if limit + 10 < |rows| then limit + 10 else |rows|
    ensures |PreviewRows(rows, ShowMore(limit))| > |PreviewRows(rows, limit)|
    ensures PreviewRows(rows, limit) == PreviewRows(rows, ShowMore(limit))[..limit]
  {
  }

  /** The page's inputs to the bulk-call request. */
  datatype CampaignForm = CampaignForm(campaignName: string, description: string, assistantId: string, executionMode: string)

  datatype CallSettings = CallSettings(initialMessageTemplate: string, callDelaySeconds: int)

  /** The body posted to start a campaign, with the caller's token. */
  datatype CampaignRequest = CampaignRequest(
    campaignName: string,
    description: string,
    assistantId: string,
    executionMode: string,
    candidates: seq<Row>,
    callDelaySeconds: int,
    initialMessageTemplate: Option<string>,
    token: string)

  /** What pressing "Start calls" does: show an error, or dispatch the request. */
  datatype BulkCallStep = Refused(message: string) | Dispatch(request: CampaignRequest)

  const NotReadyMessage := "Complete the campaign details above before starting calls."
  const NoRowsMessage := "Please upload and process a CSV file first."
  const NoAssistantMessage := "Select an assistant before starting calls."
  const NoTokenMessage := "Authentication token not available. Please refresh and try again."

  /** `isCampaignReady`: name and description non-blank, an assistant and a token, assistants loaded. */
  predicate IsCampaignReady(form: CampaignForm, authToken: Option<string>, assistantsLoading: bool) {
    Trim(form.campaignName) != "" && Trim(form.description) != "" && form.assistantId != ""
    && Present(authToken) && !assistantsLoading
  }

  /**
   * `handleBulkCall`: four guards checked in order (campaign ready, rows
   * present, assistant chosen, token present), each with its own message;
   * past them the request is dispatched.
   */
  function BulkCall(ready: bool, rows: seq<Row>, form: CampaignForm, authToken: Option<string>, settings: CallSettings): (r: BulkCallStep)
    ensures r.Dispatch? <==> ready && |rows| > 0 && form.assistantId != "" && Present(authToken)
    ensures !ready ==> r == Refused(NotReadyMessage)
    ensures ready && |rows| == 0 ==> r == Refused(NoRowsMessage)
    ensures ready && |rows| > 0 && form.assistantId == "" ==> r == Refused(NoAssistantMessage)
    ensures ready && |rows| > 0 && form.assistantId != "" && !Present(authToken) ==> r == Refused(NoTokenMessage)
    ensures r.Dispatch? ==>
      && r.request.candidates == rows
      && r.request.assistantId == form.assistantId
      && r.request.token == authToken.value
      && r.request.campaignName == Trim(form.campaignName)
      && r.request.description == Trim(form.description)
      && r.request.executionMode == form.executionMode
      && r.request.callDelaySeconds == settings.callDelaySeconds
    ensures r.Dispatch? ==> (r.request.initialMessageTemplate.Some? <==> Trim(settings.initialMessageTemplate) != "")
    ensures r.Dispatch? && r.request.initialMessageTemplate.Some? ==>
      r.request.initialMessageTemplate.value == Trim(settings.initialMessageTemplate)
  {
    if !ready then Refused(NotReadyMessage)
    else if |rows| == 0 then Refused(NoRowsMessage)
    else if form.assistantId == "" then Refused(NoAssistantMessage)
    else if !Present(authToken) then Refused(NoTokenMessage)
    else
      var template := Trim(settings.initialMessageTemplate);
      Dispatch(CampaignRequest(
        Trim(form.campaignName),
        Trim(form.description),
        form.assistantId,
        form.executionMode,
        rows,
        settings.callDelaySeconds,
        if template != "" then Some(template) else None,
        authToken.value))
  }

  /**
   * With the readiness the page computes, the assistant and token guards can
   * never fire: the call is dispatched exactly when the page is ready and
   * rows were imported.
   */
  lemma ReadyMakesLaterGuardsRedundant(rows: seq<Row>, form: CampaignForm, authToken: Option<string>, loading: bool, settings: CallSettings)
    ensures BulkCall(IsCampaignReady(form, authToken, loading), rows, form, authToken, settings).Dispatch?
      <==> IsCampaignReady(form, authToken, loading) && |rows| > 0
  {
  }

  const InitiatedSuffix := " initiated successfully."

  /**
   * The confirmation shown once the campaign request succeeds: "Call
   * initiated successfully." for one contact, "Bulk calls initiated
   * successfully." for any other count.
   */
  function InitiatedMessage(count: nat): (m: string)
    ensures count == 1 <==> m == "Call" + InitiatedSuffix
    ensures count != 1 <==> m == "Bulk calls" + InitiatedSuffix
  {
    DifferAtFirst("Call" + InitiatedSuffix, "Bulk calls" + InitiatedSuffix);
    (if count == 1 then "Call" else "Bulk calls") + InitiatedSuffix
  }
}
