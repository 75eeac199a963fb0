/** The schema/change summariser shared by the scoring engine and the stable-schema helpers:
    `get_last_complete_check` and `summarise_resource_changes`. Both Python files carry the same
    code; one definition here models both copies. */
module CheckHistory {
  import opened Common
  import opened Metadata

  const FsFingerprint: string := "File structure check completed"
  const ShapeFingerprint: string := "Import successful"
  const SheetChangedEvent: string := "spreadsheet-sheet-changed"
  /** The date a successful shape check without a timestamp is summarised as. */
  const NoTimestampDate: string := "1900-01-01"

  /** The two history keys the code looks up. */
  datatype HistoryKey = FsCheckInfo | ShapeInfo

  function KeyName(key: HistoryKey): string {
    match key
    case FsCheckInfo => "fs_check_info"
    case ShapeInfo => "shape_info"
  }

  /** The message that marks a successful check under `key`. */
  function Fingerprint(key: HistoryKey): string {
    if key == ShapeInfo then ShapeFingerprint else FsFingerprint
  }

  /** The record `get_last_complete_check` returns: `{}` or one history record. */
  datatype CheckRecord = NoCheck | FsRecord(fs: FsCheck) | ShapeRecord(shape: ShapeCheck)

  /** The status text `get_last_complete_check` returns; callers compare it with "Success". */
  datatype Status = Success | KeyNotFound(key: string) | NoMatch(fingerprint: string, resourceName: string)

  // ---------------------------------------------------------------------------------------------
  // get_last_complete_check

  /** The message of each history entry; `None` for a bare string, whose indexing by
      "message" raises the TypeError the scan catches. */
  function Messages<T>(history: seq<Entry<T>>, message: T -> string): (ms: seq<Option<string>>)
    ensures |ms| == |history|
    ensures forall i {:trigger ms[i]} :: 0 <= i < |history| ==>
              ms[i] == if history[i].Record? then Some(message(history[i].record)) else None
  {
    seq(|history|, i requires 0 <= i < |history| =>
      if history[i].Record? then Some(message(history[i].record)) else None)
  }

  /** The messages of the history stored under `key`, or `None` when the key is absent. */
  function HistoryMessages(r: Resource, key: HistoryKey): Option<seq<Option<string>>> {
    match key
    case FsCheckInfo => if r.fsCheckInfo.Some? then Some(Messages(r.fsCheckInfo.value, (c: FsCheck) => c.message)) else None
    case ShapeInfo => if r.shapeInfo.Some? then Some(Messages(r.shapeInfo.value, (c: ShapeCheck) => c.message)) else None
  }

  /** The record at position `i` of the history under `key`. */
  function RecordAt(r: Resource, key: HistoryKey, i: nat): CheckRecord
    requires HistoryMessages(r, key).Some? && i < |HistoryMessages(r, key).value|
  {
    match key
    case FsCheckInfo =>
      var e := r.fsCheckInfo.value[i];
      if e.Record? then FsRecord(e.record) else NoCheck
    case ShapeInfo =>
      var e := r.shapeInfo.value[i];
      if e.Record? then ShapeRecord(e.record) else NoCheck
  }

  /** The position of the last message equal to `fingerprint`: a scan from the end. */
  function LastMatch(messages: seq<Option<string>>, fingerprint: string): (r: Option<nat>)
    ensures r.Some? ==> r.value < |messages| && messages[r.value] == Some(fingerprint)
    ensures r.Some? ==> forall j :: r.value < j < |messages| ==> messages[j] != Some(fingerprint)
    ensures r.None? <==> forall j :: 0 <= j < |messages| ==> messages[j] != Some(fingerprint)
    decreases |messages|
  {
    if messages == [] then None
    else if messages[|messages| - 1] == Some(fingerprint) then Some(|messages| - 1)
    else LastMatch(messages[..|messages| - 1], fingerprint)
  }

  /** What `get_last_complete_check(resource, key)` returns, with an empty history list
      treated as "no match" (see `LastCompleteCheckAsWritten` for the code as written). */
  function LastCompleteCheck(r: Resource, key: HistoryKey): (result: (CheckRecord, Status))
    ensures result.1 == Success && key == FsCheckInfo ==> result.0.FsRecord?
    ensures result.1 == Success && key == ShapeInfo ==> result.0.ShapeRecord?
    ensures result.1 != Success ==> result.0 == NoCheck
  {
    match HistoryMessages(r, key)
    case None => (NoCheck, KeyNotFound(KeyName(key)))
    case Some(messages) =>
      match LastMatch(messages, Fingerprint(key))
      case Some(i) => (RecordAt(r, key, i), Success)
      case None => (NoCheck, NoMatch(Fingerprint(key), r.name))
  }

  /** The Python as written: when the key is present but its list is empty, the loop never
      binds `check`, and building the error text raises UnboundLocalError (`None` here). */
  function LastCompleteCheckAsWritten(r: Resource, key: HistoryKey): Option<(CheckRecord, Status)> {
    match HistoryMessages(r, key)
    case None => Some((NoCheck, KeyNotFound(KeyName(key))))
    case Some(messages) =>
      match LastMatch(messages, Fingerprint(key))
      case Some(i) => Some((RecordAt(r, key, i), Success))
      case None => if messages == [] then None else Some((NoCheck, NoMatch(Fingerprint(key), r.name)))
  }

  /** A resource whose `fs_check_info` is an empty list makes the code as written raise,
      while the intended outcome is the "could not find" error. */
  lemma EmptyHistoryRaises(name: string)
    ensures var r := Resource(name, "id", "CSV", None, None, None, None, Some([]), None);
            LastCompleteCheckAsWritten(r, FsCheckInfo).None? &&
            LastCompleteCheck(r, FsCheckInfo) == (NoCheck, NoMatch(FsFingerprint, name))
  {
  }

  /** The empty list is the only input on which the code as written and the corrected
      definition differ. */
  lemma AsWrittenAgreesOtherwise(r: Resource, key: HistoryKey)
    requires HistoryMessages(r, key) != Some([])
    ensures LastCompleteCheckAsWritten(r, key) == Some(LastCompleteCheck(r, key))
  {
  }

  /** `get_last_complete_check` on `fs_check_info`: a missing key gives `{}` and a "not found"
      status; otherwise the status is "Success" exactly when some record carries the
      fingerprint, and then the record returned is the last such record. */
  lemma FsLastCompleteCheck(r: Resource)
    ensures r.fsCheckInfo.None? ==> LastCompleteCheck(r, FsCheckInfo) == (NoCheck, KeyNotFound("fs_check_info"))
    ensures r.fsCheckInfo.Some? ==>
              var history := r.fsCheckInfo.value;
              var (check, status) := LastCompleteCheck(r, FsCheckInfo);
              && (status == Success <==>
                   exists i :: 0 <= i < |history| && history[i].Record? && history[i].record.message == FsFingerprint)
              && (status != Success ==> check == NoCheck && status == NoMatch(FsFingerprint, r.name))
              && (status == Success ==>
                   exists i :: 0 <= i < |history| && history[i].Record? && check == FsRecord(history[i].record)
                     && history[i].record.message == FsFingerprint
                     && forall j :: i < j < |history| ==>
                          !(history[j].Record? && history[j].record.message == FsFingerprint))
  {
    if r.fsCheckInfo.Some? {
      var history := r.fsCheckInfo.value;
      var messages := Messages(history, (c: FsCheck) => c.message);
      var m := LastMatch(messages, FsFingerprint);
      if m.Some? {
        var i := m.value;
        assert history[i].Record? && history[i].record.message == FsFingerprint;
        forall j | i < j < |history|
          ensures !(history[j].Record? && history[j].record.message == FsFingerprint)
        {
          assert messages[j] != Some(FsFingerprint);
        }
      } else {
        forall i | 0 <= i < |history|
          ensures !(history[i].Record? && history[i].record.message == FsFingerprint)
        {
          assert messages[i] != Some(FsFingerprint);
        }
      }
    }
  }

  /** The same for `shape_info`, whose fingerprint is "Import successful". */
  lemma ShapeLastCompleteCheck(r: Resource)
    ensures r.shapeInfo.None? ==> LastCompleteCheck(r, ShapeInfo) == (NoCheck, KeyNotFound("shape_info"))
    ensures r.shapeInfo.Some? ==>
              var history := r.shapeInfo.value;
              var (check, status) := LastCompleteCheck(r, ShapeInfo);
              && (status == Success <==>
                   exists i :: 0 <= i < |history| && history[i].Record? && history[i].record.message == ShapeFingerprint)
              && (status != Success ==> check == NoCheck && status == NoMatch(ShapeFingerprint, r.name))
              && (status == Success ==>
                   exists i :: 0 <= i < |history| && history[i].Record? && check == ShapeRecord(history[i].record)
                     && history[i].record.message == ShapeFingerprint
                     && forall j :: i < j < |history| ==>
                          !(history[j].Record? && history[j].record.message == ShapeFingerprint))
  {
    if r.shapeInfo.Some? {
      var history := r.shapeInfo.value;
      var messages := Messages(history, (c: ShapeCheck) => c.message);
      var m := LastMatch(messages, ShapeFingerprint);
      if m.Some? {
        var i := m.value;
        assert history[i].Record? && history[i].record.message == ShapeFingerprint;
        forall j | i < j < |history|
          ensures !(history[j].Record? && history[j].record.message == ShapeFingerprint)
        {
          assert messages[j] != Some(ShapeFingerprint);
        }
      } else {
        forall i | 0 <= i < |history|
          ensures !(history[i].Record? && history[i].record.message == ShapeFingerprint)
        {
          assert messages[i] != Some(ShapeFingerprint);
        }
      }
    }
  }

  /** `get_last_complete_check`: scans the history list from the end and stops at the first
      record whose message is the key's fingerprint. */
  method GetLastCompleteCheck(resource: Resource, key: HistoryKey) returns (check: CheckRecord, status: Status)
    ensures (check, status) == LastCompleteCheck(resource, key)
  {
    var fingerprint := if key == ShapeInfo then ShapeFingerprint else FsFingerprint;
    var history := HistoryMessages(resource, key);
    if history.None? {
      return NoCheck, KeyNotFound(KeyName(key));
    }
    var found := FindLastMatch(history.value, fingerprint);
    if found.Some? {
      check, status := RecordAt(resource, key, found.value), Success;
    } else {
      check, status := NoCheck, NoMatch(fingerprint, resource.name);
    }
  }

  /** The reverse loop of `get_last_complete_check`, which breaks at the first match. */
  method FindLastMatch(messages: seq<Option<string>>, fingerprint: string) returns (found: Option<nat>)
    ensures found == LastMatch(messages, fingerprint)
  {
    var i := |messages|;
    while i > 0
      invariant 0 <= i <= |messages|
      invariant LastMatch(messages, fingerprint) == LastMatch(messages[..i], fingerprint)
    {
      if messages[i - 1] == Some(fingerprint) {
        assert LastMatch(messages[..i], fingerprint) == Some(i - 1);
        return Some(i - 1);
      }
      assert messages[..i][..i - 1] == messages[..i - 1];
      i := i - 1;
    }
    assert messages[..0] == [];
    return None;
  }

  // ---------------------------------------------------------------------------------------------
  // summarise_resource_changes

  const ChangeMarker: string := "* Schema changes in sheet '"
  const FieldSeparator: string := "' field: "
  const EventSeparator: string := "' - "

  /** The indicator for one sheet change of a completed check dated `date`. */
  function ChangeIndicator(date: string, change: SheetChange): string {
    date + (if change.eventType == SheetChangedEvent
            then ChangeMarker + change.name + FieldSeparator + change.firstChangedField
            else ChangeMarker + change.name + EventSeparator + change.eventType)
  }

  /** The indicators of one completed file-structure check: one per sheet change, or the bare
      date when there are none. */
  function CompletedCheckIndicators(check: FsCheck): seq<string> {
    var date := Take(check.timestamp, 10);
    if |check.sheetChanges| != 0 then
      seq(|check.sheetChanges|, k requires 0 <= k < |check.sheetChanges| =>
        ChangeIndicator(date, check.sheetChanges[k]))
    else
      [date]
  }

  predicate IsCompleted(e: Entry<FsCheck>) {
    e.Record? && e.record.message == FsFingerprint
  }

  function FsEntryIndicators(e: Entry<FsCheck>): seq<string> {
    if IsCompleted(e) then CompletedCheckIndicators(e.record) else []
  }

  /** The indicators of an `fs_check_info` list, in list order. */
  function FsIndicators(history: seq<Entry<FsCheck>>): seq<string>
    decreases |history|
  {
    if history == [] then []
    else FsIndicators(history[..|history| - 1]) + FsEntryIndicators(history[|history| - 1])
  }

  predicate IsImported(e: Entry<ShapeCheck>) {
    e.Record? && e.record.message == ShapeFingerprint
  }

  /** The indicator of one successful shape check: its date, never a change marker. */
  function ShapeIndicator(check: ShapeCheck): string {
    match check.timestamp
    case Some(ts) => Take(ts, 10)
    case None => NoTimestampDate
  }

  function ShapeEntryIndicators(e: Entry<ShapeCheck>): seq<string> {
    if IsImported(e) then [ShapeIndicator(e.record)] else []
  }

  /** The indicators of a `shape_info` list, in list order. */
  function ShapeIndicators(history: seq<Entry<ShapeCheck>>): seq<string>
    decreases |history|
  {
    if history == [] then []
    else ShapeIndicators(history[..|history| - 1]) + ShapeEntryIndicators(history[|history| - 1])
  }

  /** The `checks` list of one resource: `fs_check_info` wins over `shape_info`. */
  function ResourceChecks(r: Resource): seq<string> {
    if r.fsCheckInfo.Some? then FsIndicators(r.fsCheckInfo.value)
    else if r.shapeInfo.Some? then ShapeIndicators(r.shapeInfo.value)
    else []
  }

  /** The summary keyed by resource name; a later resource of the same name replaces an
      earlier one, as assigning the dictionary key does. */
  function ChangeSummary(resources: seq<Resource>): map<string, seq<string>>
    decreases |resources|
  {
    if resources == [] then map[]
    else
      var last := resources[|resources| - 1];
      ChangeSummary(resources[..|resources| - 1])[last.name := ResourceChecks(last)]
  }

  /** The `checks` list the scorers read for a resource name: the entry of the change summary,
      which holds the checks of the last resource with that name. */
  function ChecksOf(resources: seq<Resource>, name: string): seq<string> {
    ChecksIn(ChangeSummary(resources), name)
  }

  /** `changes.get(name, [])`. */
  function ChecksIn(changes: map<string, seq<string>>, name: string): seq<string> {
    if name in changes then changes[name] else []
  }

  /** `summarise_resource_changes`. */
  method SummariseResourceChanges(metadata: Dataset) returns (changes: map<string, seq<string>>)
    ensures changes == ChangeSummary(metadata.resources)
  {
    var resources := metadata.resources;
    changes := map[];
    var i := 0;
    while i < |resources|
      invariant 0 <= i <= |resources|
      invariant changes == ChangeSummary(resources[..i])
    {
      var resource := resources[i];
      var checks := ResourceChangeChecks(resource);
      assert resources[..i + 1][..i] == resources[..i];
      changes := changes[resource.name := checks];
      i := i + 1;
    }
    assert resources[..i] == resources;
  }

  /** The `checks` list of one resource, from whichever history it carries. */
  method ResourceChangeChecks(resource: Resource) returns (checks: seq<string>)
    ensures checks == ResourceChecks(resource)
  {
    checks := [];
    if resource.fsCheckInfo.Some? {
      checks := FsCheckIndicators(resource.fsCheckInfo.value);
    } else if resource.shapeInfo.Some? {
      checks := ShapeCheckIndicators(resource.shapeInfo.value);
    }
  }

  /** The `fs_check_info` branch of `summarise_resource_changes`. */
  method FsCheckIndicators(history: seq<Entry<FsCheck>>) returns (checks: seq<string>)
    ensures checks == FsIndicators(history)
  {
    checks := [];
    var j := 0;
    while j < |history|
      invariant 0 <= j <= |history|
      invariant checks == FsIndicators(history[..j])
    {
      assert history[..j + 1][..j] == history[..j];
      var entry := history[j];
      if entry.Record? {
        var check := entry.record;
        if check.message == FsFingerprint {
          var indicators := SheetChangeIndicators(check);
          checks := checks + indicators;
        }
      }
      j := j + 1;
    }
    assert history[..j] == history;
  }

  /** The indicators of one completed file-structure check. */
  method SheetChangeIndicators(check: FsCheck) returns (indicators: seq<string>)
    ensures indicators == CompletedCheckIndicators(check)
  {
    if |check.sheetChanges| == 0 {
      return [Take(check.timestamp, 10)];
    }
    indicators := [];
    var k := 0;
    while k < |check.sheetChanges|
      invariant 0 <= k <= |check.sheetChanges|
      invariant indicators == CompletedCheckIndicators(check)[..k]
    {
      var change := check.sheetChanges[k];
      var indicator := Take(check.timestamp, 10);
      if change.eventType == SheetChangedEvent {
        indicator := indicator + (ChangeMarker + change.name + FieldSeparator + change.firstChangedField);
      } else {
        indicator := indicator + (ChangeMarker + change.name + EventSeparator + change.eventType);
      }
      assert CompletedCheckIndicators(check)[..k + 1] == CompletedCheckIndicators(check)[..k] + [indicator];
      indicators := indicators + [indicator];
      k := k + 1;
    }
    assert CompletedCheckIndicators(check)[..k] == CompletedCheckIndicators(check);
  }

  /** The `shape_info` branch of `summarise_resource_changes`. `first_check` is reset to True
      at the top of every iteration, so the comparison with the previous check never runs. */
  method ShapeCheckIndicators(history: seq<Entry<ShapeCheck>>) returns (checks: seq<string>)
    ensures checks == ShapeIndicators(history)
  {
    checks := [];
    var previousBoundingBox := "";
    var previousHeaders: set<string> := {};
    var j := 0;
    while j < |history|
      invariant 0 <= j <= |history|
      invariant checks == ShapeIndicators(history[..j])
    {
      assert history[..j + 1][..j] == history[..j];
      assert ShapeIndicators(history[..j + 1]) == ShapeIndicators(history[..j]) + ShapeEntryIndicators(history[j]);
      var indicator := "";
      var firstCheck := true;
      var entry := history[j];
      if entry.Record? {
        var check := entry.record;
        if check.message == ShapeFingerprint {
          var headers: set<string> :=
            if check.layerFields.Some?
            then set f | f in check.layerFields.value :: f.fieldName
            else {};
          var boundingBox := check.boundingBox;
          if check.timestamp.Some? {
            indicator := indicator + Take(check.timestamp.value, 10);
          } else {
            indicator := indicator + NoTimestampDate;
          }
          if !firstCheck {
            if boundingBox != previousBoundingBox || previousHeaders != headers {
              indicator := indicator + "* ";
            }
            if boundingBox != previousBoundingBox {
              indicator := indicator + "bounding box change ";
            }
            if previousHeaders != headers {
              indicator := indicator + "header change";
            }
          }
          assert indicator == ShapeIndicator(check);
          previousHeaders := headers;
          previousBoundingBox := boundingBox;
          firstCheck := false;
          checks := checks + [indicator];
        }
      }
      j := j + 1;
    }
    assert history[..j] == history;
  }

  // ---------------------------------------------------------------------------------------------
  // Properties of the summary

  /** Every resource gets exactly one entry, keyed by its name, and no other key appears. */
  lemma {:induction false} ChangeSummaryKeys(resources: seq<Resource>)
    ensures ChangeSummary(resources).Keys == set i | 0 <= i < |resources| :: resources[i].name
    decreases |resources|
  {
    if resources != [] {
      var init := resources[..|resources| - 1];
      ChangeSummaryKeys(init);
      var s := set i | 0 <= i < |resources| :: resources[i].name;
      var t := set i | 0 <= i < |init| :: init[i].name;
      assert s == t + {resources[|resources| - 1].name} by {
        forall x | x in s ensures x in t + {resources[|resources| - 1].name} {
          var i :| 0 <= i < |resources| && resources[i].name == x;
          if i < |init| { assert init[i].name == x; }
        }
        forall x | x in t ensures x in s {
          var i :| 0 <= i < |init| && init[i].name == x;
          assert resources[i].name == x;
        }
      }
    }
  }

  /** The entry of a resource that no later resource shares a name with holds that resource's
      checks: the file-structure indicators when `fs_check_info` is present, else the shape
      indicators, else the empty list. */
  lemma {:induction false} ChangeSummaryEntry(resources: seq<Resource>, i: nat)
    requires i < |resources|
    requires forall j :: i < j < |resources| ==> resources[j].name != resources[i].name
    ensures resources[i].name in ChangeSummary(resources)
    ensures ChangeSummary(resources)[resources[i].name] == ResourceChecks(resources[i])
    ensures resources[i].fsCheckInfo.Some? ==>
              ChangeSummary(resources)[resources[i].name] == FsIndicators(resources[i].fsCheckInfo.value)
    ensures resources[i].fsCheckInfo.None? && resources[i].shapeInfo.Some? ==>
              ChangeSummary(resources)[resources[i].name] == ShapeIndicators(resources[i].shapeInfo.value)
    ensures resources[i].fsCheckInfo.None? && resources[i].shapeInfo.None? ==>
              ChangeSummary(resources)[resources[i].name] == []
    decreases |resources|
  {
    if i < |resources| - 1 {
      var init := resources[..|resources| - 1];
      assert init[i] == resources[i];
      ChangeSummaryEntry(init, i);
    }
  }

  /** The indicators of a list split in two are those of the first part followed by those of
      the second: the summary keeps history order. */
  lemma {:induction false} FsIndicatorsAppend(a: seq<Entry<FsCheck>>, b: seq<Entry<FsCheck>>)
    ensures FsIndicators(a + b) == FsIndicators(a) + FsIndicators(b)
    decreases |b|
  {
    if b == [] {
      assert a + b == a;
    } else {
      var b' := b[..|b| - 1];
      assert (a + b)[..|a + b| - 1] == a + b';
      assert (a + b)[|a + b| - 1] == b[|b| - 1];
      FsIndicatorsAppend(a, b');
    }
  }

  /** One completed check contributes max(1, len(sheet_changes)) indicators, each of which
      begins with the check's date; an indicator made from a sheet change contains "*", and
      the single indicator of a check without changes is the bare date. */
  lemma CompletedCheckIndicatorsShape(check: FsCheck)
    ensures var out := CompletedCheckIndicators(check);
            var date := Take(check.timestamp, 10);
            && |out| == Max(1, |check.sheetChanges|)
            && (forall k :: 0 <= k < |out| ==> StartsWith(out[k], date))
            && (|check.sheetChanges| == 0 ==> out == [date])
            && (forall k :: 0 <= k < |check.sheetChanges| ==> '*' in out[k])
  {
    var out := CompletedCheckIndicators(check);
    var date := Take(check.timestamp, 10);
    forall k | 0 <= k < |check.sheetChanges|
      ensures StartsWith(out[k], date) && '*' in out[k]
    {
      var c := check.sheetChanges[k];
      assert out[k] == ChangeIndicator(date, c);
      assert out[k][..|date|] == date;
      assert out[k][|date|] == '*';
    }
  }

  /** The completed checks of a history list, in order. */
  function CompletedChecks(history: seq<Entry<FsCheck>>): seq<FsCheck>
    decreases |history|
  {
    if history == [] then []
    else CompletedChecks(history[..|history| - 1])
         + (if IsCompleted(history[|history| - 1]) then [history[|history| - 1].record] else [])
  }

  /** The sum of max(1, len(sheet_changes)) over checks. */
  function IndicatorBudget(checks: seq<FsCheck>): nat
    decreases |checks|
  {
    if checks == [] then 0
    else IndicatorBudget(checks[..|checks| - 1]) + Max(1, |checks[|checks| - 1].sheetChanges|)
  }

  lemma {:induction false} IndicatorBudgetAppend(a: seq<FsCheck>, b: seq<FsCheck>)
    ensures IndicatorBudget(a + b) == IndicatorBudget(a) + IndicatorBudget(b)
    decreases |b|
  {
    if b == [] {
      assert a + b == a;
    } else {
      assert (a + b)[..|a + b| - 1] == a + b[..|b| - 1];
      IndicatorBudgetAppend(a, b[..|b| - 1]);
    }
  }

  /** Only completed dictionary records contribute, each exactly max(1, len(sheet_changes))
      indicators; bare strings and other messages contribute nothing. */
  lemma {:induction false} FsIndicatorCount(history: seq<Entry<FsCheck>>)
    ensures |FsIndicators(history)| == IndicatorBudget(CompletedChecks(history))
    decreases |history|
  {
    if history != [] {
      var init := history[..|history| - 1];
      var last := history[|history| - 1];
      FsIndicatorCount(init);
      var tail := if IsCompleted(last) then [last.record] else [];
      IndicatorBudgetAppend(CompletedChecks(init), tail);
      if IsCompleted(last) {
        CompletedCheckIndicatorsShape(last.record);
        assert IndicatorBudget(tail) == Max(1, |last.record.sheetChanges|) by {
          assert tail[..|tail| - 1] == [];
        }
      }
    }
  }

  /** Every file-structure indicator begins with the 10-character date of a completed check in
      the list. */
  lemma {:induction false} FsIndicatorsDated(history: seq<Entry<FsCheck>>)
    ensures forall k :: 0 <= k < |FsIndicators(history)| ==>
              exists i :: 0 <= i < |history| && IsCompleted(history[i])
                && StartsWith(FsIndicators(history)[k], Take(history[i].record.timestamp, 10))
    decreases |history|
  {
    if history != [] {
      var init := history[..|history| - 1];
      var n := |history| - 1;
      FsIndicatorsDated(init);
      var out := FsIndicators(history);
      var first := FsIndicators(init);
      assert out == first + FsEntryIndicators(history[n]);
      forall k | 0 <= k < |out|
        ensures exists i :: 0 <= i < |history| && IsCompleted(history[i])
                  && StartsWith(out[k], Take(history[i].record.timestamp, 10))
      {
        if k < |first| {
          assert out[k] == first[k];
          var i :| 0 <= i < |init| && IsCompleted(init[i])
                   && StartsWith(first[k], Take(init[i].record.timestamp, 10));
          assert history[i] == init[i];
        } else {
          CompletedCheckIndicatorsShape(history[n].record);
          assert out[k] == CompletedCheckIndicators(history[n].record)[k - |first|];
          assert IsCompleted(history[n]);
          assert StartsWith(out[k], Take(history[n].record.timestamp, 10));
        }
      }
      assert out == FsIndicators(history);
    } else {
      assert FsIndicators(history) == [];
    }
  }

  /** The successful shape checks of a history list, in order. */
  function ImportedChecks(history: seq<Entry<ShapeCheck>>): seq<ShapeCheck>
    decreases |history|
  {
    if history == [] then []
    else ImportedChecks(history[..|history| - 1])
         + (if IsImported(history[|history| - 1]) then [history[|history| - 1].record] else [])
  }

  /** A `shape_info` list yields exactly one indicator per successful import, in order: its
      10-character date, or "1900-01-01" when it has no timestamp. */
  lemma {:induction false} ShapeIndicatorsAreDates(history: seq<Entry<ShapeCheck>>)
    ensures |ShapeIndicators(history)| == |ImportedChecks(history)|
    ensures forall k :: 0 <= k < |ImportedChecks(history)| ==>
              var c := ImportedChecks(history)[k];
              ShapeIndicators(history)[k] == if c.timestamp.Some? then Take(c.timestamp.value, 10) else NoTimestampDate
    decreases |history|
  {
    if history != [] {
      ShapeIndicatorsAreDates(history[..|history| - 1]);
    }
  }

  /** Because `first_check` is set back to True on every iteration, no shape indicator is ever
      marked with "*" (given timestamps whose date part has none). */
  lemma {:induction false} ShapeIndicatorsUnmarked(history: seq<Entry<ShapeCheck>>)
    requires forall i :: 0 <= i < |history| && IsImported(history[i]) && history[i].record.timestamp.Some? ==>
               '*' !in Take(history[i].record.timestamp.value, 10)
    ensures forall k :: 0 <= k < |ShapeIndicators(history)| ==> '*' !in ShapeIndicators(history)[k]
    decreases |history|
  {
    if history != [] {
      var init := history[..|history| - 1];
      forall i | 0 <= i < |init| && IsImported(init[i]) && init[i].record.timestamp.Some?
        ensures '*' !in Take(init[i].record.timestamp.value, 10)
      {
        assert init[i] == history[i];
      }
      ShapeIndicatorsUnmarked(init);
    }
  }
}
