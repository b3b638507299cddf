// The audit trail of trip reports and their adjustments
// (backend/src/services/report-history.service.ts). Each log call builds a
// `changes` object and inserts at most one `report_history` row; the table
// is a sequence of rows that the logging methods append to. Row ids and
// `edited_at` come from database defaults and are not modelled.
module ReportHistory {
  import opened Wrappers

  datatype AdjustmentType = Income | Expense

  /** The `action` column. */
  datatype Action = ReportCreated | ReportUpdated | AdjustmentAdded | AdjustmentUpdated | AdjustmentRemoved

  /** `FieldChange<T>`: the value before (null when there was none) and after. */
  datatype Change<T> = Change(before: Option<T>, after: T)

  /** The diff of a report's own fields: `cab_cost` and `notes`, each optional. */
  datatype ReportChanges = ReportChanges(cabCost: Option<Change<real>>, notes: Option<Change<string>>)

  /** The diff of an adjustment's editable fields. */
  datatype AdjustmentChanges = AdjustmentChanges(category: Option<Change<string>>,
                                                 description: Option<Change<string>>,
                                                 amount: Option<Change<real>>)

  /** The five fields an added or removed adjustment is recorded with. */
  datatype Snapshot = Snapshot(id: string, kind: AdjustmentType, category: string,
                               description: Option<string>, amount: real)

  /** The JSON held in the `changes` column, one shape per action. */
  datatype Changes =
    | Created(report: ReportChanges)
    | Updated(report: ReportChanges)
    | Added(adjustment: Snapshot)
    | Edited(adjustmentId: string, fields: AdjustmentChanges)
    | Removed(adjustment: Snapshot)

  datatype Row = Row(reportId: string, editedBy: string, action: Action, changes: Changes,
                     adjustmentId: Option<string>)

  /** A report's loggable fields as stored. */
  datatype Report = Report(cabCost: real, notes: Option<string>)

  /** The fields an update request supplies; `None` is a field left undefined. */
  datatype ReportPatch = ReportPatch(cabCost: Option<real>, notes: Option<string>)

  /** An adjustment as stored; `reportId` and `createdBy` are not part of any
      history record. */
  datatype Adjustment = Adjustment(id: string, reportId: string, kind: AdjustmentType, category: string,
                                   description: Option<string>, amount: real, createdBy: string)

  datatype AdjustmentPatch = AdjustmentPatch(category: Option<string>, description: Option<string>,
                                             amount: Option<real>)

  /** One field of a diff: present iff a value was provided and it differs
      from the current one (a provided string always differs from null). */
  function FieldDiff<T(==)>(current: Option<T>, provided: Option<T>): (r: Option<Change<T>>)
    ensures r.Some? <==> provided.Some? && current != provided
    ensures r.Some? ==> r.value.before == current && r.value.after == provided.value
  {
    if provided.Some? && Some(provided.value) != current then Some(Change(current, provided.value)) else None
  }

  /** The value a field has once the update is stored. */
  function Patched<T>(current: T, provided: Option<T>): T {
    if provided.Some? then provided.value else current
  }

  /** The created-report record: `cab_cost` always, with no previous value;
      `notes` only when they are non-empty. */
  function CreatedChanges(cabCost: real, notes: Option<string>): (r: ReportChanges)
    ensures r.cabCost == Some(Change(None, cabCost))
    ensures r.notes.Some? <==> notes.Some? && notes.value != ""
    ensures r.notes.Some? ==> r.notes.value == Change(None, notes.value)
  {
    ReportChanges(Some(Change(None, cabCost)), if notes.Some? && notes.value != "" then Some(Change(None, notes.value)) else None)
  }

  predicate EmptyReportChanges(c: ReportChanges) {
    c.cabCost.None? && c.notes.None?
  }

  predicate EmptyAdjustmentChanges(c: AdjustmentChanges) {
    c.category.None? && c.description.None? && c.amount.None?
  }

  function ReportDiff(report: Report, patch: ReportPatch): ReportChanges {
    ReportChanges(FieldDiff(Some(report.cabCost), patch.cabCost), FieldDiff(report.notes, patch.notes))
  }

  /** The report as stored after the update. */
  function ApplyReport(report: Report, patch: ReportPatch): Report {
    Report(Patched(report.cabCost, patch.cabCost), if patch.notes.Some? then patch.notes else report.notes)
  }

  /** The report the diff's previous values describe, given the updated one. */
  function RevertReport(report: Report, diff: ReportChanges): Report {
    Report(if diff.cabCost.Some? && diff.cabCost.value.before.Some? then diff.cabCost.value.before.value else report.cabCost,
           if diff.notes.Some? then diff.notes.value.before else report.notes)
  }

  /** Replays the diff's new values onto the report. */
  function ReplayReport(report: Report, diff: ReportChanges): Report {
    Report(if diff.cabCost.Some? then diff.cabCost.value.after else report.cabCost,
           if diff.notes.Some? then Some(diff.notes.value.after) else report.notes)
  }

  /** The update diff names a field iff the request provided it with a new
      value, and records the stored value as the previous one. */
  lemma ReportDiffFields(report: Report, patch: ReportPatch)
    ensures var d := ReportDiff(report, patch);
      && (d.cabCost.Some? <==> patch.cabCost.Some? && patch.cabCost.value != report.cabCost)
      && (d.notes.Some? <==> patch.notes.Some? && patch.notes != report.notes)
      && (d.cabCost.Some? ==> d.cabCost.value == Change(Some(report.cabCost), patch.cabCost.value))
      && (d.notes.Some? ==> d.notes.value == Change(report.notes, patch.notes.value))
  {
  }

  /** The diff is empty exactly when the update leaves the report as it was. */
  lemma ReportDiffEmpty(report: Report, patch: ReportPatch)
    ensures EmptyReportChanges(ReportDiff(report, patch)) <==> ApplyReport(report, patch) == report
  {
  }

  /** The diff carries enough to redo the update and to undo it. */
  lemma ReportDiffRoundTrip(report: Report, patch: ReportPatch)
    ensures ReplayReport(report, ReportDiff(report, patch)) == ApplyReport(report, patch)
    ensures RevertReport(ApplyReport(report, patch), ReportDiff(report, patch)) == report
  {
  }

  /** Sending the same update twice logs nothing the second time. */
  lemma ReportPatchIdempotent(report: Report, patch: ReportPatch)
    ensures EmptyReportChanges(ReportDiff(ApplyReport(report, patch), patch))
  {
  }

  function AdjustmentDiff(current: Adjustment, patch: AdjustmentPatch): AdjustmentChanges {
    AdjustmentChanges(FieldDiff(Some(current.category), patch.category),
                      FieldDiff(current.description, patch.description),
                      FieldDiff(Some(current.amount), patch.amount))
  }

  function ApplyAdjustment(current: Adjustment, patch: AdjustmentPatch): Adjustment {
    current.(category := Patched(current.category, patch.category),
             description := if patch.description.Some? then patch.description else current.description,
             amount := Patched(current.amount, patch.amount))
  }

  function RevertAdjustment(current: Adjustment, diff: AdjustmentChanges): Adjustment {
    current.(category := if diff.category.Some? && diff.category.value.before.Some? then diff.category.value.before.value else current.category,
             description := if diff.description.Some? then diff.description.value.before else current.description,
             amount := if diff.amount.Some? && diff.amount.value.before.Some? then diff.amount.value.before.value else current.amount)
  }

  lemma AdjustmentDiffFields(current: Adjustment, patch: AdjustmentPatch)
    ensures var d := AdjustmentDiff(current, patch);
      && (d.category.Some? <==> patch.category.Some? && patch.category.value != current.category)
      && (d.description.Some? <==> patch.description.Some? && patch.description != current.description)
      && (d.amount.Some? <==> patch.amount.Some? && patch.amount.value != current.amount)
      && (d.category.Some? ==> d.category.value == Change(Some(current.category), patch.category.value))
      && (d.description.Some? ==> d.description.value == Change(current.description, patch.description.value))
      && (d.amount.Some? ==> d.amount.value == Change(Some(current.amount), patch.amount.value))
  {
  }

  lemma AdjustmentDiffEmpty(current: Adjustment, patch: AdjustmentPatch)
    ensures EmptyAdjustmentChanges(AdjustmentDiff(current, patch)) <==> ApplyAdjustment(current, patch) == current
  {
  }

  lemma AdjustmentDiffRevert(current: Adjustment, patch: AdjustmentPatch)
    ensures RevertAdjustment(ApplyAdjustment(current, patch), AdjustmentDiff(current, patch)) == current
  {
  }

  function SnapshotOf(a: Adjustment): (s: Snapshot)
    ensures s.id == a.id && s.kind == a.kind && s.category == a.category
    ensures s.description == a.description && s.amount == a.amount
  {
    Snapshot(a.id, a.kind, a.category, a.description, a.amount)
  }

  /** A snapshot, with the row's report and the adjustment's author, is the
      whole adjustment: the removed one can be rebuilt from its record. */
  function Restore(s: Snapshot, reportId: string, createdBy: string): Adjustment {
    Adjustment(s.id, reportId, s.kind, s.category, s.description, s.amount, createdBy)
  }

  lemma SnapshotRestores(a: Adjustment)
    ensures Restore(SnapshotOf(a), a.reportId, a.createdBy) == a
  {
  }

  /** The rows one update writes: none for an empty diff. */
  function ReportUpdatedRows(reportId: string, userId: string, report: Report, patch: ReportPatch): (r: seq<Row>)
    ensures |r| <= 1
    ensures r == [] <==> ApplyReport(report, patch) == report
    ensures r != [] ==> r[0].action == ReportUpdated && r[0].adjustmentId.None?
  {
    ReportDiffEmpty(report, patch);
    var d := ReportDiff(report, patch);
    if EmptyReportChanges(d) then [] else [Row(reportId, userId, ReportUpdated, Updated(d), None)]
  }

  function AdjustmentUpdatedRows(reportId: string, userId: string, current: Adjustment, patch: AdjustmentPatch): (r: seq<Row>)
    ensures |r| <= 1
    ensures r == [] <==> ApplyAdjustment(current, patch) == current
    ensures r != [] ==> r[0].action == AdjustmentUpdated && r[0].adjustmentId == Some(current.id)
  {
    AdjustmentDiffEmpty(current, patch);
    var d := AdjustmentDiff(current, patch);
    if EmptyAdjustmentChanges(d) then [] else [Row(reportId, userId, AdjustmentUpdated, Edited(current.id, d), Some(current.id))]
  }

  /** The `report_history` table. */
  class HistoryLog {
    var rows: seq<Row>

    constructor()
      ensures rows == []
    {
      rows := [];
    }

    method LogReportCreated(reportId: string, userId: string, cabCost: real, notes: Option<string>)
      modifies this
      ensures rows == old(rows) + [Row(reportId, userId, ReportCreated, Created(CreatedChanges(cabCost, notes)), None)]
    {
      var changes := ReportChanges(Some(Change(None, cabCost)), None);
      if notes.Some? && notes.value != "" {
        changes := changes.(notes := Some(Change(None, notes.value)));
      }
      rows := rows + [Row(reportId, userId, ReportCreated, Created(changes), None)];
    }

    method LogReportUpdated(reportId: string, userId: string, report: Report, patch: ReportPatch)
      modifies this
      ensures rows == old(rows) + ReportUpdatedRows(reportId, userId, report, patch)
    {
      var changes := ReportChanges(None, None);
      if patch.cabCost.Some? && patch.cabCost.value != report.cabCost {
        changes := changes.(cabCost := Some(Change(Some(report.cabCost), patch.cabCost.value)));
      }
      if patch.notes.Some? && patch.notes != report.notes {
        changes := changes.(notes := Some(Change(report.notes, patch.notes.value)));
      }
      if EmptyReportChanges(changes) {
        return;
      }
      rows := rows + [Row(reportId, userId, ReportUpdated, Updated(changes), None)];
    }

    method LogAdjustmentAdded(reportId: string, userId: string, adjustment: Adjustment)
      modifies this
      ensures rows == old(rows) + [Row(reportId, userId, AdjustmentAdded, Added(SnapshotOf(adjustment)), Some(adjustment.id))]
    {
      var changes := Added(Snapshot(adjustment.id, adjustment.kind, adjustment.category, adjustment.description, adjustment.amount));
      rows := rows + [Row(reportId, userId, AdjustmentAdded, changes, Some(adjustment.id))];
    }

    method LogAdjustmentUpdated(reportId: string, userId: string, current: Adjustment, patch: AdjustmentPatch)
      modifies this
      ensures rows == old(rows) + AdjustmentUpdatedRows(reportId, userId, current, patch)
    {
      var changes := AdjustmentChanges(None, None, None);
      if patch.category.Some? && patch.category.value != current.category {
        changes := changes.(category := Some(Change(Some(current.category), patch.category.value)));
      }
      if patch.description.Some? && patch.description != current.description {
        changes := changes.(description := Some(Change(current.description, patch.description.value)));
      }
      if patch.amount.Some? && patch.amount.value != current.amount {
        changes := changes.(amount := Some(Change(Some(current.amount), patch.amount.value)));
      }
      if EmptyAdjustmentChanges(changes) {
        return;
      }
      rows := rows + [Row(reportId, userId, AdjustmentUpdated, Edited(current.id, changes), Some(current.id))];
    }

    method LogAdjustmentRemoved(reportId: string, userId: string, adjustment: Adjustment)
      modifies this
      ensures rows == old(rows) + [Row(reportId, userId, AdjustmentRemoved, Removed(SnapshotOf(adjustment)), None)]
    {
      var changes := Removed(Snapshot(adjustment.id, adjustment.kind, adjustment.category, adjustment.description, adjustment.amount));
      rows := rows + [Row(reportId, userId, AdjustmentRemoved, changes, None)];
    }
  }
}
