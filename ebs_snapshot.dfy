/** The EBS volume snapshot remediator: look up the volume's snapshots and
    create a new one unless the first snapshot returned is recent. Dates are
    calendar day numbers; today's date is a parameter. */
module EbsSnapshot {
  import opened Outcomes
  import opened Cloud

  /** The snapshot age, in days, from which a new snapshot is taken. */
  const SnapshotAge := 15

  const Description := "Autoremediate snapshot"

  /** The outcome of each call the run may issue, one per call site; the
      create call yields the new snapshot's id. */
  datatype Responses = Responses(describeSnapshots: Outcome<seq<Snapshot>>, createSnapshot: Outcome<string>)

  /** A snapshot is taken when none was returned, or when the first one
      returned is at least `SnapshotAge` days old. */
  function SnapshotNeeded(snapshots: seq<Snapshot>, today: int): bool
  {
    if |snapshots| > 0 then today - snapshots[0].startDay >= SnapshotAge else true
  }

  /** No snapshot at all: one is needed. */
  lemma NoSnapshotNeedsOne(today: int)
    ensures SnapshotNeeded([], today)
  {
  }

  /** Otherwise only the age of the first snapshot decides: whatever follows
      it, even a snapshot taken today, is not looked at. */
  lemma OnlyFirstSnapshotCounts(first: Snapshot, rest: seq<Snapshot>, other: seq<Snapshot>, today: int)
    ensures SnapshotNeeded([first] + rest, today) == SnapshotNeeded([first] + other, today)
    ensures SnapshotNeeded([first] + rest, today) <==> today - first.startDay >= SnapshotAge
  {
  }

  /** The threshold: 15 days old needs a snapshot, 14 does not, and neither
      does a snapshot dated after today. */
  lemma SnapshotAgeBoundary(s: Snapshot, rest: seq<Snapshot>, today: int)
    ensures s.startDay == today - 15 ==> SnapshotNeeded([s] + rest, today)
    ensures s.startDay == today - 14 ==> !SnapshotNeeded([s] + rest, today)
    ensures s.startDay > today ==> !SnapshotNeeded([s] + rest, today)
  {
  }

  /** `new_ebs_snapshot`: one create call; an error is reported, never
      raised. */
  function NewEbsSnapshot(volumeId: string, create: Outcome<string>): (run: Run)
    ensures run.calls == [CreateSnapshot(volumeId, Description)]
    ensures create.Ok? ==> run.log == [SnapshotCreated(create.payload, volumeId)]
    ensures create.Err? ==> run.log == [ProviderError(create.message)]
  {
    Run([CreateSnapshot(volumeId, Description)],
        if create.Ok? then [SnapshotCreated(create.payload, volumeId)] else [ProviderError(create.message)])
  }

  /** `remediate`: the alert's resource id is the volume id. */
  function Remediate(alert: Alert, r: Responses, today: int): (run: Run)
    ensures |run.calls| >= 1 && run.calls[0] == DescribeSnapshots(alert.resourceId)
    // a failed lookup ends the run with no create call
    ensures r.describeSnapshots.Err? ==>
      run == Run([run.calls[0]], [ProviderError(r.describeSnapshots.message)])
    // at most one create call, issued exactly when a snapshot is needed
    ensures |run.calls| <= 2
    ensures |run.calls| == 2 <==> r.describeSnapshots.Ok? && SnapshotNeeded(r.describeSnapshots.payload, today)
    ensures |run.calls| == 2 ==> run.calls[1] == CreateSnapshot(alert.resourceId, "Autoremediate snapshot")
    ensures forall i :: 1 <= i < |run.calls| ==> run.calls[i].CreateSnapshot?
    // a failed create is reported and the run ends normally
    ensures |run.calls| == 2 ==> run.log == NewEbsSnapshot(alert.resourceId, r.createSnapshot).log
    ensures r.describeSnapshots.Ok? && !SnapshotNeeded(r.describeSnapshots.payload, today) ==> run.log == []
  {
    var volumeId := alert.resourceId;
    var describe := Run([DescribeSnapshots(volumeId)], []);
    if r.describeSnapshots.Err? then
      Run(describe.calls, [ProviderError(r.describeSnapshots.message)])
    else if SnapshotNeeded(r.describeSnapshots.payload, today) then
      var create := NewEbsSnapshot(volumeId, r.createSnapshot);
      Run(describe.calls + create.calls, create.log)
    else
      describe
  }

  /** A snapshot created today, when it is the first one returned, makes the
      next run take no snapshot. */
  lemma FreshSnapshotSatisfies(alert: Alert, created: string, rest: seq<Snapshot>, create: Outcome<string>, today: int)
    ensures |Remediate(alert, Responses(Ok([Snapshot(created, today)] + rest), create), today).calls| == 1
  {
  }
}
