/** What every measured figure of a project is, without the folds that measure it: a sum over the
    listed resources of the project (apps/billing/collector.py and apps/billing/views.py). */
module Measurements {
  import opened Text
  import opened Calendar
  import opened Rates
  import opened Collector

  function OneVm(vm: Vm): nat { 1 }

  function RunningVm(vm: Vm): nat {
    if Lower(vm.status) == "active" || Lower(vm.status) == "running" then 1 else 0
  }

  function RunningVcpus(vm: Vm): nat {
    if Lower(vm.status) == "active" || Lower(vm.status) == "running" then vm.vcpus else 0
  }

  function RunningRam(vm: Vm): nat {
    if Lower(vm.status) == "active" || Lower(vm.status) == "running" then vm.ramMb else 0
  }

  function SsdSize(v: Volume): nat {
    if v.media == "SSD" then v.sizeGib else 0
  }

  function HddSize(v: Volume): nat {
    if v.media == "HDD" then v.sizeGib else 0
  }

  function OtherSize(v: Volume): nat {
    if v.media != "SSD" && v.media != "HDD" then v.sizeGib else 0
  }

  function SnapshotSize(s: VolumeSnapshot): nat { s.sizeGib }

  function BackupSize(s: VolumeSnapshot): nat {
    if s.groupId != "" || s.group != "" then s.sizeGib else 0
  }

  function OwnSize(s: VolumeSnapshot): nat {
    if s.groupId == "" && s.group == "" then s.sizeGib else 0
  }

  function VmTotal(vms: seq<Vm>, p: string, measure: Vm -> nat): nat {
    if vms == [] then 0
    else VmTotal(vms[..|vms| - 1], p, measure) + if vms[|vms| - 1].project == p then measure(vms[|vms| - 1]) else 0
  }

  function VolumeTotal(vs: seq<Volume>, p: string, measure: Volume -> nat): nat {
    if vs == [] then 0
    else VolumeTotal(vs[..|vs| - 1], p, measure) + if vs[|vs| - 1].project == p then measure(vs[|vs| - 1]) else 0
  }

  function AddressTotal(es: seq<Address>, p: string): nat {
    if es == [] then 0 else AddressTotal(es[..|es| - 1], p) + if es[|es| - 1].project == p then 1 else 0
  }

  function SnapshotTotal(ss: seq<VolumeSnapshot>, p: string, measure: VolumeSnapshot -> nat): nat {
    if ss == [] then 0
    else SnapshotTotal(ss[..|ss| - 1], p, measure) + if ss[|ss| - 1].project == p then measure(ss[|ss| - 1]) else 0
  }

  lemma {:induction false} VmsAre(start: Measures, vms: seq<Vm>, p: string)
    ensures VmsOn(start, vms, p) == start.(
              vmsTotal := start.vmsTotal + VmTotal(vms, p, OneVm),
              vmsRunning := start.vmsRunning + VmTotal(vms, p, RunningVm),
              vcpus := start.vcpus + VmTotal(vms, p, RunningVcpus),
              ramMb := start.ramMb + VmTotal(vms, p, RunningRam))
  {
    if vms != [] {
      VmsAre(start, vms[..|vms| - 1], p);
    }
  }

  lemma {:induction false} VolumesAre(start: Measures, vs: seq<Volume>, p: string)
    ensures VolumesOn(start, vs, p) == start.(
              ssdGib := start.ssdGib + VolumeTotal(vs, p, SsdSize),
              hddGib := start.hddGib + VolumeTotal(vs, p, HddSize),
              unlabelledGib := start.unlabelledGib + VolumeTotal(vs, p, OtherSize))
  {
    if vs != [] {
      VolumesAre(start, vs[..|vs| - 1], p);
    }
  }

  lemma {:induction false} AddressesAre(start: Measures, es: seq<Address>, p: string)
    ensures AddressesOn(start, es, p) == start.(elasticIps := start.elasticIps + AddressTotal(es, p))
  {
    if es != [] {
      AddressesAre(start, es[..|es| - 1], p);
    }
  }

  lemma {:induction false} SnapshotsAre(start: Measures, ss: seq<VolumeSnapshot>, p: string)
    ensures SnapshotsOn(start, ss, p) == start.(
              snapshotGib := start.snapshotGib + SnapshotTotal(ss, p, SnapshotSize),
              backupGib := start.backupGib + SnapshotTotal(ss, p, BackupSize))
  {
    if ss != [] {
      SnapshotsAre(start, ss[..|ss| - 1], p);
    }
  }

  lemma {:induction false} LiveSnapshotsAre(start: Measures, ss: seq<VolumeSnapshot>, p: string, withBackups: bool)
    ensures LiveSnapshotsOn(start, ss, p, withBackups) == start.(
              snapshotGib := start.snapshotGib + SnapshotTotal(ss, p, if withBackups then SnapshotSize else OwnSize))
  {
    if ss != [] {
      LiveSnapshotsAre(start, ss[..|ss| - 1], p, withBackups);
    }
  }

  /** Every figure of a bucket is a sum over the project's own listed resources, a list that failed
      counting as empty: all machines and the running ones, what the running ones compute with,
      disks by medium, addresses, and snapshots with the scheduled ones apart. */
  lemma MeasuresAre(c: Cluster, p: string)
    ensures var m := MeasuresOf(c, p);
            && m.vmsTotal == VmTotal(Items(c.vms), p, OneVm) && m.vmsRunning == VmTotal(Items(c.vms), p, RunningVm)
            && m.vcpus == VmTotal(Items(c.vms), p, RunningVcpus) && m.ramMb == VmTotal(Items(c.vms), p, RunningRam)
            && m.ssdGib == VolumeTotal(Items(c.volumes), p, SsdSize)
            && m.hddGib == VolumeTotal(Items(c.volumes), p, HddSize)
            && m.unlabelledGib == VolumeTotal(Items(c.volumes), p, OtherSize)
            && m.elasticIps == AddressTotal(Items(c.addresses), p)
            && m.snapshotGib == SnapshotTotal(Items(c.snapshots), p, SnapshotSize)
            && m.backupGib == SnapshotTotal(Items(c.snapshots), p, BackupSize)
  {
    VmsAre(BLANK, Items(c.vms), p);
    VolumesAre(VmsOn(BLANK, Items(c.vms), p), Items(c.volumes), p);
    AddressesAre(VolumesOn(VmsOn(BLANK, Items(c.vms), p), Items(c.volumes), p), Items(c.addresses), p);
    SnapshotsAre(BesidesSnapshots(c, p), Items(c.snapshots), p);
  }

  /** The live shape is the same sums, but for the snapshots, which leave the scheduled ones out
      when they do not count. */
  lemma LiveMeasuresAre(c: Cluster, p: string, withBackups: bool)
    ensures var live := LiveOf(c, p, withBackups);
            && live == MeasuresOf(c, p).(snapshotGib := live.snapshotGib, backupGib := 0)
            && live.snapshotGib == if withBackups then SnapshotTotal(Items(c.snapshots), p, SnapshotSize)
                                   else SnapshotTotal(Items(c.snapshots), p, OwnSize)
  {
    VmsAre(BLANK, Items(c.vms), p);
    VolumesAre(VmsOn(BLANK, Items(c.vms), p), Items(c.volumes), p);
    AddressesAre(VolumesOn(VmsOn(BLANK, Items(c.vms), p), Items(c.volumes), p), Items(c.addresses), p);
    SnapshotsAre(BesidesSnapshots(c, p), Items(c.snapshots), p);
    LiveSnapshotsAre(BesidesSnapshots(c, p), Items(c.snapshots), p, withBackups);
  }

  /** A list that failed is an empty one. */
  lemma ItemsAre<T>(source: Source<T>, items: seq<T>)
    ensures Items(Listed(items)) == items && Items<T>(Unavailable) == []
  {
  }

  /******* Stored rows *******/

  /** The row bears the project, the day, its owner by the directory, and the project's figures. */
  ghost predicate Bears(row: Row, day: Date, p: string, m: Measures, directory: map<string, Owner>) {
    && row.project == p && row.takenOn == day
    && (p in directory ==> row.account == directory[p].account && row.domain == directory[p].domain)
    && (p !in directory ==> row.account == "" && row.domain == "")
    && row.vcpus == m.vcpus && row.ramMb == m.ramMb && row.ssdGib == m.ssdGib && row.hddGib == m.hddGib
    && row.elasticIps == m.elasticIps && row.snapshotGib == m.snapshotGib && row.backupGib == m.backupGib
  }

  /** What a capture stores for each project it measured. */
  lemma RecordedRows(after: Rows, before: Rows, day: Date, buckets: Buckets, directory: map<string, Owner>, p: string)
    requires Consistent(buckets) && Recorded(after, before, buckets.Keys, day, buckets, directory) && p in buckets
    ensures (p, day) in after && Bears(after[(p, day)], day, p, buckets[p], directory)
  {
  }

  /** What it leaves alone: other days, and projects it did not measure. */
  lemma UnrecordedRows(after: Rows, before: Rows, day: Date, buckets: Buckets, directory: map<string, Owner>, k: (string, Date))
    requires Consistent(buckets) && Recorded(after, before, buckets.Keys, day, buckets, directory)
    requires k.1 != day || k.0 !in buckets
    ensures k in after <==> k in before
    ensures k in before ==> after[k] == before[k]
  {
  }

  /** The row that the bill of an estimate is compared with, and the shape that is estimated. */
  lemma CapturedRows(c: Cluster, day: Date, project: string, owner: Owner)
    ensures var rows := Captured(c, day, project, owner);
            && (rows != [] <==> Touched(c, project)) && |rows| <= 1
            && (rows != [] ==> Bears(rows[0], day, project, MeasuresOf(c, project), map[project := owner]))
  {
  }

  lemma ShapeIs(live: Measures)
    ensures var row := ShapeOf(live);
            && row.vcpus == live.vcpus && row.ramMb == live.ramMb && row.ssdGib == live.ssdGib
            && row.hddGib == live.hddGib && row.elasticIps == live.elasticIps && row.snapshotGib == live.snapshotGib
            && row.backupGib == 0
  {
  }
}
