/** The daily measurement of apps/billing/collector.py, the live measurement of
    apps/billing/views.py, and why an estimate and a bill cannot drift apart. */
module Collector {
  import opened Calendar
  import opened Decimals
  import opened Rates
  import opened BillingLaws
  import opened Text

  /** One list of the cloud, or the news that it could not be read. */
  datatype Source<+T> = Unavailable | Listed(items: seq<T>)

  /** `project` is empty for a resource that belongs to none. */
  datatype Vm = Vm(project: string, status: string, vcpus: nat, ramMb: nat)
  datatype Volume = Volume(project: string, media: string, sizeGib: nat)
  datatype Address = Address(project: string)
  datatype VolumeSnapshot = VolumeSnapshot(project: string, sizeGib: nat, groupId: string, group: string)

  datatype Cluster = Cluster(
    vms: Source<Vm>, volumes: Source<Volume>, addresses: Source<Address>, snapshots: Source<VolumeSnapshot>)

  datatype Measures = Measures(
    vmsTotal: nat, vmsRunning: nat, vcpus: nat, ramMb: nat, ssdGib: nat, hddGib: nat, unlabelledGib: nat,
    elasticIps: nat, snapshotGib: nat, backupGib: nat)

  const BLANK := Measures(0, 0, 0, 0, 0, 0, 0, 0, 0, 0)

  /** `source(...) or []`: a list that failed reads as an empty one. */
  function Items<T>(source: Source<T>): seq<T> {
    match source case Unavailable => [] case Listed(items) => items
  }

  predicate Running(vm: Vm) {
    Lower(vm.status) == "active" || Lower(vm.status) == "running"
  }

  /** `backups.is_backup`: a protection group took it. */
  predicate IsBackup(s: VolumeSnapshot) {
    s.groupId != "" || s.group != ""
  }

  /******* What each resource adds to its project's entry *******/

  /** Compute counts only while the machine runs; its disks count either way. */
  function AddVm(entry: Measures, vm: Vm): Measures {
    if Running(vm) then
      entry.(vmsTotal := entry.vmsTotal + 1, vmsRunning := entry.vmsRunning + 1,
             vcpus := entry.vcpus + vm.vcpus, ramMb := entry.ramMb + vm.ramMb)
    else entry.(vmsTotal := entry.vmsTotal + 1)
  }

  function AddVolume(entry: Measures, v: Volume): Measures {
    if v.media == "SSD" then entry.(ssdGib := entry.ssdGib + v.sizeGib)
    else if v.media == "HDD" then entry.(hddGib := entry.hddGib + v.sizeGib)
    else entry.(unlabelledGib := entry.unlabelledGib + v.sizeGib)
  }

  function AddAddress(entry: Measures, e: Address): Measures {
    entry.(elasticIps := entry.elasticIps + 1)
  }

  function AddSnapshot(entry: Measures, s: VolumeSnapshot): Measures {
    entry.(snapshotGib := entry.snapshotGib + s.sizeGib,
           backupGib := entry.backupGib + if IsBackup(s) then s.sizeGib else 0)
  }

  function AddLiveSnapshot(entry: Measures, s: VolumeSnapshot, withBackups: bool): Measures {
    if withBackups || !IsBackup(s) then entry.(snapshotGib := entry.snapshotGib + s.sizeGib) else entry
  }

  function VmsOn(start: Measures, vms: seq<Vm>, p: string): Measures {
    if vms == [] then start
    else
      var entry := VmsOn(start, vms[..|vms| - 1], p);
      if vms[|vms| - 1].project == p then AddVm(entry, vms[|vms| - 1]) else entry
  }

  function VolumesOn(start: Measures, vs: seq<Volume>, p: string): Measures {
    if vs == [] then start
    else
      var entry := VolumesOn(start, vs[..|vs| - 1], p);
      if vs[|vs| - 1].project == p then AddVolume(entry, vs[|vs| - 1]) else entry
  }

  function AddressesOn(start: Measures, es: seq<Address>, p: string): Measures {
    if es == [] then start
    else
      var entry := AddressesOn(start, es[..|es| - 1], p);
      if es[|es| - 1].project == p then AddAddress(entry, es[|es| - 1]) else entry
  }

  function SnapshotsOn(start: Measures, ss: seq<VolumeSnapshot>, p: string): Measures {
    if ss == [] then start
    else
      var entry := SnapshotsOn(start, ss[..|ss| - 1], p);
      if ss[|ss| - 1].project == p then AddSnapshot(entry, ss[|ss| - 1]) else entry
  }

  function LiveSnapshotsOn(start: Measures, ss: seq<VolumeSnapshot>, p: string, withBackups: bool): Measures {
    if ss == [] then start
    else
      var entry := LiveSnapshotsOn(start, ss[..|ss| - 1], p, withBackups);
      if ss[|ss| - 1].project == p then AddLiveSnapshot(entry, ss[|ss| - 1], withBackups) else entry
  }

  /** What a project holds of everything but snapshots, and then of those. */
  function BesidesSnapshots(c: Cluster, p: string): Measures {
    AddressesOn(VolumesOn(VmsOn(BLANK, Items(c.vms), p), Items(c.volumes), p), Items(c.addresses), p)
  }

  function MeasuresOf(c: Cluster, p: string): Measures {
    SnapshotsOn(BesidesSnapshots(c, p), Items(c.snapshots), p)
  }

  function LiveOf(c: Cluster, p: string, withBackups: bool): Measures {
    LiveSnapshotsOn(BesidesSnapshots(c, p), Items(c.snapshots), p, withBackups)
  }

  /** Some resource of the project was listed. */
  predicate Touched(c: Cluster, p: string) {
    || (exists vm :: vm in Items(c.vms) && vm.project == p)
    || (exists v :: v in Items(c.volumes) && v.project == p)
    || (exists e :: e in Items(c.addresses) && e.project == p)
    || (exists s :: s in Items(c.snapshots) && s.project == p)
  }

  /******* measure_cluster *******/

  type Buckets = map<string, Measures>

  function Bucket(buckets: Buckets, p: string): Measures {
    if p in buckets then buckets[p] else BLANK
  }

  /** A resource of no project is not counted. */
  function PutVms(start: Buckets, vms: seq<Vm>): Buckets {
    if vms == [] then start
    else
      var buckets, last := PutVms(start, vms[..|vms| - 1]), vms[|vms| - 1];
      if last.project == "" then buckets
      else buckets[last.project := AddVm(Bucket(buckets, last.project), last)]
  }

  function PutVolumes(start: Buckets, vs: seq<Volume>): Buckets {
    if vs == [] then start
    else
      var buckets, last := PutVolumes(start, vs[..|vs| - 1]), vs[|vs| - 1];
      if last.project == "" then buckets
      else buckets[last.project := AddVolume(Bucket(buckets, last.project), last)]
  }

  function PutAddresses(start: Buckets, es: seq<Address>): Buckets {
    if es == [] then start
    else
      var buckets, last := PutAddresses(start, es[..|es| - 1]), es[|es| - 1];
      if last.project == "" then buckets
      else buckets[last.project := AddAddress(Bucket(buckets, last.project), last)]
  }

  function PutSnapshots(start: Buckets, ss: seq<VolumeSnapshot>): Buckets {
    if ss == [] then start
    else
      var buckets, last := PutSnapshots(start, ss[..|ss| - 1]), ss[|ss| - 1];
      if last.project == "" then buckets
      else buckets[last.project := AddSnapshot(Bucket(buckets, last.project), last)]
  }

  lemma {:induction false} PutVmsOn(start: Buckets, vms: seq<Vm>, p: string)
    ensures p != "" ==> Bucket(PutVms(start, vms), p) == VmsOn(Bucket(start, p), vms, p)
    ensures p in PutVms(start, vms) <==> p in start || (p != "" && exists x :: x in vms && x.project == p)
  {
    if vms != [] {
      var before, last := vms[..|vms| - 1], vms[|vms| - 1];
      PutVmsOn(start, before, p);
      assert vms == before + [last];
    }
  }

  lemma {:induction false} PutVolumesOn(start: Buckets, vs: seq<Volume>, p: string)
    ensures p != "" ==> Bucket(PutVolumes(start, vs), p) == VolumesOn(Bucket(start, p), vs, p)
    ensures p in PutVolumes(start, vs) <==> p in start || (p != "" && exists x :: x in vs && x.project == p)
  {
    if vs != [] {
      var before, last := vs[..|vs| - 1], vs[|vs| - 1];
      PutVolumesOn(start, before, p);
      assert vs == before + [last];
    }
  }

  lemma {:induction false} PutAddressesOn(start: Buckets, es: seq<Address>, p: string)
    ensures p != "" ==> Bucket(PutAddresses(start, es), p) == AddressesOn(Bucket(start, p), es, p)
    ensures p in PutAddresses(start, es) <==> p in start || (p != "" && exists x :: x in es && x.project == p)
  {
    if es != [] {
      var before, last := es[..|es| - 1], es[|es| - 1];
      PutAddressesOn(start, before, p);
      assert es == before + [last];
    }
  }

  lemma {:induction false} PutSnapshotsOn(start: Buckets, ss: seq<VolumeSnapshot>, p: string)
    ensures p != "" ==> Bucket(PutSnapshots(start, ss), p) == SnapshotsOn(Bucket(start, p), ss, p)
    ensures p in PutSnapshots(start, ss) <==> p in start || (p != "" && exists x :: x in ss && x.project == p)
  {
    if ss != [] {
      var before, last := ss[..|ss| - 1], ss[|ss| - 1];
      PutSnapshotsOn(start, before, p);
      assert ss == before + [last];
    }
  }

  method MeasureVms(start: Buckets, vms: seq<Vm>) returns (buckets: Buckets)
    ensures buckets == PutVms(start, vms)
  {
    buckets := start;
    var i := 0;
    while i < |vms|
      invariant 0 <= i <= |vms|
      invariant buckets == PutVms(start, vms[..i])
    {
      var vm := vms[i];
      assert vms[..i + 1][..i] == vms[..i];
      if vm.project != "" {
        var entry := Bucket(buckets, vm.project);
        entry := entry.(vmsTotal := entry.vmsTotal + 1);
        if Running(vm) {
          entry := entry.(vmsRunning := entry.vmsRunning + 1, vcpus := entry.vcpus + vm.vcpus,
                          ramMb := entry.ramMb + vm.ramMb);
        }
        buckets := buckets[vm.project := entry];
      }
      i := i + 1;
    }
    assert vms[..|vms|] == vms;
  }

  method MeasureVolumes(start: Buckets, volumes: seq<Volume>) returns (buckets: Buckets)
    ensures buckets == PutVolumes(start, volumes)
  {
    buckets := start;
    var i := 0;
    while i < |volumes|
      invariant 0 <= i <= |volumes|
      invariant buckets == PutVolumes(start, volumes[..i])
    {
      var v := volumes[i];
      assert volumes[..i + 1][..i] == volumes[..i];
      if v.project != "" {
        var entry := Bucket(buckets, v.project);
        if v.media == "SSD" {
          entry := entry.(ssdGib := entry.ssdGib + v.sizeGib);
        } else if v.media == "HDD" {
          entry := entry.(hddGib := entry.hddGib + v.sizeGib);
        } else {
          entry := entry.(unlabelledGib := entry.unlabelledGib + v.sizeGib);
        }
        buckets := buckets[v.project := entry];
      }
      i := i + 1;
    }
    assert volumes[..|volumes|] == volumes;
  }

  method MeasureAddresses(start: Buckets, addresses: seq<Address>) returns (buckets: Buckets)
    ensures buckets == PutAddresses(start, addresses)
  {
    buckets := start;
    var i := 0;
    while i < |addresses|
      invariant 0 <= i <= |addresses|
      invariant buckets == PutAddresses(start, addresses[..i])
    {
      var project := addresses[i].project;
      assert addresses[..i + 1][..i] == addresses[..i];
      if project != "" {
        var entry := Bucket(buckets, project);
        buckets := buckets[project := entry.(elasticIps := entry.elasticIps + 1)];
      }
      i := i + 1;
    }
    assert addresses[..|addresses|] == addresses;
  }

  method MeasureSnapshots(start: Buckets, snapshots: seq<VolumeSnapshot>) returns (buckets: Buckets)
    ensures buckets == PutSnapshots(start, snapshots)
  {
    buckets := start;
    var i := 0;
    while i < |snapshots|
      invariant 0 <= i <= |snapshots|
      invariant buckets == PutSnapshots(start, snapshots[..i])
    {
      var s := snapshots[i];
      assert snapshots[..i + 1][..i] == snapshots[..i];
      if s.project != "" {
        var entry := Bucket(buckets, s.project);
        entry := entry.(snapshotGib := entry.snapshotGib + s.sizeGib);
        if IsBackup(s) {
          entry := entry.(backupGib := entry.backupGib + s.sizeGib);
        }
        buckets := buckets[s.project := entry];
      }
      i := i + 1;
    }
    assert snapshots[..|snapshots|] == snapshots;
  }

  /** One bucket for every project that holds anything readable, with all that it holds. */
  method MeasureCluster(c: Cluster) returns (buckets: Buckets)
    ensures forall p :: p in buckets <==> p != "" && Touched(c, p)
    ensures forall p :: p in buckets ==> buckets[p] == MeasuresOf(c, p)
  {
    var machines := MeasureVms(map[], Items(c.vms));
    var disks := MeasureVolumes(machines, Items(c.volumes));
    var addressed := MeasureAddresses(disks, Items(c.addresses));
    buckets := MeasureSnapshots(addressed, Items(c.snapshots));
    AllMeasured(c, machines, disks, addressed, buckets);
  }

  lemma AllMeasured(c: Cluster, machines: Buckets, disks: Buckets, addressed: Buckets, buckets: Buckets)
    requires machines == PutVms(map[], Items(c.vms)) && disks == PutVolumes(machines, Items(c.volumes))
    requires addressed == PutAddresses(disks, Items(c.addresses))
    requires buckets == PutSnapshots(addressed, Items(c.snapshots))
    ensures forall p :: p in buckets <==> p != "" && Touched(c, p)
    ensures forall p :: p in buckets ==> buckets[p] == MeasuresOf(c, p)
  {
    forall p
      ensures p in buckets <==> p != "" && Touched(c, p)
      ensures p != "" ==> Bucket(buckets, p) == MeasuresOf(c, p)
    {
      PutVmsOn(map[], Items(c.vms), p);
      PutVolumesOn(machines, Items(c.volumes), p);
      PutAddressesOn(disks, Items(c.addresses), p);
      PutSnapshotsOn(addressed, Items(c.snapshots), p);
    }
  }

  /******* _live_measurements *******/

  /** Today's shape of one project; without backups, they are left out at the source. */
  method LiveMeasurements(c: Cluster, project: string, withBackups: bool) returns (values: Measures)
    ensures values == LiveOf(c, project, withBackups)
  {
    values := LiveVms(BLANK, Items(c.vms), project);
    values := LiveVolumes(values, Items(c.volumes), project);
    values := LiveAddresses(values, Items(c.addresses), project);
    values := LiveSnapshots(values, Items(c.snapshots), project, withBackups);
  }

  method LiveVms(start: Measures, vms: seq<Vm>, project: string) returns (values: Measures)
    ensures values == VmsOn(start, vms, project)
  {
    values := start;
    for i := 0 to |vms|
      invariant values == VmsOn(start, vms[..i], project)
    {
      assert vms[..i + 1][..i] == vms[..i];
      if vms[i].project == project {
        values := values.(vmsTotal := values.vmsTotal + 1);
        if Running(vms[i]) {
          values := values.(vmsRunning := values.vmsRunning + 1, vcpus := values.vcpus + vms[i].vcpus,
                            ramMb := values.ramMb + vms[i].ramMb);
        }
      }
    }
    assert vms[..|vms|] == vms;
  }

  method LiveVolumes(start: Measures, volumes: seq<Volume>, project: string) returns (values: Measures)
    ensures values == VolumesOn(start, volumes, project)
  {
    values := start;
    for i := 0 to |volumes|
      invariant values == VolumesOn(start, volumes[..i], project)
    {
      assert volumes[..i + 1][..i] == volumes[..i];
      if volumes[i].project == project {
        if volumes[i].media == "SSD" {
          values := values.(ssdGib := values.ssdGib + volumes[i].sizeGib);
        } else if volumes[i].media == "HDD" {
          values := values.(hddGib := values.hddGib + volumes[i].sizeGib);
        } else {
          values := values.(unlabelledGib := values.unlabelledGib + volumes[i].sizeGib);
        }
      }
    }
    assert volumes[..|volumes|] == volumes;
  }

  method LiveAddresses(start: Measures, addresses: seq<Address>, project: string) returns (values: Measures)
    ensures values == AddressesOn(start, addresses, project)
  {
    values := start;
    for i := 0 to |addresses|
      invariant values == AddressesOn(start, addresses[..i], project)
    {
      assert addresses[..i + 1][..i] == addresses[..i];
      if addresses[i].project == project {
        values := values.(elasticIps := values.elasticIps + 1);
      }
    }
    assert addresses[..|addresses|] == addresses;
  }

  method LiveSnapshots(start: Measures, snapshots: seq<VolumeSnapshot>, project: string, withBackups: bool)
    returns (values: Measures)
    ensures values == LiveSnapshotsOn(start, snapshots, project, withBackups)
  {
    values := start;
    for i := 0 to |snapshots|
      invariant values == LiveSnapshotsOn(start, snapshots[..i], project, withBackups)
    {
      assert snapshots[..i + 1][..i] == snapshots[..i];
      if snapshots[i].project == project && (withBackups || !IsBackup(snapshots[i])) {
        values := values.(snapshotGib := values.snapshotGib + snapshots[i].sizeGib);
      }
    }
    assert snapshots[..|snapshots|] == snapshots;
  }

  /******* The estimate and the bill *******/

  lemma {:induction false} VmsHoldNoSnapshots(vms: seq<Vm>, p: string)
    ensures var m := VmsOn(BLANK, vms, p); m.snapshotGib == m.backupGib == 0
  {
    if vms != [] {
      VmsHoldNoSnapshots(vms[..|vms| - 1], p);
    }
  }

  lemma {:induction false} VolumesKeepSnapshots(start: Measures, vs: seq<Volume>, p: string)
    ensures var m := VolumesOn(start, vs, p); m.snapshotGib == start.snapshotGib && m.backupGib == start.backupGib
  {
    if vs != [] {
      VolumesKeepSnapshots(start, vs[..|vs| - 1], p);
    }
  }

  lemma {:induction false} AddressesKeepSnapshots(start: Measures, es: seq<Address>, p: string)
    ensures var m := AddressesOn(start, es, p); m.snapshotGib == start.snapshotGib && m.backupGib == start.backupGib
  {
    if es != [] {
      AddressesKeepSnapshots(start, es[..|es| - 1], p);
    }
  }

  lemma {:induction false} SnapshotSplit(start: Measures, ss: seq<VolumeSnapshot>, p: string, withBackups: bool)
    requires start.snapshotGib == start.backupGib == 0
    ensures var all, live := SnapshotsOn(start, ss, p), LiveSnapshotsOn(start, ss, p, withBackups);
            && all.backupGib <= all.snapshotGib
            && live == all.(backupGib := 0, snapshotGib := all.snapshotGib - if withBackups then 0 else all.backupGib)
  {
    if ss != [] {
      SnapshotSplit(start, ss[..|ss| - 1], p, withBackups);
    }
  }

  /** Capture keeps backups part of the snapshots, and the live path drops at the source what
      the stored path subtracts when it prices. */
  lemma LiveIsMeasured(c: Cluster, p: string, withBackups: bool)
    ensures var m, live := MeasuresOf(c, p), LiveOf(c, p, withBackups);
            && m.backupGib <= m.snapshotGib
            && live == m.(backupGib := 0, snapshotGib := m.snapshotGib - if withBackups then 0 else m.backupGib)
  {
    VmsHoldNoSnapshots(Items(c.vms), p);
    VolumesKeepSnapshots(VmsOn(BLANK, Items(c.vms), p), Items(c.volumes), p);
    AddressesKeepSnapshots(VolumesOn(VmsOn(BLANK, Items(c.vms), p), Items(c.volumes), p), Items(c.addresses), p);
    SnapshotSplit(BesidesSnapshots(c, p), Items(c.snapshots), p, withBackups);
  }

  datatype Owner = Owner(account: string, domain: string)

  /** The row stored for a project's measurements on a day. */
  function RowOf(day: Date, project: string, owner: Owner, m: Measures): Row
    requires m.backupGib <= m.snapshotGib
  {
    Measured(day, project, owner.account, owner.domain, m.vcpus, m.ramMb, m.ssdGib, m.hddGib, m.elasticIps,
             m.snapshotGib, m.backupGib)
  }

  /** The rows one capture stores for a project: one if it holds anything, none otherwise. */
  function Captured(c: Cluster, day: Date, project: string, owner: Owner): seq<Row> {
    LiveIsMeasured(c, project, true);
    if Touched(c, project) then [RowOf(day, project, owner, MeasuresOf(c, project))] else []
  }

  /** Today's shape as an unsaved row: it has no day, no owner, and no backups apart. */
  function ShapeOf(live: Measures): Row {
    Measured(Date(1, 1, 1), "", "", "", live.vcpus, live.ramMb, live.ssdGib, live.hddGib, live.elasticIps,
             live.snapshotGib, 0)
  }

  /** Dividing by one measured day and rounding is rounding. */
  lemma OneDayAverage(shape: Row, r: Resource)
    requires Whole(shape, r) < SAFE
    ensures Average(Whole(shape, r), 1) == HalfUp(100 * Whole(shape, r), 1024)
  {
    AverageIsExact(Whole(shape, r), 1);
  }

  lemma {:induction false} SameAsEstimate(rs: seq<Resource>, held: Resource -> nat, shape: Row, rates: Prices)
    requires forall r :: held(r) == Whole(shape, r) && held(r) < SAFE
    ensures SameCharges(LinesOf(rs, held, 1, rates), EstimateLines(rs, shape, rates))
  {
    if rs != [] {
      var r := rs[|rs| - 1];
      SameAsEstimate(rs[..|rs| - 1], held, shape, rates);
      OneDayAverage(shape, r);
      assert SameCharge(LineOf(held(r), 1, rates, r), EstimateLine(shape, rates, r));
    }
  }

  lemma OneRow(row: Row, off: set<string>, r: Resource)
    ensures UnitDays([row], off, r) == Billed(row, off, r)
    ensures Days([row]) == {row.takenOn} && Domains([row]) == {row.domain}
  {
    UnitDaysOne(row, off, r);
    assert [row][0] == row;
  }

  lemma {:induction false} UntouchedIsBlank(c: Cluster, p: string, withBackups: bool)
    requires !Touched(c, p)
    ensures LiveOf(c, p, withBackups) == BLANK
  {
    NoVms(Items(c.vms), p);
    NoVolumes(Items(c.volumes), p);
    NoAddresses(Items(c.addresses), p);
    NoSnapshots(Items(c.snapshots), p, withBackups);
  }

  lemma {:induction false} NoVms(vms: seq<Vm>, p: string)
    requires forall vm :: vm in vms ==> vm.project != p
    ensures VmsOn(BLANK, vms, p) == BLANK
  {
    if vms != [] {
      NoVms(vms[..|vms| - 1], p);
    }
  }

  lemma {:induction false} NoVolumes(vs: seq<Volume>, p: string)
    requires forall v :: v in vs ==> v.project != p
    ensures VolumesOn(BLANK, vs, p) == BLANK
  {
    if vs != [] {
      NoVolumes(vs[..|vs| - 1], p);
    }
  }

  lemma {:induction false} NoAddresses(es: seq<Address>, p: string)
    requires forall e :: e in es ==> e.project != p
    ensures AddressesOn(BLANK, es, p) == BLANK
  {
    if es != [] {
      NoAddresses(es[..|es| - 1], p);
    }
  }

  lemma {:induction false} NoSnapshots(ss: seq<VolumeSnapshot>, p: string, withBackups: bool)
    requires forall s :: s in ss ==> s.project != p
    ensures LiveSnapshotsOn(BLANK, ss, p, withBackups) == BLANK
  {
    if ss != [] {
      NoSnapshots(ss[..|ss| - 1], p, withBackups);
    }
  }

  /** The estimate and the bill cannot drift apart.  Whatever the cluster holds and whichever
      lists fail, the live estimate of a project has the same lines and the same total as the
      bill of the row that a capture of that moment would store for it, whether or not its
      account's backups are on the bill. */
  lemma EstimateEqualsBill(c: Cluster, day: Date, project: string, owner: Owner, settings: Settings, rates: Prices)
    requires forall r :: Whole(ShapeOf(LiveOf(c, project, true)), r) < SAFE
    ensures var live := LiveOf(c, project, CountsBackups(owner.domain, settings));
            var estimate := EstimateLines(SORTED, ShapeOf(live), rates);
            var bill := BillWith(Captured(c, day, project, owner), settings, rates);
            SameCharges(bill.lines, estimate) && bill.total == TotalOf(estimate)
  {
    var off := Uncounted({owner.domain}, settings);
    var withBackups := CountsBackups(owner.domain, settings);
    var shape := ShapeOf(LiveOf(c, project, withBackups));
    LiveIsMeasured(c, project, true);
    LiveIsMeasured(c, project, withBackups);
    if Touched(c, project) {
      var row := RowOf(day, project, owner, MeasuresOf(c, project));
      forall r
        ensures Held([row], off)(r) == Whole(shape, r) < SAFE
      {
        OneRow(row, off, r);
        assert Whole(shape, r) <= Whole(ShapeOf(LiveOf(c, project, true)), r);
      }
      OneRow(row, off, Vcpu);
      SameAsEstimate(SORTED, Held([row], off), shape, rates);
      SameTotal(LinesOf(SORTED, Held([row], off), 1, rates), EstimateLines(SORTED, shape, rates));
    } else {
      UntouchedIsBlank(c, project, withBackups);
      NothingEstimated(SORTED, shape, rates);
      NoLines(SORTED, Held([], Uncounted(Domains([]), settings)), 0, rates);
      assert Days([]) == {};
    }
  }

  lemma {:induction false} NothingEstimated(rs: seq<Resource>, shape: Row, rates: Prices)
    requires forall r :: Whole(shape, r) == 0
    ensures EstimateLines(rs, shape, rates) == []
  {
    if rs != [] {
      NothingEstimated(rs[..|rs| - 1], shape, rates);
    }
  }

  /******* capture *******/

  /** A project the service account cannot see the owner of is stored without an account. */
  function OwnerOf(directory: map<string, Owner>, project: string): Owner {
    if project in directory then directory[project] else Owner("", "")
  }

  type Rows = map<(string, Date), Row>

  predicate Consistent(buckets: Buckets) {
    forall p :: p in buckets ==> buckets[p].backupGib <= buckets[p].snapshotGib
  }

  /** `after` is `before` with the day's row of each project in `done` written over it. */
  ghost predicate Recorded(after: Rows, before: Rows, done: set<string>, day: Date, buckets: Buckets,
                           directory: map<string, Owner>)
    requires Consistent(buckets) && done <= buckets.Keys
  {
    && (forall k :: k in after <==> k in before || (k.1 == day && k.0 in done))
    && (forall p :: p in done ==> after[(p, day)] == RowOf(day, p, OwnerOf(directory, p), buckets[p]))
    && (forall k :: k in before && !(k.1 == day && k.0 in done) ==> after[k] == before[k])
  }

  lemma RecordOne(now: Rows, before: Rows, done: set<string>, day: Date, buckets: Buckets,
                  directory: map<string, Owner>, p: string)
    requires Consistent(buckets) && done <= buckets.Keys && p in buckets && p !in done
    requires Recorded(now, before, done, day, buckets, directory)
    ensures Recorded(now[(p, day) := RowOf(day, p, OwnerOf(directory, p), buckets[p])], before, done + {p}, day,
                     buckets, directory)
  {
  }

  lemma MoveOne(todo: set<string>, done: set<string>, p: string, known: set<string>)
    requires todo !! done && p in todo
    ensures (todo - {p}) !! (done + {p}) && (todo - {p}) + (done + {p}) == todo + done
    ensures |done + {p}| == |done| + 1
    ensures |(done + {p}) - known| == |done - known| + if p in known then 0 else 1
  {
    if p in known {
      assert (done + {p}) - known == done - known;
    } else {
      assert (done + {p}) - known == (done - known) + {p};
    }
  }

  /** The stored rows, unique by project and day. */
  class UsageTable {
    var rows: Rows

    constructor ()
      ensures rows == map[]
    {
      rows := map[];
    }

    /** Writes one row per measured project for the day, overwriting an earlier capture of that
        day and touching nothing else. */
    method Capture(day: Date, buckets: Buckets, directory: map<string, Owner>) returns (written: nat, unknown: nat)
      requires Consistent(buckets)
      modifies this
      ensures Recorded(rows, old(rows), buckets.Keys, day, buckets, directory)
      ensures written == |buckets| && unknown == |buckets.Keys - directory.Keys|
    {
      written, unknown := 0, 0;
      var todo := buckets.Keys;
      ghost var done: set<string> := {};
      while todo != {}
        invariant todo !! done && todo + done == buckets.Keys
        invariant Recorded(rows, old(rows), done, day, buckets, directory)
        invariant written == |done| && unknown == |done - directory.Keys|
        decreases |todo|
      {
        var p :| p in todo;
        MoveOne(todo, done, p, directory.Keys);
        if p !in directory {
          unknown := unknown + 1;
        }
        RecordOne(rows, old(rows), done, day, buckets, directory, p);
        rows := rows[(p, day) := RowOf(day, p, OwnerOf(directory, p), buckets[p])];
        todo := todo - {p};
        done := done + {p};
        written := written + 1;
      }
      assert done == buckets.Keys;
    }
  }

  /** Re-running a day overwrites it: capturing the same measurements twice stores what
      capturing them once does. */
  lemma RecaptureOverwrites(first: Rows, second: Rows, before: Rows, day: Date, buckets: Buckets,
                            directory: map<string, Owner>)
    requires Consistent(buckets)
    requires Recorded(first, before, buckets.Keys, day, buckets, directory)
    requires Recorded(second, first, buckets.Keys, day, buckets, directory)
    ensures second == first
  {
    forall k | k in first
      ensures k in second && second[k] == first[k]
    {
      assert k == (k.0, k.1);
    }
  }
}
