/** What apps/platform_admin/snapshot.py attributes: the usage records, the folds that count a
    row into them, and the figures they should come to. */
module Attribution {
  import opened Sequences
  import opened Text

  datatype Source = Vms | Volumes | VolumeSnapshots | VmSnapshots | PublicIps | Vpcs | Subnets | SecurityGroups

  const SOURCES: seq<Source> :=
    [Vms, Volumes, VolumeSnapshots, VmSnapshots, PublicIps, Vpcs, Subnets, SecurityGroups]

  datatype Field =
    | VmCount | RunningVms | Vcpus | RamMb | VolumeCount | StorageGib | StorageByMedia
    | VolumeSnapshotCount | VolumeSnapshotGib | BackupSnapshotCount | BackupSnapshotGib
    | VmSnapshotCount | PublicIpCount | VpcCount | SubnetCount | SecurityGroupCount

  /** `FIELDS_BY_SOURCE`. */
  function FieldsOf(s: Source): set<Field> {
    match s
    case Vms => {VmCount, RunningVms, Vcpus, RamMb}
    case Volumes => {VolumeCount, StorageGib, StorageByMedia}
    case VolumeSnapshots => {VolumeSnapshotCount, VolumeSnapshotGib, BackupSnapshotCount, BackupSnapshotGib}
    case VmSnapshots => {VmSnapshotCount}
    case PublicIps => {PublicIpCount}
    case Vpcs => {VpcCount}
    case Subnets => {SubnetCount}
    case SecurityGroups => {SecurityGroupCount}
  }

  /** A row of a list; what a row of its kind does not carry is nought or empty. */
  datatype Row = Row(project: string, status: string, vcpus: nat, ramMb: nat, sizeGib: nat, media: string, backup: bool)

  datatype Usage = Usage(
    vmCount: nat, runningVms: nat, vcpus: nat, ramMb: nat, volumeCount: nat, storageGib: nat,
    volumeSnapshotCount: nat, volumeSnapshotGib: nat, backupSnapshotCount: nat, backupSnapshotGib: nat,
    vmSnapshotCount: nat, publicIps: nat, vpcCount: nat, subnetCount: nat, securityGroupCount: nat)

  const BLANK_USAGE := Usage(0, 0, 0, 0, 0, 0, 0, 0, 0, 0, 0, 0, 0, 0, 0)

  predicate Running(row: Row) {
    Lower(row.status) == "running" || Lower(row.status) == "active"
  }

  /** `_FOLD[source]`. */
  function Fold(s: Source, u: Usage, row: Row): Usage {
    match s
    case Vms => u.(vmCount := u.vmCount + 1, vcpus := u.vcpus + row.vcpus, ramMb := u.ramMb + row.ramMb,
                   runningVms := u.runningVms + if Running(row) then 1 else 0)
    case Volumes => u.(volumeCount := u.volumeCount + 1, storageGib := u.storageGib + row.sizeGib)
    case VolumeSnapshots =>
      var v := u.(volumeSnapshotCount := u.volumeSnapshotCount + 1,
                  volumeSnapshotGib := u.volumeSnapshotGib + row.sizeGib);
      if row.backup then v.(backupSnapshotCount := u.backupSnapshotCount + 1,
                            backupSnapshotGib := u.backupSnapshotGib + row.sizeGib) else v
    case VmSnapshots => u.(vmSnapshotCount := u.vmSnapshotCount + 1)
    case PublicIps => u.(publicIps := u.publicIps + 1)
    case Vpcs => u.(vpcCount := u.vpcCount + 1)
    case Subnets => u.(subnetCount := u.subnetCount + 1)
    case SecurityGroups => u.(securityGroupCount := u.securityGroupCount + 1)
  }

  function Read(u: Usage, f: Field): nat {
    match f
    case VmCount => u.vmCount case RunningVms => u.runningVms case Vcpus => u.vcpus case RamMb => u.ramMb
    case VolumeCount => u.volumeCount case StorageGib => u.storageGib case StorageByMedia => 0
    case VolumeSnapshotCount => u.volumeSnapshotCount case VolumeSnapshotGib => u.volumeSnapshotGib
    case BackupSnapshotCount => u.backupSnapshotCount case BackupSnapshotGib => u.backupSnapshotGib
    case VmSnapshotCount => u.vmSnapshotCount case PublicIpCount => u.publicIps case VpcCount => u.vpcCount
    case SubnetCount => u.subnetCount case SecurityGroupCount => u.securityGroupCount
  }

  /** What one row of a source is worth in one field. */
  function Worth(s: Source, row: Row, f: Field): nat {
    match (s, f)
    case (Vms, VmCount) => 1
    case (Vms, RunningVms) => if Running(row) then 1 else 0
    case (Vms, Vcpus) => row.vcpus
    case (Vms, RamMb) => row.ramMb
    case (Volumes, VolumeCount) => 1
    case (Volumes, StorageGib) => row.sizeGib
    case (VolumeSnapshots, VolumeSnapshotCount) => 1
    case (VolumeSnapshots, VolumeSnapshotGib) => row.sizeGib
    case (VolumeSnapshots, BackupSnapshotCount) => if row.backup then 1 else 0
    case (VolumeSnapshots, BackupSnapshotGib) => if row.backup then row.sizeGib else 0
    case (VmSnapshots, VmSnapshotCount) => 1
    case (PublicIps, PublicIpCount) => 1
    case (Vpcs, VpcCount) => 1
    case (Subnets, SubnetCount) => 1
    case (SecurityGroups, SecurityGroupCount) => 1
    case _ => 0
  }

  lemma FoldAdds(s: Source, u: Usage, row: Row, f: Field)
    ensures Read(Fold(s, u, row), f) == Read(u, f) + Worth(s, row, f)
  {
  }

  /******* Whose row it is *******/

  /** project id to account id, for every project that could be listed. */
  type Directory = map<string, string>

  function AccountOf(d: Directory, row: Row): string {
    if row.project in d then d[row.project] else ""
  }

  predicate Attributed(d: Directory, row: Row) {
    AccountOf(d, row) != ""
  }

  /** The rows of a list that fall to an account, and to a project. */
  function OfAccount(rows: seq<Row>, d: Directory, account: string): seq<Row> {
    if rows == [] then []
    else
      var row := rows[|rows| - 1];
      OfAccount(rows[..|rows| - 1], d, account) + if Attributed(d, row) && AccountOf(d, row) == account then [row] else []
  }

  function OfProject(rows: seq<Row>, d: Directory, project: string): seq<Row> {
    if rows == [] then []
    else
      var row := rows[|rows| - 1];
      OfProject(rows[..|rows| - 1], d, project) + if Attributed(d, row) && row.project == project then [row] else []
  }

  function Orphans(rows: seq<Row>, d: Directory): seq<Row> {
    if rows == [] then []
    else
      var row := rows[|rows| - 1];
      Orphans(rows[..|rows| - 1], d) + if Attributed(d, row) then [] else [row]
  }

  function Sum(s: Source, rows: seq<Row>, f: Field): nat {
    if rows == [] then 0 else Sum(s, rows[..|rows| - 1], f) + Worth(s, rows[|rows| - 1], f)
  }

  /** An account's record after a list, and a project's. */
  function AccountUsage(s: Source, u: Usage, rows: seq<Row>, d: Directory, account: string): Usage {
    if rows == [] then u
    else
      var before, row := AccountUsage(s, u, rows[..|rows| - 1], d, account), rows[|rows| - 1];
      if Attributed(d, row) && AccountOf(d, row) == account then Fold(s, before, row) else before
  }

  function ProjectUsage(s: Source, u: Usage, rows: seq<Row>, d: Directory, project: string): Usage {
    if rows == [] then u
    else
      var before, row := ProjectUsage(s, u, rows[..|rows| - 1], d, project), rows[|rows| - 1];
      if Attributed(d, row) && row.project == project then Fold(s, before, row) else before
  }

  lemma SumAppend(s: Source, rows: seq<Row>, row: Row, f: Field)
    ensures Sum(s, rows + [row], f) == Sum(s, rows, f) + Worth(s, row, f)
  {
    assert (rows + [row])[..|rows|] == rows;
  }

  lemma {:induction false} AccountUsageSums(s: Source, u: Usage, rows: seq<Row>, d: Directory, account: string, f: Field)
    ensures Read(AccountUsage(s, u, rows, d, account), f) == Read(u, f) + Sum(s, OfAccount(rows, d, account), f)
  {
    if rows != [] {
      AccountUsageSums(s, u, rows[..|rows| - 1], d, account, f);
      AccountSumStep(s, rows, d, account, f);
      FoldAdds(s, AccountUsage(s, u, rows[..|rows| - 1], d, account), rows[|rows| - 1], f);
    }
  }

  lemma {:induction false} ProjectUsageSums(s: Source, u: Usage, rows: seq<Row>, d: Directory, project: string, f: Field)
    ensures Read(ProjectUsage(s, u, rows, d, project), f) == Read(u, f) + Sum(s, OfProject(rows, d, project), f)
  {
    if rows != [] {
      ProjectUsageSums(s, u, rows[..|rows| - 1], d, project, f);
      ProjectSumStep(s, rows, d, project, f);
      FoldAdds(s, ProjectUsage(s, u, rows[..|rows| - 1], d, project), rows[|rows| - 1], f);
    }
  }

  /** A list says nothing about another list's fields. */
  lemma {:induction false} OtherFields(s: Source, rows: seq<Row>, f: Field)
    requires SourceOf(f) != s
    ensures Sum(s, rows, f) == 0
  {
    if rows != [] {
      OtherFields(s, rows[..|rows| - 1], f);
    }
  }

  /******* Conservation *******/

  function SumOverAccounts(accounts: seq<string>, s: Source, rows: seq<Row>, d: Directory, f: Field): nat {
    if accounts == [] then 0
    else SumOverAccounts(accounts[1..], s, rows, d, f) + Sum(s, OfAccount(rows, d, accounts[0]), f)
  }

  function SumOverProjects(projects: seq<string>, s: Source, rows: seq<Row>, d: Directory, f: Field): nat {
    if projects == [] then 0
    else SumOverProjects(projects[1..], s, rows, d, f) + Sum(s, OfProject(rows, d, projects[0]), f)
  }

  lemma AccountSumStep(s: Source, rows: seq<Row>, d: Directory, account: string, f: Field)
    requires rows != []
    ensures var row := rows[|rows| - 1];
            Sum(s, OfAccount(rows, d, account), f) == Sum(s, OfAccount(rows[..|rows| - 1], d, account), f)
              + if Attributed(d, row) && AccountOf(d, row) == account then Worth(s, row, f) else 0
  {
    var before, row := OfAccount(rows[..|rows| - 1], d, account), rows[|rows| - 1];
    SumAppend(s, before, row, f);
    assert before + [] == before;
  }

  lemma ProjectSumStep(s: Source, rows: seq<Row>, d: Directory, project: string, f: Field)
    requires rows != []
    ensures var row := rows[|rows| - 1];
            Sum(s, OfProject(rows, d, project), f) == Sum(s, OfProject(rows[..|rows| - 1], d, project), f)
              + if Attributed(d, row) && row.project == project then Worth(s, row, f) else 0
  {
    var before, row := OfProject(rows[..|rows| - 1], d, project), rows[|rows| - 1];
    SumAppend(s, before, row, f);
    assert before + [] == before;
  }

  lemma OrphanSumStep(s: Source, rows: seq<Row>, d: Directory, f: Field)
    requires rows != []
    ensures var row := rows[|rows| - 1];
            Sum(s, Orphans(rows, d), f) == Sum(s, Orphans(rows[..|rows| - 1], d), f)
              + if Attributed(d, row) then 0 else Worth(s, row, f)
  {
    var before, row := Orphans(rows[..|rows| - 1], d), rows[|rows| - 1];
    SumAppend(s, before, row, f);
    assert before + [] == before;
  }

  lemma {:induction false} AccountsAppend(accounts: seq<string>, s: Source, rows: seq<Row>, d: Directory, f: Field)
    requires Distinct(accounts) && rows != []
    ensures var row := rows[|rows| - 1];
            SumOverAccounts(accounts, s, rows, d, f) == SumOverAccounts(accounts, s, rows[..|rows| - 1], d, f)
              + if Attributed(d, row) && AccountOf(d, row) in accounts then Worth(s, row, f) else 0
  {
    if accounts != [] {
      var account := AccountOf(d, rows[|rows| - 1]);
      FirstOrLater(accounts, account);
      AccountsAppend(accounts[1..], s, rows, d, f);
      AccountSumStep(s, rows, d, accounts[0], f);
    }
  }

  lemma {:induction false} ProjectsAppend(projects: seq<string>, s: Source, rows: seq<Row>, d: Directory, f: Field)
    requires Distinct(projects) && rows != []
    ensures var row := rows[|rows| - 1];
            SumOverProjects(projects, s, rows, d, f) == SumOverProjects(projects, s, rows[..|rows| - 1], d, f)
              + if Attributed(d, row) && row.project in projects then Worth(s, row, f) else 0
  {
    if projects != [] {
      var row := rows[|rows| - 1];
      FirstOrLater(projects, row.project);
      ProjectsAppend(projects[1..], s, rows, d, f);
      ProjectSumStep(s, rows, d, projects[0], f);
    }
  }

  /** The cluster's total of a field is the sum over the accounts plus what could not be
      attributed: nothing is lost, and nothing is counted twice. */
  lemma {:induction false} ClusterIsConserved(accounts: seq<string>, s: Source, rows: seq<Row>, d: Directory, f: Field)
    requires Distinct(accounts) && forall p :: p in d && d[p] != "" ==> d[p] in accounts
    ensures Sum(s, rows, f) == SumOverAccounts(accounts, s, rows, d, f) + Sum(s, Orphans(rows, d), f)
  {
    if rows == [] {
      NoRowsNoAccounts(accounts, s, d, f);
    } else {
      ClusterIsConserved(accounts, s, rows[..|rows| - 1], d, f);
      AccountsAppend(accounts, s, rows, d, f);
      OrphanSumStep(s, rows, d, f);
    }
  }

  lemma {:induction false} NoRowsNoAccounts(accounts: seq<string>, s: Source, d: Directory, f: Field)
    ensures SumOverAccounts(accounts, s, [], d, f) == 0
  {
    if accounts != [] {
      NoRowsNoAccounts(accounts[1..], s, d, f);
    }
  }

  /** `projects` are the listed projects of the account. */
  ghost predicate ProjectsOf(projects: seq<string>, d: Directory, account: string) {
    forall p :: p in projects <==> p in d && d[p] == account
  }

  /** An account's figure is the sum of its projects' figures. */
  lemma {:induction false} AccountIsItsProjects(account: string, projects: seq<string>, s: Source, rows: seq<Row>,
                                                d: Directory, f: Field)
    requires account != "" && Distinct(projects) && ProjectsOf(projects, d, account)
    ensures Sum(s, OfAccount(rows, d, account), f) == SumOverProjects(projects, s, rows, d, f)
  {
    if rows == [] {
      NoRowsNoProjects(projects, s, d, f);
    } else {
      var row := rows[|rows| - 1];
      AccountIsItsProjects(account, projects, s, rows[..|rows| - 1], d, f);
      ProjectsAppend(projects, s, rows, d, f);
      AccountSumStep(s, rows, d, account, f);
      assert Attributed(d, row) ==> (AccountOf(d, row) == account <==> row.project in projects);
    }
  }

  lemma {:induction false} NoRowsNoProjects(projects: seq<string>, s: Source, d: Directory, f: Field)
    ensures SumOverProjects(projects, s, [], d, f) == 0
  {
    if projects != [] {
      NoRowsNoProjects(projects[1..], s, d, f);
    }
  }

  /******* Which fields are known *******/

  function SourceOf(f: Field): (s: Source)
    ensures f in FieldsOf(s)
  {
    match f
    case VmCount => Vms case RunningVms => Vms case Vcpus => Vms case RamMb => Vms
    case VolumeCount => Volumes case StorageGib => Volumes case StorageByMedia => Volumes
    case VolumeSnapshotCount => VolumeSnapshots case VolumeSnapshotGib => VolumeSnapshots
    case BackupSnapshotCount => VolumeSnapshots case BackupSnapshotGib => VolumeSnapshots
    case VmSnapshotCount => VmSnapshots case PublicIpCount => PublicIps case VpcCount => Vpcs
    case SubnetCount => Subnets case SecurityGroupCount => SecurityGroups
  }

  /** The fields are shared out over the sources: each belongs to its own and to no other. */
  lemma FieldsArePartitioned(s: Source, f: Field)
    ensures f in FieldsOf(s) <==> s == SourceOf(f)
  {
  }

  /******* Capacity per medium *******/

  datatype MediaRow = MediaRow(media: string, volumes: nat, totalGib: nat)

  /** `setdefault` on the medium's bucket and the two increments, in order of first appearance. */
  function AddMedia(buckets: seq<MediaRow>, v: Row): seq<MediaRow> {
    if buckets == [] then [MediaRow(v.media, 1, v.sizeGib)]
    else if buckets[0].media == v.media then
      [MediaRow(v.media, buckets[0].volumes + 1, buckets[0].totalGib + v.sizeGib)] + buckets[1..]
    else [buckets[0]] + AddMedia(buckets[1..], v)
  }

  function MediaBuckets(volumes: seq<Row>): seq<MediaRow> {
    if volumes == [] then [] else AddMedia(MediaBuckets(volumes[..|volumes| - 1]), volumes[|volumes| - 1])
  }

  /** Biggest first, and what carries no label last. */
  predicate Ahead(a: MediaRow, b: MediaRow) {
    if (a.media == "") != (b.media == "") then a.media != "" else a.totalGib >= b.totalGib
  }

  /** `media_totals`. */
  function MediaTotals(volumes: seq<Row>): seq<MediaRow> {
    Sort(MediaBuckets(volumes), Ahead)
  }

  function TotalGib(rows: seq<MediaRow>): nat {
    if rows == [] then 0 else rows[0].totalGib + TotalGib(rows[1..])
  }

  function TotalVolumes(rows: seq<MediaRow>): nat {
    if rows == [] then 0 else rows[0].volumes + TotalVolumes(rows[1..])
  }

  lemma {:induction false} AddMediaSums(buckets: seq<MediaRow>, v: Row)
    ensures TotalGib(AddMedia(buckets, v)) == TotalGib(buckets) + v.sizeGib
    ensures TotalVolumes(AddMedia(buckets, v)) == TotalVolumes(buckets) + 1
  {
    if buckets == [] {
      assert AddMedia(buckets, v)[1..] == [];
    } else if buckets[0].media == v.media {
      assert AddMedia(buckets, v)[1..] == buckets[1..];
    } else {
      AddMediaSums(buckets[1..], v);
      assert AddMedia(buckets, v)[1..] == AddMedia(buckets[1..], v);
    }
  }

  lemma {:induction false} InsertSums(row: MediaRow, rows: seq<MediaRow>)
    ensures TotalGib(Insert(row, rows, Ahead)) == row.totalGib + TotalGib(rows)
    ensures TotalVolumes(Insert(row, rows, Ahead)) == row.volumes + TotalVolumes(rows)
  {
    if rows == [] {
      assert Insert(row, rows, Ahead)[1..] == [];
    } else if Ahead(rows[0], row) {
      InsertSums(row, rows[1..]);
      assert Insert(row, rows, Ahead)[1..] == Insert(row, rows[1..], Ahead);
    } else {
      assert Insert(row, rows, Ahead)[1..] == rows;
    }
  }

  lemma {:induction false} SortSums(rows: seq<MediaRow>)
    ensures TotalGib(Sort(rows, Ahead)) == TotalGib(rows)
    ensures TotalVolumes(Sort(rows, Ahead)) == TotalVolumes(rows)
  {
    if rows != [] {
      var before, last := rows[..|rows| - 1], rows[|rows| - 1];
      SortSums(before);
      InsertSums(last, Sort(before, Ahead));
      TotalsAppend(before, last);
      assert rows == before + [last];
    }
  }

  lemma {:induction false} TotalsAppend(rows: seq<MediaRow>, row: MediaRow)
    ensures TotalGib(rows + [row]) == TotalGib(rows) + row.totalGib
    ensures TotalVolumes(rows + [row]) == TotalVolumes(rows) + row.volumes
  {
    if rows == [] {
      assert (rows + [row])[1..] == [];
    } else {
      TotalsAppend(rows[1..], row);
      assert (rows + [row])[1..] == rows[1..] + [row];
    }
  }

  /** The split by medium adds up to the volumes it splits: in capacity, to the storage figure,
      and in number; it is listed with the unlabelled last, and biggest first among the rest. */
  lemma MediaAddUp(volumes: seq<Row>)
    ensures TotalGib(MediaTotals(volumes)) == Sum(Volumes, volumes, StorageGib)
    ensures TotalVolumes(MediaTotals(volumes)) == |volumes| == Sum(Volumes, volumes, VolumeCount)
    ensures var totals := MediaTotals(volumes);
            forall i, j :: 0 <= i < j < |totals| ==>
              && (totals[i].media == "" ==> totals[j].media == "")
              && (totals[i].media != "" && totals[j].media != "" ==> totals[i].totalGib >= totals[j].totalGib)
  {
    AheadIsAnOrder();
    SortIsSorted(MediaBuckets(volumes), Ahead);
    SortSums(MediaBuckets(volumes));
    BucketsAddUp(volumes);
  }

  lemma AheadIsAnOrder()
    ensures TotalOrder(Ahead)
  {
  }

  lemma {:induction false} BucketsAddUp(volumes: seq<Row>)
    ensures TotalGib(MediaBuckets(volumes)) == Sum(Volumes, volumes, StorageGib)
    ensures TotalVolumes(MediaBuckets(volumes)) == |volumes| == Sum(Volumes, volumes, VolumeCount)
  {
    if volumes != [] {
      BucketsAddUp(volumes[..|volumes| - 1]);
      AddMediaSums(MediaBuckets(volumes[..|volumes| - 1]), volumes[|volumes| - 1]);
    }
  }

  /******* One row per medium *******/

  function OfMedium(volumes: seq<Row>, media: string): seq<Row> {
    if volumes == [] then []
    else
      var v := volumes[|volumes| - 1];
      OfMedium(volumes[..|volumes| - 1], media) + if v.media == media then [v] else []
  }

  /** What the buckets say of a medium; nothing, if they have no row for it. */
  function Found(buckets: seq<MediaRow>, media: string): MediaRow {
    if buckets == [] then MediaRow(media, 0, 0)
    else if buckets[0].media == media then buckets[0]
    else Found(buckets[1..], media)
  }

  /** Distinct media, and no row without a volume. */
  predicate OneRowEach(buckets: seq<MediaRow>) {
    buckets == []
    || (buckets[0].volumes > 0 && Found(buckets[1..], buckets[0].media).volumes == 0 && OneRowEach(buckets[1..]))
  }

  lemma {:induction false} AddMediaCounts(buckets: seq<MediaRow>, v: Row, media: string)
    ensures var before, after := Found(buckets, media), Found(AddMedia(buckets, v), media);
            after == if media == v.media then MediaRow(media, before.volumes + 1, before.totalGib + v.sizeGib) else before
  {
    if buckets == [] {
      assert AddMedia(buckets, v)[1..] == [];
    } else if buckets[0].media == v.media {
      assert AddMedia(buckets, v)[1..] == buckets[1..];
    } else {
      AddMediaCounts(buckets[1..], v, media);
      assert AddMedia(buckets, v)[1..] == AddMedia(buckets[1..], v);
    }
  }

  lemma {:induction false} AddMediaOneRowEach(buckets: seq<MediaRow>, v: Row)
    requires OneRowEach(buckets)
    ensures OneRowEach(AddMedia(buckets, v))
  {
    if buckets == [] {
      assert AddMedia(buckets, v)[1..] == [];
    } else if buckets[0].media == v.media {
      assert AddMedia(buckets, v)[1..] == buckets[1..];
    } else {
      AddMediaOneRowEach(buckets[1..], v);
      AddMediaCounts(buckets[1..], v, buckets[0].media);
      assert AddMedia(buckets, v)[1..] == AddMedia(buckets[1..], v);
    }
  }

  lemma {:induction false} BucketsHold(volumes: seq<Row>, media: string)
    ensures OneRowEach(MediaBuckets(volumes))
    ensures Found(MediaBuckets(volumes), media)
         == MediaRow(media, |OfMedium(volumes, media)|, Sum(Volumes, OfMedium(volumes, media), StorageGib))
  {
    if volumes != [] {
      var before, v := volumes[..|volumes| - 1], volumes[|volumes| - 1];
      BucketsHold(before, media);
      AddMediaOneRowEach(MediaBuckets(before), v);
      AddMediaCounts(MediaBuckets(before), v, media);
      SumAppend(Volumes, OfMedium(before, media), v, StorageGib);
      assert OfMedium(before, media) + [] == OfMedium(before, media);
    }
  }

  lemma {:induction false} FoundIsMember(buckets: seq<MediaRow>, media: string)
    requires OneRowEach(buckets)
    ensures Found(buckets, media).volumes > 0 ==> Found(buckets, media) in buckets
    ensures forall row :: row in buckets ==> row.volumes > 0 && (row.media == media ==> row == Found(buckets, media))
  {
    if buckets != [] {
      FoundIsMember(buckets[1..], media);
      assert buckets == [buckets[0]] + buckets[1..];
    }
  }

  lemma {:induction false} RowsDiffer(buckets: seq<MediaRow>)
    requires OneRowEach(buckets)
    ensures Distinct(buckets)
  {
    if buckets != [] {
      RowsDiffer(buckets[1..]);
      FoundIsMember(buckets[1..], buckets[0].media);
    }
  }

  /** The finished split has exactly one row for each medium that occurs and none for any other,
      and that row holds the number and the capacity of the medium's own volumes. */
  lemma OneRowPerMedium(volumes: seq<Row>, media: string)
    ensures forall i, j :: 0 <= i < j < |MediaTotals(volumes)| ==>
              MediaTotals(volumes)[i].media != MediaTotals(volumes)[j].media
    ensures forall row :: row in MediaTotals(volumes) && row.media == media ==>
              row == MediaRow(media, |OfMedium(volumes, media)|, Sum(Volumes, OfMedium(volumes, media), StorageGib))
    ensures (exists row :: row in MediaTotals(volumes) && row.media == media) <==> OfMedium(volumes, media) != []
  {
    var buckets, totals := MediaBuckets(volumes), MediaTotals(volumes);
    AheadIsAnOrder();
    SortIsSorted(buckets, Ahead);
    BucketsHold(volumes, media);
    FoundIsMember(buckets, media);
    forall row
      ensures row in totals <==> row in buckets
    {
      SameMembers(totals, buckets, row);
    }
    assert OfMedium(volumes, media) != [] ==> Found(buckets, media) in totals;
    MediaDiffer(volumes);
  }

  lemma MediaDiffer(volumes: seq<Row>)
    ensures forall i, j :: 0 <= i < j < |MediaTotals(volumes)| ==>
              MediaTotals(volumes)[i].media != MediaTotals(volumes)[j].media
  {
    var buckets, totals := MediaBuckets(volumes), MediaTotals(volumes);
    AheadIsAnOrder();
    SortIsSorted(buckets, Ahead);
    BucketsHold(volumes, "");
    RowsDiffer(buckets);
    SameDistinct(buckets, totals);
    forall i, j | 0 <= i < j < |totals|
      ensures totals[i].media != totals[j].media
    {
      FoundIsMember(buckets, totals[i].media);
      SameMembers(totals, buckets, totals[i]);
      SameMembers(totals, buckets, totals[j]);
    }
  }

  /******* Whose rows, and how much, without the folds *******/

  lemma {:induction false} OfAccountIs(rows: seq<Row>, d: Directory, account: string, row: Row)
    requires account != ""
    ensures multiset(OfAccount(rows, d, account))[row]
         == if row.project in d && d[row.project] == account then multiset(rows)[row] else 0
  {
    if rows != [] {
      var before, last := rows[..|rows| - 1], rows[|rows| - 1];
      OfAccountIs(before, d, account, row);
      assert rows == before + [last];
    }
  }

  lemma {:induction false} OfProjectIs(rows: seq<Row>, d: Directory, project: string, row: Row)
    ensures multiset(OfProject(rows, d, project))[row]
         == if row.project == project && project in d && d[project] != "" then multiset(rows)[row] else 0
  {
    if rows != [] {
      var before, last := rows[..|rows| - 1], rows[|rows| - 1];
      OfProjectIs(before, d, project, row);
      assert rows == before + [last];
    }
  }

  lemma {:induction false} OrphansAre(rows: seq<Row>, d: Directory, row: Row)
    ensures multiset(Orphans(rows, d))[row]
         == if row.project !in d || d[row.project] == "" then multiset(rows)[row] else 0
  {
    if rows != [] {
      var before, last := rows[..|rows| - 1], rows[|rows| - 1];
      OrphansAre(before, d, row);
      OneMoreOrphan(before, last, d);
      assert rows == before + [last];
    }
  }

  lemma OneMoreOrphan(before: seq<Row>, last: Row, d: Directory)
    ensures Orphans(before + [last], d)
         == if last.project !in d || d[last.project] == "" then Orphans(before, d) + [last] else Orphans(before, d)
  {
    assert (before + [last])[..|before|] == before;
    assert Orphans(before, d) + [] == Orphans(before, d);
  }

  function RunningRow(row: Row): nat {
    if Lower(row.status) == "running" || Lower(row.status) == "active" then 1 else 0
  }

  function VcpusRow(row: Row): nat { row.vcpus }

  function RamRow(row: Row): nat { row.ramMb }

  function SizeRow(row: Row): nat { row.sizeGib }

  function BackupRow(row: Row): nat {
    if row.backup then 1 else 0
  }

  function BackupSizeRow(row: Row): nat {
    if row.backup then row.sizeGib else 0
  }

  /** What each figure is of a list: a number of rows, or a sum of one of their fields. */
  lemma {:induction false} VmFiguresAre(rows: seq<Row>)
    ensures Sum(Vms, rows, VmCount) == |rows| && Sum(Vms, rows, RunningVms) == Total(rows, RunningRow)
    ensures Sum(Vms, rows, Vcpus) == Total(rows, VcpusRow) && Sum(Vms, rows, RamMb) == Total(rows, RamRow)
  {
    if rows != [] {
      VmFiguresAre(rows[..|rows| - 1]);
    }
  }

  lemma {:induction false} VolumeFiguresAre(rows: seq<Row>)
    ensures Sum(Volumes, rows, VolumeCount) == |rows| && Sum(Volumes, rows, StorageGib) == Total(rows, SizeRow)
  {
    if rows != [] {
      VolumeFiguresAre(rows[..|rows| - 1]);
    }
  }

  lemma {:induction false} SnapshotFiguresAre(rows: seq<Row>)
    ensures Sum(VolumeSnapshots, rows, VolumeSnapshotCount) == |rows|
    ensures Sum(VolumeSnapshots, rows, VolumeSnapshotGib) == Total(rows, SizeRow)
    ensures Sum(VolumeSnapshots, rows, BackupSnapshotCount) == Total(rows, BackupRow)
    ensures Sum(VolumeSnapshots, rows, BackupSnapshotGib) == Total(rows, BackupSizeRow)
  {
    if rows != [] {
      SnapshotFiguresAre(rows[..|rows| - 1]);
    }
  }

  lemma {:induction false} PlainFiguresAre(rows: seq<Row>)
    ensures Sum(VmSnapshots, rows, VmSnapshotCount) == Sum(PublicIps, rows, PublicIpCount) == |rows|
    ensures Sum(Vpcs, rows, VpcCount) == Sum(Subnets, rows, SubnetCount) == |rows|
    ensures Sum(SecurityGroups, rows, SecurityGroupCount) == |rows|
  {
    if rows != [] {
      PlainFiguresAre(rows[..|rows| - 1]);
    }
  }

  /** `FIELDS_BY_SOURCE`, row by row. */
  lemma FieldsAre(f: Field)
    ensures SourceOf(f) == Vms <==> f in {VmCount, RunningVms, Vcpus, RamMb}
    ensures SourceOf(f) == Volumes <==> f in {VolumeCount, StorageGib, StorageByMedia}
    ensures SourceOf(f) == VolumeSnapshots <==>
              f in {VolumeSnapshotCount, VolumeSnapshotGib, BackupSnapshotCount, BackupSnapshotGib}
    ensures SourceOf(f) == VmSnapshots <==> f == VmSnapshotCount
    ensures SourceOf(f) == PublicIps <==> f == PublicIpCount
    ensures SourceOf(f) == Vpcs <==> f == VpcCount
    ensures SourceOf(f) == Subnets <==> f == SubnetCount
    ensures SourceOf(f) == SecurityGroups <==> f == SecurityGroupCount
  {
  }

  lemma {:induction false} SumWithout(s: Source, rows: seq<Row>, j: nat, f: Field)
    requires j < |rows|
    ensures Sum(s, rows, f) == Sum(s, Without(rows, j), f) + Worth(s, rows[j], f)
  {
    var n := |rows| - 1;
    if j == n {
      assert Without(rows, j) == rows[..n];
    } else {
      SumWithout(s, rows[..n], j, f);
      assert Without(rows, j) == Without(rows[..n], j) + [rows[n]];
      SumAppend(s, Without(rows[..n], j), rows[n], f);
    }
  }

  /** A figure depends on which rows there are, not on their order. */
  lemma {:induction false} SumIgnoresOrder(s: Source, a: seq<Row>, b: seq<Row>, f: Field)
    requires multiset(a) == multiset(b)
    ensures Sum(s, a, f) == Sum(s, b, f)
    decreases |a|
  {
    if a == [] {
      assert |multiset(b)| == 0;
    } else {
      var n := |a| - 1;
      assert a[n] in multiset(b);
      var j :| 0 <= j < |b| && b[j] == a[n];
      WithoutMultiset(a, n);
      WithoutMultiset(b, j);
      assert Without(a, n) == a[..n];
      CancelOne(multiset(a[..n]), multiset(Without(b, j)), a[n]);
      SumIgnoresOrder(s, a[..n], Without(b, j), f);
      SumWithout(s, b, j, f);
    }
  }

  /** `own` are the rows of a list whose project the directory puts under the account. */
  ghost predicate RowsUnder(own: seq<Row>, rows: seq<Row>, d: Directory, account: string) {
    forall row :: multiset(own)[row] == if row.project in d && d[row.project] == account then multiset(rows)[row] else 0
  }

  lemma RowsUnderAre(own: seq<Row>, rows: seq<Row>, d: Directory, account: string)
    requires account != "" && RowsUnder(own, rows, d, account)
    ensures multiset(own) == multiset(OfAccount(rows, d, account))
  {
    forall row: Row {
      OfAccountIs(rows, d, account, row);
    }
  }

  /** `own` are the rows of a list that name the project. */
  ghost predicate RowsIn(own: seq<Row>, rows: seq<Row>, project: string) {
    forall row :: multiset(own)[row] == if row.project == project then multiset(rows)[row] else 0
  }

  lemma RowsInAre(own: seq<Row>, rows: seq<Row>, d: Directory, project: string)
    requires project in d && d[project] != "" && RowsIn(own, rows, project)
    ensures multiset(own) == multiset(OfProject(rows, d, project))
  {
    forall row: Row {
      OfProjectIs(rows, d, project, row);
    }
  }
}
