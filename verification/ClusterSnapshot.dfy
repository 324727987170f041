/** `_build` of apps/platform_admin/snapshot.py: eight lists folded into records that an
    account and the directory share, and what the finished picture shows. */
module ClusterSnapshot {
  import opened Sequences
  import opened Options
  import opened Attribution
  import opened SnapshotRecords

  /******* Every list *******/

  /** What came back for each list of the cloud. */
  type Fetches = Source -> Fetched<Row>

  function RowsOf(fetched: Fetches, s: Source): seq<Row> {
    match fetched(s) case Unreadable => [] case Listed(items) => items
  }

  function Unavailable(fetched: Fetches, sources: seq<Source>): seq<Source> {
    if sources == [] then []
    else
      var last := sources[|sources| - 1];
      Unavailable(fetched, sources[..|sources| - 1]) + if fetched(last) == Unreadable then [last] else []
  }

  lemma {:induction false} UnavailableIs(fetched: Fetches, sources: seq<Source>, s: Source)
    ensures s in Unavailable(fetched, sources) <==> s in sources && fetched(s) == Unreadable
  {
    if sources != [] {
      UnavailableIs(fetched, sources[..|sources| - 1], s);
      assert sources == sources[..|sources| - 1] + [sources[|sources| - 1]];
    }
  }

  /** The records after the first lists.  A list that could not be read counts nothing. */
  function AfterSources(sources: seq<Source>, t: Tally, fetched: Fetches, d: Directory): Tally {
    if sources == [] then t
    else
      var last := sources[|sources| - 1];
      AfterRows(last, AfterSources(sources[..|sources| - 1], t, fetched, d), RowsOf(fetched, last), d)
  }

  /** How many rows of each readable list nobody owns. */
  function OrphanCounts(sources: seq<Source>, fetched: Fetches, d: Directory): map<Source, nat> {
    if sources == [] then map[]
    else
      var last := sources[|sources| - 1];
      var before := OrphanCounts(sources[..|sources| - 1], fetched, d);
      if fetched(last) == Unreadable then before else before[last := |Orphans(RowsOf(fetched, last), d)|]
  }

  function KeptVolumes(sources: seq<Source>, fetched: Fetches, d: Directory): Aside {
    if Volumes in sources then AsideAfter(Volumes, RowsOf(fetched, Volumes), d) else Aside(0, map[], map[])
  }

  lemma OneMoreSource(sources: seq<Source>, i: nat, t: Tally, fetched: Fetches, d: Directory)
    requires i < |sources|
    ensures AfterSources(sources[..i + 1], t, fetched, d)
         == AfterRows(sources[i], AfterSources(sources[..i], t, fetched, d), RowsOf(fetched, sources[i]), d)
    ensures Unavailable(fetched, sources[..i + 1])
         == Unavailable(fetched, sources[..i]) + if fetched(sources[i]) == Unreadable then [sources[i]] else []
    ensures OrphanCounts(sources[..i + 1], fetched, d)
         == if fetched(sources[i]) == Unreadable then OrphanCounts(sources[..i], fetched, d)
            else OrphanCounts(sources[..i], fetched, d)[sources[i] := |Orphans(RowsOf(fetched, sources[i]), d)|]
    ensures KeptVolumes(sources[..i + 1], fetched, d)
         == if sources[i] == Volumes && fetched(Volumes) != Unreadable
            then AsideAfter(Volumes, RowsOf(fetched, Volumes), d) else KeptVolumes(sources[..i], fetched, d)
  {
    assert sources[..i + 1][..i] == sources[..i];
    assert sources[..i + 1] == sources[..i] + [sources[i]];
  }

  method FoldAll(sources: seq<Source>, fetched: Fetches, accounts: Entries, projects: Entries, d: Directory)
    returns (unattributed: map<Source, nat>, unavailable: seq<Source>, volumes: Aside)
    requires Separate(accounts, projects) && Covers(accounts, projects, d)
    modifies accounts.Values`usage, projects.Values`usage
    ensures TallyOf(accounts, projects) == AfterSources(sources, old(TallyOf(accounts, projects)), fetched, d)
    ensures unattributed == OrphanCounts(sources, fetched, d)
    ensures unavailable == Unavailable(fetched, sources)
    ensures volumes == KeptVolumes(sources, fetched, d)
  {
    unattributed, unavailable, volumes := map[], [], Aside(0, map[], map[]);
    var i := 0;
    ghost var t := TallyOf(accounts, projects);
    while i < |sources|
      invariant 0 <= i <= |sources|
      invariant TallyOf(accounts, projects) == AfterSources(sources[..i], t, fetched, d)
      invariant unattributed == OrphanCounts(sources[..i], fetched, d)
      invariant unavailable == Unavailable(fetched, sources[..i])
      invariant volumes == KeptVolumes(sources[..i], fetched, d)
    {
      var s := sources[i];
      OneMoreSource(sources, i, t, fetched, d);
      match fetched(s) {
        case Unreadable =>
          unavailable := unavailable + [s];
        case Listed(items) =>
          var aside := FoldSource(s, items, accounts, projects, d);
          OrphansAreNumbered(s, items, d);
          unattributed := unattributed[s := aside.unattributed];
          if s == Volumes {
            volumes := aside;
          }
      }
      i := i + 1;
    }
    assert sources[..|sources|] == sources;
  }

  /******* Totals *******/

  function RunningIn(rows: seq<Row>): nat {
    if rows == [] then 0 else RunningIn(rows[..|rows| - 1]) + if Running(rows[|rows| - 1]) then 1 else 0
  }

  function VcpusIn(rows: seq<Row>): nat {
    if rows == [] then 0 else VcpusIn(rows[..|rows| - 1]) + rows[|rows| - 1].vcpus
  }

  function RamIn(rows: seq<Row>): nat {
    if rows == [] then 0 else RamIn(rows[..|rows| - 1]) + rows[|rows| - 1].ramMb
  }

  function GibIn(rows: seq<Row>): nat {
    if rows == [] then 0 else GibIn(rows[..|rows| - 1]) + rows[|rows| - 1].sizeGib
  }

  function Scheduled(rows: seq<Row>): seq<Row> {
    if rows == [] then []
    else Scheduled(rows[..|rows| - 1]) + if rows[|rows| - 1].backup then [rows[|rows| - 1]] else []
  }

  /** `_totals`: counted from the raw lists rather than from the accounts. */
  function TotalUsage(fetched: Fetches): Usage {
    var snapshots := RowsOf(fetched, VolumeSnapshots);
    Usage(
      |RowsOf(fetched, Vms)|, RunningIn(RowsOf(fetched, Vms)), VcpusIn(RowsOf(fetched, Vms)), RamIn(RowsOf(fetched, Vms)),
      |RowsOf(fetched, Volumes)|, GibIn(RowsOf(fetched, Volumes)),
      |snapshots|, GibIn(snapshots), |Scheduled(snapshots)|, GibIn(Scheduled(snapshots)),
      |RowsOf(fetched, VmSnapshots)|, |RowsOf(fetched, PublicIps)|, |RowsOf(fetched, Vpcs)|,
      |RowsOf(fetched, Subnets)|, |RowsOf(fetched, SecurityGroups)|)
  }

  lemma {:induction false} VmTotals(rows: seq<Row>)
    ensures |rows| == Sum(Vms, rows, VmCount) && RunningIn(rows) == Sum(Vms, rows, RunningVms)
    ensures VcpusIn(rows) == Sum(Vms, rows, Vcpus) && RamIn(rows) == Sum(Vms, rows, RamMb)
  {
    if rows != [] {
      VmTotals(rows[..|rows| - 1]);
    }
  }

  lemma {:induction false} SizeTotals(rows: seq<Row>)
    ensures |rows| == Sum(Volumes, rows, VolumeCount) && GibIn(rows) == Sum(Volumes, rows, StorageGib)
    ensures |rows| == Sum(VolumeSnapshots, rows, VolumeSnapshotCount)
    ensures GibIn(rows) == Sum(VolumeSnapshots, rows, VolumeSnapshotGib) && Sum(Volumes, rows, StorageByMedia) == 0
  {
    if rows != [] {
      SizeTotals(rows[..|rows| - 1]);
    }
  }

  lemma {:induction false} ScheduledTotals(rows: seq<Row>)
    ensures |Scheduled(rows)| == Sum(VolumeSnapshots, rows, BackupSnapshotCount)
    ensures GibIn(Scheduled(rows)) == Sum(VolumeSnapshots, rows, BackupSnapshotGib)
  {
    if rows != [] {
      var before, row := rows[..|rows| - 1], rows[|rows| - 1];
      ScheduledTotals(before);
      if row.backup {
        assert (Scheduled(before) + [row])[..|Scheduled(before)|] == Scheduled(before);
      } else {
        assert Scheduled(before) + [] == Scheduled(before);
      }
    }
  }

  lemma {:induction false} PlainTotals(rows: seq<Row>)
    ensures |rows| == Sum(VmSnapshots, rows, VmSnapshotCount) == Sum(PublicIps, rows, PublicIpCount)
    ensures |rows| == Sum(Vpcs, rows, VpcCount) == Sum(Subnets, rows, SubnetCount)
    ensures |rows| == Sum(SecurityGroups, rows, SecurityGroupCount)
  {
    if rows != [] {
      PlainTotals(rows[..|rows| - 1]);
    }
  }

  /** The totals and the folds count the same things, though neither uses the other. */
  lemma TotalsCountTheRows(fetched: Fetches, f: Field)
    ensures Read(TotalUsage(fetched), f) == Sum(SourceOf(f), RowsOf(fetched, SourceOf(f)), f)
  {
    VmTotals(RowsOf(fetched, Vms));
    SizeTotals(RowsOf(fetched, Volumes));
    SizeTotals(RowsOf(fetched, VolumeSnapshots));
    ScheduledTotals(RowsOf(fetched, VolumeSnapshots));
    PlainTotals(RowsOf(fetched, SourceOf(f)));
  }

  /******* What the records come to *******/

  /** An account's field counts exactly the account's rows of the field's own list. */
  lemma {:induction false} AccountComesTo(sources: seq<Source>, t: Tally, fetched: Fetches, d: Directory, a: string,
                                          f: Field)
    requires a in t.accounts && Distinct(sources)
    ensures a in AfterSources(sources, t, fetched, d).accounts
    ensures Read(AfterSources(sources, t, fetched, d).accounts[a], f)
         == Read(t.accounts[a], f)
              + CountIf(SourceOf(f) in sources, Sum(SourceOf(f), OfAccount(RowsOf(fetched, SourceOf(f)), d, a), f))
  {
    if sources != [] {
      var before, last := sources[..|sources| - 1], sources[|sources| - 1];
      AccountComesTo(before, t, fetched, d, a, f);
      var t' := AfterSources(before, t, fetched, d);
      AfterRowsAccount(last, t', RowsOf(fetched, last), d, a);
      AccountUsageSums(last, t'.accounts[a], RowsOf(fetched, last), d, a, f);
      LastOrBefore(sources, SourceOf(f));
      if SourceOf(f) != last {
        OtherFields(last, OfAccount(RowsOf(fetched, last), d, a), f);
      }
    }
  }

  lemma {:induction false} ProjectComesTo(sources: seq<Source>, t: Tally, fetched: Fetches, d: Directory, p: string,
                                          f: Field)
    requires p in t.projects && Distinct(sources)
    ensures p in AfterSources(sources, t, fetched, d).projects
    ensures Read(AfterSources(sources, t, fetched, d).projects[p], f)
         == Read(t.projects[p], f)
              + CountIf(SourceOf(f) in sources, Sum(SourceOf(f), OfProject(RowsOf(fetched, SourceOf(f)), d, p), f))
  {
    if sources != [] {
      var before, last := sources[..|sources| - 1], sources[|sources| - 1];
      ProjectComesTo(before, t, fetched, d, p, f);
      var t' := AfterSources(before, t, fetched, d);
      AfterRowsProject(last, t', RowsOf(fetched, last), d, p);
      ProjectUsageSums(last, t'.projects[p], RowsOf(fetched, last), d, p, f);
      LastOrBefore(sources, SourceOf(f));
      if SourceOf(f) != last {
        OtherFields(last, OfProject(RowsOf(fetched, last), d, p), f);
      }
    }
  }

  function CountIf(counted: bool, n: nat): nat {
    if counted then n else 0
  }

  lemma LastOrBefore(sources: seq<Source>, s: Source)
    requires Distinct(sources) && sources != []
    ensures s in sources <==> s == sources[|sources| - 1] || s in sources[..|sources| - 1]
    ensures !(s == sources[|sources| - 1] && s in sources[..|sources| - 1])
    ensures Distinct(sources[..|sources| - 1])
  {
  }

  /******* The picture *******/

  datatype Picture = Picture(accounts: Entries, projects: Entries, totals: Entry, unattributed: map<Source, nat>,
                             unavailable: seq<Source>, unreadableAccounts: seq<string>)

  /** What a field ought to show: None if its list could not be read, or the record's owner
      could not be listed; otherwise what the rows of its own list come to. */
  function Due(fetched: Fetches, unreadable: bool, rows: seq<Row>, f: Field): Option<nat> {
    if fetched(SourceOf(f)) == Unreadable || unreadable then None else Some(Sum(SourceOf(f), rows, f))
  }

  ghost predicate AccountsDue(p: Picture, d: Directory, fetched: Fetches)
    reads p.accounts.Values`usage, p.accounts.Values`unknown
  {
    forall a, f :: a in p.accounts ==>
      p.accounts[a].Shown(f) == Due(fetched, p.accounts[a].name in p.unreadableAccounts,
                                    OfAccount(RowsOf(fetched, SourceOf(f)), d, a), f)
  }

  ghost predicate ProjectsDue(p: Picture, d: Directory, fetched: Fetches)
    reads p.projects.Values`usage, p.projects.Values`unknown
  {
    forall k, f :: k in p.projects ==>
      p.projects[k].Shown(f) == Due(fetched, false, OfProject(RowsOf(fetched, SourceOf(f)), d, k), f)
  }

  ghost predicate TotalsDue(p: Picture, fetched: Fetches)
    reads p.totals`usage, p.totals`unknown
  {
    forall f :: p.totals.Shown(f) == Due(fetched, false, RowsOf(fetched, SourceOf(f)), f)
  }

  /** The records once every list is folded, nothing being blanked yet. */
  ghost predicate FoldedInto(accounts: Entries, projects: Entries, d: Directory, fetched: Fetches)
    reads accounts.Values`usage, projects.Values`usage
  {
    && (forall a, f :: a in accounts ==>
          Read(accounts[a].usage, f) == Sum(SourceOf(f), OfAccount(RowsOf(fetched, SourceOf(f)), d, a), f))
    && (forall k, f :: k in projects ==>
          Read(projects[k].usage, f) == Sum(SourceOf(f), OfProject(RowsOf(fetched, SourceOf(f)), d, k), f))
  }

  lemma FoldComesTo(accounts: Entries, projects: Entries, d: Directory, fetched: Fetches, t: Tally)
    requires t.accounts.Keys == accounts.Keys && t.projects.Keys == projects.Keys
    requires forall a :: a in accounts ==> t.accounts[a] == BLANK_USAGE
    requires forall k :: k in projects ==> t.projects[k] == BLANK_USAGE
    requires TallyOf(accounts, projects) == AfterSources(SOURCES, t, fetched, d)
    ensures FoldedInto(accounts, projects, d, fetched)
  {
    forall a, f | a in accounts
      ensures Read(accounts[a].usage, f) == Sum(SourceOf(f), OfAccount(RowsOf(fetched, SourceOf(f)), d, a), f)
    {
      AccountComesTo(SOURCES, t, fetched, d, a, f);
      assert TallyOf(accounts, projects).accounts[a] == accounts[a].usage;
      AllSources(SourceOf(f));
      NothingYet(f);
    }
    forall k, f | k in projects
      ensures Read(projects[k].usage, f) == Sum(SourceOf(f), OfProject(RowsOf(fetched, SourceOf(f)), d, k), f)
    {
      ProjectComesTo(SOURCES, t, fetched, d, k, f);
      assert TallyOf(accounts, projects).projects[k] == projects[k].usage;
      AllSources(SourceOf(f));
      NothingYet(f);
    }
  }

  lemma AllSources(s: Source)
    ensures s in SOURCES
  {
    assert SOURCES[0] == Vms && SOURCES[1] == Volumes && SOURCES[2] == VolumeSnapshots && SOURCES[3] == VmSnapshots
        && SOURCES[4] == PublicIps && SOURCES[5] == Vpcs && SOURCES[6] == Subnets && SOURCES[7] == SecurityGroups;
  }

  lemma NothingYet(f: Field)
    ensures Read(BLANK_USAGE, f) == 0
  {
  }

  /** Nothing is known of what could not be asked for. */
  ghost predicate Marked(p: Picture)
    reads p.accounts.Values`unknown, p.projects.Values`unknown, p.totals`unknown
  {
    && (forall a :: a in p.accounts ==>
          p.accounts[a].unknown == Blanked(p.unavailable) + BlankedByName(p.accounts[a].name, p.unreadableAccounts))
    && (forall k :: k in p.projects ==> p.projects[k].unknown == Blanked(p.unavailable))
    && p.totals.unknown == Blanked(p.unavailable)
  }

  ghost predicate Unmarked(p: Picture)
    reads p.accounts.Values`unknown, p.projects.Values`unknown, p.totals`unknown
  {
    && (forall a :: a in p.accounts ==> p.accounts[a].unknown == {})
    && (forall k :: k in p.projects ==> p.projects[k].unknown == {})
    && p.totals.unknown == {}
  }

  method MarkPicture(p: Picture)
    requires Separate(p.accounts, p.projects) && Unmarked(p)
    requires p.totals !in p.accounts.Values && p.totals !in p.projects.Values
    modifies p.accounts.Values`unknown, p.projects.Values`unknown, p.totals`unknown
    ensures Marked(p)
  {
    MarkAll(p.accounts, p.unavailable);
    MarkAll(p.projects, p.unavailable);
    p.totals.MarkUnavailable(p.unavailable);
    MarkUnreadable(p.accounts, p.unreadableAccounts);
  }

  lemma KnownOrNot(fetched: Fetches, name: string, names: seq<string>, f: Field)
    ensures f in Blanked(Unavailable(fetched, SOURCES)) <==> fetched(SourceOf(f)) == Unreadable
    ensures f in BlankedByName(name, names) <==> name in names
  {
    AllSources(SourceOf(f));
    BlankedIs(Unavailable(fetched, SOURCES), f);
    UnavailableIs(fetched, SOURCES, SourceOf(f));
    BlankedIs(SOURCES, f);
  }

  lemma ShowsWhatIsDue(p: Picture, d: Directory, fetched: Fetches)
    requires FoldedInto(p.accounts, p.projects, d, fetched) && Marked(p)
    requires p.unavailable == Unavailable(fetched, SOURCES) && p.totals.usage == TotalUsage(fetched)
    ensures AccountsDue(p, d, fetched) && ProjectsDue(p, d, fetched) && TotalsDue(p, fetched)
  {
    forall a, f | a in p.accounts
      ensures p.accounts[a].Shown(f) == Due(fetched, p.accounts[a].name in p.unreadableAccounts,
                                            OfAccount(RowsOf(fetched, SourceOf(f)), d, a), f)
    {
      KnownOrNot(fetched, p.accounts[a].name, p.unreadableAccounts, f);
    }
    forall k, f | k in p.projects
      ensures p.projects[k].Shown(f) == Due(fetched, false, OfProject(RowsOf(fetched, SourceOf(f)), d, k), f)
    {
      KnownOrNot(fetched, "", [], f);
    }
    forall f: Field
      ensures p.totals.Shown(f) == Due(fetched, false, RowsOf(fetched, SourceOf(f)), f)
    {
      KnownOrNot(fetched, "", [], f);
      TotalsCountTheRows(fetched, f);
    }
  }

  /******* Building it *******/

  /** The split by medium of every record, wherever the volumes could be read. */
  ghost predicate SplitUp(accounts: Entries, projects: Entries, d: Directory, fetched: Fetches)
    reads accounts.Values`media, projects.Values`media
  {
    fetched(Volumes) != Unreadable ==>
      && (forall a :: a in accounts ==> accounts[a].media == MediaTotals(OfAccount(RowsOf(fetched, Volumes), d, a)))
      && (forall k :: k in projects ==> projects[k].media == MediaTotals(OfProject(RowsOf(fetched, Volumes), d, k)))
  }

  method SplitAll(accounts: Entries, projects: Entries, d: Directory, fetched: Fetches, volumes: Aside)
    requires Separate(accounts, projects) && volumes == AsideAfter(Volumes, RowsOf(fetched, Volumes), d)
    modifies accounts.Values`media, projects.Values`media
    ensures SplitUp(accounts, projects, d, fetched)
  {
    if fetched(Volumes) != Unreadable {
      SplitByMedium(accounts, volumes.ofAccount);
      ghost var medias := Medias(accounts);
      SplitByMedium(projects, volumes.ofProject);
      assert Medias(accounts) == medias;
      forall key
        ensures KeptFor(volumes.ofAccount, key) == OfAccount(RowsOf(fetched, Volumes), d, key)
        ensures KeptFor(volumes.ofProject, key) == OfProject(RowsOf(fetched, Volumes), d, key)
      {
        VolumesAreKept(RowsOf(fetched, Volumes), d, key);
      }
      forall a | a in accounts
        ensures accounts[a].media == MediaTotals(OfAccount(RowsOf(fetched, Volumes), d, a))
      {
        assert Medias(accounts)[a] == accounts[a].media;
      }
      forall k | k in projects
        ensures projects[k].media == MediaTotals(OfProject(RowsOf(fetched, Volumes), d, k))
      {
        assert Medias(projects)[k] == projects[k].media;
      }
    }
  }

  lemma DirectoryIsCovered(domains: seq<Domain>, listings: Listings, accounts: Entries, projects: Entries)
    requires accounts.Keys == IdSet(domains) && projects.Keys == DirectoryOf(domains, listings).Keys
    ensures Covers(accounts, projects, DirectoryOf(domains, listings))
  {
    forall p | p in DirectoryOf(domains, listings)
      ensures p in projects && DirectoryOf(domains, listings)[p] in accounts
    {
      DirectoryHas(domains, listings, p);
    }
  }

  lemma NothingListed(accounts: Entries, domains: seq<Domain>)
    requires accounts.Keys == IdSet(domains) && forall a :: a in accounts ==> accounts[a].projects == []
    ensures EmptyFrom(ListsOf(accounts), domains, 0)
  {
    forall j | 0 <= j < |domains|
      ensures domains[j].id in ListsOf(accounts) && ListsOf(accounts)[domains[j].id] == []
    {
      assert domains[j].id in IdSet(domains);
    }
  }

  /** The records, opened and listed. */
  method OpenAll(domains: seq<Domain>, listings: Listings)
    returns (accounts: Entries, projects: Entries, d: Directory, unreadable: seq<string>)
    requires ListedOnce(domains, listings)
    ensures d == DirectoryOf(domains, listings) && unreadable == UnreadableNames(domains, listings)
    ensures Separate(accounts, projects) && Covers(accounts, projects, d) && projects.Keys == d.Keys
    ensures forall a :: a in accounts ==> fresh(accounts[a]) && Blank(accounts[a], true)
    ensures forall p :: p in projects ==> fresh(projects[p]) && Blank(projects[p], false)
    ensures accounts.Keys == IdSet(domains) && Named(accounts, domains, |domains|)
    ensures ListsHold(ListsOf(accounts), projects, domains, |domains|, listings)
  {
    accounts := OpenAccounts(domains);
    NothingListed(accounts, domains);
    projects, d, unreadable := ListProjects(domains, listings, accounts);
    DirectoryIsCovered(domains, listings, accounts, projects);
  }

  /** Every readable list, counted into the blank records, and the volumes split. */
  method CountAll(fetched: Fetches, accounts: Entries, projects: Entries, d: Directory)
    returns (unattributed: map<Source, nat>, unavailable: seq<Source>)
    requires Separate(accounts, projects) && Covers(accounts, projects, d)
    requires forall a :: a in accounts ==> Blank(accounts[a], true)
    requires forall p :: p in projects ==> Blank(projects[p], false)
    modifies accounts.Values`usage, projects.Values`usage, accounts.Values`media, projects.Values`media
    ensures FoldedInto(accounts, projects, d, fetched) && SplitUp(accounts, projects, d, fetched)
    ensures unattributed == OrphanCounts(SOURCES, fetched, d) && unavailable == Unavailable(fetched, SOURCES)
  {
    ghost var t := TallyOf(accounts, projects);
    var volumes;
    unattributed, unavailable, volumes := FoldAll(SOURCES, fetched, accounts, projects, d);
    FoldComesTo(accounts, projects, d, fetched, t);
    AllSources(Volumes);
    SplitAll(accounts, projects, d, fetched, volumes);
  }

  method TotalsRecord(fetched: Fetches) returns (totals: Entry)
    ensures fresh(totals) && totals.usage == TotalUsage(fetched) && totals.unknown == {}
    ensures totals.media == MediaTotals(RowsOf(fetched, Volumes))
  {
    totals := new Entry("", "", false);
    totals.usage := TotalUsage(fetched);
    totals.media := MediaTotals(RowsOf(fetched, Volumes));
  }

  /** What the records show, given whose project is whose. */
  ghost predicate Figures(p: Picture, d: Directory, fetched: Fetches)
    reads p.accounts.Values, p.projects.Values, p.totals
  {
    && AccountsDue(p, d, fetched) && ProjectsDue(p, d, fetched) && TotalsDue(p, fetched)
    && SplitUp(p.accounts, p.projects, d, fetched) && p.totals.media == MediaTotals(RowsOf(fetched, Volumes))
    && p.unattributed == OrphanCounts(SOURCES, fetched, d) && p.unavailable == Unavailable(fetched, SOURCES)
  }

  /** What records there are, and which hang under which. */
  ghost predicate Shape(p: Picture, domains: seq<Domain>, listings: Listings)
    reads p.accounts.Values`projects
  {
    && p.accounts.Keys == IdSet(domains) && Named(p.accounts, domains, |domains|)
    && p.projects.Keys == DirectoryOf(domains, listings).Keys
    && p.unreadableAccounts == UnreadableNames(domains, listings)
    && ListsHold(ListsOf(p.accounts), p.projects, domains, |domains|, listings)
  }

  /** The figures of a picture whose records are open. */
  method Fill(fetched: Fetches, accounts: Entries, projects: Entries, d: Directory, unreadable: seq<string>)
    returns (p: Picture)
    requires Separate(accounts, projects) && Covers(accounts, projects, d)
    requires forall a :: a in accounts ==> Blank(accounts[a], true)
    requires forall k :: k in projects ==> Blank(projects[k], false)
    modifies accounts.Values`usage, projects.Values`usage, accounts.Values`media, projects.Values`media
    modifies accounts.Values`unknown, projects.Values`unknown
    ensures p.accounts == accounts && p.projects == projects && p.unreadableAccounts == unreadable
    ensures Figures(p, d, fetched)
  {
    var unattributed, unavailable := CountAll(fetched, accounts, projects, d);
    var totals := TotalsRecord(fetched);
    p := Picture(accounts, projects, totals, unattributed, unavailable, unreadable);
    MarkPicture(p);
    ShowsWhatIsDue(p, d, fetched);
  }

  twostate lemma ListsStay(accounts: Entries)
    requires forall a :: a in accounts ==> accounts[a].projects == old(accounts[a].projects)
    ensures ListsOf(accounts) == old(ListsOf(accounts))
  {
  }

  /** `_build`: no picture without the directory or the machines; otherwise whatever is known. */
  method Build(domains: Fetched<Domain>, listings: Listings, fetched: Fetches) returns (built: Option<Picture>)
    requires domains != Unreadable ==> ListedOnce(domains.items, listings)
    ensures built.Some? <==> domains != Unreadable && fetched(Vms) != Unreadable
    ensures built.Some? ==> Shape(built.value, domains.items, listings)
                            && Figures(built.value, DirectoryOf(domains.items, listings), fetched)
  {
    if domains == Unreadable || fetched(Vms) == Unreadable {
      return None;
    }
    var accounts, projects, d, unreadable := OpenAll(domains.items, listings);
    label filled:
    var p := Fill(fetched, accounts, projects, d, unreadable);
    ListsStay@filled(accounts);
    return Some(p);
  }

  /******* What a reader of the picture may add up *******/

  function Known(o: Option<nat>): nat {
    match o case None => 0 case Some(n) => n
  }

  /** The sum of a field over the records themselves. */
  ghost function SumOfRecords(records: seq<Entry>, f: Field): nat
    reads records
  {
    if records == [] then 0 else Known(records[0].Shown(f)) + SumOfRecords(records[1..], f)
  }

  lemma {:induction false} RecordsShowTheirSums(records: seq<Entry>, ids: seq<string>, p: Picture, d: Directory,
                                                fetched: Fetches, f: Field)
    requires RecordsOf(records, ids, p.projects) && ProjectsDue(p, d, fetched)
    requires fetched(SourceOf(f)) != Unreadable
    ensures SumOfRecords(records, f) == SumOverProjects(ids, SourceOf(f), RowsOf(fetched, SourceOf(f)), d, f)
  {
    if ids != [] {
      assert records[0] == p.projects[ids[0]];
      RecordsShowTheirSums(records[1..], ids[1..], p, d, fetched, f);
    }
  }

  lemma ListingIsTheAccounts(domains: seq<Domain>, listings: Listings, i: nat)
    requires ListedOnce(domains, listings) && i < |domains|
    ensures ProjectsOf(IdsOf(listings, domains[i].id), DirectoryOf(domains, listings), domains[i].id)
  {
    var d, ids := DirectoryOf(domains, listings), IdsOf(listings, domains[i].id);
    forall p
      ensures p in ids <==> p in d && d[p] == domains[i].id
    {
      DirectoryHas(domains, listings, p);
    }
  }

  /** An account shows, of every field, exactly what the project records hanging under it show
      together: they are the records its rows were counted into. */
  lemma AccountShowsItsProjects(p: Picture, domains: seq<Domain>, listings: Listings, fetched: Fetches, i: nat, f: Field)
    requires ListedOnce(domains, listings) && i < |domains| && domains[i].id != ""
    requires Shape(p, domains, listings) && Figures(p, DirectoryOf(domains, listings), fetched)
    requires fetched(SourceOf(f)) != Unreadable && domains[i].name !in p.unreadableAccounts
    ensures domains[i].id in p.accounts
    ensures p.accounts[domains[i].id].Shown(f) == Some(SumOfRecords(p.accounts[domains[i].id].projects, f))
  {
    var account, d, s := domains[i].id, DirectoryOf(domains, listings), SourceOf(f);
    var ids := IdsOf(listings, account);
    assert ListsOf(p.accounts)[account] == p.accounts[account].projects;
    RecordsShowTheirSums(p.accounts[account].projects, ids, p, d, fetched, f);
    ListingIsTheAccounts(domains, listings, i);
    AccountIsItsProjects(account, ids, s, RowsOf(fetched, s), d, f);
  }

  ghost predicate AllFiled(p: Picture, domains: seq<Domain>) {
    forall i :: 0 <= i < |domains| ==> domains[i].id in p.accounts
  }

  ghost function SumOfAccounts(p: Picture, domains: seq<Domain>, f: Field): nat
    requires AllFiled(p, domains)
    reads p.accounts.Values
  {
    if domains == [] then 0
    else Known(p.accounts[domains[0].id].Shown(f)) + SumOfAccounts(p, domains[1..], f)
  }

  function AccountIds(domains: seq<Domain>): seq<string> {
    if domains == [] then [] else [domains[0].id] + AccountIds(domains[1..])
  }

  lemma {:induction false} AccountIdsAt(domains: seq<Domain>)
    ensures |AccountIds(domains)| == |domains|
    ensures forall i :: 0 <= i < |domains| ==> AccountIds(domains)[i] == domains[i].id
  {
    if domains != [] {
      AccountIdsAt(domains[1..]);
    }
  }

  lemma {:induction false} UnreadableIs(domains: seq<Domain>, listings: Listings, name: string)
    ensures name in UnreadableNames(domains, listings) <==>
            exists i :: 0 <= i < |domains| && domains[i].name == name && ListingOf(listings, domains[i].id) == Unreadable
  {
    if domains != [] {
      var before, last := domains[..|domains| - 1], |domains| - 1;
      UnreadableIs(before, listings, name);
      if i :| 0 <= i < |before| && before[i].name == name && ListingOf(listings, before[i].id) == Unreadable {
        assert domains[i] == before[i];
      }
      if i :| 0 <= i < |domains| && domains[i].name == name && ListingOf(listings, domains[i].id) == Unreadable {
        assert i == last || before[i] == domains[i];
      }
    }
  }

  ghost predicate DistinctNames(domains: seq<Domain>) {
    forall i, j :: 0 <= i < j < |domains| ==> domains[i].name != domains[j].name
  }

  /** Whatever an account shows, nothing of it is hidden by blanking: an account that could not
      be listed owns no row. */
  lemma AccountHidesNothing(p: Picture, domains: seq<Domain>, listings: Listings, fetched: Fetches, i: nat, f: Field)
    requires ListedOnce(domains, listings) && DistinctNames(domains) && i < |domains| && domains[i].id != ""
    requires Shape(p, domains, listings) && Figures(p, DirectoryOf(domains, listings), fetched)
    requires fetched(SourceOf(f)) != Unreadable
    ensures domains[i].id in p.accounts
    ensures Known(p.accounts[domains[i].id].Shown(f))
         == Sum(SourceOf(f), OfAccount(RowsOf(fetched, SourceOf(f)), DirectoryOf(domains, listings), domains[i].id), f)
  {
    var account, d, s := domains[i].id, DirectoryOf(domains, listings), SourceOf(f);
    assert Named(p.accounts, domains, |domains|) && AccountsDue(p, d, fetched);
    if domains[i].name in p.unreadableAccounts {
      UnlistedOwnsNothing(domains, listings, i, s, RowsOf(fetched, s), f);
    }
  }

  lemma UnlistedOwnsNothing(domains: seq<Domain>, listings: Listings, i: nat, s: Source, rows: seq<Row>, f: Field)
    requires ListedOnce(domains, listings) && DistinctNames(domains) && i < |domains| && domains[i].id != ""
    requires domains[i].name in UnreadableNames(domains, listings)
    ensures Sum(s, OfAccount(rows, DirectoryOf(domains, listings), domains[i].id), f) == 0
  {
    UnreadableIs(domains, listings, domains[i].name);
    ListingIsTheAccounts(domains, listings, i);
    AccountIsItsProjects(domains[i].id, [], s, rows, DirectoryOf(domains, listings), f);
  }

  lemma {:induction false} AccountsShowTheirSums(p: Picture, domains: seq<Domain>, d: Directory, fetched: Fetches, f: Field)
    requires AllFiled(p, domains)
    requires forall i :: 0 <= i < |domains| ==>
               Known(p.accounts[domains[i].id].Shown(f))
               == Sum(SourceOf(f), OfAccount(RowsOf(fetched, SourceOf(f)), d, domains[i].id), f)
    ensures SumOfAccounts(p, domains, f)
         == SumOverAccounts(AccountIds(domains), SourceOf(f), RowsOf(fetched, SourceOf(f)), d, f)
  {
    if domains != [] {
      AccountsShowTheirSums(p, domains[1..], d, fetched, f);
      assert AccountIds(domains)[1..] == AccountIds(domains[1..]);
    }
  }

  /** What the accounts show together is what their rows come to. */
  lemma AccountsHideNothing(p: Picture, domains: seq<Domain>, listings: Listings, fetched: Fetches, f: Field)
    requires ListedOnce(domains, listings) && DistinctNames(domains)
    requires forall i :: 0 <= i < |domains| ==> domains[i].id != ""
    requires Shape(p, domains, listings) && Figures(p, DirectoryOf(domains, listings), fetched)
    requires fetched(SourceOf(f)) != Unreadable
    ensures AllFiled(p, domains)
    ensures SumOfAccounts(p, domains, f)
         == SumOverAccounts(AccountIds(domains), SourceOf(f), RowsOf(fetched, SourceOf(f)),
                            DirectoryOf(domains, listings), f)
  {
    forall i | 0 <= i < |domains|
      ensures domains[i].id in p.accounts
      ensures Known(p.accounts[domains[i].id].Shown(f))
           == Sum(SourceOf(f), OfAccount(RowsOf(fetched, SourceOf(f)), DirectoryOf(domains, listings), domains[i].id), f)
    {
      AccountHidesNothing(p, domains, listings, fetched, i, f);
    }
    AccountsShowTheirSums(p, domains, DirectoryOf(domains, listings), fetched, f);
  }

  /** The cluster's own figure is what the accounts show together plus the rows nobody owns. */
  lemma PictureLosesNothing(p: Picture, domains: seq<Domain>, listings: Listings, fetched: Fetches, f: Field)
    requires ListedOnce(domains, listings) && DistinctNames(domains)
    requires forall i :: 0 <= i < |domains| ==> domains[i].id != ""
    requires Shape(p, domains, listings) && Figures(p, DirectoryOf(domains, listings), fetched)
    requires fetched(SourceOf(f)) != Unreadable
    ensures AllFiled(p, domains)
    ensures p.totals.Shown(f)
         == Some(SumOfAccounts(p, domains, f)
                   + Sum(SourceOf(f), Orphans(RowsOf(fetched, SourceOf(f)), DirectoryOf(domains, listings)), f))
  {
    DomainsAreConserved(domains, listings, SourceOf(f), RowsOf(fetched, SourceOf(f)), f);
    AccountsHideNothing(p, domains, listings, fetched, f);
    TotalShows(p, fetched, f);
  }

  lemma TotalShows(p: Picture, fetched: Fetches, f: Field)
    requires TotalsDue(p, fetched) && fetched(SourceOf(f)) != Unreadable
    ensures p.totals.Shown(f) == Some(Sum(SourceOf(f), RowsOf(fetched, SourceOf(f)), f))
  {
  }

  lemma DomainsAreConserved(domains: seq<Domain>, listings: Listings, s: Source, rows: seq<Row>, f: Field)
    requires DistinctIds(domains)
    ensures Sum(s, rows, f)
         == SumOverAccounts(AccountIds(domains), s, rows, DirectoryOf(domains, listings), f)
              + Sum(s, Orphans(rows, DirectoryOf(domains, listings)), f)
  {
    DirectoryNamesAccounts(domains, listings);
    ClusterIsConserved(AccountIds(domains), s, rows, DirectoryOf(domains, listings), f);
  }

  lemma DirectoryNamesAccounts(domains: seq<Domain>, listings: Listings)
    requires DistinctIds(domains)
    ensures Distinct(AccountIds(domains))
    ensures forall p :: p in DirectoryOf(domains, listings) ==> DirectoryOf(domains, listings)[p] in AccountIds(domains)
  {
    AccountIdsAt(domains);
    forall p | p in DirectoryOf(domains, listings)
      ensures DirectoryOf(domains, listings)[p] in AccountIds(domains)
    {
      DirectoryHas(domains, listings, p);
      var i :| 0 <= i < |domains| && p in IdsOf(listings, domains[i].id)
               && DirectoryOf(domains, listings)[p] == domains[i].id;
      assert AccountIds(domains)[i] == domains[i].id;
    }
  }

  lemma AccountMedia(p: Picture, d: Directory, fetched: Fetches, a: string)
    requires AccountsDue(p, d, fetched) && SplitUp(p.accounts, p.projects, d, fetched) && fetched(Volumes) != Unreadable
    requires a in p.accounts && p.accounts[a].name !in p.unreadableAccounts
    ensures p.accounts[a].Shown(StorageGib) == Some(TotalGib(p.accounts[a].media))
  {
    var rows := OfAccount(RowsOf(fetched, Volumes), d, a);
    MediaAddUp(rows);
    assert p.accounts[a].Shown(StorageGib) == Due(fetched, false, rows, StorageGib);
  }

  lemma ProjectMedia(p: Picture, d: Directory, fetched: Fetches, k: string)
    requires ProjectsDue(p, d, fetched) && SplitUp(p.accounts, p.projects, d, fetched) && fetched(Volumes) != Unreadable
    requires k in p.projects
    ensures p.projects[k].Shown(StorageGib) == Some(TotalGib(p.projects[k].media))
  {
    var rows := OfProject(RowsOf(fetched, Volumes), d, k);
    MediaAddUp(rows);
    assert p.projects[k].Shown(StorageGib) == Due(fetched, false, rows, StorageGib);
  }

  lemma TotalMedia(p: Picture, fetched: Fetches)
    requires TotalsDue(p, fetched) && fetched(Volumes) != Unreadable
    requires p.totals.media == MediaTotals(RowsOf(fetched, Volumes))
    ensures p.totals.Shown(StorageGib) == Some(TotalGib(p.totals.media))
  {
    MediaAddUp(RowsOf(fetched, Volumes));
    assert p.totals.Shown(StorageGib) == Due(fetched, false, RowsOf(fetched, Volumes), StorageGib);
  }

  /** The split by medium that a record carries adds up to the storage it shows. */
  lemma MediaMakeUpTheStorage(p: Picture, d: Directory, fetched: Fetches, a: string, k: string)
    requires Figures(p, d, fetched) && fetched(Volumes) != Unreadable
    requires a in p.accounts && p.accounts[a].name !in p.unreadableAccounts && k in p.projects
    ensures p.accounts[a].Shown(StorageGib) == Some(TotalGib(p.accounts[a].media))
    ensures p.projects[k].Shown(StorageGib) == Some(TotalGib(p.projects[k].media))
    ensures p.totals.Shown(StorageGib) == Some(TotalGib(p.totals.media))
  {
    AccountMedia(p, d, fetched, a);
    ProjectMedia(p, d, fetched, k);
    TotalMedia(p, fetched);
  }

  /** The figures of a picture, by whose rows they count: an account's field is what its own rows
      of the field's list come to, those whose project the directory puts under it; and the rows
      counted as unattributed are those whose project is in no account's listing. */
  lemma PictureCountsOwnRows(p: Picture, domains: seq<Domain>, listings: Listings, fetched: Fetches, a: string, f: Field,
                             own: seq<Row>)
    requires Shape(p, domains, listings) && Figures(p, DirectoryOf(domains, listings), fetched)
    requires a in p.accounts && a != "" && p.accounts[a].name !in p.unreadableAccounts
    requires fetched(SourceOf(f)) != Unreadable
    requires RowsUnder(own, RowsOf(fetched, SourceOf(f)), DirectoryOf(domains, listings), a)
    ensures p.accounts[a].Shown(f) == Some(Sum(SourceOf(f), own, f))
  {
    var d, s := DirectoryOf(domains, listings), SourceOf(f);
    RowsUnderAre(own, RowsOf(fetched, s), d, a);
    SumIgnoresOrder(s, own, OfAccount(RowsOf(fetched, s), d, a), f);
    assert p.accounts[a].Shown(f) == Due(fetched, false, OfAccount(RowsOf(fetched, s), d, a), f);
  }

  /** And a project's, if its account may be attributed to. */
  lemma PictureCountsProjectRows(p: Picture, d: Directory, fetched: Fetches, k: string, f: Field, own: seq<Row>)
    requires Figures(p, d, fetched) && k in p.projects && k in d && d[k] != "" && fetched(SourceOf(f)) != Unreadable
    requires RowsIn(own, RowsOf(fetched, SourceOf(f)), k)
    ensures p.projects[k].Shown(f) == Some(Sum(SourceOf(f), own, f))
  {
    var s := SourceOf(f);
    RowsInAre(own, RowsOf(fetched, s), d, k);
    SumIgnoresOrder(s, own, OfProject(RowsOf(fetched, s), d, k), f);
    assert p.projects[k].Shown(f) == Due(fetched, false, OfProject(RowsOf(fetched, s), d, k), f);
  }

  lemma {:induction false} OrphanCountsAre(sources: seq<Source>, fetched: Fetches, d: Directory, s: Source)
    ensures s in OrphanCounts(sources, fetched, d) <==> s in sources && fetched(s) != Unreadable
    ensures s in OrphanCounts(sources, fetched, d) ==>
              OrphanCounts(sources, fetched, d)[s] == |Orphans(RowsOf(fetched, s), d)|
  {
    if sources != [] {
      OrphanCountsAre(sources[..|sources| - 1], fetched, d, s);
      assert sources == sources[..|sources| - 1] + [sources[|sources| - 1]];
    }
  }

  /** `orphans` are the rows of a list whose project no account lists. */
  ghost predicate RowsUnowned(orphans: seq<Row>, rows: seq<Row>, d: Directory) {
    forall row :: multiset(orphans)[row] == if row.project !in d || d[row.project] == "" then multiset(rows)[row] else 0
  }

  /** The count of unattributed rows of every readable list. */
  lemma PictureCountsOrphans(p: Picture, d: Directory, fetched: Fetches, s: Source, orphans: seq<Row>)
    requires Figures(p, d, fetched) && fetched(s) != Unreadable && RowsUnowned(orphans, RowsOf(fetched, s), d)
    ensures s in p.unattributed && p.unattributed[s] == |orphans|
  {
    AllSources(s);
    OrphanCountsAre(SOURCES, fetched, d, s);
    forall row: Row {
      OrphansAre(RowsOf(fetched, s), d, row);
    }
    assert multiset(orphans) == multiset(Orphans(RowsOf(fetched, s), d));
    assert |orphans| == |multiset(orphans)|;
    assert |Orphans(RowsOf(fetched, s), d)| == |multiset(Orphans(RowsOf(fetched, s), d))|;
  }

  /** What is not known: an account's field, exactly if its list could not be read or the projects of
      a domain of its name could not be listed; a project's and the cluster's, exactly if its list
      could not be read.  It shows None, and never nought. */
  lemma UnknownExactly(p: Picture, domains: seq<Domain>, listings: Listings, fetched: Fetches, a: string, k: string, f: Field)
    requires Shape(p, domains, listings) && Figures(p, DirectoryOf(domains, listings), fetched)
    requires a in p.accounts && k in p.projects
    ensures p.accounts[a].Shown(f) == None <==>
            fetched(SourceOf(f)) == Unreadable
            || exists i :: 0 <= i < |domains| && domains[i].name == p.accounts[a].name
                           && ListingOf(listings, domains[i].id) == Unreadable
    ensures p.projects[k].Shown(f) == None <==> fetched(SourceOf(f)) == Unreadable
    ensures p.totals.Shown(f) == None <==> fetched(SourceOf(f)) == Unreadable
  {
    var d := DirectoryOf(domains, listings);
    UnreadableIs(domains, listings, p.accounts[a].name);
    assert p.accounts[a].Shown(f) == Due(fetched, p.accounts[a].name in p.unreadableAccounts,
                                         OfAccount(RowsOf(fetched, SourceOf(f)), d, a), f);
    assert p.projects[k].Shown(f) == Due(fetched, false, OfProject(RowsOf(fetched, SourceOf(f)), d, k), f);
    assert p.totals.Shown(f) == Due(fetched, false, RowsOf(fetched, SourceOf(f)), f);
  }

  /** The lists named as unavailable are those that could not be read, and a listing nobody gave is
      one that could not be read. */
  lemma UnavailableExactly(p: Picture, d: Directory, fetched: Fetches, s: Source)
    requires Figures(p, d, fetched)
    ensures s in p.unavailable <==> fetched(s) == Unreadable
  {
    AllSources(s);
    UnavailableIs(fetched, SOURCES, s);
  }
}
