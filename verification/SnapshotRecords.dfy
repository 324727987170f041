/** The records of apps/platform_admin/snapshot.py, updated in place: opened for every account
    and project, counted into row by row, split by medium, blanked. */
module SnapshotRecords {
  import opened Sequences
  import opened Options
  import opened Attribution

  /** One list of the cloud, or the news that it could not be read. */
  datatype Fetched<+T> = Unreadable | Listed(items: seq<T>)

  datatype Domain = Domain(id: string, name: string)

  /** An account's or a project's record.  An account also lists its projects' records: they
      are the very objects the projects are counted into. */
  class Entry {
    const id: string
    const name: string
    const isAccount: bool
    var usage: Usage
    var media: seq<MediaRow>
    var unknown: set<Field>
    var projects: seq<Entry>

    constructor (id: string, name: string, isAccount: bool)
      ensures this.id == id && this.name == name && this.isAccount == isAccount
      ensures usage == BLANK_USAGE && media == [] && unknown == {} && projects == []
    {
      this.id, this.name, this.isAccount := id, name, isAccount;
      usage, media, unknown, projects := BLANK_USAGE, [], {}, [];
    }

    /** What the record says of a field: a number nobody could read is None, never zero. */
    function Shown(f: Field): Option<nat>
      reads this`usage, this`unknown
    {
      if f in unknown then None else Some(Read(usage, f))
    }

    /** `_FOLD[source](usage, row)`. */
    method Count(s: Source, row: Row)
      modifies this`usage
      ensures usage == Fold(s, old(usage), row)
    {
      match s {
        case Vms =>
          usage := usage.(vmCount := usage.vmCount + 1);
          usage := usage.(vcpus := usage.vcpus + row.vcpus);
          usage := usage.(ramMb := usage.ramMb + row.ramMb);
          if Running(row) {
            usage := usage.(runningVms := usage.runningVms + 1);
          }
        case Volumes =>
          usage := usage.(volumeCount := usage.volumeCount + 1);
          usage := usage.(storageGib := usage.storageGib + row.sizeGib);
        case VolumeSnapshots =>
          usage := usage.(volumeSnapshotCount := usage.volumeSnapshotCount + 1);
          usage := usage.(volumeSnapshotGib := usage.volumeSnapshotGib + row.sizeGib);
          if row.backup {
            usage := usage.(backupSnapshotCount := usage.backupSnapshotCount + 1);
            usage := usage.(backupSnapshotGib := usage.backupSnapshotGib + row.sizeGib);
          }
        case VmSnapshots => usage := usage.(vmSnapshotCount := usage.vmSnapshotCount + 1);
        case PublicIps => usage := usage.(publicIps := usage.publicIps + 1);
        case Vpcs => usage := usage.(vpcCount := usage.vpcCount + 1);
        case Subnets => usage := usage.(subnetCount := usage.subnetCount + 1);
        case SecurityGroups => usage := usage.(securityGroupCount := usage.securityGroupCount + 1);
      }
    }

    /** `_mark_unavailable`. */
    method MarkUnavailable(sources: seq<Source>)
      modifies this`unknown
      ensures unknown == old(unknown) + Blanked(sources)
    {
      var i := 0;
      while i < |sources|
        invariant 0 <= i <= |sources|
        invariant unknown == old(unknown) + Blanked(sources[..i])
      {
        assert sources[..i + 1][..i] == sources[..i];
        unknown := unknown + FieldsOf(sources[i]);
        i := i + 1;
      }
      assert sources[..|sources|] == sources;
    }
  }

  function Blanked(sources: seq<Source>): set<Field> {
    if sources == [] then {} else Blanked(sources[..|sources| - 1]) + FieldsOf(sources[|sources| - 1])
  }

  lemma {:induction false} BlankedIs(sources: seq<Source>, f: Field)
    ensures f in Blanked(sources) <==> SourceOf(f) in sources
  {
    if sources != [] {
      var last := sources[|sources| - 1];
      BlankedIs(sources[..|sources| - 1], f);
      assert sources == sources[..|sources| - 1] + [last];
      FieldsArePartitioned(last, f);
    }
  }

  type Entries = map<string, Entry>

  /** A record is filed under its own id, so no two ids share one. */
  ghost predicate OwnRecords(entries: Entries) {
    forall a :: a in entries ==> entries[a].id == a
  }

  /** The two files share no record either. */
  ghost predicate Separate(accounts: Entries, projects: Entries) {
    && OwnRecords(accounts) && OwnRecords(projects)
    && (forall a :: a in accounts ==> accounts[a].isAccount)
    && (forall p :: p in projects ==> !projects[p].isAccount)
  }

  /** Every listed project has a record, and so has the account it is listed under. */
  ghost predicate Covers(accounts: Entries, projects: Entries, d: Directory) {
    forall p :: p in d ==> p in projects && d[p] in accounts
  }

  /** What the records hold, read off the heap. */
  ghost function Usages(entries: Entries): (m: map<string, Usage>)
    reads entries.Values`usage
    ensures m.Keys == entries.Keys
  {
    map a | a in entries :: entries[a].usage
  }

  /** What the records of a picture hold, as values. */
  datatype Tally = Tally(accounts: map<string, Usage>, projects: map<string, Usage>)

  ghost function TallyOf(accounts: Entries, projects: Entries): Tally
    reads accounts.Values`usage, projects.Values`usage
  {
    Tally(Usages(accounts), Usages(projects))
  }

  function Counted(s: Source, m: map<string, Usage>, key: string, row: Row): map<string, Usage> {
    if key in m then m[key := Fold(s, m[key], row)] else m
  }

  /** The records after one row, and after a list. */
  function AfterRow(s: Source, t: Tally, row: Row, d: Directory): Tally {
    if Attributed(d, row) then
      Tally(Counted(s, t.accounts, AccountOf(d, row), row), Counted(s, t.projects, row.project, row))
    else t
  }

  function AfterRows(s: Source, t: Tally, rows: seq<Row>, d: Directory): Tally {
    if rows == [] then t else AfterRow(s, AfterRows(s, t, rows[..|rows| - 1], d), rows[|rows| - 1], d)
  }

  lemma {:induction false} AfterRowsAccount(s: Source, t: Tally, rows: seq<Row>, d: Directory, a: string)
    requires a in t.accounts
    ensures a in AfterRows(s, t, rows, d).accounts
    ensures AfterRows(s, t, rows, d).accounts[a] == AccountUsage(s, t.accounts[a], rows, d, a)
  {
    if rows != [] {
      AfterRowsAccount(s, t, rows[..|rows| - 1], d, a);
    }
  }

  lemma {:induction false} AfterRowsProject(s: Source, t: Tally, rows: seq<Row>, d: Directory, p: string)
    requires p in t.projects
    ensures p in AfterRows(s, t, rows, d).projects
    ensures AfterRows(s, t, rows, d).projects[p] == ProjectUsage(s, t.projects[p], rows, d, p)
  {
    if rows != [] {
      AfterRowsProject(s, t, rows[..|rows| - 1], d, p);
    }
  }

  /** One attributed row, counted into its account's record and its project's. */
  method CountRow(s: Source, row: Row, accounts: Entries, projects: Entries, d: Directory)
    requires Separate(accounts, projects) && Covers(accounts, projects, d) && Attributed(d, row)
    modifies accounts.Values`usage, projects.Values`usage
    ensures TallyOf(accounts, projects) == AfterRow(s, old(TallyOf(accounts, projects)), row, d)
  {
    ghost var was := Usages(projects);
    CountIn(s, row, d[row.project], accounts);
    assert Usages(projects) == was;
    ghost var counted := Usages(accounts);
    CountIn(s, row, row.project, projects);
    assert Usages(accounts) == counted;
  }

  method CountIn(s: Source, row: Row, key: string, entries: Entries)
    requires OwnRecords(entries) && key in entries
    modifies entries.Values`usage
    ensures Usages(entries) == Counted(s, old(Usages(entries)), key, row)
  {
    entries[key].Count(s, row);
  }

  /** What the fold of a list leaves beside the records: how many rows nobody owns, and the
      volumes kept for the split by medium. */
  datatype Aside = Aside(unattributed: nat, ofAccount: map<string, seq<Row>>, ofProject: map<string, seq<Row>>)

  /** The volumes kept for a key; none, if the key was never given one. */
  function KeptFor(kept: map<string, seq<Row>>, key: string): seq<Row> {
    if key in kept then kept[key] else []
  }

  /** `setdefault(key, []).append(row)` */
  function Keep(kept: map<string, seq<Row>>, key: string, row: Row): (m: map<string, seq<Row>>)
    ensures forall k :: KeptFor(m, k) == if k == key then KeptFor(kept, k) + [row] else KeptFor(kept, k)
  {
    kept[key := KeptFor(kept, key) + [row]]
  }

  function AsideRow(s: Source, aside: Aside, row: Row, d: Directory): Aside {
    if !Attributed(d, row) then aside.(unattributed := aside.unattributed + 1)
    else if s == Volumes then
      aside.(ofAccount := Keep(aside.ofAccount, AccountOf(d, row), row),
             ofProject := Keep(aside.ofProject, row.project, row))
    else aside
  }

  function AsideAfter(s: Source, rows: seq<Row>, d: Directory): Aside {
    if rows == [] then Aside(0, map[], map[])
    else AsideRow(s, AsideAfter(s, rows[..|rows| - 1], d), rows[|rows| - 1], d)
  }

  lemma {:induction false} OrphansAreNumbered(s: Source, rows: seq<Row>, d: Directory)
    ensures AsideAfter(s, rows, d).unattributed == |Orphans(rows, d)|
  {
    if rows != [] {
      OrphansAreNumbered(s, rows[..|rows| - 1], d);
    }
  }

  lemma {:induction false} VolumesAreKept(rows: seq<Row>, d: Directory, key: string)
    ensures KeptFor(AsideAfter(Volumes, rows, d).ofAccount, key) == OfAccount(rows, d, key)
    ensures KeptFor(AsideAfter(Volumes, rows, d).ofProject, key) == OfProject(rows, d, key)
  {
    if rows != [] {
      VolumesAreKept(rows[..|rows| - 1], d, key);
    }
  }

  /** The body of the loop: whose row it is, if anyone's. */
  method FoldRow(s: Source, row: Row, accounts: Entries, projects: Entries, d: Directory, aside: Aside)
    returns (aside': Aside)
    requires Separate(accounts, projects) && Covers(accounts, projects, d)
    modifies accounts.Values`usage, projects.Values`usage
    ensures TallyOf(accounts, projects) == AfterRow(s, old(TallyOf(accounts, projects)), row, d)
    ensures aside' == AsideRow(s, aside, row, d)
  {
    aside' := aside;
    var account := if row.project in d then d[row.project] else "";
    if account == "" {
      aside' := aside'.(unattributed := aside'.unattributed + 1);
    } else {
      CountRow(s, row, accounts, projects, d);
      if s == Volumes {
        aside' := aside'.(ofAccount := Keep(aside'.ofAccount, account, row));
        aside' := aside'.(ofProject := Keep(aside'.ofProject, row.project, row));
      }
    }
  }

  lemma OneMoreRow(s: Source, t: Tally, items: seq<Row>, i: nat, d: Directory)
    requires i < |items|
    ensures AfterRows(s, t, items[..i + 1], d) == AfterRow(s, AfterRows(s, t, items[..i], d), items[i], d)
    ensures AsideAfter(s, items[..i + 1], d) == AsideRow(s, AsideAfter(s, items[..i], d), items[i], d)
  {
    assert items[..i + 1][..i] == items[..i];
  }

  /** One list, row by row. */
  method FoldSource(s: Source, items: seq<Row>, accounts: Entries, projects: Entries, d: Directory)
    returns (aside: Aside)
    requires Separate(accounts, projects) && Covers(accounts, projects, d)
    modifies accounts.Values`usage, projects.Values`usage
    ensures TallyOf(accounts, projects) == AfterRows(s, old(TallyOf(accounts, projects)), items, d)
    ensures aside == AsideAfter(s, items, d)
  {
    aside := Aside(0, map[], map[]);
    var i := 0;
    ghost var t := TallyOf(accounts, projects);
    while i < |items|
      invariant 0 <= i <= |items|
      invariant TallyOf(accounts, projects) == AfterRows(s, t, items[..i], d)
      invariant aside == AsideAfter(s, items[..i], d)
    {
      OneMoreRow(s, t, items, i, d);
      aside := FoldRow(s, items[i], accounts, projects, d, aside);
      i := i + 1;
    }
    assert items[..|items|] == items;
  }

  /******* Media *******/

  ghost function Medias(entries: Entries): (m: map<string, seq<MediaRow>>)
    reads entries.Values`media
    ensures m.Keys == entries.Keys
  {
    map a | a in entries :: entries[a].media
  }

  method SplitByMedium(entries: Entries, kept: map<string, seq<Row>>)
    requires OwnRecords(entries)
    modifies entries.Values`media
    ensures Medias(entries) == map a | a in entries :: MediaTotals(KeptFor(kept, a))
  {
    var todo := entries.Keys;
    while todo != {}
      invariant todo <= entries.Keys
      invariant forall a :: a in entries && a !in todo ==> entries[a].media == MediaTotals(KeptFor(kept, a))
    {
      var key :| key in todo;
      entries[key].media := MediaTotals(KeptFor(kept, key));
      todo := todo - {key};
    }
  }

  /******* Blanking *******/

  method MarkAll(entries: Entries, sources: seq<Source>)
    requires OwnRecords(entries)
    modifies entries.Values`unknown
    ensures forall a :: a in entries ==> entries[a].unknown == old(entries[a].unknown) + Blanked(sources)
  {
    var todo := entries.Keys;
    while todo != {}
      invariant todo <= entries.Keys
      invariant forall a :: a in todo ==> entries[a].unknown == old(entries[a].unknown)
      invariant forall a :: a in entries && a !in todo ==>
                  entries[a].unknown == old(entries[a].unknown) + Blanked(sources)
    {
      var key :| key in todo;
      entries[key].MarkUnavailable(sources);
      todo := todo - {key};
    }
  }

  /** An account whose projects could not be listed has no known figures at all. */
  method MarkUnreadable(accounts: Entries, names: seq<string>)
    requires OwnRecords(accounts)
    modifies accounts.Values`unknown
    ensures forall a :: a in accounts ==>
              accounts[a].unknown == old(accounts[a].unknown) + BlankedByName(accounts[a].name, names)
  {
    var todo := accounts.Keys;
    while todo != {}
      invariant todo <= accounts.Keys
      invariant forall a :: a in todo ==> accounts[a].unknown == old(accounts[a].unknown)
      invariant forall a :: a in accounts && a !in todo ==>
                  accounts[a].unknown == old(accounts[a].unknown) + BlankedByName(accounts[a].name, names)
    {
      var key :| key in todo;
      if accounts[key].name in names {
        accounts[key].MarkUnavailable(SOURCES);
      }
      todo := todo - {key};
    }
  }

  function BlankedByName(name: string, names: seq<string>): set<Field> {
    if name in names then Blanked(SOURCES) else {}
  }

  /******* The directory *******/

  type Listings = map<string, Fetched<string>>

  /** An account's projects, as far as they could be read. */
  function ListingOf(listings: Listings, account: string): Fetched<string> {
    if account in listings then listings[account] else Unreadable
  }

  function IdsOf(listings: Listings, account: string): seq<string> {
    match ListingOf(listings, account) case Unreadable => [] case Listed(ids) => ids
  }

  function DirectoryOf(domains: seq<Domain>, listings: Listings): Directory {
    if domains == [] then map[]
    else
      var account := domains[|domains| - 1].id;
      DirectoryOf(domains[..|domains| - 1], listings) + map p | p in IdsOf(listings, account) :: account
  }

  ghost predicate Blank(e: Entry, isAccount: bool)
    reads e`usage, e`media, e`unknown
  {
    e.isAccount == isAccount && e.usage == BLANK_USAGE && e.media == [] && e.unknown == {}
  }

  function IdSet(domains: seq<Domain>): set<string> {
    set i | 0 <= i < |domains| :: domains[i].id
  }

  ghost predicate DistinctIds(domains: seq<Domain>) {
    forall i, j :: 0 <= i < j < |domains| ==> domains[i].id != domains[j].id
  }

  /** Every account's record bears the account's name. */
  ghost predicate Named(accounts: Entries, domains: seq<Domain>, n: nat)
    requires n <= |domains|
  {
    forall i :: 0 <= i < n ==> domains[i].id in accounts && accounts[domains[i].id].name == domains[i].name
  }

  /** The accounts of a snapshot, before anything is counted. */
  method OpenAccounts(domains: seq<Domain>) returns (accounts: Entries)
    requires DistinctIds(domains)
    ensures OwnRecords(accounts) && accounts.Keys == IdSet(domains) && Named(accounts, domains, |domains|)
    ensures forall a :: a in accounts ==> fresh(accounts[a]) && Blank(accounts[a], true) && accounts[a].projects == []
  {
    accounts := map[];
    var i := 0;
    while i < |domains|
      invariant 0 <= i <= |domains|
      invariant OwnRecords(accounts) && accounts.Keys == (set k | 0 <= k < i :: domains[k].id)
      invariant Named(accounts, domains, i)
      invariant forall a :: a in accounts ==> fresh(accounts[a]) && Blank(accounts[a], true) && accounts[a].projects == []
    {
      var e := new Entry(domains[i].id, domains[i].name, true);
      accounts := accounts[domains[i].id := e];
      i := i + 1;
    }
  }

  /** `list` holds the records of `ids`: not copies, the records themselves. */
  ghost predicate RecordsOf(list: seq<Entry>, ids: seq<string>, projects: Entries) {
    |list| == |ids| && forall k :: 0 <= k < |ids| ==> ids[k] in projects && list[k] == projects[ids[k]]
  }

  /** One account's listing: a record for each project. */
  method OpenProjects(ids: seq<string>, projects: Entries) returns (projects': Entries, listed: seq<Entry>)
    requires OwnRecords(projects) && Distinct(ids) && forall k :: 0 <= k < |ids| ==> ids[k] !in projects
    ensures OwnRecords(projects') && projects'.Keys == projects.Keys + (set p | p in ids)
    ensures forall p :: p in projects ==> projects'[p] == projects[p]
    ensures forall p :: p in projects' && p !in projects ==> fresh(projects'[p]) && Blank(projects'[p], false)
    ensures RecordsOf(listed, ids, projects')
  {
    projects', listed := projects, [];
    var i := 0;
    while i < |ids|
      invariant 0 <= i <= |ids|
      invariant OwnRecords(projects') && projects'.Keys == projects.Keys + (set p | p in ids[..i])
      invariant forall p :: p in projects ==> projects'[p] == projects[p]
      invariant forall p :: p in projects' && p !in projects ==> fresh(projects'[p]) && Blank(projects'[p], false)
      invariant RecordsOf(listed, ids[..i], projects')
    {
      var e := new Entry(ids[i], "", false);
      projects' := projects'[ids[i] := e];
      listed := listed + [e];
      assert ids[..i + 1] == ids[..i] + [ids[i]];
      i := i + 1;
    }
    assert ids[..|ids|] == ids;
  }

  /** Domain ids are not repeated, and no project is listed twice. */
  ghost predicate ListedOnce(domains: seq<Domain>, listings: Listings) {
    && DistinctIds(domains)
    && (forall i :: 0 <= i < |domains| ==> Distinct(IdsOf(listings, domains[i].id)))
    && (forall i, j, p :: 0 <= i < j < |domains| && p in IdsOf(listings, domains[i].id) ==>
                            p !in IdsOf(listings, domains[j].id))
  }

  /** The accounts whose projects could not be listed, by name. */
  function UnreadableNames(domains: seq<Domain>, listings: Listings): seq<string> {
    if domains == [] then []
    else
      var last := domains[|domains| - 1];
      UnreadableNames(domains[..|domains| - 1], listings)
        + if ListingOf(listings, last.id) == Unreadable then [last.name] else []
  }

  lemma {:induction false} DirectoryHas(domains: seq<Domain>, listings: Listings, p: string)
    ensures p in DirectoryOf(domains, listings) <==> exists i :: 0 <= i < |domains| && p in IdsOf(listings, domains[i].id)
    ensures p in DirectoryOf(domains, listings) ==>
              exists i :: 0 <= i < |domains| && p in IdsOf(listings, domains[i].id)
                          && DirectoryOf(domains, listings)[p] == domains[i].id
  {
    if domains != [] {
      var before, last := domains[..|domains| - 1], |domains| - 1;
      DirectoryHas(before, listings, p);
      if p in IdsOf(listings, domains[last].id) {
        assert 0 <= last < |domains|;
      } else if p in DirectoryOf(before, listings) {
        var i :| 0 <= i < |before| && p in IdsOf(listings, before[i].id)
                 && DirectoryOf(before, listings)[p] == before[i].id;
        assert before[i] == domains[i];
      }
    }
  }

  /** The accounts' lists of records, read off the heap. */
  type Lists = map<string, seq<Entry>>

  ghost function ListsOf(accounts: Entries): (m: Lists)
    reads accounts.Values`projects
    ensures m.Keys == accounts.Keys
  {
    map a | a in accounts :: accounts[a].projects
  }

  ghost predicate ListsHold(lists: Lists, projects: Entries, domains: seq<Domain>, n: nat, listings: Listings)
    requires n <= |domains|
  {
    forall i :: 0 <= i < n ==>
      domains[i].id in lists && RecordsOf(lists[domains[i].id], IdsOf(listings, domains[i].id), projects)
  }

  ghost predicate EmptyFrom(lists: Lists, domains: seq<Domain>, i: nat) {
    forall j :: i <= j < |domains| ==> domains[j].id in lists && lists[domains[j].id] == []
  }

  ghost predicate Extends(projects': Entries, projects: Entries) {
    forall p :: p in projects ==> p in projects' && projects'[p] == projects[p]
  }

  lemma OneMoreListed(lists: Lists, projects: Entries, projects': Entries, listed: seq<Entry>,
                      domains: seq<Domain>, i: nat, listings: Listings)
    requires i < |domains| && ListedOnce(domains, listings)
    requires ListsHold(lists, projects, domains, i, listings) && EmptyFrom(lists, domains, i)
    requires Extends(projects', projects) && RecordsOf(listed, IdsOf(listings, domains[i].id), projects')
    ensures ListsHold(lists[domains[i].id := listed], projects', domains, i + 1, listings)
    ensures EmptyFrom(lists[domains[i].id := listed], domains, i + 1)
  {
    var lists' := lists[domains[i].id := listed];
    forall j | 0 <= j < i
      ensures domains[j].id in lists' && RecordsOf(lists'[domains[j].id], IdsOf(listings, domains[j].id), projects')
    {
    }
  }

  lemma NoneListed(lists: Lists, projects: Entries, domains: seq<Domain>, i: nat, listings: Listings)
    requires i < |domains| && ListingOf(listings, domains[i].id) == Unreadable
    requires ListsHold(lists, projects, domains, i, listings) && EmptyFrom(lists, domains, i)
    ensures ListsHold(lists, projects, domains, i + 1, listings) && EmptyFrom(lists, domains, i + 1)
  {
  }

  ghost predicate Opened(projects: Entries, d: Directory)
    reads projects.Values`usage, projects.Values`media, projects.Values`unknown
  {
    OwnRecords(projects) && projects.Keys == d.Keys && forall p :: p in projects ==> Blank(projects[p], false)
  }

  /** One account: its projects opened, listed under it, and entered in the directory. */
  method ListAccount(account: string, ids: seq<string>, accounts: Entries, projects: Entries, d: Directory)
    returns (projects': Entries, d': Directory, listed: seq<Entry>)
    requires OwnRecords(accounts) && account in accounts
    requires Opened(projects, d) && Distinct(ids) && forall k :: 0 <= k < |ids| ==> ids[k] !in d
    modifies accounts.Values`projects
    ensures d' == d + (map p | p in ids :: account) && Opened(projects', d') && Extends(projects', projects)
    ensures forall p :: p in projects' && p !in projects ==> fresh(projects'[p])
    ensures RecordsOf(listed, ids, projects')
    ensures ListsOf(accounts) == old(ListsOf(accounts))[account := listed]
  {
    projects', listed := OpenProjects(ids, projects);
    d' := d + map p | p in ids :: account;
    accounts[account].projects := listed;
  }

  /** Every account's projects, into one directory; what cannot be listed is named. */
  method ListProjects(domains: seq<Domain>, listings: Listings, accounts: Entries)
    returns (projects: Entries, d: Directory, unreadable: seq<string>)
    requires ListedOnce(domains, listings) && OwnRecords(accounts) && EmptyFrom(ListsOf(accounts), domains, 0)
    modifies accounts.Values`projects
    ensures d == DirectoryOf(domains, listings) && Opened(projects, d)
    ensures forall p :: p in projects ==> fresh(projects[p])
    ensures ListsHold(ListsOf(accounts), projects, domains, |domains|, listings)
    ensures unreadable == UnreadableNames(domains, listings)
  {
    projects, d, unreadable := map[], map[], [];
    var i := 0;
    while i < |domains|
      invariant 0 <= i <= |domains|
      invariant d == DirectoryOf(domains[..i], listings) && Opened(projects, d)
      invariant forall p :: p in projects ==> fresh(projects[p])
      invariant ListsHold(ListsOf(accounts), projects, domains, i, listings)
      invariant EmptyFrom(ListsOf(accounts), domains, i)
      invariant unreadable == UnreadableNames(domains[..i], listings)
    {
      projects, d, unreadable := ListDomain(domains, i, listings, accounts, projects, d, unreadable);
      i := i + 1;
    }
    assert domains[..|domains|] == domains;
  }

  /** The body of the loop. */
  method ListDomain(domains: seq<Domain>, i: nat, listings: Listings, accounts: Entries, projects: Entries,
                    d: Directory, unreadable: seq<string>)
    returns (projects': Entries, d': Directory, unreadable': seq<string>)
    requires i < |domains| && ListedOnce(domains, listings) && OwnRecords(accounts)
    requires d == DirectoryOf(domains[..i], listings) && Opened(projects, d)
    requires ListsHold(ListsOf(accounts), projects, domains, i, listings)
    requires EmptyFrom(ListsOf(accounts), domains, i)
    requires unreadable == UnreadableNames(domains[..i], listings)
    modifies accounts.Values`projects
    ensures d' == DirectoryOf(domains[..i + 1], listings) && Opened(projects', d')
    ensures forall p :: p in projects' ==> fresh(projects'[p]) || (p in projects && projects'[p] == projects[p])
    ensures ListsHold(ListsOf(accounts), projects', domains, i + 1, listings)
    ensures EmptyFrom(ListsOf(accounts), domains, i + 1)
    ensures unreadable' == UnreadableNames(domains[..i + 1], listings)
  {
    OneMoreDomain(domains, listings, i);
    projects', d', unreadable' := projects, d, unreadable;
    var account := domains[i].id;
    match ListingOf(listings, account) {
      case Unreadable =>
        unreadable' := unreadable + [domains[i].name];
        NoneListed(ListsOf(accounts), projects, domains, i, listings);
      case Listed(ids) =>
        NotYetListed(domains, listings, i);
        ghost var lists := ListsOf(accounts);
        var listed;
        projects', d', listed := ListAccount(account, ids, accounts, projects, d);
        OneMoreListed(lists, projects, projects', listed, domains, i, listings);
    }
  }

  lemma OneMoreDomain(domains: seq<Domain>, listings: Listings, i: nat)
    requires i < |domains|
    ensures DirectoryOf(domains[..i + 1], listings)
         == DirectoryOf(domains[..i], listings) + map p | p in IdsOf(listings, domains[i].id) :: domains[i].id
    ensures UnreadableNames(domains[..i + 1], listings)
         == UnreadableNames(domains[..i], listings)
              + if ListingOf(listings, domains[i].id) == Unreadable then [domains[i].name] else []
  {
    assert domains[..i + 1][..i] == domains[..i];
  }

  lemma NotYetListed(domains: seq<Domain>, listings: Listings, i: nat)
    requires i < |domains| && ListedOnce(domains, listings)
    ensures forall p :: p in IdsOf(listings, domains[i].id) ==> p !in DirectoryOf(domains[..i], listings)
  {
    forall p | p in IdsOf(listings, domains[i].id)
      ensures p !in DirectoryOf(domains[..i], listings)
    {
      DirectoryHas(domains[..i], listings, p);
    }
  }
}
