/** The spreadsheet mirror of the lead table: one tab for each kind of lead, one row for each
lead, updated in place when a booking moves. */
module LeadSync {
  import opened Wrappers
  import opened Calendar
  import opened Domain
  import opened ConversationMachine
  import Funnel

  // ------------------------------------------------------------------
  // Rows
  // ------------------------------------------------------------------

  datatype Column =
    | LeadId | WhatsApp | Phone | Name | Profession | Email | EnrolledCourse | IssueType
    | CallbackDate | CallbackTime | CallbackAsked | Remarks | Status

  const LEADING: seq<Column> := [LeadId, WhatsApp, Phone, Name]
  const TRAILING: seq<Column> := [CallbackDate, CallbackTime, CallbackAsked, Remarks, Status]
  const PRE_SALES_COLUMNS: seq<Column> := LEADING + [Profession] + TRAILING
  const POST_SALES_COLUMNS: seq<Column> := LEADING + [Email, EnrolledCourse, IssueType] + TRAILING

  datatype Cell =
    | Number(n: nat) | Words(text: string) | OnDay(date: Option<Date>) | AtTime(hour: int, minute: int) | NoTime
    | About(topic: Option<Topic>) | Tag(status: LeadStatus)

  function ColumnsFor(kind: LeadType): seq<Column> {
    if kind.PostSales? then POST_SALES_COLUMNS else PRE_SALES_COLUMNS
  }

  function TextOf(t: Option<Text>): string {
    if t.Some? then t.value else ""
  }

  function ValueOf(id: nat, lead: Lead, column: Column): Cell {
    match column
    case LeadId => Number(id)
    case WhatsApp => Words(lead.phone)
    case Phone => Words(lead.contactPhone)
    case Name => Words(TextOf(lead.name))
    case Profession => Words(lead.profession.GetOr(""))
    case Email => Words(TextOf(lead.email))
    case EnrolledCourse => Words(TextOf(lead.enrolledCourse))
    case IssueType => About(lead.issue)
    case CallbackDate =>
      OnDay(if lead.preferredTime.Some? then Some(DateOf(lead.preferredTime.value.day)) else None)
    case CallbackTime =>
      if lead.preferredTime.None? then NoTime
      else AtTime(HourOf(lead.preferredTime.value.us), MinuteOf(lead.preferredTime.value.us))
    case CallbackAsked => Words(lead.preferredTimeRaw.GetOr(""))
    case Remarks => Words(lead.remarks.GetOr(""))
    case Status => Tag(lead.status)
  }

  /** The cells of a lead, each looked up by the heading of its column. */
  function AsRow(id: nat, lead: Lead): SheetRow {
    var columns := ColumnsFor(lead.kind);
    LeadRow(id, seq(|columns|, i requires 0 <= i < |columns| => ValueOf(id, lead, columns[i])))
  }

  datatype SheetRow = Header(columns: seq<Column>) | LeadRow(id: nat, cells: seq<Cell>)

  predicate IsRowOf(row: SheetRow, id: nat) {
    row.LeadRow? && row.id == id
  }

  // ------------------------------------------------------------------
  // One tab
  // ------------------------------------------------------------------

  /** The first row of this lead, or the length of the tab. */
  function FindRow(rows: seq<SheetRow>, id: nat): (k: nat)
    ensures k <= |rows| && (k < |rows| ==> IsRowOf(rows[k], id))
    ensures forall j :: 0 <= j < k ==> !IsRowOf(rows[j], id)
  {
    if rows == [] || IsRowOf(rows[0], id) then 0 else 1 + FindRow(rows[1..], id)
  }

  /** Update the row of this lead if it is there, else append one. */
  function Upserted(rows: seq<SheetRow>, row: SheetRow): seq<SheetRow>
    requires row.LeadRow?
  {
    var k := FindRow(rows, row.id);
    if k < |rows| then rows[k := row] else rows + [row]
  }

  /** Write the header where it is missing or differs. */
  function Headed(rows: seq<SheetRow>, columns: seq<Column>): seq<SheetRow> {
    if rows == [] then [Header(columns)] else rows[0 := Header(columns)]
  }

  predicate OneRowEach(rows: seq<SheetRow>) {
    forall i, j :: 0 <= i < j < |rows| && rows[i].LeadRow? ==> !IsRowOf(rows[j], rows[i].id)
  }

  lemma UpsertKeepsOneRow(rows: seq<SheetRow>, row: SheetRow)
    requires row.LeadRow? && OneRowEach(rows)
    ensures OneRowEach(Upserted(rows, row)) && row in Upserted(rows, row)
    ensures forall r :: r in Upserted(rows, row) <==> r == row || (r in rows && !IsRowOf(r, row.id))
  {
    var k := FindRow(rows, row.id);
    var after := Upserted(rows, row);
    if k < |rows| {
      forall r ensures r in after <==> r == row || (r in rows && !IsRowOf(r, row.id)) {
        if r in rows && !IsRowOf(r, row.id) {
          var j :| 0 <= j < |rows| && rows[j] == r;
          assert after[j] == r;
        }
        if r in after && r != row {
          var j :| 0 <= j < |after| && after[j] == r;
          assert rows[j] == r && j != k;
        }
        assert after[k] == row;
      }
    } else {
      assert after[|rows|] == row;
    }
  }

  /** The first row of this lead is this row. */
  predicate Leads(rows: seq<SheetRow>, row: SheetRow)
    requires row.LeadRow?
  {
    var k := FindRow(rows, row.id);
    k < |rows| && rows[k] == row
  }

  lemma FirstRowIsUnique(rows: seq<SheetRow>, id: nat, k: nat)
    requires k < |rows| && IsRowOf(rows[k], id) && forall j :: 0 <= j < k ==> !IsRowOf(rows[j], id)
    ensures FindRow(rows, id) == k
  {
    assert FindRow(rows, id) <= k;
  }

  /** Writing a row puts it first among its lead's; writing it again changes nothing; and no other
  lead's write, in place or appended, takes it away. */
  lemma UpsertedLeads(rows: seq<SheetRow>, row: SheetRow, other: SheetRow)
    requires row.LeadRow? && other.LeadRow?
    ensures Leads(Upserted(rows, row), row)
    ensures Leads(rows, row) ==> Upserted(rows, row) == rows
    ensures Leads(rows, row) && other.id != row.id ==> Leads(Upserted(rows, other), row) && Leads(rows + [other], row)
  {
    var k := FindRow(rows, row.id);
    FirstRowIsUnique(Upserted(rows, row), row.id, k);
    if Leads(rows, row) && other.id != row.id {
      FirstRowIsUnique(Upserted(rows, other), row.id, k);
      FirstRowIsUnique(rows + [other], row.id, k);
    }
  }

  /** When the identifier column cannot be read the row is appended unseen: one row each
  survives exactly when the lead was not on the tab yet. */
  lemma UnreadableColumnDuplicates(rows: seq<SheetRow>, row: SheetRow)
    requires row.LeadRow? && OneRowEach(rows)
    ensures OneRowEach(rows + [row]) <==> FindRow(rows, row.id) == |rows|
  {
    var k := FindRow(rows, row.id);
    if k < |rows| {
      assert (rows + [row])[k].LeadRow? && IsRowOf((rows + [row])[|rows|], (rows + [row])[k].id);
    }
  }

  /** Repairing a header keeps every lead's row exactly when the first row is not a lead's. It
  is one when the first header could not be written: the repair then erases that lead. */
  lemma HeaderRepairKeepsLeads(rows: seq<SheetRow>, columns: seq<Column>)
    requires OneRowEach(rows)
    ensures OneRowEach(Headed(rows, columns))
    ensures forall r: SheetRow :: r.LeadRow? ==>
      (r in Headed(rows, columns) <==> r in rows && r != rows[0])
  {
    var after := Headed(rows, columns);
    forall r: SheetRow | r.LeadRow? ensures r in after <==> r in rows && r != rows[0] {
      if r in rows && r != rows[0] {
        var j :| 0 <= j < |rows| && rows[j] == r;
        assert after[j] == r;
      }
      if r in after {
        var j :| 0 <= j < |after| && after[j] == r;
        assert 0 < j && rows[j] == r;
        assert rows[0].LeadRow? ==> !IsRowOf(rows[j], rows[0].id);
      }
    }
  }

  // ------------------------------------------------------------------
  // One push
  // ------------------------------------------------------------------

  /** Whether writing the row worked, failed with the row written, or failed without. */
  datatype Outcome = Delivered | LostAfterWriting | FailedBefore

  /** How one push goes: it may not start, for want of a client; the requests for the header and
  the identifier column may fail unnoticed; the one for the row is reported. A tab that could not
  be created is an empty one on which all requests fail. */
  datatype Attempt = Attempt(started: bool, header: bool, column: bool, row: Outcome) {
    function Lands(): Outcome {
      if started then row else FailedBefore
    }
  }

  const FINE := Attempt(true, true, true, Delivered)

  /** Both tabs, and those whose header this process takes for checked. */
  datatype Sheet = Sheet(pre: seq<SheetRow>, post: seq<SheetRow>, checked: set<LeadType>) {
    function Tab(kind: LeadType): seq<SheetRow> {
      if kind.PostSales? then post else pre
    }

    function WithTab(kind: LeadType, rows: seq<SheetRow>): Sheet {
      if kind.PostSales? then this.(post := rows) else this.(pre := rows)
    }
  }

  const EMPTY_SHEET := Sheet([], [], {})

  /** The tab once its header has been seen to: once a process, whether or not that worked. */
  function HeadedTab(s: Sheet, kind: LeadType, works: bool): seq<SheetRow> {
    if kind in s.checked || !works then s.Tab(kind) else Headed(s.Tab(kind), ColumnsFor(kind))
  }

  /** An unreadable column hides the row that is there. */
  function Written(rows: seq<SheetRow>, row: SheetRow, a: Attempt): seq<SheetRow>
    requires row.LeadRow?
  {
    if a.Lands().FailedBefore? then rows else if a.column then Upserted(rows, row) else rows + [row]
  }

  function SyncedSheet(s: Sheet, id: nat, lead: Lead, a: Attempt): Sheet {
    if !a.started then s
    else
      s.WithTab(lead.kind, Written(HeadedTab(s, lead.kind, a.header), AsRow(id, lead), a))
       .(checked := s.checked + {lead.kind})
  }

  /** None: there is no sheet to push to. */
  function Mark(push: Option<Attempt>): SyncStatus {
    match push
    case None => Skipped
    case Some(a) => if a.Lands().Delivered? then Synced else Failed
  }

  function SyncedOne(s: Sheet, leads: seq<Lead>, id: nat, push: Option<Attempt>): (Sheet, seq<Lead>) {
    if !(1 <= id <= |leads|) then (s, leads)
    else (if push.Some? then SyncedSheet(s, id, leads[id - 1], push.value) else s,
          leads[id - 1 := leads[id - 1].(sync := Mark(push))])
  }

  lemma MarkIsNotInTheRow(id: nat, lead: Lead, sync: SyncStatus)
    ensures AsRow(id, lead.(sync := sync)) == AsRow(id, lead)
  {
    forall column: Column ensures ValueOf(id, lead.(sync := sync), column) == ValueOf(id, lead, column) {}
  }

  // ------------------------------------------------------------------
  // The mirror
  // ------------------------------------------------------------------

  /** Every lead row of a tab is of a lead of that kind. */
  ghost predicate OfKind(rows: seq<SheetRow>, kind: LeadType, leads: seq<Lead>) {
    forall r :: r in rows && r.LeadRow? ==> 1 <= r.id <= |leads| && leads[r.id - 1].kind == kind
  }

  /** Every synced lead of that kind, this one apart, has the row that says what it says. */
  ghost predicate CurrentBut(rows: seq<SheetRow>, kind: LeadType, leads: seq<Lead>, id: nat) {
    forall k :: 0 <= k < |leads| && k + 1 != id && leads[k].kind == kind && leads[k].sync.Synced? ==>
      AsRow(k + 1, leads[k]) in rows
  }

  /** Every lead row of a tab is the one row of a lead of that kind; a synced lead's row says
  what the lead says. No lead has the identifier zero. */
  ghost predicate TabMirrors(rows: seq<SheetRow>, kind: LeadType, leads: seq<Lead>) {
    OneRowEach(rows) && OfKind(rows, kind, leads) && CurrentBut(rows, kind, leads, 0)
  }

  ghost predicate Mirrors(s: Sheet, leads: seq<Lead>) {
    TabMirrors(s.pre, PreSales, leads) && TabMirrors(s.post, PostSales, leads)
  }

  /** Seeing to the header erases no row of another lead that counts as synced. */
  predicate HeaderSpares(s: Sheet, leads: seq<Lead>, id: nat, a: Attempt)
    requires 1 <= id <= |leads|
  {
    var kind := leads[id - 1].kind;
    var rows := s.Tab(kind);
    kind !in s.checked && a.started && a.header && rows != [] && rows[0].LeadRow? && rows[0].id != id ==>
      !(1 <= rows[0].id <= |leads| && leads[rows[0].id - 1].sync.Synced?)
  }

  /** The row is not appended beside one of the same lead. */
  predicate ColumnSeen(s: Sheet, leads: seq<Lead>, id: nat, a: Attempt)
    requires 1 <= id <= |leads|
  {
    var headed := HeadedTab(s, leads[id - 1].kind, a.started && a.header);
    a.Lands().FailedBefore? || a.column || FindRow(headed, id) == |headed|
  }

  predicate Harmless(s: Sheet, leads: seq<Lead>, id: nat, push: Option<Attempt>) {
    push.Some? && 1 <= id <= |leads| ==> HeaderSpares(s, leads, id, push.value) && ColumnSeen(s, leads, id, push.value)
  }

  /** What writing does to a tab: one row each is kept exactly when the row is not appended beside
  its own, and then only the lead's own row is new or gone. */
  lemma WriteKeepsOneRow(rows: seq<SheetRow>, row: SheetRow, a: Attempt)
    requires row.LeadRow? && OneRowEach(rows)
    ensures OneRowEach(Written(rows, row, a)) <==>
      a.Lands().FailedBefore? || a.column || FindRow(rows, row.id) == |rows|
    ensures !a.Lands().FailedBefore? ==> row in Written(rows, row, a)
    ensures forall r: SheetRow :: r.LeadRow? && r.id != row.id ==> (r in Written(rows, row, a) <==> r in rows)
    ensures forall r :: r in Written(rows, row, a) ==> r == row || r in rows
  {
    UpsertKeepsOneRow(rows, row);
    UnreadableColumnDuplicates(rows, row);
    assert (rows + [row])[|rows|] == row;
  }

  /** After the header has been seen to: one row each still, of the same leads, and every synced
  one but possibly the pushed lead's is there exactly when the header spared it. */
  lemma OwnRowIsFirst(rows: seq<SheetRow>, j: nat)
    requires OneRowEach(rows) && j < |rows| && rows[0].LeadRow? && IsRowOf(rows[j], rows[0].id)
    ensures j == 0
  {
  }

  lemma HeaderKeepsTab(s: Sheet, leads: seq<Lead>, id: nat, a: Attempt)
    requires 1 <= id <= |leads| && TabMirrors(s.Tab(leads[id - 1].kind), leads[id - 1].kind, leads)
    ensures var kind := leads[id - 1].kind;
      var headed := HeadedTab(s, kind, a.started && a.header);
      && OneRowEach(headed) && OfKind(headed, kind, leads)
      && (HeaderSpares(s, leads, id, a) <==> CurrentBut(headed, kind, leads, id))
  {
    var kind := leads[id - 1].kind;
    var rows := s.Tab(kind);
    HeaderRepairKeepsLeads(rows, ColumnsFor(kind));
    if !HeaderSpares(s, leads, id, a) {
      var k := rows[0].id - 1;
      assert rows[0] in rows;
      assert AsRow(k + 1, leads[k]) == rows[0] by {
        var j :| 0 <= j < |rows| && rows[j] == AsRow(k + 1, leads[k]);
        OwnRowIsFirst(rows, j);
      }
    }
  }

  /** Writing a lead's row, and marking the lead as it went, leaves its synced row behind. */
  lemma WriteKeepsCurrent(headed: seq<SheetRow>, leads: seq<Lead>, id: nat, a: Attempt)
    requires 1 <= id <= |leads| && OneRowEach(headed)
    ensures var kind := leads[id - 1].kind;
      var now := leads[id - 1 := leads[id - 1].(sync := Mark(Some(a)))];
      CurrentBut(Written(headed, AsRow(id, leads[id - 1]), a), kind, now, 0) <==> CurrentBut(headed, kind, leads, id)
  {
    var kind := leads[id - 1].kind;
    var row := AsRow(id, leads[id - 1]);
    var rows := Written(headed, row, a);
    var now := leads[id - 1 := leads[id - 1].(sync := Mark(Some(a)))];
    WriteKeepsOneRow(headed, row, a);
    MarkIsNotInTheRow(id, leads[id - 1], Mark(Some(a)));
    forall k | 0 <= k < |leads| && k + 1 != id
      ensures now[k] == leads[k] && (AsRow(k + 1, leads[k]) in rows <==> AsRow(k + 1, leads[k]) in headed)
    {
      assert AsRow(k + 1, leads[k]).LeadRow?;
    }
    if CurrentBut(rows, kind, now, 0) {
      forall k | 0 <= k < |leads| && k + 1 != id && leads[k].kind == kind && leads[k].sync.Synced?
        ensures AsRow(k + 1, leads[k]) in headed
      {
        assert now[k] == leads[k];
      }
    }
  }

  lemma WriteKeepsKind(headed: seq<SheetRow>, leads: seq<Lead>, id: nat, a: Attempt)
    requires 1 <= id <= |leads| && OneRowEach(headed) && OfKind(headed, leads[id - 1].kind, leads)
    ensures var now := leads[id - 1 := leads[id - 1].(sync := Mark(Some(a)))];
      OfKind(Written(headed, AsRow(id, leads[id - 1]), a), leads[id - 1].kind, now)
  {
    WriteKeepsOneRow(headed, AsRow(id, leads[id - 1]), a);
  }

  lemma PushedTabMirrors(s: Sheet, leads: seq<Lead>, id: nat, a: Attempt)
    requires 1 <= id <= |leads| && TabMirrors(s.Tab(leads[id - 1].kind), leads[id - 1].kind, leads)
    ensures var kind := leads[id - 1].kind;
      var (t, now) := SyncedOne(s, leads, id, Some(a));
      TabMirrors(t.Tab(kind), kind, now) <==> Harmless(s, leads, id, Some(a))
  {
    var kind := leads[id - 1].kind;
    var headed := HeadedTab(s, kind, a.started && a.header);
    HeaderKeepsTab(s, leads, id, a);
    WriteKeepsOneRow(headed, AsRow(id, leads[id - 1]), a);
    WriteKeepsKind(headed, leads, id, a);
    WriteKeepsCurrent(headed, leads, id, a);
    assert SyncedOne(s, leads, id, Some(a)).0.Tab(kind) == Written(headed, AsRow(id, leads[id - 1]), a);
  }

  lemma OtherTabMirrors(rows: seq<SheetRow>, leads: seq<Lead>, id: nat, mark: SyncStatus, kind: LeadType)
    requires 1 <= id <= |leads| && TabMirrors(rows, kind, leads) && (kind != leads[id - 1].kind || !mark.Synced?)
    ensures TabMirrors(rows, kind, leads[id - 1 := leads[id - 1].(sync := mark)])
  {
    var after := leads[id - 1 := leads[id - 1].(sync := mark)];
    forall k | 0 <= k < |after| && after[k].kind == kind && after[k].sync.Synced?
      ensures AsRow(k + 1, after[k]) in rows
    {
      assert after[k] == leads[k];
    }
  }

  /** A sync keeps the mirror exactly when it is harmless. */
  lemma SyncKeepsMirrorExactlyWhen(s: Sheet, leads: seq<Lead>, id: nat, push: Option<Attempt>)
    requires Mirrors(s, leads)
    ensures var (t, now) := SyncedOne(s, leads, id, push); Mirrors(t, now) <==> Harmless(s, leads, id, push)
  {
    if 1 <= id <= |leads| {
      var kind := leads[id - 1].kind;
      if push.Some? {
        PushedTabMirrors(s, leads, id, push.value);
        var other := if kind.PostSales? then PreSales else PostSales;
        OtherTabMirrors(s.Tab(other), leads, id, Mark(push), other);
      } else {
        OtherTabMirrors(s.pre, leads, id, Skipped, PreSales);
        OtherTabMirrors(s.post, leads, id, Skipped, PostSales);
      }
    }
  }

  // ------------------------------------------------------------------
  // What happens to leads in between
  // ------------------------------------------------------------------

  lemma CreateKeepsMirror(s: Sheet, leads: seq<Lead>, lead: Lead)
    requires Mirrors(s, leads) && !lead.sync.Synced?
    ensures Mirrors(s, leads + [lead])
  {
    forall kind | kind == PreSales || kind == PostSales
      ensures TabMirrors(s.Tab(kind), kind, leads + [lead])
    {
      assert TabMirrors(s.Tab(kind), kind, leads);
    }
    assert TabMirrors(s.Tab(PreSales), PreSales, leads + [lead]);
    assert TabMirrors(s.Tab(PostSales), PostSales, leads + [lead]);
  }

  /** A row that leaves the synced state may change in any way but its kind. */
  lemma ChangeKeepsMirror(s: Sheet, leads: seq<Lead>, id: nat, lead: Lead)
    requires 1 <= id <= |leads| && Mirrors(s, leads) && !lead.sync.Synced? && lead.kind == leads[id - 1].kind
    ensures Mirrors(s, leads[id - 1 := lead])
  {
    var after := leads[id - 1 := lead];
    forall kind | kind == PreSales || kind == PostSales
      ensures TabMirrors(s.Tab(kind), kind, after)
    {
      assert TabMirrors(s.Tab(kind), kind, leads);
    }
    assert TabMirrors(s.Tab(PreSales), PreSales, after) && TabMirrors(s.Tab(PostSales), PostSales, after);
  }

  /** Syncing a lead again with nothing failing leaves a mirror's rows and the table as they are. */
  lemma SyncAgainChangesNothing(s: Sheet, leads: seq<Lead>, id: nat)
    requires 1 <= id <= |leads| && Mirrors(s, leads) && leads[id - 1].sync.Synced?
    requires var kind := leads[id - 1].kind; kind in s.checked || s.Tab(kind)[0] == Header(ColumnsFor(kind))
    ensures var (t, now) := SyncedOne(s, leads, id, Some(FINE));
      t.pre == s.pre && t.post == s.post && now == leads
  {
    var lead := leads[id - 1];
    var rows, row := s.Tab(lead.kind), AsRow(id, lead);
    assert row in rows;
    var j :| 0 <= j < |rows| && rows[j] == row;
    assert forall i :: 0 <= i < j ==> !IsRowOf(rows[i], id);
    FirstRowIsUnique(rows, id, j);
    UpsertedLeads(rows, row, row);
    assert HeadedTab(s, lead.kind, true) == rows;
  }

  // ------------------------------------------------------------------
  // Retries
  // ------------------------------------------------------------------

  /** Each of these leads synced in turn. */
  function Retried(s: Sheet, leads: seq<Lead>, ids: seq<nat>, pushes: nat -> Option<Attempt>): (Sheet, seq<Lead>) {
    if ids == [] then (s, leads)
    else
      var last := ids[|ids| - 1];
      var (t, now) := Retried(s, leads, ids[..|ids| - 1], pushes);
      SyncedOne(t, now, last, pushes(last))
  }

  /** How many of these pushes arrive. */
  function Arrived(ids: seq<nat>, pushes: nat -> Option<Attempt>): nat {
    if ids == [] then 0
    else
      Arrived(ids[..|ids| - 1], pushes) + if Mark(pushes(ids[|ids| - 1])).Synced? then 1 else 0
  }

  lemma RetriedOneMore(s: Sheet, leads: seq<Lead>, ids: seq<nat>, i: nat, pushes: nat -> Option<Attempt>)
    requires i < |ids|
    ensures var (t, now) := Retried(s, leads, ids[..i], pushes);
      Retried(s, leads, ids[..i + 1], pushes) == SyncedOne(t, now, ids[i], pushes(ids[i]))
    ensures Arrived(ids[..i + 1], pushes) == Arrived(ids[..i], pushes) + if Mark(pushes(ids[i])).Synced? then 1 else 0
  {
    assert ids[..i + 1][..i] == ids[..i];
  }

  lemma {:induction false} RetriedKeepsCount(s: Sheet, leads: seq<Lead>, ids: seq<nat>, pushes: nat -> Option<Attempt>)
    ensures |Retried(s, leads, ids, pushes).1| == |leads|
  {
    if ids != [] {
      RetriedKeepsCount(s, leads, ids[..|ids| - 1], pushes);
    }
  }

  /** A retry marks exactly its leads, each by how its push went. */
  lemma {:induction false} RetriedMarks(s: Sheet, leads: seq<Lead>, ids: seq<nat>, pushes: nat -> Option<Attempt>,
                                        k: nat)
    requires k < |leads|
    ensures |Retried(s, leads, ids, pushes).1| == |leads|
    ensures Retried(s, leads, ids, pushes).1[k]
         == if k + 1 in ids then leads[k].(sync := Mark(pushes(k + 1))) else leads[k]
  {
    RetriedKeepsCount(s, leads, ids, pushes);
    if ids != [] {
      var before, last := ids[..|ids| - 1], ids[|ids| - 1];
      RetriedMarks(s, leads, before, pushes, k);
      assert k + 1 in ids <==> k + 1 in before || k + 1 == last by {
        assert ids == before + [last];
      }
      SyncedOneMarks(Retried(s, leads, before, pushes).0, Retried(s, leads, before, pushes).1, last, pushes(last), k);
    }
  }

  lemma SyncedOneMarks(s: Sheet, leads: seq<Lead>, id: nat, push: Option<Attempt>, k: nat)
    requires k < |leads|
    ensures |SyncedOne(s, leads, id, push).1| == |leads|
    ensures SyncedOne(s, leads, id, push).1[k]
         == if k + 1 == id then leads[k].(sync := Mark(push)) else leads[k]
  {
  }

  lemma {:induction false} AwaitingIsExact(rows: seq<Lead>, n: nat, limit: nat)
    requires n <= |rows|
    ensures var ids := AwaitingAmong(rows, n, limit);
      && |ids| <= limit
      && (forall id :: id in ids ==> 1 <= id <= n && AwaitsSync(rows[id - 1]))
      && (|ids| < limit ==> forall k :: 0 <= k < n && AwaitsSync(rows[k]) ==> k + 1 in ids)
  {
    if n != 0 {
      AwaitingIsExact(rows, n - 1, limit);
    }
  }

  predicate Rising(ids: seq<nat>, n: nat) {
    && (forall i, j :: 0 <= i < j < |ids| ==> ids[i] < ids[j])
    && (forall i :: 0 <= i < |ids| ==> ids[i] <= n)
  }

  lemma {:induction false} AwaitingIsRising(rows: seq<Lead>, n: nat, limit: nat)
    requires n <= |rows|
    ensures Rising(AwaitingAmong(rows, n, limit), n)
  {
    if n != 0 {
      AwaitingIsRising(rows, n - 1, limit);
    }
  }

  lemma {:induction false} SameAwaiting(rows: seq<Lead>, others: seq<Lead>, n: nat, limit: nat)
    requires n <= |rows| && n <= |others|
    requires forall k :: 0 <= k < n ==> (AwaitsSync(rows[k]) <==> AwaitsSync(others[k]))
    ensures AwaitingAmong(rows, n, limit) == AwaitingAmong(others, n, limit)
  {
    if n != 0 {
      SameAwaiting(rows, others, n - 1, limit);
    }
  }

  // ------------------------------------------------------------------
  // Retrying twice
  // ------------------------------------------------------------------

  /** This push, made once, can be made again without changing anything. */
  predicate Repeatable(push: Option<Attempt>) {
    push.Some? && push.value.Lands().LostAfterWriting? ==> push.value.column
  }

  predicate AllRepeatable(ids: seq<nat>, pushes: nat -> Option<Attempt>) {
    forall id :: id in ids ==> Repeatable(pushes(id))
  }

  /** What a push left: the tab's header seen to, the row written when it was, the lead marked. */
  ghost predicate WasPushed(s: Sheet, leads: seq<Lead>, id: nat, push: Option<Attempt>) {
    1 <= id <= |leads| ==>
      var lead := leads[id - 1];
      && lead.sync == Mark(push)
      && (push.Some? && push.value.started ==> lead.kind in s.checked)
      && (push.Some? && !push.value.Lands().FailedBefore? && push.value.column ==>
            Leads(s.Tab(lead.kind), AsRow(id, lead)))
  }

  lemma PushLeavesItsMark(s: Sheet, leads: seq<Lead>, id: nat, push: Option<Attempt>)
    ensures var (t, now) := SyncedOne(s, leads, id, push); WasPushed(t, now, id, push)
  {
    if 1 <= id <= |leads| && push.Some? {
      var lead, a := leads[id - 1], push.value;
      MarkIsNotInTheRow(id, lead, Mark(push));
      if !a.Lands().FailedBefore? && a.column {
        UpsertedLeads(HeadedTab(s, lead.kind, a.header), AsRow(id, lead), AsRow(id, lead));
      }
    }
  }

  /** The push of another lead takes nothing of that away: the header is not written again. */
  lemma OtherPushLeavesIt(s: Sheet, leads: seq<Lead>, id: nat, push: Option<Attempt>, other: nat, its: Option<Attempt>)
    requires other != id && WasPushed(s, leads, id, push)
    ensures var (t, now) := SyncedOne(s, leads, other, its); WasPushed(t, now, id, push)
  {
    if 1 <= id <= |leads| && 1 <= other <= |leads| && its.Some? {
      UpsertedLeads(s.Tab(leads[id - 1].kind), AsRow(id, leads[id - 1]), AsRow(other, leads[other - 1]));
    }
  }

  lemma {:induction false} RetriedWerePushed(s: Sheet, leads: seq<Lead>, ids: seq<nat>,
                                             pushes: nat -> Option<Attempt>, id: nat)
    requires id in ids && forall i, j :: 0 <= i < j < |ids| ==> ids[i] != ids[j]
    ensures var (t, now) := Retried(s, leads, ids, pushes); WasPushed(t, now, id, pushes(id))
  {
    var before, last := ids[..|ids| - 1], ids[|ids| - 1];
    var (t, now) := Retried(s, leads, before, pushes);
    if id == last {
      PushLeavesItsMark(t, now, last, pushes(last));
    } else {
      RetriedWerePushed(s, leads, before, pushes, id);
      OtherPushLeavesIt(t, now, id, pushes(id), last, pushes(last));
    }
  }

  /** Repeating a push changes nothing exactly when it is repeatable: a row that was written and
  reported lost is appended again when the column cannot be read. */
  lemma RepeatedPush(s: Sheet, leads: seq<Lead>, id: nat, push: Option<Attempt>)
    requires 1 <= id <= |leads| && WasPushed(s, leads, id, push) && !Mark(push).Synced?
    ensures SyncedOne(s, leads, id, push) == (s, leads) <==> Repeatable(push)
    ensures SyncedOne(s, leads, id, push).1 == leads
    ensures var t := SyncedOne(s, leads, id, push).0;
      |s.pre| <= |t.pre| && |s.post| <= |t.post| && (!Repeatable(push) ==> |s.pre| + |s.post| < |t.pre| + |t.post|)
  {
    var lead := leads[id - 1];
    assert leads[id - 1 := lead.(sync := Mark(push))] == leads;
    if push.Some? {
      var a, rows := push.value, s.Tab(lead.kind);
      if !a.started {
        return;
      }
      assert HeadedTab(s, lead.kind, a.header) == rows && s.checked + {lead.kind} == s.checked;
      UpsertedLeads(rows, AsRow(id, lead), AsRow(id, lead));
      assert s.WithTab(lead.kind, rows).(checked := s.checked) == s;
    }
  }

  lemma {:induction false} RepeatedPushes(s: Sheet, leads: seq<Lead>, ids: seq<nat>, pushes: nat -> Option<Attempt>)
    requires forall i, j :: 0 <= i < j < |ids| ==> ids[i] != ids[j]
    requires forall id :: id in ids ==>
      1 <= id <= |leads| && WasPushed(s, leads, id, pushes(id)) && !Mark(pushes(id)).Synced?
    ensures var (t, now) := Retried(s, leads, ids, pushes);
      && now == leads && |s.pre| <= |t.pre| && |s.post| <= |t.post|
      && (forall id :: WasPushed(s, leads, id, pushes(id)) && id !in ids ==> WasPushed(t, now, id, pushes(id)))
      && if AllRepeatable(ids, pushes) then t == s else |s.pre| + |s.post| < |t.pre| + |t.post|
  {
    if ids != [] {
      var before, last := ids[..|ids| - 1], ids[|ids| - 1];
      assert ids == before + [last];
      forall id | id in before
        ensures 1 <= id <= |leads| && WasPushed(s, leads, id, pushes(id)) && !Mark(pushes(id)).Synced?
      {
        assert id in ids;
      }
      RepeatedPushes(s, leads, before, pushes);
      var (t, now) := Retried(s, leads, before, pushes);
      assert last !in before && WasPushed(s, leads, last, pushes(last));
      RepeatedPush(t, now, last, pushes(last));
      forall id | WasPushed(s, leads, id, pushes(id)) && id !in ids
        ensures WasPushed(SyncedOne(t, now, last, pushes(last)).0, leads, id, pushes(id))
      {
        assert id !in before;
        OtherPushLeavesIt(t, now, id, pushes(id), last, pushes(last));
      }
      assert AllRepeatable(ids, pushes) <==> AllRepeatable(before, pushes) && Repeatable(pushes(last));
    }
  }

  function AsSet(ids: seq<nat>): set<nat> {
    set id | id in ids
  }

  lemma {:induction false} SetOfRising(ids: seq<nat>, n: nat)
    requires Rising(ids, n)
    ensures |AsSet(ids)| == |ids|
  {
    if ids != [] {
      var before, last := ids[..|ids| - 1], ids[|ids| - 1];
      SetOfRising(before, n);
      assert ids == before + [last];
      OneMoreInSet(before, last);
      assert last !in before by {
        forall i | 0 <= i < |before| ensures before[i] < last { assert ids[i] < ids[|ids| - 1]; }
      }
    }
  }

  lemma OneMoreInSet(ids: seq<nat>, id: nat)
    ensures AsSet(ids + [id]) == AsSet(ids) + {id}
  {
  }

  predicate AllIn(some: seq<nat>, all: seq<nat>) {
    forall id :: id in some ==> id in all
  }

  lemma Fewer(some: seq<nat>, all: seq<nat>, n: nat, id: nat)
    requires Rising(some, n) && Rising(all, n) && id in all && id !in some && AllIn(some, all)
    ensures |some| < |all|
  {
    SetOfRising(some, n);
    SetOfRising(all, n);
    var less, more := AsSet(some), AsSet(all);
    assert less <= more && id in more - less;
    assert |more - less| == |more| - |less| && |more - less| > 0;
  }

  predicate ReachesAll(leads: seq<Lead>, ids: seq<nat>) {
    forall k :: 0 <= k < |leads| && AwaitsSync(leads[k]) ==> k + 1 in ids
  }

  predicate SettlesNone(ids: seq<nat>, pushes: nat -> Option<Attempt>) {
    forall id :: id in ids ==> !Mark(pushes(id)).Synced?
  }

  /** What a second retry, made right after a first, looks at. */
  function Again(s: Sheet, leads: seq<Lead>, limit: nat, pushes: nat -> Option<Attempt>): seq<nat> {
    var now := Retried(s, leads, AwaitingAmong(leads, |leads|, limit), pushes).1;
    AwaitingAmong(now, |now|, limit)
  }

  /** Whoever a first retry did not settle is looked at again, unless the limit is used up by others. */
  lemma AgainIsExact(s: Sheet, leads: seq<Lead>, limit: nat, pushes: nat -> Option<Attempt>, id: nat)
    ensures var ids, again := AwaitingAmong(leads, |leads|, limit), Again(s, leads, limit, pushes);
      && (id in again ==> 1 <= id <= |leads| && AwaitsSync(leads[id - 1]) && (id in ids ==> !Mark(pushes(id)).Synced?))
      && (id in ids && id !in again && !Mark(pushes(id)).Synced? ==> |again| == limit)
      && (1 <= id <= |leads| && AwaitsSync(leads[id - 1]) && id !in ids && id !in again ==> |again| == limit)
  {
    var ids := AwaitingAmong(leads, |leads|, limit);
    AwaitingIsExact(leads, |leads|, limit);
    var now := Retried(s, leads, ids, pushes).1;
    RetriedKeepsCount(s, leads, ids, pushes);
    AwaitingIsExact(now, |now|, limit);
    if 1 <= id <= |leads| {
      RetriedMarks(s, leads, ids, pushes, id - 1);
    }
  }

  lemma BothRise(s: Sheet, leads: seq<Lead>, limit: nat, pushes: nat -> Option<Attempt>)
    ensures Rising(AwaitingAmong(leads, |leads|, limit), |leads|) && Rising(Again(s, leads, limit, pushes), |leads|)
    ensures |AwaitingAmong(leads, |leads|, limit)| <= limit
  {
    var ids := AwaitingAmong(leads, |leads|, limit);
    var now := Retried(s, leads, ids, pushes).1;
    RetriedKeepsCount(s, leads, ids, pushes);
    AwaitingIsRising(leads, |leads|, limit);
    AwaitingIsRising(now, |now|, limit);
    AwaitingIsExact(leads, |leads|, limit);
  }

  lemma SettlingNoneReachesTheSame(s: Sheet, leads: seq<Lead>, limit: nat, pushes: nat -> Option<Attempt>)
    requires SettlesNone(AwaitingAmong(leads, |leads|, limit), pushes)
    ensures Again(s, leads, limit, pushes) == AwaitingAmong(leads, |leads|, limit)
  {
    var ids := AwaitingAmong(leads, |leads|, limit);
    var now := Retried(s, leads, ids, pushes).1;
    RetriedKeepsCount(s, leads, ids, pushes);
    AwaitingIsExact(leads, |leads|, limit);
    forall k | 0 <= k < |leads| ensures AwaitsSync(now[k]) <==> AwaitsSync(leads[k]) {
      RetriedMarks(s, leads, ids, pushes, k);
      var id := k + 1;
      assert id in ids ==> AwaitsSync(leads[id - 1]);
    }
    SameAwaiting(now, leads, |leads|, limit);
  }

  lemma ReachingAllReachesNoOther(s: Sheet, leads: seq<Lead>, limit: nat, pushes: nat -> Option<Attempt>)
    requires ReachesAll(leads, AwaitingAmong(leads, |leads|, limit))
    ensures AllIn(Again(s, leads, limit, pushes), AwaitingAmong(leads, |leads|, limit))
  {
    forall id | id in Again(s, leads, limit, pushes)
      ensures id in AwaitingAmong(leads, |leads|, limit)
    {
      AgainIsExact(s, leads, limit, pushes, id);
      assert id - 1 + 1 == id;
    }
  }

  lemma MissedIsReached(
      s: Sheet, leads: seq<Lead>, limit: nat, pushes: nat -> Option<Attempt>, missed: nat, settled: nat)
    requires var ids := AwaitingAmong(leads, |leads|, limit);
      && 1 <= missed <= |leads| && AwaitsSync(leads[missed - 1]) && missed !in ids
      && settled in ids && Mark(pushes(settled)).Synced?
    ensures !AllIn(Again(s, leads, limit, pushes), AwaitingAmong(leads, |leads|, limit))
  {
    var ids, again := AwaitingAmong(leads, |leads|, limit), Again(s, leads, limit, pushes);
    if AllIn(again, ids) {
      AgainIsExact(s, leads, limit, pushes, missed);
      AgainIsExact(s, leads, limit, pushes, settled);
      BothRise(s, leads, limit, pushes);
      Fewer(again, ids, |leads|, settled);
    }
  }

  /** A second retry reaches no lead that the first did not, exactly when the first had reached
  every lead or settled none. */
  lemma AgainReachesNoOther(s: Sheet, leads: seq<Lead>, limit: nat, pushes: nat -> Option<Attempt>)
    ensures var ids := AwaitingAmong(leads, |leads|, limit);
      AllIn(Again(s, leads, limit, pushes), ids) <==> ReachesAll(leads, ids) || SettlesNone(ids, pushes)
  {
    var ids := AwaitingAmong(leads, |leads|, limit);
    if SettlesNone(ids, pushes) {
      SettlingNoneReachesTheSame(s, leads, limit, pushes);
    } else if ReachesAll(leads, ids) {
      ReachingAllReachesNoOther(s, leads, limit, pushes);
    } else {
      var k :| 0 <= k < |leads| && AwaitsSync(leads[k]) && k + 1 !in ids;
      var settled :| settled in ids && Mark(pushes(settled)).Synced?;
      MissedIsReached(s, leads, limit, pushes, k + 1, settled);
    }
  }

  lemma AgainWerePushed(s: Sheet, leads: seq<Lead>, limit: nat, pushes: nat -> Option<Attempt>, id: nat)
    requires id in Again(s, leads, limit, pushes) && id in AwaitingAmong(leads, |leads|, limit)
    ensures var (t, now) := Retried(s, leads, AwaitingAmong(leads, |leads|, limit), pushes);
      1 <= id <= |now| && WasPushed(t, now, id, pushes(id)) && !Mark(pushes(id)).Synced?
  {
    var ids := AwaitingAmong(leads, |leads|, limit);
    RetriedKeepsCount(s, leads, ids, pushes);
    BothRise(s, leads, limit, pushes);
    AgainIsExact(s, leads, limit, pushes, id);
    RetriedWerePushed(s, leads, ids, pushes, id);
  }

  lemma UnrepeatableIsLookedAt(
      s: Sheet, leads: seq<Lead>, limit: nat, pushes: nat -> Option<Attempt>, id: nat)
    requires AllIn(Again(s, leads, limit, pushes), AwaitingAmong(leads, |leads|, limit))
    requires id in AwaitingAmong(leads, |leads|, limit) && !Repeatable(pushes(id))
    ensures id in Again(s, leads, limit, pushes)
  {
    var ids, again := AwaitingAmong(leads, |leads|, limit), Again(s, leads, limit, pushes);
    BothRise(s, leads, limit, pushes);
    if id !in again {
      AgainIsExact(s, leads, limit, pushes, id);
      Fewer(again, ids, |leads|, id);
    }
  }

  lemma SameRepeatable(s: Sheet, leads: seq<Lead>, limit: nat, pushes: nat -> Option<Attempt>)
    requires AllIn(Again(s, leads, limit, pushes), AwaitingAmong(leads, |leads|, limit))
    ensures AllRepeatable(AwaitingAmong(leads, |leads|, limit), pushes)
       <==> AllRepeatable(Again(s, leads, limit, pushes), pushes)
  {
    var ids, again := AwaitingAmong(leads, |leads|, limit), Again(s, leads, limit, pushes);
    forall id | id in ids && !Repeatable(pushes(id)) ensures id in again {
      UnrepeatableIsLookedAt(s, leads, limit, pushes, id);
    }
  }

  /** Repeating a retry that reaches no other lead, with every push going as before, changes
  nothing exactly when every push was repeatable. */
  lemma SecondRetry(s: Sheet, leads: seq<Lead>, limit: nat, pushes: nat -> Option<Attempt>)
    requires AllIn(Again(s, leads, limit, pushes), AwaitingAmong(leads, |leads|, limit))
    ensures var ids := AwaitingAmong(leads, |leads|, limit);
      var (t, now) := Retried(s, leads, ids, pushes);
      Retried(t, now, Again(s, leads, limit, pushes), pushes) == (t, now) <==> AllRepeatable(ids, pushes)
  {
    var again := Again(s, leads, limit, pushes);
    var (t, now) := Retried(s, leads, AwaitingAmong(leads, |leads|, limit), pushes);
    BothRise(s, leads, limit, pushes);
    forall id | id in again
      ensures 1 <= id <= |now| && WasPushed(t, now, id, pushes(id)) && !Mark(pushes(id)).Synced?
    {
      AgainWerePushed(s, leads, limit, pushes, id);
    }
    RepeatedPushes(t, now, again, pushes);
    SameRepeatable(s, leads, limit, pushes);
  }

  /** Repeating a retry that had room for every lead changes nothing, however each push went,
  unless a row was written behind an unreadable column and reported lost. */
  lemma RetryIsIdempotent(s: Sheet, leads: seq<Lead>, limit: nat, pushes: nat -> Option<Attempt>)
    requires |AwaitingAmong(leads, |leads|, limit)| < limit
    ensures var ids := AwaitingAmong(leads, |leads|, limit);
      var (t, now) := Retried(s, leads, ids, pushes);
      Retried(t, now, AwaitingAmong(now, |now|, limit), pushes) == (t, now) <==> AllRepeatable(ids, pushes)
  {
    AwaitingIsExact(leads, |leads|, limit);
    AgainReachesNoOther(s, leads, limit, pushes);
    SecondRetry(s, leads, limit, pushes);
  }

  /** When every push arrives, the next retry finds nothing to do. */
  lemma CompleteRetryLeavesNothing(s: Sheet, leads: seq<Lead>, limit: nat, pushes: nat -> Option<Attempt>)
    requires |AwaitingAmong(leads, |leads|, limit)| < limit
    requires forall id :: id in AwaitingAmong(leads, |leads|, limit) ==> Mark(pushes(id)).Synced?
    ensures Again(s, leads, limit, pushes) == []
  {
    AwaitingIsExact(leads, |leads|, limit);
    ReachingAllReachesNoOther(s, leads, limit, pushes);
    if Again(s, leads, limit, pushes) != [] {
      AgainIsExact(s, leads, limit, pushes, Again(s, leads, limit, pushes)[0]);
    }
  }

  // ------------------------------------------------------------------
  // Whole runs
  // ------------------------------------------------------------------

  /** A retry is no event of its own: it is its syncs. */
  datatype Event =
    | Create(lead: Lead)
    | Move(id: nat, at: Moment, raw: Option<string>)
    | Sync(id: nat, push: Option<Attempt>)
    | Restart

  function Step(s: Sheet, leads: seq<Lead>, e: Event): (Sheet, seq<Lead>) {
    match e
    case Create(lead) => (s, leads + [lead.(sync := Pending)])
    case Move(id, at, raw) =>
      if 1 <= id <= |leads| then (s, leads[id - 1 := Funnel.MovedLead(leads[id - 1], at, raw)]) else (s, leads)
    case Sync(id, push) => SyncedOne(s, leads, id, push)
    case Restart => (s.(checked := {}), leads)
  }

  function RunFrom(s: Sheet, leads: seq<Lead>, events: seq<Event>): (Sheet, seq<Lead>) {
    if events == [] then (s, leads)
    else
      var (t, now) := RunFrom(s, leads, events[..|events| - 1]);
      Step(t, now, events[|events| - 1])
  }

  function Run(events: seq<Event>): (Sheet, seq<Lead>) {
    RunFrom(EMPTY_SHEET, [], events)
  }

  function Syncs(ids: seq<nat>, pushes: nat -> Option<Attempt>): seq<Event> {
    seq(|ids|, i requires 0 <= i < |ids| => Sync(ids[i], pushes(ids[i])))
  }

  lemma {:induction false} RetryIsItsSyncs(s: Sheet, leads: seq<Lead>, ids: seq<nat>, pushes: nat -> Option<Attempt>)
    ensures Retried(s, leads, ids, pushes) == RunFrom(s, leads, Syncs(ids, pushes))
  {
    if ids != [] {
      RetryIsItsSyncs(s, leads, ids[..|ids| - 1], pushes);
      assert Syncs(ids, pushes)[..|ids| - 1] == Syncs(ids[..|ids| - 1], pushes);
    }
  }

  /** The sheet mirrors the table at every moment of the run. */
  ghost predicate AlwaysMirrors(events: seq<Event>) {
    Mirrors(Run(events).0, Run(events).1) && (events == [] || AlwaysMirrors(events[..|events| - 1]))
  }

  /** Every sync of the run was harmless when it was made. */
  predicate AllHarmless(events: seq<Event>) {
    events == [] ||
    var before, e := events[..|events| - 1], events[|events| - 1];
    AllHarmless(before) && (e.Sync? ==> Harmless(Run(before).0, Run(before).1, e.id, e.push))
  }

  lemma OtherEventKeepsMirror(s: Sheet, leads: seq<Lead>, e: Event)
    requires Mirrors(s, leads) && !e.Sync?
    ensures Mirrors(Step(s, leads, e).0, Step(s, leads, e).1)
  {
    match e
    case Create(lead) => CreateKeepsMirror(s, leads, lead.(sync := Pending));
    case Move(id, at, raw) =>
      if 1 <= id <= |leads| { ChangeKeepsMirror(s, leads, id, Funnel.MovedLead(leads[id - 1], at, raw)); }
    case Restart =>
  }

  /** Over any run of bookings, moves, syncs and restarts, with every request failing as it may:
  there is one row for each lead on each tab, each lead only on its own kind's tab, and every
  synced lead's row equal to its fields, at every moment exactly when every sync was harmless. */
  lemma {:induction false} SheetMirrorsLeads(events: seq<Event>)
    ensures AlwaysMirrors(events) <==> AllHarmless(events)
  {
    if events != [] {
      var before, e := events[..|events| - 1], events[|events| - 1];
      SheetMirrorsLeads(before);
      if AlwaysMirrors(before) {
        var (s, leads) := Run(before);
        if e.Sync? {
          SyncKeepsMirrorExactlyWhen(s, leads, e.id, e.push);
        } else {
          OtherEventKeepsMirror(s, leads, e);
        }
      }
    }
  }

  /** Headers could be written and columns read whenever a push was started. */
  predicate Reliable(events: seq<Event>) {
    forall k :: 0 <= k < |events| && events[k].Sync? && events[k].push.Some? && events[k].push.value.started ==>
      events[k].push.value.header && events[k].push.value.column
  }

  predicate UnderHeader(s: Sheet, kind: LeadType) {
    if kind in s.checked || s.Tab(kind) != [] then s.Tab(kind) != [] && s.Tab(kind)[0] == Header(ColumnsFor(kind))
    else true
  }

  /** With reliable headers and columns the mirror never fails, and every tab starts with its header. */
  lemma {:induction false} ReliableRunsMirror(events: seq<Event>)
    requires Reliable(events)
    ensures AllHarmless(events) && AlwaysMirrors(events)
    ensures UnderHeader(Run(events).0, PreSales) && UnderHeader(Run(events).0, PostSales)
  {
    if events != [] {
      var before, e := events[..|events| - 1], events[|events| - 1];
      ReliableRunsMirror(before);
      assert e == events[|events| - 1];
      if e.Sync? {
        ReliableSyncKeepsHeader(Run(before).0, Run(before).1, e.id, e.push);
      }
    }
    SheetMirrorsLeads(events);
  }

  lemma ReliableSyncKeepsHeader(s: Sheet, leads: seq<Lead>, id: nat, push: Option<Attempt>)
    requires UnderHeader(s, PreSales) && UnderHeader(s, PostSales)
    requires push.Some? && push.value.started ==> push.value.header && push.value.column
    ensures Harmless(s, leads, id, push)
    ensures var t := SyncedOne(s, leads, id, push).0; UnderHeader(t, PreSales) && UnderHeader(t, PostSales)
  {
  }

  // ------------------------------------------------------------------
  // Reading the sheet
  // ------------------------------------------------------------------

  /** What a reader finds in this row under this heading. */
  function CellUnder(columns: seq<Column>, cells: seq<Cell>, heading: Column): Option<Cell> {
    if columns == [] || cells == [] then None
    else if columns[0] == heading then Some(cells[0])
    else CellUnder(columns[1..], cells[1..], heading)
  }

  lemma {:induction false} CellUnderAt(columns: seq<Column>, cells: seq<Cell>, k: nat)
    requires k < |columns| == |cells| && forall j :: 0 <= j < k ==> columns[j] != columns[k]
    ensures CellUnder(columns, cells, columns[k]) == Some(cells[k])
  {
    if k > 0 {
      CellUnderAt(columns[1..], cells[1..], k - 1);
    }
  }

  lemma {:induction false} NoCellUnder(columns: seq<Column>, cells: seq<Cell>, heading: Column)
    requires heading !in columns
    ensures CellUnder(columns, cells, heading) == None
  {
    if columns != [] && cells != [] {
      NoCellUnder(columns[1..], cells[1..], heading);
    }
  }

  predicate ShowsWords(columns: seq<Column>, cells: seq<Cell>, heading: Column, text: string) {
    CellUnder(columns, cells, heading) == Some(Words(text))
  }

  /** Identifier and status, the number the lead came from and the one to ring, and the name. */
  predicate ShowsContact(columns: seq<Column>, cells: seq<Cell>, id: nat, lead: Lead) {
    && CellUnder(columns, cells, LeadId) == Some(Number(id))
    && CellUnder(columns, cells, Status) == Some(Tag(lead.status))
    && ShowsWords(columns, cells, WhatsApp, lead.phone)
    && ShowsWords(columns, cells, Phone, lead.contactPhone)
    && ShowsWords(columns, cells, Name, if lead.name.Some? then lead.name.value else "")
  }

  /** The agreed day and minute. */
  predicate ShowsTime(columns: seq<Column>, cells: seq<Cell>, lead: Lead) {
    var day, time := CellUnder(columns, cells, CallbackDate), CellUnder(columns, cells, CallbackTime);
    if lead.preferredTime.None? then day == Some(OnDay(None)) && time == Some(NoTime)
    else
      && day.Some? && day.value.OnDay? && day.value.date.Some? && IsDate(day.value.date.value)
      && time.Some? && time.value.AtTime?
      && ToOrdinal(day.value.date.value) == lead.preferredTime.value.day
      && Hours(time.value.hour) + Minutes(time.value.minute) == WholeMinute(lead.preferredTime.value.us)
  }

  /** That, the words it was asked for in, and the note. */
  predicate ShowsCall(columns: seq<Column>, cells: seq<Cell>, lead: Lead) {
    && ShowsTime(columns, cells, lead)
    && ShowsWords(columns, cells, CallbackAsked,
                  if lead.preferredTimeRaw.Some? then lead.preferredTimeRaw.value else "")
    && ShowsWords(columns, cells, Remarks, if lead.remarks.Some? then lead.remarks.value else "")
  }

  /** What only the one team's tab has. */
  predicate ShowsKind(columns: seq<Column>, cells: seq<Cell>, lead: Lead) {
    match lead.kind
    case PreSales =>
      && ShowsWords(columns, cells, Profession, if lead.profession.Some? then lead.profession.value else "")
      && CellUnder(columns, cells, Email).None? && CellUnder(columns, cells, EnrolledCourse).None?
      && CellUnder(columns, cells, IssueType).None?
    case PostSales =>
      && ShowsWords(columns, cells, Email, if lead.email.Some? then lead.email.value else "")
      && ShowsWords(columns, cells, EnrolledCourse, if lead.enrolledCourse.Some? then lead.enrolledCourse.value else "")
      && CellUnder(columns, cells, IssueType) == Some(About(lead.issue))
      && CellUnder(columns, cells, Profession).None?
  }

  predicate Shows(columns: seq<Column>, cells: seq<Cell>, id: nat, lead: Lead) {
    ShowsContact(columns, cells, id, lead) && ShowsCall(columns, cells, lead) && ShowsKind(columns, cells, lead)
  }

  lemma CellOfHeading(id: nat, lead: Lead, k: nat)
    requires k < |ColumnsFor(lead.kind)|
    ensures var columns := ColumnsFor(lead.kind);
      CellUnder(columns, AsRow(id, lead).cells, columns[k]) == Some(ValueOf(id, lead, columns[k]))
  {
    var columns := ColumnsFor(lead.kind);
    assert forall i, j :: 0 <= i < j < |columns| ==> columns[i] != columns[j];
    CellUnderAt(columns, AsRow(id, lead).cells, k);
  }

  lemma RowShowsContact(id: nat, lead: Lead)
    ensures ShowsContact(ColumnsFor(lead.kind), AsRow(id, lead).cells, id, lead)
  {
    var columns := ColumnsFor(lead.kind);
    for k := 0 to 4
      invariant forall j :: 0 <= j < k ==>
        CellUnder(columns, AsRow(id, lead).cells, columns[j]) == Some(ValueOf(id, lead, columns[j]))
    {
      CellOfHeading(id, lead, k);
    }
    CellOfHeading(id, lead, |columns| - 1);
    assert columns[0] == LeadId && columns[1] == WhatsApp && columns[2] == Phone && columns[3] == Name;
    assert columns[|columns| - 1] == Status;
  }

  lemma RowShowsTime(id: nat, lead: Lead)
    ensures ShowsTime(ColumnsFor(lead.kind), AsRow(id, lead).cells, lead)
  {
    var columns := ColumnsFor(lead.kind);
    var n := |columns|;
    assert columns[n - 5] == CallbackDate && columns[n - 4] == CallbackTime;
    CellOfHeading(id, lead, n - 5);
    CellOfHeading(id, lead, n - 4);
  }

  lemma RowShowsCall(id: nat, lead: Lead)
    ensures ShowsCall(ColumnsFor(lead.kind), AsRow(id, lead).cells, lead)
  {
    var columns := ColumnsFor(lead.kind);
    var n := |columns|;
    assert columns[n - 3] == CallbackAsked && columns[n - 2] == Remarks;
    RowShowsTime(id, lead);
    CellOfHeading(id, lead, n - 3);
    CellOfHeading(id, lead, n - 2);
  }

  lemma RowShowsKind(id: nat, lead: Lead)
    ensures ShowsKind(ColumnsFor(lead.kind), AsRow(id, lead).cells, lead)
  {
    var columns, cells := ColumnsFor(lead.kind), AsRow(id, lead).cells;
    CellOfHeading(id, lead, 4);
    match lead.kind
    case PreSales =>
      assert columns[4] == Profession;
      NoCellUnder(columns, cells, Email);
      NoCellUnder(columns, cells, EnrolledCourse);
      NoCellUnder(columns, cells, IssueType);
    case PostSales =>
      assert columns[4] == Email && columns[5] == EnrolledCourse && columns[6] == IssueType;
      CellOfHeading(id, lead, 5);
      CellOfHeading(id, lead, 6);
      NoCellUnder(columns, cells, Profession);
  }

  lemma RowShowsLead(id: nat, lead: Lead)
    ensures Shows(ColumnsFor(lead.kind), AsRow(id, lead).cells, id, lead)
  {
    RowShowsContact(id, lead);
    RowShowsCall(id, lead);
    RowShowsKind(id, lead);
  }

  /** A push that writes leaves, on the tab of the lead's team, a row of the lead in which each
  heading of that team has the field it names; and a header that was seen to has those headings. */
  lemma WrittenRowReadsBack(s: Sheet, leads: seq<Lead>, id: nat, a: Attempt) returns (k: nat)
    requires 1 <= id <= |leads| && !a.Lands().FailedBefore?
    ensures var lead := leads[id - 1];
      var t := SyncedOne(s, leads, id, Some(a)).0;
      var rows := if lead.kind.PostSales? then t.post else t.pre;
      && k < |rows| && IsRowOf(rows[k], id) && Shows(ColumnsFor(lead.kind), rows[k].cells, id, lead)
      && (lead.kind !in s.checked && a.header ==> k > 0 && rows[0] == Header(ColumnsFor(lead.kind)))
  {
    var lead := leads[id - 1];
    var headed := HeadedTab(s, lead.kind, a.header);
    k := if a.column then FindRow(headed, id) else |headed|;
    RowShowsLead(id, lead);
  }

  /** While requests for headers and columns work, whoever looks up a synced lead under the headings
  of its team's tab finds every field as the lead table has it. */
  lemma SyncedLeadsReadBack(events: seq<Event>, id: nat) returns (k: nat)
    requires Reliable(events) && 1 <= id <= |Run(events).1| && Run(events).1[id - 1].sync.Synced?
    ensures var (s, leads) := Run(events);
      var rows := if leads[id - 1].kind.PostSales? then s.post else s.pre;
      && 0 < k < |rows| && rows[0].Header? && IsRowOf(rows[k], id)
      && Shows(rows[0].columns, rows[k].cells, id, leads[id - 1])
  {
    ReliableRunsMirror(events);
    var (s, leads) := Run(events);
    var lead := leads[id - 1];
    var rows := s.Tab(lead.kind);
    assert TabMirrors(rows, lead.kind, leads);
    assert AsRow(id - 1 + 1, lead) in rows;
    k :| 0 <= k < |rows| && rows[k] == AsRow(id, lead);
    RowShowsLead(id, lead);
  }

  // ------------------------------------------------------------------
  // What happens otherwise
  // ------------------------------------------------------------------

  lemma RunOneMore(events: seq<Event>, s: Sheet, leads: seq<Lead>, e: Event) returns (more: seq<Event>)
    requires Run(events) == (s, leads)
    ensures more == events + [e] && Run(more) == Step(s, leads, e)
  {
    more := events + [e];
    assert more[..|more| - 1] == events;
  }

  /** The first push of all, to the tab of new customers. */
  lemma FirstPush(lead: Lead, header: bool)
    requires lead.kind.PreSales?
    ensures var pre := (if header then [Header(PRE_SALES_COLUMNS)] else []) + [AsRow(1, lead)];
      SyncedOne(EMPTY_SHEET, [lead], 1, Some(FINE.(header := header)))
      == (Sheet(pre, [], {PreSales}), [lead.(sync := Synced)])
  {
    var headed := if header then [Header(PRE_SALES_COLUMNS)] else [];
    assert HeadedTab(EMPTY_SHEET, PreSales, header) == headed;
    assert FindRow(headed, 1) == |headed|;
    assert EMPTY_SHEET.checked + {PreSales} == {PreSales};
    assert [lead][0 := lead.(sync := Synced)] == [lead.(sync := Synced)];
    assert Written(headed, AsRow(1, lead), FINE.(header := header)) == headed + [AsRow(1, lead)];
  }

  /** The header cannot be written, a lead is appended in its place; the next process takes it for
  an outdated header and writes over it. The lead still counts as synced. */
  lemma HeaderFailureErasesALead(lead: Lead) returns (events: seq<Event>)
    requires lead.kind.PreSales? && lead.sync.Pending?
    ensures events == [Create(lead), Sync(1, Some(FINE.(header := false))), Restart, Create(lead), Sync(2, Some(FINE))]
    ensures var (s, leads) := Run(events);
      |leads| == 2 && leads[0].sync.Synced? && FindRow(s.pre, 1) == |s.pre| && !AlwaysMirrors(events)
  {
    var synced, row := lead.(sync := Synced), AsRow(1, lead);
    MarkIsNotInTheRow(1, lead, Synced);
    events := RunOneMore([], EMPTY_SHEET, [], Create(lead));
    assert [] + [lead.(sync := Pending)] == [lead];
    FirstPush(lead, false);
    events := RunOneMore(events, EMPTY_SHEET, [lead], Sync(1, Some(FINE.(header := false))));
    assert [] + [row] == [row];
    events := RunOneMore(events, Sheet([row], [], {PreSales}), [synced], Restart);
    var s := Sheet([row], [], {});
    events := RunOneMore(events, s, [synced], Create(lead));
    assert [synced] + [lead.(sync := Pending)] == [synced, lead];
    assert !HeaderSpares(s, [synced, lead], 2, FINE);
    var before := events;
    events := RunOneMore(events, s, [synced, lead], Sync(2, Some(FINE)));
    assert events[..|events| - 1] == before;
    SheetMirrorsLeads(events);
    assert HeadedTab(s, PreSales, true) == [Header(PRE_SALES_COLUMNS)];
    assert FindRow([Header(PRE_SALES_COLUMNS)], 2) == 1;
    assert Run(events).0.pre == [Header(PRE_SALES_COLUMNS), AsRow(2, lead)];
  }

  /** A booking is moved while the column cannot be read: its old time stays in the sheet beside
  the new one. */
  lemma UnreadableColumnLeavesOldTime(lead: Lead, at: Moment, raw: Option<string>) returns (events: seq<Event>)
    requires lead.kind.PreSales? && lead.sync.Pending?
    ensures events == [Create(lead), Sync(1, Some(FINE)), Move(1, at, raw), Sync(1, Some(FINE.(column := false)))]
    ensures var (s, leads) := Run(events);
      && s.pre == [Header(PRE_SALES_COLUMNS), AsRow(1, lead), AsRow(1, Funnel.MovedLead(lead, at, raw))]
      && !AlwaysMirrors(events)
  {
    var synced, moved := lead.(sync := Synced), Funnel.MovedLead(lead, at, raw);
    events := RunOneMore([], EMPTY_SHEET, [], Create(lead));
    assert [] + [lead.(sync := Pending)] == [lead];
    FirstPush(lead, true);
    events := RunOneMore(events, EMPTY_SHEET, [lead], Sync(1, Some(FINE)));
    var s := Sheet([Header(PRE_SALES_COLUMNS), AsRow(1, lead)], [], {PreSales});
    assert [Header(PRE_SALES_COLUMNS)] + [AsRow(1, lead)] == s.pre;
    events := RunOneMore(events, s, [synced], Move(1, at, raw));
    assert Funnel.MovedLead(synced, at, raw) == moved && [synced][0 := moved] == [moved];
    FirstRowIsUnique(s.pre, 1, 1);
    assert !ColumnSeen(s, [moved], 1, FINE.(column := false));
    var before := events;
    events := RunOneMore(events, s, [moved], Sync(1, Some(FINE.(column := false))));
    assert events[..|events| - 1] == before;
    SheetMirrorsLeads(events);
  }

  // ------------------------------------------------------------------
  // The services
  // ------------------------------------------------------------------

  class GoogleSheet {
    var pre: seq<SheetRow>
    var post: seq<SheetRow>
    var headersChecked: set<LeadType>

    constructor ()
      ensures Value() == EMPTY_SHEET
    {
      pre, post, headersChecked := [], [], {};
    }

    function Value(): Sheet
      reads this
    {
      Sheet(pre, post, headersChecked)
    }

    method SetTab(kind: LeadType, rows: seq<SheetRow>)
      modifies this`pre, this`post
      ensures Value() == old(Value()).WithTab(kind, rows)
    {
      if kind.PostSales? {
        post := rows;
      } else {
        pre := rows;
      }
    }

    /** A new process checks the headers again. */
    method StartAnew()
      modifies this`headersChecked
      ensures forall leads :: (Value(), leads) == Step(old(Value()), leads, Event.Restart)
    {
      headersChecked := {};
    }

    /** Write a missing header, rewrite a different one; once for each tab and process, and a
    failure to do so goes unnoticed. */
    method EnsureHeader(kind: LeadType, works: bool)
      modifies this
      ensures Value()
           == old(Value()).WithTab(kind, HeadedTab(old(Value()), kind, works)).(checked := old(headersChecked) + {kind})
    {
      var rows := Value().Tab(kind);
      if kind in headersChecked {
        assert headersChecked + {kind} == headersChecked;
        return;
      }
      if works {
        if rows == [] {
          SetTab(kind, [Header(ColumnsFor(kind))]);
        } else if rows[0] != Header(ColumnsFor(kind)) {
          SetTab(kind, rows[0 := Header(ColumnsFor(kind))]);
        } else {
          assert rows[0 := Header(ColumnsFor(kind))] == rows;
        }
      }
      headersChecked := headersChecked + {kind};
    }

    /** The first row of the lead; none when the column cannot be read. */
    method FindRowOf(kind: LeadType, id: nat, readable: bool) returns (k: Option<nat>)
      ensures var rows := Value().Tab(kind);
        k == if readable && FindRow(rows, id) < |rows| then Some(FindRow(rows, id)) else None
    {
      if !readable {
        return None;
      }
      var rows := Value().Tab(kind);
      for i := 0 to |rows|
        invariant forall j :: 0 <= j < i ==> !IsRowOf(rows[j], id)
      {
        if IsRowOf(rows[i], id) {
          FirstRowIsUnique(rows, id, i);
          return Some(i);
        }
      }
      k := None;
    }

    /** Push one lead; the failure may come before the row is written or after. */
    method PushLead(id: nat, lead: Lead, a: Attempt) returns (ok: bool)
      modifies this
      ensures ok == a.Lands().Delivered? && Value() == SyncedSheet(old(Value()), id, lead, a)
    {
      if !a.started {
        return false;
      }
      EnsureHeader(lead.kind, a.header);
      var rows := Value().Tab(lead.kind);
      if a.row.FailedBefore? {
        return false;
      }
      var row := AsRow(id, lead);
      var existing := FindRowOf(lead.kind, id, a.column);
      if existing.Some? {
        SetTab(lead.kind, rows[existing.value := row]);
      } else {
        SetTab(lead.kind, rows + [row]);
      }
      ok := a.row.Delivered?;
    }
  }

  /** Without a sheet to push to, no attempt is made. */
  function Made(enabled: bool, attempts: nat -> Attempt): nat -> Option<Attempt> {
    (id: nat) => if enabled then Some(attempts(id)) else None
  }

  class LeadSyncService {
    const leads: LeadRepository
    const sheet: GoogleSheet
    const enabled: bool

    constructor (leads: LeadRepository, sheet: GoogleSheet, enabled: bool)
      ensures this.leads == leads && this.sheet == sheet && this.enabled == enabled
    {
      this.leads, this.sheet, this.enabled := leads, sheet, enabled;
    }

    /** Push one lead and record how it went. */
    method SyncLead(id: nat, a: Attempt) returns (ok: bool)
      modifies leads, sheet
      ensures (sheet.Value(), leads.rows)
           == Step(old(sheet.Value()), old(leads.rows), Sync(id, if enabled then Some(a) else None))
      ensures ok <==> enabled && 1 <= id <= |old(leads.rows)| && a.Lands().Delivered?
    {
      if !(1 <= id <= |leads.rows|) {
        return false;
      }
      if !enabled {
        leads.MarkSync(id, Skipped);
        return false;
      }
      ok := sheet.PushLead(id, leads.rows[id - 1], a);
      leads.MarkSync(id, if ok then Synced else Failed);
    }

    /** Re-attempt every lead that has not reached the sheet yet. */
    method RetryPending(limit: nat, attempts: nat -> Attempt) returns (synced: nat)
      modifies leads, sheet
      ensures var ids := AwaitingAmong(old(leads.rows), |old(leads.rows)|, limit);
        && (sheet.Value(), leads.rows) == Retried(old(sheet.Value()), old(leads.rows), ids, Made(enabled, attempts))
        && synced == Arrived(ids, Made(enabled, attempts))
    {
      ghost var s, was, pushes := sheet.Value(), leads.rows, Made(enabled, attempts);
      var ids := leads.ListPendingSync(limit);
      AwaitingIsExact(was, |was|, limit);
      synced := 0;
      for i := 0 to |ids|
        invariant (sheet.Value(), leads.rows) == Retried(s, was, ids[..i], pushes)
        invariant synced == Arrived(ids[..i], pushes)
      {
        RetriedOneMore(s, was, ids, i, pushes);
        RetriedKeepsCount(s, was, ids[..i], pushes);
        assert ids[i] in ids;
        var ok := SyncLead(ids[i], attempts(ids[i]));
        if ok {
          synced := synced + 1;
        }
      }
      assert ids[..|ids|] == ids;
    }
  }
}
