/**
 * The admin dashboard's booking aggregation (src/admin/AdminDashboard.tsx):
 * normalising the joined mannequin of each booking, the headline figures
 * (bookings, verified bookings, revenue and average ticket), the per-date
 * timeline of the ten latest dates, and the status distribution.
 */
module Dashboard {
  import opened Wrappers

  const Pending := "pending"
  const Verified := "terverifikasi"
  const Cancelled := "batal"

  /** The joined `manekin` row; only its rental price is selected. */
  datatype Manekin = Manekin(hargaSewa: int)

  /** The join as it arrives: `null`, one object, or an array of objects. */
  datatype RawManekin = NullManekin | Single(m: Manekin) | Several(ms: seq<Manekin>)

  /** A booking as the query returns it. */
  datatype RawRow = RawRow(id: string, tanggalSewa: string, durasiSewa: int, status: string, manekin: RawManekin)

  /** A booking after normalisation (`Row`). */
  datatype Row = Row(id: string, tanggalSewa: string, durasiSewa: int, status: string, manekin: Option<Manekin>)

  /** An array join is replaced by its first element (nothing when the array is empty). */
  function Normalise(d: RawRow): (r: Row)
    ensures r.id == d.id && r.tanggalSewa == d.tanggalSewa && r.durasiSewa == d.durasiSewa && r.status == d.status
    ensures d.manekin.NullManekin? ==> r.manekin == None
    ensures d.manekin.Single? ==> r.manekin == Some(d.manekin.m)
    ensures d.manekin.Several? ==> r.manekin == if |d.manekin.ms| > 0 then Some(d.manekin.ms[0]) else None
  {
    var m := match d.manekin
      case NullManekin => None
      case Single(m) => Some(m)
      case Several(ms) => if |ms| > 0 then Some(ms[0]) else None;
    Row(d.id, d.tanggalSewa, d.durasiSewa, d.status, m)
  }

  /** `data.map(...)`: one normalised row per raw row, in order. */
  function NormaliseAll(data: seq<RawRow>): (rows: seq<Row>)
    ensures |rows| == |data|
    ensures forall i :: 0 <= i < |data| ==> rows[i] == Normalise(data[i])
  {
    seq(|data|, i requires 0 <= i < |data| => Normalise(data[i]))
  }

  // ----- Headline figures -----

  /** The number of rows whose status is `status`. */
  function CountStatus(rows: seq<Row>, status: string): (r: nat)
    ensures r <= |rows|
  {
    if rows == [] then 0
    else CountStatus(rows[..|rows| - 1], status) + (if rows[|rows| - 1].status == status then 1 else 0)
  }

  /** What one booking adds to the revenue: price times duration when it is verified and its price is truthy. */
  function Contribution(r: Row): int
  {
    if r.status == Verified && r.manekin.Some? && r.manekin.value.hargaSewa != 0
    then r.manekin.value.hargaSewa * r.durasiSewa
    else 0
  }

  /** The `reduce` that accumulates the revenue (`pendapatan`). */
  function Revenue(rows: seq<Row>): int
  {
    if rows == [] then 0 else Revenue(rows[..|rows| - 1]) + Contribution(rows[|rows| - 1])
  }

  lemma RevenueOfAppend(rows: seq<Row>, r: Row)
    ensures Revenue(rows + [r]) == Revenue(rows) + Contribution(r)
  {
    assert (rows + [r])[..|rows|] == rows;
  }

  /** The verified bookings, in order. */
  function VerifiedRows(rows: seq<Row>): (r: seq<Row>)
    ensures |r| == CountStatus(rows, Verified)
    ensures forall x :: x in r <==> x in rows && x.status == Verified
  {
    if rows == [] then []
    else
      var init, last := rows[..|rows| - 1], rows[|rows| - 1];
      assert rows == init + [last];
      VerifiedRows(init) + (if last.status == Verified then [last] else [])
  }

  /** Pending and cancelled bookings contribute nothing: the revenue is that of the verified rows alone. */
  lemma {:induction false} OnlyVerifiedRowsEarn(rows: seq<Row>)
    ensures Revenue(rows) == Revenue(VerifiedRows(rows))
  {
    if rows != [] {
      var init, last := rows[..|rows| - 1], rows[|rows| - 1];
      OnlyVerifiedRowsEarn(init);
      if last.status == Verified {
        RevenueOfAppend(VerifiedRows(init), last);
      } else {
        assert VerifiedRows(rows) == VerifiedRows(init);
      }
    }
  }

  /** Without a verified booking there is no revenue. */
  lemma NoVerifiedNoRevenue(rows: seq<Row>)
    requires CountStatus(rows, Verified) == 0
    ensures Revenue(rows) == 0
  {
    OnlyVerifiedRowsEarn(rows);
  }

  /** `rataTicket`: "0" without verified bookings, otherwise the revenue per verified booking, rounded and formatted. */
  datatype Ticket = ZeroTicket | RoundedAverage(revenue: int, count: nat)

  datatype Stats = Stats(total: nat, sukses: nat, pendapatan: int, rataTicket: Ticket)

  /** The `stats` memo. */
  function ComputeStats(rows: seq<Row>): (s: Stats)
    ensures s.total == |rows| && s.sukses == CountStatus(rows, Verified) && s.sukses <= s.total
    ensures s.pendapatan == Revenue(rows)
    ensures s.rataTicket == ZeroTicket <==> s.sukses == 0
    ensures s.rataTicket.RoundedAverage? ==> s.rataTicket == RoundedAverage(s.pendapatan, s.sukses)
    ensures s.sukses == 0 ==> s.pendapatan == 0
  {
    var sukses := CountStatus(rows, Verified);
    var pendapatan := Revenue(rows);
    if sukses == 0 then NoVerifiedNoRevenue(rows); Stats(|rows|, 0, pendapatan, ZeroTicket)
    else Stats(|rows|, sukses, pendapatan, RoundedAverage(pendapatan, sukses))
  }

  // ----- Status distribution -----

  datatype Slice = Slice(name: string, value: nat)

  /** `donutData`: verified, pending and cancelled counts, in that order. */
  function Donut(rows: seq<Row>): (r: seq<Slice>)
    ensures |r| == 3
    ensures r[0] == Slice("Terverifikasi", CountStatus(rows, Verified))
    ensures r[1] == Slice("Pending", CountStatus(rows, Pending))
    ensures r[2] == Slice("Batal", CountStatus(rows, Cancelled))
  {
    [ Slice("Terverifikasi", CountStatus(rows, Verified)),
      Slice("Pending", CountStatus(rows, Pending)),
      Slice("Batal", CountStatus(rows, Cancelled)) ]
  }

  predicate HasDeclaredStatus(r: Row)
  {
    r.status == Pending || r.status == Verified || r.status == Cancelled
  }

  /** When every status is one of the three declared values, the slices add up to the number of bookings. */
  lemma {:induction false} DonutCoversAllRows(rows: seq<Row>)
    requires forall i :: 0 <= i < |rows| ==> HasDeclaredStatus(rows[i])
    ensures Donut(rows)[0].value + Donut(rows)[1].value + Donut(rows)[2].value == |rows|
  {
    if rows != [] {
      DonutCoversAllRows(rows[..|rows| - 1]);
    }
  }

  // ----- Timeline -----

  /** One bar of the timeline: a date, the bookings on it and their revenue. */
  datatype Entry = Entry(date: string, orders: nat, earning: int)

  /** The bookings on date `d`, in order. */
  function OnDate(rows: seq<Row>, d: string): seq<Row>
  {
    if rows == [] then []
    else
      var last := rows[|rows| - 1];
      OnDate(rows[..|rows| - 1], d) + (if last.tanggalSewa == d then [last] else [])
  }

  /** The bookings on any date but `d`, in order. */
  function OffDate(rows: seq<Row>, d: string): seq<Row>
  {
    if rows == [] then []
    else
      var last := rows[|rows| - 1];
      OffDate(rows[..|rows| - 1], d) + (if last.tanggalSewa != d then [last] else [])
  }

  lemma ByDateOfAppend(rows: seq<Row>, r: Row, d: string)
    ensures OnDate(rows + [r], d) == if r.tanggalSewa == d then OnDate(rows, d) + [r] else OnDate(rows, d)
    ensures OffDate(rows + [r], d) == if r.tanggalSewa != d then OffDate(rows, d) + [r] else OffDate(rows, d)
  {
    assert (rows + [r])[..|rows|] == rows;
  }

  lemma {:induction false} OffDateMembers(rows: seq<Row>, d: string, r: Row)
    ensures r in OffDate(rows, d) <==> r in rows && r.tanggalSewa != d
  {
    if rows != [] {
      var init := rows[..|rows| - 1];
      assert rows == init + [rows[|rows| - 1]];
      ByDateOfAppend(init, rows[|rows| - 1], d);
      OffDateMembers(init, d, r);
    }
  }

  lemma {:induction false} NoRowsOnAbsentDate(rows: seq<Row>, d: string)
    requires d !in DateSet(rows)
    ensures OnDate(rows, d) == []
  {
    if rows != [] {
      var init := rows[..|rows| - 1];
      assert rows == init + [rows[|rows| - 1]];
      ByDateOfAppend(init, rows[|rows| - 1], d);
      NoRowsOnAbsentDate(init, d);
    }
  }

  /** The entry the timeline holds for date `d`. */
  function EntryFor(rows: seq<Row>, d: string): Entry
  {
    Entry(d, |OnDate(rows, d)|, Revenue(OnDate(rows, d)))
  }

  /** The distinct booking dates. */
  function DateSet(rows: seq<Row>): set<string>
  {
    if rows == [] then {} else DateSet(rows[..|rows| - 1]) + {rows[|rows| - 1].tanggalSewa}
  }

  lemma {:induction false} DateSetMembers(rows: seq<Row>, x: string)
    ensures x in DateSet(rows) <==> exists r :: r in rows && r.tanggalSewa == x
  {
    if rows != [] {
      var init := rows[..|rows| - 1];
      assert rows == init + [rows[|rows| - 1]];
      DateSetMembers(init, x);
    }
  }

  /** `a.localeCompare(b) < 0`, as code-unit lexicographic order. */
  predicate LexLess(a: string, b: string)
  {
    if a == [] then b != []
    else if b == [] then false
    else if a[0] != b[0] then a[0] < b[0]
    else LexLess(a[1..], b[1..])
  }

  lemma LexIrreflexive(a: string)
    ensures !LexLess(a, a)
  {
  }

  lemma {:induction false} LexTransitive(a: string, b: string, c: string)
    requires LexLess(a, b) && LexLess(b, c)
    ensures LexLess(a, c)
  {
    if a != [] && b != [] && c != [] && a[0] == b[0] && b[0] == c[0] {
      LexTransitive(a[1..], b[1..], c[1..]);
    }
  }

  lemma {:induction false} LexTotal(a: string, b: string)
    ensures a == b || LexLess(a, b) || LexLess(b, a)
  {
    if a != [] && b != [] && a[0] == b[0] {
      LexTotal(a[1..], b[1..]);
      if a[1..] == b[1..] {
        assert a == [a[0]] + a[1..] && b == [b[0]] + b[1..];
      }
    }
  }

  /** Ascending by date, no date twice. */
  predicate StrictlySorted(s: seq<Entry>)
  {
    forall i, j :: 0 <= i < j < |s| ==> LexLess(s[i].date, s[j].date)
  }

  function DatesOf(s: seq<Entry>): set<string>
  {
    set e | e in s :: e.date
  }

  /** Puts `e` into place in an ascending list. */
  function Insert(s: seq<Entry>, e: Entry): (r: seq<Entry>)
    ensures |r| == |s| + 1
    ensures forall x :: x in r <==> x in s || x == e
    ensures StrictlySorted(s) && e.date !in DatesOf(s) ==> StrictlySorted(r)
  {
    if s == [] then [e]
    else if LexLess(e.date, s[0].date) then
      var r := [e] + s;
      assert StrictlySorted(s) ==> forall j :: 0 <= j < |s| ==> s[j] == s[0] || LexLess(s[0].date, s[j].date);
      assert StrictlySorted(s) ==> forall j :: 0 <= j < |s| ==> LexLess(e.date, s[j].date) by {
        if StrictlySorted(s) {
          forall j | 0 <= j < |s| ensures LexLess(e.date, s[j].date) {
            if j > 0 { LexTransitive(e.date, s[0].date, s[j].date); }
          }
        }
      }
      r
    else
      var t := Insert(s[1..], e);
      var r := [s[0]] + t;
      assert StrictlySorted(s) && e.date !in DatesOf(s) ==> StrictlySorted(r) by {
        if StrictlySorted(s) && e.date !in DatesOf(s) {
          assert s[0] in s;
          LexTotal(e.date, s[0].date);
          assert DatesOf(s[1..]) <= DatesOf(s) by {
            forall x | x in DatesOf(s[1..]) ensures x in DatesOf(s) {
              var y :| y in s[1..] && y.date == x;
              assert y in s;
            }
          }
          assert StrictlySorted(s[1..]);
          forall x | x in t ensures LexLess(s[0].date, x.date) {
            if x != e {
              var j :| 0 <= j < |s[1..]| && s[1..][j] == x;
              assert s[j + 1] == x;
            }
          }
        }
      }
      r
  }

  /** `slice(-10)`: the last ten entries, or all of them when there are fewer. */
  function LastTen(s: seq<Entry>): (r: seq<Entry>)
    ensures |r| == if |s| <= 10 then |s| else 10
    ensures r == s[|s| - |r|..]
  {
    if |s| <= 10 then s else s[|s| - 10..]
  }

  /** `full` has exactly one entry per booking date, ascending, each counting that date's bookings and revenue. */
  predicate IsTimeline(rows: seq<Row>, full: seq<Entry>)
  {
    && StrictlySorted(full)
    && DatesOf(full) == DateSet(rows)
    && forall i :: 0 <= i < |full| ==> full[i] == EntryFor(rows, full[i].date)
  }

  /** `groups` holds one entry per booking date, each equal to that date's group. */
  predicate Grouped(rows: seq<Row>, groups: map<string, Entry>)
  {
    groups.Keys == DateSet(rows) && forall k :: k in groups ==> groups[k] == EntryFor(rows, k)
  }

  /** The first half of `timelineData`: one dictionary entry per date, updated in place booking by booking. */
  method GroupByDate(rows: seq<Row>) returns (groups: map<string, Entry>)
    ensures Grouped(rows, groups)
  {
    groups := map[];
    var i := 0;
    while i < |rows|
      invariant 0 <= i <= |rows|
      invariant Grouped(rows[..i], groups)
    {
      var r := rows[i];
      var key := r.tanggalSewa;
      ghost var prev := groups;
      // a date seen for the first time starts from zero counters
      var entry := Counted(groups, key);
      groups := groups[key := Bumped(entry, r)];
      GroupStep(rows[..i], r, prev, groups);
      PrefixStep(rows, i);
      i := i + 1;
    }
    WholePrefix(rows);
  }

  lemma WholePrefix(rows: seq<Row>)
    ensures rows[..|rows|] == rows
  {
  }

  lemma PrefixStep(rows: seq<Row>, i: nat)
    requires i < |rows|
    ensures rows[..i + 1] == rows[..i] + [rows[i]]
  {
  }

  lemma DateSetOfAppend(rows: seq<Row>, r: Row)
    ensures DateSet(rows + [r]) == DateSet(rows) + {r.tanggalSewa}
  {
    assert (rows + [r])[..|rows|] == rows;
  }

  lemma EntryOfAppend(rows: seq<Row>, r: Row, k: string)
    ensures EntryFor(rows + [r], k)
      == if r.tanggalSewa == k
         then Entry(k, |OnDate(rows, k)| + 1, Revenue(OnDate(rows, k)) + Contribution(r))
         else EntryFor(rows, k)
  {
    ByDateOfAppend(rows, r, k);
    RevenueOfAppend(OnDate(rows, k), r);
  }

  /** The counters a date starts from: its entry so far, or zero for a date not seen yet. */
  function Counted(groups: map<string, Entry>, key: string): Entry
  {
    if key in groups then groups[key] else Entry(key, 0, 0)
  }

  /** Booking `r` added to the dictionary keeps every entry equal to its date's group. */
  lemma GroupStep(done: seq<Row>, r: Row, prev: map<string, Entry>, groups: map<string, Entry>)
    requires Grouped(done, prev)
    requires groups == prev[r.tanggalSewa := Bumped(Counted(prev, r.tanggalSewa), r)]
    ensures Grouped(done + [r], groups)
  {
    GroupKeysStep(done, r, prev, groups);
    forall k | k in groups ensures groups[k] == EntryFor(done + [r], k) {
      EntryOfAppend(done, r, k);
      if k == r.tanggalSewa && k !in prev {
        NoRowsOnAbsentDate(done, k);
      }
    }
  }

  lemma GroupKeysStep(done: seq<Row>, r: Row, prev: map<string, Entry>, groups: map<string, Entry>)
    requires prev.Keys == DateSet(done)
    requires groups.Keys == prev.Keys + {r.tanggalSewa}
    ensures groups.Keys == DateSet(done + [r])
  {
    DateSetOfAppend(done, r);
  }

  /** The entry after counting booking `r` once more. */
  function Bumped(e: Entry, r: Row): (b: Entry)
    ensures b.date == e.date && b.orders == e.orders + 1 && b.earning == e.earning + Contribution(r)
  {
    Entry(e.date, e.orders + 1, e.earning + Contribution(r))
  }

  /** Inserting a group whose date is not yet listed adds exactly that date. */
  lemma InsertGroup(groups: map<string, Entry>, sorted: seq<Entry>, k: string)
    requires k in groups && groups[k].date == k && k !in DatesOf(sorted)
    requires forall j :: 0 <= j < |sorted| ==> sorted[j].date in groups && sorted[j] == groups[sorted[j].date]
    ensures DatesOf(Insert(sorted, groups[k])) == DatesOf(sorted) + {k}
    ensures var t := Insert(sorted, groups[k]);
            forall j :: 0 <= j < |t| ==> t[j].date in groups && t[j] == groups[t[j].date]
  {
    var t := Insert(sorted, groups[k]);
    assert groups[k] in t;
    forall x | x in DatesOf(t) ensures x in DatesOf(sorted) + {k} {
      var y :| y in t && y.date == x;
      if y != groups[k] { assert y in sorted; }
    }
    forall x | x in DatesOf(sorted) ensures x in DatesOf(t) {
      var y :| y in sorted && y.date == x;
      assert y in t;
    }
    forall j | 0 <= j < |t| ensures t[j].date in groups && t[j] == groups[t[j].date] {
      assert t[j] in t;
      if t[j] != groups[k] {
        var m :| 0 <= m < |sorted| && sorted[m] == t[j];
      }
    }
  }

  /** The `sort` by date, here an insertion of one group at a time into an ascending list. */
  method SortByDate(groups: map<string, Entry>) returns (sorted: seq<Entry>)
    requires forall k :: k in groups ==> groups[k].date == k
    ensures StrictlySorted(sorted)
    ensures DatesOf(sorted) == groups.Keys
    ensures forall j :: 0 <= j < |sorted| ==> sorted[j].date in groups && sorted[j] == groups[sorted[j].date]
  {
    sorted := [];
    var remaining := groups.Keys;
    while remaining != {}
      invariant remaining <= groups.Keys
      invariant StrictlySorted(sorted)
      invariant DatesOf(sorted) == groups.Keys - remaining
      invariant forall j :: 0 <= j < |sorted| ==> sorted[j].date in groups && sorted[j] == groups[sorted[j].date]
      decreases |remaining|
    {
      var k :| k in remaining;
      var t := Insert(sorted, groups[k]);
      InsertGroup(groups, sorted, k);
      sorted, remaining := t, remaining - {k};
    }
  }

  /**
   * `timelineData`: groups the bookings by date, orders the groups by date
   * and keeps the last ten.
   */
  method Timeline(rows: seq<Row>) returns (timeline: seq<Entry>, full: seq<Entry>)
    ensures IsTimeline(rows, full)
    ensures timeline == LastTen(full)
  {
    var groups := GroupByDate(rows);
    full := SortByDate(groups);
    timeline := LastTen(full);
  }

  /** Splitting the bookings by one date splits their count and their revenue. */
  lemma {:induction false} SplitByDate(rows: seq<Row>, d: string)
    ensures |rows| == |OnDate(rows, d)| + |OffDate(rows, d)|
    ensures Revenue(rows) == Revenue(OnDate(rows, d)) + Revenue(OffDate(rows, d))
  {
    if rows != [] {
      var init, last := rows[..|rows| - 1], rows[|rows| - 1];
      SplitByDate(init, d);
      assert rows == init + [last];
      ByDateOfAppend(init, last, d);
      if last.tanggalSewa == d {
        RevenueOfAppend(OnDate(init, d), last);
      } else {
        RevenueOfAppend(OffDate(init, d), last);
      }
    }
  }

  /** Removing one date's bookings leaves every other date's group as it was. */
  lemma {:induction false} OtherDatesUnaffected(rows: seq<Row>, d: string, d': string)
    requires d' != d
    ensures OnDate(OffDate(rows, d), d') == OnDate(rows, d')
  {
    if rows != [] {
      var init, last := rows[..|rows| - 1], rows[|rows| - 1];
      OtherDatesUnaffected(init, d, d');
      assert rows == init + [last];
      ByDateOfAppend(init, last, d);
      ByDateOfAppend(init, last, d');
      ByDateOfAppend(OffDate(init, d), last, d');
    }
  }

  function TotalOrders(s: seq<Entry>): int
  {
    if s == [] then 0 else TotalOrders(s[..|s| - 1]) + s[|s| - 1].orders
  }

  function TotalEarning(s: seq<Entry>): int
  {
    if s == [] then 0 else TotalEarning(s[..|s| - 1]) + s[|s| - 1].earning
  }

  /**
   * Before truncation the timeline accounts for every booking once: its
   * orders add up to the number of bookings and its earnings to the revenue.
   */
  lemma {:induction false} TimelineAccountsForEveryBooking(rows: seq<Row>, full: seq<Entry>)
    requires IsTimeline(rows, full)
    ensures TotalOrders(full) == |rows|
    ensures TotalEarning(full) == Revenue(rows)
    decreases |full|
  {
    if full == [] {
    } else {
      var n := |full| - 1;
      var d := full[n].date;
      var init := full[..n];
      var rest := OffDate(rows, d);
      SplitByDate(rows, d);
      assert StrictlySorted(init);
      forall i | 0 <= i < n ensures init[i] == EntryFor(rest, init[i].date) {
        assert LexLess(init[i].date, d);
        LexIrreflexive(d);
        OtherDatesUnaffected(rows, d, init[i].date);
      }
      assert DatesOf(init) == DateSet(rest) by {
        forall x | x in DatesOf(init) ensures x in DateSet(rest) {
          var i :| 0 <= i < n && init[i].date == x;
          assert full[i] in full;
          LexIrreflexive(d);
          assert x != d;
          assert x in DateSet(rows);
          DateSetMembers(rows, x);
          var r :| r in rows && r.tanggalSewa == x;
          OffDateMembers(rows, d, r);
          DateSetMembers(rest, x);
        }
        forall x | x in DateSet(rest) ensures x in DatesOf(init) {
          DateSetMembers(rest, x);
          var r :| r in rest && r.tanggalSewa == x;
          OffDateMembers(rows, d, r);
          DateSetMembers(rows, x);
          assert x in DatesOf(full);
          var e :| e in full && e.date == x;
          var i :| 0 <= i < |full| && full[i] == e;
          assert i != n;
          assert init[i] == e;
        }
      }
      TimelineAccountsForEveryBooking(rest, init);
    }
  }

  /** The dashboard's booking list, replaced by each successful load. */
  class Bookings {
    var rows: seq<Row>
    var loading: bool

    constructor ()
      ensures rows == [] && loading
    {
      rows, loading := [], true;
    }

    /** `load`: a failed query (`None`) keeps the previous rows; either way loading ends. */
    method Load(data: Option<seq<RawRow>>)
      modifies this
      ensures rows == if data.Some? then NormaliseAll(data.value) else old(rows)
      ensures !loading
    {
      loading := true;
      if data.Some? {
        rows := NormaliseAll(data.value);
      }
      loading := false;
    }
  }
}
