/**
 Dataset membership as the cross-SDK harness reads it (`e2e-cross-sdk/harness/helpers.py`): two
 schema shapes and three ways of storing a UUID, one answer.
 */
module Membership {
  import opened Wrappers
  import opened Ascii
  import opened OrderedMap

  newtype Byte = x: int | 0 <= x < 256

  /** An SQLite value; a number is shown as text. */
  datatype Cell = Null | Blob(bytes: seq<Byte>) | Text(text: string)

  type Row = map<string, Cell>

  // ----- UUIDs -----

  function HexDigit(n: int): (c: char)
    requires 0 <= n < 16
    ensures !IsUpper(c) && c != '-'
  {
    "0123456789abcdef"[n]
  }

  function Hex(bytes: seq<Byte>): (h: string)
    ensures |h| == 2 * |bytes|
    ensures forall i :: 0 <= i < |h| ==> !IsUpper(h[i]) && h[i] != '-'
  {
    if bytes == [] then ""
    else [HexDigit(bytes[0] as int / 16), HexDigit(bytes[0] as int % 16)] + Hex(bytes[1..])
  }

  function Bare(s: string): string {
    if s == "" then "" else (if s[0] == '-' then "" else [s[0]]) + Bare(s[1..])
  }

  function Lowered(s: string): (l: string)
    ensures |l| == |s| && forall i :: 0 <= i < |s| ==> l[i] == Lower(s[i])
  {
    if s == "" then "" else [Lower(s[0])] + Lowered(s[1..])
  }

  function NormalizeUuid(val: Cell): Cell {
    match val
    case Null => Null
    case Blob(bytes) => Text(Hex(bytes))
    case Text(s) => Text(Lowered(Bare(s)))
  }

  type Uuid = u: seq<Byte> | |u| == 16 witness [0, 0, 0, 0, 0, 0, 0, 0, 0, 0, 0, 0, 0, 0, 0, 0]

  /** The hyphenated form of section 4 of RFC 9562. */
  function Hyphenated(h: string): string
    requires |h| == 32
  {
    h[..8] + "-" + h[8..12] + "-" + h[12..16] + "-" + h[16..20] + "-" + h[20..]
  }

  /** Thirty-two hexadecimal digits of a UUID, in any mixture of letter cases. */
  predicate HexOf(h: string, u: Uuid) {
    |h| == 32 && Lowered(h) == Hex(u)
  }

  /** A value stores a UUID as bytes, as bare digits or as hyphenated text. */
  ghost predicate Spells(val: Cell, u: Uuid) {
    val == Blob(u) || exists h :: HexOf(h, u) && (val == Text(h) || val == Text(Hyphenated(h)))
  }

  lemma {:induction false} BareSplit(a: string, b: string)
    ensures Bare(a + b) == Bare(a) + Bare(b)
  {
    if a == "" {
      assert a + b == b;
    } else {
      assert (a + b)[1..] == a[1..] + b;
      BareSplit(a[1..], b);
    }
  }

  lemma {:induction false} BareKeeps(s: string)
    requires '-' !in s
    ensures Bare(s) == s
  {
    if s != "" {
      BareKeeps(s[1..]);
    }
  }

  lemma BareHyphenated(h: string)
    requires |h| == 32 && '-' !in h
    ensures Bare(Hyphenated(h)) == h
  {
    var (a, b, c, d, e) := (h[..8], h[8..12], h[12..16], h[16..20], h[20..]);
    assert '-' !in a && '-' !in b && '-' !in c && '-' !in d && '-' !in e;
    assert Hyphenated(h) == a + "-" + (b + "-" + (c + "-" + (d + "-" + e)));
    assert h == a + (b + (c + (d + e)));
    hide Bare, Hyphenated;
    PartsJoined(a, b, c, d, e);
  }

  lemma {:induction false} PartsJoined(a: string, b: string, c: string, d: string, e: string)
    requires '-' !in a && '-' !in b && '-' !in c && '-' !in d && '-' !in e
    ensures Bare(a + "-" + (b + "-" + (c + "-" + (d + "-" + e)))) == a + (b + (c + (d + e)))
  {
    hide Bare;
    BareKeeps(e);
    BareJoin(d, e);
    BareJoin(c, d + "-" + e);
    BareJoin(b, c + "-" + (d + "-" + e));
    BareJoin(a, b + "-" + (c + "-" + (d + "-" + e)));
  }

  lemma BareJoin(part: string, rest: string)
    requires '-' !in part
    ensures Bare(part + "-" + rest) == part + Bare(rest)
  {
    assert Bare("-") == "" && Bare(part) + "" == Bare(part);
    hide Bare;
    BareKeeps(part);
    BareSplit(part, "-");
    BareSplit(part + "-", rest);
  }

  lemma HexHasNoHyphen(h: string, u: Uuid)
    requires HexOf(h, u)
    ensures '-' !in h
  {
    forall i | 0 <= i < |h| ensures h[i] != '-' {
      assert Lower(h[i]) == Hex(u)[i];
    }
  }

  /** Every way of storing a UUID comes out as one string. */
  lemma OneStringPerUuid(val: Cell, u: Uuid)
    requires Spells(val, u)
    ensures NormalizeUuid(val) == Text(Hex(u))
  {
    if val != Blob(u) {
      var h :| HexOf(h, u) && (val == Text(h) || val == Text(Hyphenated(h)));
      HexHasNoHyphen(h, u);
      BareKeeps(h);
      BareHyphenated(h);
    }
  }

  function DigitValue(c: char): int {
    if '0' <= c <= '9' then c as int - '0' as int else c as int - 'a' as int + 10
  }

  /** Two digits a byte, the high one first: read as a numeral they are the byte. */
  lemma {:induction false} HexReadsBack(bytes: seq<Byte>, i: nat)
    requires i < |bytes|
    ensures DigitValue(Hex(bytes)[2 * i]) * 16 + DigitValue(Hex(bytes)[2 * i + 1]) == bytes[i] as int
    ensures '0' <= Hex(bytes)[2 * i] <= '9' || 'a' <= Hex(bytes)[2 * i] <= 'f'
    ensures '0' <= Hex(bytes)[2 * i + 1] <= '9' || 'a' <= Hex(bytes)[2 * i + 1] <= 'f'
  {
    if i == 0 {
      DigitReadsBack(bytes[0] as int / 16);
      DigitReadsBack(bytes[0] as int % 16);
    } else {
      HexReadsBack(bytes[1..], i - 1);
      assert Hex(bytes)[2..] == Hex(bytes[1..]);
    }
  }

  lemma DigitReadsBack(n: int)
    requires 0 <= n < 16
    ensures DigitValue(HexDigit(n)) == n && ('0' <= HexDigit(n) <= '9' || 'a' <= HexDigit(n) <= 'f')
  {
  }

  lemma {:induction false} HexInjective(a: seq<Byte>, b: seq<Byte>)
    requires Hex(a) == Hex(b)
    ensures a == b
  {
    assert |a| == |b|;
    if a != [] {
      assert Hex(a)[0] == Hex(b)[0] && Hex(a)[1] == Hex(b)[1];
      assert Hex(a)[2..] == Hex(a[1..]) && Hex(b)[2..] == Hex(b[1..]);
      HexDigitInjective(a[0] as int / 16, b[0] as int / 16);
      HexDigitInjective(a[0] as int % 16, b[0] as int % 16);
      HexInjective(a[1..], b[1..]);
      assert a == [a[0]] + a[1..] && b == [b[0]] + b[1..];
    }
  }

  lemma HexDigitInjective(m: int, n: int)
    requires 0 <= m < 16 && 0 <= n < 16 && HexDigit(m) == HexDigit(n)
    ensures m == n
  {
  }

  /** Stored values agree after normalisation exactly when they stand for one UUID. */
  lemma NormalizeDecides(val: Cell, u: Uuid, val': Cell, u': Uuid)
    requires Spells(val, u) && Spells(val', u')
    ensures NormalizeUuid(val) == NormalizeUuid(val') <==> u == u'
  {
    OneStringPerUuid(val, u);
    OneStringPerUuid(val', u');
    if Hex(u) == Hex(u') {
      HexInjective(u, u');
    }
  }

  // ----- Rows -----

  const UUID_COLUMNS := {
    "id", "owner_id", "tenant_id", "dataset_id", "data_id", "user_id", "slug", "source_node_id",
    "destination_node_id", "query_id", "pipeline_run_id", "pipeline_id"
  }

  function Normalized(row: Row): Row {
    map col | col in row :: if col in UUID_COLUMNS then NormalizeUuid(row[col]) else row[col]
  }

  /** These twelve columns are normalised, and no other. */
  lemma IdentifyingColumns(row: Row, col: string)
    requires col in row
    ensures Normalized(row).Keys == row.Keys
    ensures Normalized(row)[col] ==
            if col == "id" || col == "owner_id" || col == "tenant_id" || col == "dataset_id" || col == "data_id"
               || col == "user_id" || col == "slug" || col == "source_node_id" || col == "destination_node_id"
               || col == "query_id" || col == "pipeline_run_id" || col == "pipeline_id" then NormalizeUuid(row[col])
            else row[col]
  {
    hide NormalizeUuid;
  }

  /** The identifying columns of each fetched row are rewritten in place, in whatever order. */
  method QueryRows(fetched: seq<Row>) returns (rows: seq<Row>)
    ensures |rows| == |fetched| && forall i :: 0 <= i < |rows| ==> rows[i] == Normalized(fetched[i])
  {
    hide NormalizeUuid;
    rows := [];
    for i := 0 to |fetched|
      invariant |rows| == i && forall j :: 0 <= j < i ==> rows[j] == Normalized(fetched[j])
    {
      var d := fetched[i];
      var todo := UUID_COLUMNS;
      while todo != {}
        invariant todo <= UUID_COLUMNS && d.Keys == fetched[i].Keys
        invariant forall col :: col in d ==>
                    d[col] == if col in UUID_COLUMNS - todo then NormalizeUuid(fetched[i][col]) else fetched[i][col]
        decreases |todo|
      {
        var col :| col in todo;
        if col in d {
          d := d[col := NormalizeUuid(d[col])];
        }
        todo := todo - {col};
      }
      assert d == Normalized(fetched[i]);
      rows := rows + [d];
    }
  }

  // ----- Membership -----

  datatype Link = Link(dataset: Cell, data: Cell)

  /** The junction table, if there is one, and the data table's rows, if it has a `dataset_id` column. */
  datatype Database = Database(junction: Option<seq<Link>>, data: Option<seq<Link>>)

  function WithDataset(links: seq<Link>): (r: seq<Link>)
    ensures forall l :: l in r <==> l in links && l.dataset != Null
  {
    if links == [] then []
    else
      assert forall l :: l in links <==> l == links[0] || l in links[1..];
      (if links[0].dataset != Null then [links[0]] else []) + WithDataset(links[1..])
  }

  /** Every membership the database records, in the order the two queries return them. */
  function Recorded(db: Database): seq<Link> {
    (if db.junction.Some? then db.junction.value else []) + (if db.data.Some? then WithDataset(db.data.value) else [])
  }

  function Normal(l: Link): (Cell, Cell) {
    (NormalizeUuid(l.dataset), NormalizeUuid(l.data))
  }

  function AllNormal(links: seq<Link>): (r: seq<(Cell, Cell)>)
    ensures |r| == |links| && forall i :: 0 <= i < |r| ==> r[i] == Normal(links[i])
  {
    seq(|links|, i requires 0 <= i < |links| => Normal(links[i]))
  }

  /** What the harness reports: each normalised pair where it was first seen. */
  function Memberships(db: Database): seq<(Cell, Cell)> {
    FirstSeen(AllNormal(Recorded(db)))
  }

  function Selected(l: Link): Row {
    map["dataset_id" := l.dataset, "data_id" := l.data]
  }

  predicate IsPair(row: Row, pair: (Cell, Cell)) {
    row == map["dataset_id" := pair.0, "data_id" := pair.1]
  }

  lemma NormalizedSelected(l: Link)
    ensures IsPair(Normalized(Selected(l)), Normal(l))
  {
    assert "dataset_id" in UUID_COLUMNS && "data_id" in UUID_COLUMNS;
    hide NormalizeUuid;
  }

  method Select(links: seq<Link>) returns (rows: seq<Row>)
    ensures |rows| == |links| && forall i :: 0 <= i < |rows| ==> IsPair(rows[i], Normal(links[i]))
  {
    var fetched := seq(|links|, i requires 0 <= i < |links| => Selected(links[i]));
    rows := QueryRows(fetched);
    forall i | 0 <= i < |rows| ensures IsPair(rows[i], Normal(links[i])) {
      NormalizedSelected(links[i]);
    }
  }

  method QueryDatasetMembership(db: Database) returns (rows: seq<Row>)
    ensures |rows| == |Memberships(db)|
    ensures forall i :: 0 <= i < |rows| ==> IsPair(rows[i], Memberships(db)[i])
  {
    rows := [];
    if db.junction.Some? {
      var more := Select(db.junction.value);
      rows := rows + more;
    }
    if db.data.Some? {
      var more := Select(WithDataset(db.data.value));
      rows := rows + more;
    }
    ghost var pairs := AllNormal(Recorded(db));
    assert |rows| == |pairs| && forall i :: 0 <= i < |rows| ==> IsPair(rows[i], pairs[i]);
    rows := Deduplicate(rows, pairs);
  }

  /** One entry per key, where the key first came. */
  method Deduplicate(rows: seq<Row>, ghost pairs: seq<(Cell, Cell)>) returns (values: seq<Row>)
    requires |rows| == |pairs| && forall i :: 0 <= i < |rows| ==> IsPair(rows[i], pairs[i])
    ensures |values| == |FirstSeen(pairs)|
    ensures forall i :: 0 <= i < |values| ==> IsPair(values[i], FirstSeen(pairs)[i])
  {
    hide FirstSeen;
    var seen: Entries<(Cell, Cell), Row> := [];
    assert FirstSeen(pairs[..0]) == [] by {
      FirstSeenKeys(pairs[..0]);
    }
    for i := 0 to |rows|
      invariant Keys(seen) == FirstSeen(pairs[..i])
      invariant forall j :: 0 <= j < |seen| ==> IsPair(seen[j].1, seen[j].0)
    {
      var key := (rows[i]["dataset_id"], rows[i]["data_id"]);
      assert key == pairs[i];
      InsertKeys(seen, key, rows[i]);
      SeenNext(pairs, i);
      seen := Insert(seen, key, rows[i]);
    }
    assert pairs[..|rows|] == pairs;
    values := seq(|seen|, i requires 0 <= i < |seen| => seen[i].1);
    assert forall i :: 0 <= i < |seen| ==> Keys(seen)[i] == seen[i].0;
  }

  lemma SeenNext<K(!new)>(ks: seq<K>, i: nat)
    requires i < |ks|
    ensures FirstSeen(ks[..i + 1]) ==
            if ks[i] in FirstSeen(ks[..i]) then FirstSeen(ks[..i]) else FirstSeen(ks[..i]) + [ks[i]]
  {
    FirstSeenKeys(ks[..i]);
    assert ks[..i + 1][..i] == ks[..i];
  }

  /** A membership is reported exactly when some row records it, and once. */
  lemma {:induction false} EachMembershipOnce(db: Database)
    ensures Distinct(Memberships(db))
    ensures forall pair :: pair in Memberships(db) <==> exists l :: l in Recorded(db) && Normal(l) == pair
    ensures forall l :: l in Recorded(db) <==>
                        || (db.junction.Some? && l in db.junction.value)
                        || (db.data.Some? && l in db.data.value && l.dataset != Null)
  {
    var links := Recorded(db);
    FirstSeenKeys(AllNormal(links));
    hide FirstSeen, Normal, WithDataset;
    forall l | l in links ensures Normal(l) in AllNormal(links) {
      var i :| 0 <= i < |links| && links[i] == l;
      assert AllNormal(links)[i] == Normal(l);
    }
  }

  // ----- Facts behind the rows -----

  type Fact = (Uuid, Uuid)

  ghost predicate SpellsFact(l: Link, f: Fact) {
    Spells(l.dataset, f.0) && Spells(l.data, f.1)
  }

  /** The junction rows link these data to datasets; the data rows are in these datasets, or in none. */
  ghost predicate Records(db: Database, linked: seq<Fact>, scoped: seq<Option<Fact>>) {
    && (match db.junction
        case None => linked == []
        case Some(links) =>
          |links| == |linked| && forall i :: 0 <= i < |links| ==> SpellsFact(links[i], linked[i]))
    && (match db.data
        case None => scoped == []
        case Some(links) =>
          |links| == |scoped| && forall i :: 0 <= i < |links| ==> RecordsScope(links[i], scoped[i]))
  }

  ghost predicate RecordsScope(l: Link, scope: Option<Fact>) {
    match scope
    case None => l.dataset == Null
    case Some(f) => SpellsFact(l, f)
  }

  function InADataset(scoped: seq<Option<Fact>>): seq<Fact> {
    if scoped == [] then []
    else (if scoped[0].Some? then [scoped[0].value] else []) + InADataset(scoped[1..])
  }

  /** The linked facts in row order, then those of the data rows that are in a dataset. */
  function Facts(linked: seq<Fact>, scoped: seq<Option<Fact>>): seq<Fact> {
    linked + InADataset(scoped)
  }

  ghost predicate SpellAll(links: seq<Link>, facts: seq<Fact>) {
    |links| == |facts| && forall i :: 0 <= i < |links| ==> SpellsFact(links[i], facts[i])
  }

  lemma {:induction false} ScopedSpelled(links: seq<Link>, scoped: seq<Option<Fact>>)
    requires |links| == |scoped| && forall i :: 0 <= i < |links| ==> RecordsScope(links[i], scoped[i])
    ensures SpellAll(WithDataset(links), InADataset(scoped))
  {
    if links != [] {
      assert RecordsScope(links[0], scoped[0]);
      if scoped[0].Some? {
        SpelledNotNull(links[0], scoped[0].value);
      }
      hide SpellsFact;
      ScopedSpelled(links[1..], scoped[1..]);
    }
  }

  lemma SpelledNotNull(l: Link, f: Fact)
    requires SpellsFact(l, f)
    ensures l.dataset != Null
  {
  }

  function Shown(f: Fact): (Cell, Cell) {
    (Text(Hex(f.0)), Text(Hex(f.1)))
  }

  function AllShown(facts: seq<Fact>): (r: seq<(Cell, Cell)>)
    ensures |r| == |facts| && forall i :: 0 <= i < |r| ==> r[i] == Shown(facts[i])
  {
    seq(|facts|, i requires 0 <= i < |facts| => Shown(facts[i]))
  }

  lemma ShownInjective(f: Fact, g: Fact)
    requires Shown(f) == Shown(g)
    ensures f == g
  {
    HexInjective(f.0, g.0);
    HexInjective(f.1, g.1);
  }

  lemma {:induction false} FirstShown(facts: seq<Fact>)
    ensures FirstSeen(AllShown(facts)) == AllShown(FirstSeen(facts))
    decreases |facts|
  {
    if facts != [] {
      var front, last := facts[..|facts| - 1], facts[|facts| - 1];
      FirstShown(front);
      assert AllShown(facts)[..|facts| - 1] == AllShown(front);
      assert AllShown(FirstSeen(front) + [last]) == AllShown(FirstSeen(front)) + [Shown(last)];
      if Shown(last) in AllShown(front) {
        var i :| 0 <= i < |front| && AllShown(front)[i] == Shown(last);
        ShownInjective(front[i], last);
      }
      if last in front {
        var i :| 0 <= i < |front| && front[i] == last;
        assert AllShown(front)[i] == Shown(last);
      }
      hide Shown;
    }
  }

  lemma RecordedSpelled(db: Database, linked: seq<Fact>, scoped: seq<Option<Fact>>)
    requires Records(db, linked, scoped)
    ensures SpellAll(Recorded(db), Facts(linked, scoped))
  {
    hide SpellsFact, WithDataset, InADataset;
    if db.data.Some? {
      ScopedSpelled(db.data.value, scoped);
    }
    assert InADataset([]) == [] by {
      NobodyScoped();
    }
  }

  lemma NobodyScoped()
    ensures InADataset([]) == []
  {
  }

  /**
   Whichever tables and forms hold the memberships, the report is the facts, each once and in first-seen
   order: those of the junction rows first, then those of the data rows.
   */
  lemma ReportsTheFacts(db: Database, linked: seq<Fact>, scoped: seq<Option<Fact>>)
    requires Records(db, linked, scoped)
    ensures Memberships(db) == AllShown(FirstSeen(Facts(linked, scoped)))
  {
    var facts := Facts(linked, scoped);
    RecordedSpelled(db, linked, scoped);
    hide Records, Recorded, Facts;
    forall i | 0 <= i < |facts| ensures AllNormal(Recorded(db))[i] == Shown(facts[i]) {
      assert SpellsFact(Recorded(db)[i], facts[i]);
      OneStringPerUuid(Recorded(db)[i].dataset, facts[i].0);
      OneStringPerUuid(Recorded(db)[i].data, facts[i].1);
    }
    assert AllNormal(Recorded(db)) == AllShown(facts);
    FirstShown(facts);
  }

  /** So two databases report the same memberships exactly when they record the same facts. */
  lemma SameFactsSameReport(db: Database, linked: seq<Fact>, scoped: seq<Option<Fact>>,
                            db': Database, linked': seq<Fact>, scoped': seq<Option<Fact>>)
    requires Records(db, linked, scoped) && Records(db', linked', scoped')
    ensures (forall pair :: pair in Memberships(db) <==> pair in Memberships(db')) <==>
            (forall f :: f in Facts(linked, scoped) <==> f in Facts(linked', scoped'))
  {
    var facts, facts' := Facts(linked, scoped), Facts(linked', scoped');
    ReportsTheFacts(db, linked, scoped);
    ReportsTheFacts(db', linked', scoped');
    FactsShown(facts);
    FactsShown(facts');
    hide Memberships, Records, FirstSeen, AllShown, Facts;
    if forall pair :: pair in Memberships(db) <==> pair in Memberships(db') {
      forall f ensures f in facts <==> f in facts' {
        assert Shown(f) in Memberships(db) <==> Shown(f) in Memberships(db');
      }
    }
  }

  lemma {:induction false} FactsShown(facts: seq<Fact>)
    ensures forall f :: f in facts <==> Shown(f) in AllShown(FirstSeen(facts))
    ensures forall pair :: pair in AllShown(FirstSeen(facts)) <==> exists f :: f in facts && Shown(f) == pair
  {
    FirstSeenKeys(facts);
    var seen := FirstSeen(facts);
    hide Shown, FirstSeen;
    forall f ensures f in seen <==> Shown(f) in AllShown(seen) {
      if f in seen {
        var i :| 0 <= i < |seen| && seen[i] == f;
        assert AllShown(seen)[i] == Shown(f);
      }
      if Shown(f) in AllShown(seen) {
        var i :| 0 <= i < |seen| && AllShown(seen)[i] == Shown(f);
        ShownInjective(seen[i], f);
      }
    }
  }
}
