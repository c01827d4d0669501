/** The local email store: the `emails` table keyed by `id` and the
    `email_labels` table keyed by `(email_id, label)`, modelled as a map from id to
    row and a set of label pairs, with SQLite's INSERT OR REPLACE, transaction
    rollback, ORDER BY over TEXT, and LIMIT/OFFSET semantics. */
module Database {
  import opened Wrappers
  import Gmail
  import Digits

  /** The scalar columns of an `emails` row other than its key. */
  datatype Row = Row(
    threadId: string,
    subject: string,
    sender: string,
    recipient: string,
    date: string,
    body: string,
    snippet: string,
    internalDate: string)

  /** The contents of both tables. */
  datatype Tables = Tables(rows: map<string, Row>, labels: set<(string, string)>)

  const EmptyTables: Tables := Tables(map[], {})

  /** Every label pair names a stored email (the foreign key of `email_labels`). */
  predicate LabelsReferenceRows(t: Tables) {
    forall p | p in t.labels :: p.0 in t.rows
  }

  /** The row INSERT OR REPLACE writes for an email. */
  function RowOf(e: Gmail.Email): Row {
    Row(e.threadId, e.subject, e.from, e.to, e.date, e.body, e.snippet, e.internalDate)
  }

  /** The label pairs written for `id` and a label list. */
  function Pairs(id: string, ls: seq<string>): set<(string, string)> {
    if ls == [] then {} else Pairs(id, ls[..|ls| - 1]) + {(id, ls[|ls| - 1])}
  }

  lemma {:induction false} PairsMembership(id: string, ls: seq<string>)
    ensures forall p :: p in Pairs(id, ls) <==> p.0 == id && p.1 in ls
  {
    if ls != [] {
      PairsMembership(id, ls[..|ls| - 1]);
      assert forall l :: l in ls <==> l in ls[..|ls| - 1] || l == ls[|ls| - 1];
    }
  }

  /** The label pairs an email contributes: none unless its label list is present. */
  function LabelPairs(e: Gmail.Email): set<(string, string)> {
    if e.labelIds.Some? then Pairs(e.id, e.labelIds.value) else {}
  }

  /** One email's insert: its row replaces any row with its id, and its label
      pairs are added to those already stored. */
  function SaveOne(t: Tables, e: Gmail.Email): Tables {
    Tables(t.rows[e.id := RowOf(e)], t.labels + LabelPairs(e))
  }

  /** A committed batch: the emails' inserts applied in batch order. */
  function SaveAll(t: Tables, batch: seq<Gmail.Email>): Tables {
    if batch == [] then t else SaveOne(SaveAll(t, batch[..|batch| - 1]), batch[|batch| - 1])
  }

  /** After a save an id is stored exactly when it was stored before or is in the
      batch, and the row of an id the batch does not mention is untouched. */
  lemma {:induction false} SaveAllRows(t: Tables, batch: seq<Gmail.Email>)
    ensures forall id :: id in SaveAll(t, batch).rows <==>
              id in t.rows || exists i | 0 <= i < |batch| :: batch[i].id == id
    ensures forall id | id in t.rows && (forall i | 0 <= i < |batch| :: batch[i].id != id) ::
              SaveAll(t, batch).rows[id] == t.rows[id]
  {
    if batch != [] {
      var init := batch[..|batch| - 1];
      SaveAllRows(t, init);
      assert forall i | 0 <= i < |init| :: init[i] == batch[i];
    }
  }

  /** The row of an id holds the fields of the last email in the batch with that id. */
  lemma {:induction false} LastSaveWins(t: Tables, batch: seq<Gmail.Email>, i: nat)
    requires i < |batch|
    requires forall j | i < j < |batch| :: batch[j].id != batch[i].id
    ensures batch[i].id in SaveAll(t, batch).rows
    ensures SaveAll(t, batch).rows[batch[i].id] == RowOf(batch[i])
  {
    if i < |batch| - 1 {
      LastSaveWins(t, batch[..|batch| - 1], i);
    }
  }

  /** After a save the stored labels are the old ones together with every label
      listed by an email of the batch: nothing is removed. */
  lemma {:induction false} SaveAllLabels(t: Tables, batch: seq<Gmail.Email>)
    ensures forall p :: p in SaveAll(t, batch).labels <==>
              p in t.labels ||
              exists i | 0 <= i < |batch| :: batch[i].id == p.0 && batch[i].labelIds.Some? && p.1 in batch[i].labelIds.value
  {
    if batch != [] {
      var init, e := batch[..|batch| - 1], batch[|batch| - 1];
      SaveAllLabels(t, init);
      assert forall i | 0 <= i < |init| :: init[i] == batch[i];
      if e.labelIds.Some? {
        PairsMembership(e.id, e.labelIds.value);
      }
    }
  }

  /** A save keeps every label pair pointing at a stored row. */
  lemma SaveKeepsLabelsReferencingRows(t: Tables, batch: seq<Gmail.Email>)
    requires LabelsReferenceRows(t)
    ensures LabelsReferenceRows(SaveAll(t, batch))
  {
    SaveAllRows(t, batch);
    SaveAllLabels(t, batch);
    forall p | p in SaveAll(t, batch).labels ensures p.0 in SaveAll(t, batch).rows {
      if p !in t.labels {
        var i :| 0 <= i < |batch| && batch[i].id == p.0 && batch[i].labelIds.Some? && p.1 in batch[i].labelIds.value;
      }
    }
  }

  /** The last position of an id in a batch that mentions it. */
  lemma {:induction false} LastOccurrence(batch: seq<Gmail.Email>, id: string) returns (i: nat)
    requires exists j | 0 <= j < |batch| :: batch[j].id == id
    ensures i < |batch| && batch[i].id == id
    ensures forall j | i < j < |batch| :: batch[j].id != id
  {
    if batch[|batch| - 1].id == id {
      i := |batch| - 1;
    } else {
      var init := batch[..|batch| - 1];
      var j :| 0 <= j < |batch| && batch[j].id == id;
      assert init[j] == batch[j];
      i := LastOccurrence(init, id);
    }
  }

  /** Saving the same batch twice leaves the tables as saving it once. */
  lemma SaveIsIdempotent(t: Tables, batch: seq<Gmail.Email>)
    ensures SaveAll(SaveAll(t, batch), batch) == SaveAll(t, batch)
  {
    var once := SaveAll(t, batch);
    var twice := SaveAll(once, batch);
    SaveAllRows(t, batch);
    SaveAllRows(once, batch);
    SaveAllLabels(t, batch);
    SaveAllLabels(once, batch);
    forall id | id in twice.rows ensures twice.rows[id] == once.rows[id] {
      if exists j | 0 <= j < |batch| :: batch[j].id == id {
        var i := LastOccurrence(batch, id);
        LastSaveWins(t, batch, i);
        LastSaveWins(once, batch, i);
      }
    }
    assert twice.rows == once.rows;
    assert twice.labels == once.labels;
  }

  /** The labels stored for an email. */
  function LabelsOf(t: Tables, id: string): set<string> {
    set p | p in t.labels && p.0 == id :: p.1
  }

  /** A re-save never removes a label already stored for an email. */
  lemma LabelsAccumulate(t: Tables, batch: seq<Gmail.Email>, id: string)
    ensures LabelsOf(t, id) <= LabelsOf(SaveAll(t, batch), id)
  {
    SaveAllLabels(t, batch);
  }

  /** A full record as the point read returns it; `labels` is the label set. */
  datatype Record = Record(
    id: string,
    threadId: string,
    subject: string,
    from: string,
    to: string,
    date: string,
    body: string,
    snippet: string,
    internalDate: string,
    labels: set<string>)

  /** A record as the paged read returns it: every column but the body. */
  datatype Summary = Summary(
    id: string,
    threadId: string,
    subject: string,
    from: string,
    to: string,
    date: string,
    snippet: string,
    internalDate: string,
    labels: set<string>)

  /** The point read: nothing for an unknown id, else the row with its labels. */
  function FindById(t: Tables, id: string): (r: Option<Record>)
    ensures r.None? <==> id !in t.rows
  {
    if id !in t.rows then None
    else
      var w := t.rows[id];
      Some(Record(id, w.threadId, w.subject, w.sender, w.recipient, w.date, w.body, w.snippet,
                  w.internalDate, LabelsOf(t, id)))
  }

  /** A point read after a save returns the fields of the last email in the batch
      with that id, and labels gathered from what was stored and from every email
      of the batch with that id. */
  lemma SaveThenFind(t: Tables, batch: seq<Gmail.Email>, i: nat)
    requires i < |batch|
    requires forall j | i < j < |batch| :: batch[j].id != batch[i].id
    ensures var e := batch[i];
            var r := FindById(SaveAll(t, batch), e.id);
            && r.Some?
            && r.value == Record(e.id, e.threadId, e.subject, e.from, e.to, e.date, e.body, e.snippet,
                                 e.internalDate, r.value.labels)
            && forall l :: l in r.value.labels <==>
                 l in LabelsOf(t, e.id) ||
                 exists j | 0 <= j < |batch| :: batch[j].id == e.id && batch[j].labelIds.Some? && l in batch[j].labelIds.value
  {
    LastSaveWins(t, batch, i);
    SaveAllLabels(t, batch);
    var id := batch[i].id;
    var after := SaveAll(t, batch);
    forall l ensures l in LabelsOf(after, id) <==>
                 l in LabelsOf(t, id) ||
                 exists j | 0 <= j < |batch| :: batch[j].id == id && batch[j].labelIds.Some? && l in batch[j].labelIds.value
    {
      assert l in LabelsOf(after, id) <==> (id, l) in after.labels;
      assert l in LabelsOf(t, id) <==> (id, l) in t.labels;
    }
  }

  /** Saving an email into tables that hold no labels for it reads back as that
      email, its label list as a set. */
  lemma SaveOneThenFind(t: Tables, e: Gmail.Email)
    requires LabelsOf(t, e.id) <= (if e.labelIds.Some? then set l | l in e.labelIds.value else {})
    ensures FindById(SaveAll(t, [e]), e.id) ==
            Some(Record(e.id, e.threadId, e.subject, e.from, e.to, e.date, e.body, e.snippet, e.internalDate,
                        if e.labelIds.Some? then set l | l in e.labelIds.value else {}))
  {
    SaveThenFind(t, [e], 0);
    var r := FindById(SaveAll(t, [e]), e.id);
    var want: set<string> := if e.labelIds.Some? then set l | l in e.labelIds.value else {};
    assert r.value.labels == want;
  }

  /** SQLite's comparison of TEXT values under the default BINARY collation:
      lexicographic by character, a proper prefix first. */
  predicate TextLess(a: string, b: string)
    decreases |a|
  {
    if |a| == 0 then |b| > 0
    else |b| > 0 && (if a[0] != b[0] then a[0] < b[0] else TextLess(a[1..], b[1..]))
  }

  lemma {:induction false} TextLessIrreflexive(a: string)
    ensures !TextLess(a, a)
    decreases |a|
  {
    if |a| > 0 {
      TextLessIrreflexive(a[1..]);
    }
  }

  lemma {:induction false} TextLessTransitive(a: string, b: string, c: string)
    requires TextLess(a, b) && TextLess(b, c)
    ensures TextLess(a, c)
    decreases |a|
  {
    if |a| > 0 && a[0] == b[0] && b[0] == c[0] {
      TextLessTransitive(a[1..], b[1..], c[1..]);
    }
  }

  /** Distinct strings are ordered one way or the other. */
  lemma {:induction false} TextLessTotal(a: string, b: string)
    requires a != b
    ensures TextLess(a, b) || TextLess(b, a)
    decreases |a|
  {
    if |a| > 0 && |b| > 0 && a[0] == b[0] {
      assert a == [a[0]] + a[1..] && b == [b[0]] + b[1..];
      TextLessTotal(a[1..], b[1..]);
    }
  }

  /** Timestamps compared as TEXT: a longer number can sort below a shorter one. */
  lemma TextOrderIsNotNumeric()
    ensures TextLess("1000", "999")
  {
  }

  /** For digit strings of one length (millisecond timestamps of one width), the
      TEXT order is the numeric order. */
  lemma {:induction false} TextOrderIsNumericForEqualWidth(a: string, b: string)
    requires Digits.IsDigits(a) && Digits.IsDigits(b) && |a| == |b|
    ensures TextLess(a, b) <==> Digits.Value(a) < Digits.Value(b)
    decreases |a|
  {
    if |a| > 0 {
      var p := Digits.Pow10(|a| - 1);
      var da, db := a[0] as int - '0' as int, b[0] as int - '0' as int;
      var ra, rb := Digits.Value(a[1..]), Digits.Value(b[1..]);
      assert Digits.Value(a) == da * p + ra && Digits.Value(b) == db * p + rb;
      if da < db {
        Digits.LeadingDigitDominates(da, db, p, ra, rb);
      } else if db < da {
        Digits.LeadingDigitDominates(db, da, p, rb, ra);
      } else {
        TextOrderIsNumericForEqualWidth(a[1..], b[1..]);
      }
    }
  }

  predicate NoDuplicates(s: seq<string>) {
    forall i, j | 0 <= i < j < |s| :: s[i] != s[j]
  }

  /** `s` lists rows most recent `internal_date` first, compared as TEXT. */
  predicate NewestFirst(rows: map<string, Row>, s: seq<string>) {
    forall i, j | 0 <= i < j < |s| && s[i] in rows && s[j] in rows ::
      !TextLess(rows[s[i]].internalDate, rows[s[j]].internalDate)
  }

  /** `order` is an order ORDER BY internal_date DESC may produce: every stored id
      exactly once, most recent first, ties in any order. */
  predicate IsDateOrder(rows: map<string, Row>, order: seq<string>) {
    && |order| == |rows|
    && (forall i | 0 <= i < |order| :: order[i] in rows)
    && (forall k | k in rows :: k in order)
    && NoDuplicates(order)
    && NewestFirst(rows, order)
  }

  /** Inserts `k` into a newest-first list, before the first row older than it. */
  method InsertByDate(rows: map<string, Row>, order: seq<string>, k: string) returns (r: seq<string>)
    requires k in rows && k !in order
    requires forall i | 0 <= i < |order| :: order[i] in rows
    requires NoDuplicates(order) && NewestFirst(rows, order)
    ensures |r| == |order| + 1
    ensures forall x :: x in r <==> x in order || x == k
    ensures forall i | 0 <= i < |r| :: r[i] in rows
    ensures NoDuplicates(r) && NewestFirst(rows, r)
  {
    var d := rows[k].internalDate;
    var i := 0;
    while i < |order| && !TextLess(rows[order[i]].internalDate, d)
      invariant 0 <= i <= |order|
      invariant forall j | 0 <= j < i :: !TextLess(rows[order[j]].internalDate, d)
    {
      i := i + 1;
    }
    r := order[..i] + [k] + order[i..];
    assert forall j | 0 <= j < |r| :: r[j] == if j < i then order[j] else if j == i then k else order[j - 1];
    forall a, b | 0 <= a < b < |r|
      ensures !TextLess(rows[r[a]].internalDate, rows[r[b]].internalDate)
    {
      if a == i {
        var da, db, di := d, rows[r[b]].internalDate, rows[order[i]].internalDate;
        if TextLess(da, db) {
          TextLessTransitive(di, da, db);
          if b - 1 == i {
            TextLessIrreflexive(di);
          }
        }
      }
    }
  }

  /** Lists the stored ids in an order ORDER BY internal_date DESC may produce. */
  method OrderByDate(rows: map<string, Row>) returns (order: seq<string>)
    ensures IsDateOrder(rows, order)
  {
    order := [];
    var todo := rows.Keys;
    while todo != {}
      invariant todo <= rows.Keys
      invariant forall i | 0 <= i < |order| :: order[i] in rows
      invariant forall k | k in rows :: k in order <==> k !in todo
      invariant |order| + |todo| == |rows|
      invariant NoDuplicates(order) && NewestFirst(rows, order)
      decreases |todo|
    {
      var k :| k in todo;
      order := InsertByDate(rows, order, k);
      todo := todo - {k};
    }
  }

  /** Where OFFSET starts: a negative offset counts as zero. */
  function PageStart(offset: int, n: nat): (s: nat)
    ensures s <= n
  {
    if offset <= 0 then 0 else if offset >= n then n else offset
  }

  /** SQLite's LIMIT/OFFSET: skip `offset` rows, then keep at most `limit`; a
      negative limit keeps all. */
  function SqlPage<T>(s: seq<T>, limit: int, offset: int): (r: seq<T>)
    ensures forall i | 0 <= i < |r| :: PageStart(offset, |s|) + i < |s| && r[i] == s[PageStart(offset, |s|) + i]
    ensures limit >= 0 ==> |r| <= limit
    ensures |r| == if limit < 0 || PageStart(offset, |s|) + limit >= |s| then |s| - PageStart(offset, |s|) else limit
  {
    var start := PageStart(offset, |s|);
    var end := if limit < 0 || start + limit >= |s| then |s| else start + limit;
    s[start..end]
  }

  function SummaryOf(t: Tables, id: string): Summary
    requires id in t.rows
  {
    var w := t.rows[id];
    Summary(id, w.threadId, w.subject, w.sender, w.recipient, w.date, w.snippet, w.internalDate, LabelsOf(t, id))
  }

  /** The summaries of the listed ids, in list order: each carries its row's
      columns except the body, and exactly the labels stored for it, none when
      there are none. */
  function Summaries(t: Tables, ids: seq<string>): (r: seq<Summary>)
    requires forall i | 0 <= i < |ids| :: ids[i] in t.rows
    ensures |r| == |ids|
    ensures forall i | 0 <= i < |ids| ::
              var w := t.rows[ids[i]];
              && r[i].id == ids[i] && r[i].threadId == w.threadId && r[i].subject == w.subject
              && r[i].from == w.sender && r[i].to == w.recipient && r[i].date == w.date
              && r[i].snippet == w.snippet && r[i].internalDate == w.internalDate
    ensures forall i, l | 0 <= i < |ids| :: l in r[i].labels <==> (ids[i], l) in t.labels
    ensures forall i | 0 <= i < |ids| :: r[i].labels == {} <==> forall p | p in t.labels :: p.0 != ids[i]
  {
    seq(|ids|, i requires 0 <= i < |ids| => SummaryOf(t, ids[i]))
  }

  /** The first page of any date order holds the newest rows: no stored row left
      off it is more recent than a row on it. */
  lemma FirstPageIsNewest(rows: map<string, Row>, order: seq<string>, limit: nat, id: string, j: nat)
    requires IsDateOrder(rows, order)
    requires j < |SqlPage(order, limit, 0)|
    requires id in rows && id !in SqlPage(order, limit, 0)
    ensures !TextLess(rows[SqlPage(order, limit, 0)[j]].internalDate, rows[id].internalDate)
  {
    var page := SqlPage(order, limit, 0);
    var k :| 0 <= k < |order| && order[k] == id;
    assert k >= |page|;
    assert page[j] == order[j];
  }

  /** Rows dated 100, 300 and 200: the first page of two holds the ones dated 300
      and 200, in that order, whatever order ties would take. */
  lemma FirstPageOfThree(order: seq<string>)
    requires IsDateOrder(map["a" := Row("", "", "", "", "", "", "", "100"),
                             "b" := Row("", "", "", "", "", "", "", "300"),
                             "c" := Row("", "", "", "", "", "", "", "200")], order)
    ensures SqlPage(order, 2, 0) == ["b", "c"]
  {
    var rows := map["a" := Row("", "", "", "", "", "", "", "100"),
                    "b" := Row("", "", "", "", "", "", "", "300"),
                    "c" := Row("", "", "", "", "", "", "", "200")];
    assert |rows| == 3;
    assert "a" in order && "b" in order && "c" in order;
    assert TextLess("100", "300") && TextLess("100", "200") && TextLess("200", "300");
    assert order[0] == "b";
    assert order[1] == "c";
  }

  /** How a result column of a SELECT is named: not at all, by a bare name, or
      by a double-quoted name. */
  datatype Alias = NoAlias | Bare(name: string) | Quoted(name: string)

  /** One entry of a SELECT's result-column list. */
  datatype Column = Column(expr: string, alias: Alias)

  /** ASCII lower case; SQLite matches keywords regardless of case. */
  function Lower(s: string): (r: string)
    ensures |r| == |s|
  {
    if s == [] then []
    else [if 'A' <= s[0] <= 'Z' then (s[0] as int + 32) as char else s[0]] + Lower(s[1..])
  }

  /** A listed subset of SQLite's reserved words: keywords its grammar never
      takes as a bare name, unlike the keywords that fall back to identifiers. */
  const ReservedWords: set<string> := {
    "all", "and", "as", "distinct", "from", "group", "having", "in", "is", "limit",
    "not", "null", "on", "or", "order", "select", "to", "union", "where"}

  /** An alias the parser rejects: a bare reserved word. */
  predicate Rejected(a: Alias) {
    a.Bare? && Lower(a.name) in ReservedWords
  }

  /** The message of the parse error SQLite raises at `token`. */
  function SyntaxError(token: string): string {
    "near \"" + token + "\": syntax error"
  }

  /** What `prepare` throws for a result-column list: the parse error at the first
      rejected alias, or nothing when every alias is accepted. */
  function PrepareError(cols: seq<Column>): (r: Option<string>)
    ensures r.None? <==> forall i | 0 <= i < |cols| :: !Rejected(cols[i].alias)
    ensures r.Some? ==> exists i | 0 <= i < |cols| ::
              && Rejected(cols[i].alias) && r.value == SyntaxError(cols[i].alias.name)
              && forall j | 0 <= j < i :: !Rejected(cols[j].alias)
  {
    if cols == [] then None
    else if Rejected(cols[0].alias) then Some(SyntaxError(cols[0].alias.name))
    else
      var rest := PrepareError(cols[1..]);
      assert forall i | 1 <= i < |cols| :: cols[i] == cols[1..][i - 1];
      rest
  }

  /** The column list with every rejected alias double-quoted. */
  function QuoteReserved(cols: seq<Column>): (r: seq<Column>)
    ensures |r| == |cols|
    ensures forall i | 0 <= i < |cols| ::
              && r[i].expr == cols[i].expr
              && (cols[i].alias.NoAlias? <==> r[i].alias.NoAlias?)
              && (!cols[i].alias.NoAlias? ==> r[i].alias.name == cols[i].alias.name)
              && (!Rejected(cols[i].alias) ==> r[i] == cols[i])
    ensures PrepareError(r).None?
  {
    seq(|cols|, i requires 0 <= i < |cols| =>
      if Rejected(cols[i].alias) then Column(cols[i].expr, Quoted(cols[i].alias.name)) else cols[i])
  }

  /** The result columns of the paged read as written: `from` and `to` are bare. */
  const ListColumns: seq<Column> := [
    Column("e.id", NoAlias), Column("e.thread_id", Bare("threadId")), Column("e.subject", NoAlias),
    Column("e.sender", Bare("from")), Column("e.recipient", Bare("to")), Column("e.date", NoAlias),
    Column("e.snippet", NoAlias), Column("e.internal_date", Bare("internalDate")),
    Column("GROUP_CONCAT(el.label)", Bare("labels"))]

  /** The result columns of the point read as written, which add the body. */
  const PointColumns: seq<Column> := [
    Column("e.id", NoAlias), Column("e.thread_id", Bare("threadId")), Column("e.subject", NoAlias),
    Column("e.sender", Bare("from")), Column("e.recipient", Bare("to")), Column("e.date", NoAlias),
    Column("e.body", NoAlias), Column("e.snippet", NoAlias), Column("e.internal_date", Bare("internalDate")),
    Column("GROUP_CONCAT(el.label)", Bare("labels"))]

  /** The error both read statements raise. */
  const FromSyntaxError: string := SyntaxError("from")

  /** A column without a rejected alias leaves the error to the columns after it. */
  lemma PrepareSkips(cols: seq<Column>)
    requires cols != [] && !Rejected(cols[0].alias)
    ensures PrepareError(cols) == PrepareError(cols[1..])
  {
  }

  lemma FromIsRejected()
    ensures Rejected(Bare("from"))
  {
    var w := Lower("from");
    assert w == "from" by { }
    assert w in ReservedWords by { }
  }

  lemma ThreadIdIsAccepted()
    ensures !Rejected(Bare("threadId"))
  {
    var w := Lower("threadId");
    assert w == "threadid" by { }
    assert w !in ReservedWords by { }
  }

  /** A list whose first rejected alias is its fourth fails with that alias. */
  lemma FailsAtFourth(cols: seq<Column>)
    requires |cols| >= 4 && Rejected(cols[3].alias)
    requires !Rejected(cols[0].alias) && !Rejected(cols[1].alias) && !Rejected(cols[2].alias)
    ensures PrepareError(cols) == Some(SyntaxError(cols[3].alias.name))
  {
    var t := cols[3..];
    assert PrepareError(t) == Some(SyntaxError(cols[3].alias.name));
    assert PrepareError(cols[2..]) == PrepareError(t) by {
      assert cols[2..][1..] == t;
      PrepareSkips(cols[2..]);
    }
    assert PrepareError(cols[1..]) == PrepareError(cols[2..]) by {
      assert cols[1..][1..] == cols[2..];
      PrepareSkips(cols[1..]);
    }
    PrepareSkips(cols);
  }

  /** A list that starts like both read statements fails at the bare `from`. */
  lemma FailsAtFrom(cols: seq<Column>)
    requires |cols| >= 4 && cols[0].alias.NoAlias? && cols[1].alias == Bare("threadId")
    requires cols[2].alias.NoAlias? && cols[3].alias == Bare("from")
    ensures PrepareError(cols) == Some(FromSyntaxError)
  {
    ThreadIdIsAccepted();
    FromIsRejected();
    FailsAtFourth(cols);
  }

  /** The paged read's result columns, as written, fail to prepare at the bare
      alias `from`. */
  lemma ListStatementDoesNotPrepare()
    ensures PrepareError(ListColumns) == Some(FromSyntaxError)
  {
    FailsAtFrom(ListColumns);
  }

  /** The point read's result columns, as written, fail to prepare at the bare
      alias `from`. */
  lemma PointStatementDoesNotPrepare()
    ensures PrepareError(PointColumns) == Some(FromSyntaxError)
  {
    FailsAtFrom(PointColumns);
  }

  /** The database handle and the database file it opens. */
  class EmailStore {
    /** The module-level handle is open. */
    var open: bool
    /** The file holds both tables. */
    var hasSchema: bool
    /** The contents of the tables. */
    var tables: Tables

    ghost predicate Valid()
      reads this
    {
      LabelsReferenceRows(tables) && (!hasSchema ==> tables == EmptyTables) && (open ==> hasSchema)
    }

    /** Process start: no handle yet, the file as a previous run left it. */
    constructor (hasSchema: bool, tables: Tables)
      requires LabelsReferenceRows(tables) && (!hasSchema ==> tables == EmptyTables)
      ensures Valid() && !open && this.hasSchema == hasSchema && this.tables == tables
    {
      this.open := false;
      this.hasSchema := hasSchema;
      this.tables := tables;
    }

    /** Opens the handle and creates each table only if it is absent; stored data
        survives, so a second call changes nothing. */
    method InitDatabase()
      requires Valid()
      modifies this
      ensures Valid() && open && hasSchema
      ensures tables == old(tables)
    {
      open := true;
      if !hasSchema {
        hasSchema := true;
        tables := EmptyTables;
      }
    }

    method EnsureOpen()
      requires Valid()
      modifies this
      ensures Valid() && open && tables == old(tables)
    {
      if !open {
        InitDatabase();
      }
    }

    /** Saves a batch in one transaction.  `fault(e)` is the error SQLite raises
        while writing `e`'s rows, if any: the first such error is rethrown and the
        transaction leaves both tables as they were. */
    method SaveEmails(batch: seq<Gmail.Email>, fault: Gmail.Email -> Option<string>) returns (r: Result<nat, string>)
      requires Valid()
      modifies this
      ensures Valid() && open
      ensures r.Ok? <==> forall i | 0 <= i < |batch| :: fault(batch[i]).None?
      ensures r.Ok? ==> r.value == |batch| && tables == SaveAll(old(tables), batch)
      ensures r.Err? ==> tables == old(tables)
      ensures r.Err? ==> exists i | 0 <= i < |batch| ::
                fault(batch[i]) == Some(r.error) && forall j | 0 <= j < i :: fault(batch[j]).None?
    {
      EnsureOpen();
      var rows, labels := tables.rows, tables.labels;
      var i := 0;
      while i < |batch|
        invariant 0 <= i <= |batch|
        invariant Tables(rows, labels) == SaveAll(tables, batch[..i])
        invariant forall j | 0 <= j < i :: fault(batch[j]).None?
      {
        var e := batch[i];
        var failure := fault(e);
        if failure.Some? {
          return Err(failure.value);
        }
        rows := rows[e.id := RowOf(e)];
        if e.labelIds.Some? {
          var ls := e.labelIds.value;
          ghost var before := labels;
          var k := 0;
          while k < |ls|
            invariant 0 <= k <= |ls|
            invariant labels == before + Pairs(e.id, ls[..k])
          {
            assert ls[..k + 1][..k] == ls[..k];
            labels := labels + {(e.id, ls[k])};
            k := k + 1;
          }
          assert ls[..k] == ls;
        }
        assert batch[..i + 1][..i] == batch[..i];
        i := i + 1;
      }
      assert batch[..i] == batch;
      SaveKeepsLabelsReferencingRows(tables, batch);
      tables := Tables(rows, labels);
      r := Ok(|batch|);
    }

    /** Prepares the paged read with result columns `cols`, then runs it: rows
        most recent first by `internal_date` compared as TEXT, `offset` skipped
        (default 0), at most `limit` kept (default 100), no body.  A column list
        the parser rejects throws before anything is read. */
    method ListEmails(cols: seq<Column>, limit: Option<int>, offset: Option<int>)
      returns (r: Result<seq<Summary>, string>)
      requires Valid()
      modifies this
      ensures Valid() && open && tables == old(tables)
      ensures PrepareError(cols).Some? ==> r == Err(PrepareError(cols).value)
      ensures PrepareError(cols).None? ==>
                r.Ok? && exists order | IsDateOrder(tables.rows, order) ::
                  r.value == Summaries(tables, SqlPage(order, limit.GetOr(100), offset.GetOr(0)))
    {
      EnsureOpen();
      var failure := PrepareError(cols);
      if failure.Some? {
        return Err(failure.value);
      }
      var order := OrderByDate(tables.rows);
      r := Ok(Summaries(tables, SqlPage(order, limit.GetOr(100), offset.GetOr(0))));
    }

    /** `getEmails` as written: the bare alias `from` makes `prepare` throw on every
        call, whatever the tables hold; the handle is still opened first. */
    method GetEmails(limit: Option<int>, offset: Option<int>) returns (r: Result<seq<Summary>, string>)
      requires Valid()
      modifies this
      ensures Valid() && open && tables == old(tables)
      ensures r == Err(FromSyntaxError)
    {
      ListStatementDoesNotPrepare();
      r := ListEmails(ListColumns, limit, offset);
    }

    /** `getEmails` with the reserved aliases quoted: a page of summaries of a
        newest-first order of all rows. */
    method GetEmailsIntended(limit: Option<int>, offset: Option<int>) returns (page: seq<Summary>)
      requires Valid()
      modifies this
      ensures Valid() && open && tables == old(tables)
      ensures exists order | IsDateOrder(tables.rows, order) ::
                page == Summaries(tables, SqlPage(order, limit.GetOr(100), offset.GetOr(0)))
    {
      var r := ListEmails(QuoteReserved(ListColumns), limit, offset);
      page := r.value;
    }

    /** Prepares the point read with result columns `cols`, then runs it: nothing
        for an unknown id, else the full record.  A column list the parser rejects
        throws before anything is read. */
    method ReadEmail(cols: seq<Column>, id: string) returns (r: Result<Option<Record>, string>)
      requires Valid()
      modifies this
      ensures Valid() && open && tables == old(tables)
      ensures PrepareError(cols).Some? ==> r == Err(PrepareError(cols).value)
      ensures PrepareError(cols).None? ==> r == Ok(FindById(tables, id))
    {
      EnsureOpen();
      var failure := PrepareError(cols);
      if failure.Some? {
        return Err(failure.value);
      }
      r := Ok(FindById(tables, id));
    }

    /** `getEmailById` as written: `prepare` throws on the bare alias `from` for
        every id. */
    method GetEmailById(id: string) returns (r: Result<Option<Record>, string>)
      requires Valid()
      modifies this
      ensures Valid() && open && tables == old(tables)
      ensures r == Err(FromSyntaxError)
    {
      PointStatementDoesNotPrepare();
      r := ReadEmail(PointColumns, id);
    }

    /** `getEmailById` with the reserved aliases quoted: nothing for an unknown id,
        else the full record. */
    method GetEmailByIdIntended(id: string) returns (r: Option<Record>)
      requires Valid()
      modifies this
      ensures Valid() && open && tables == old(tables)
      ensures r == FindById(tables, id)
    {
      var res := ReadEmail(QuoteReserved(PointColumns), id);
      r := res.value;
    }
  }
}
