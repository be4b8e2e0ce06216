/** How the Edulink scraper reads the tables of a page: the header dict of a table,
    the search for the table with the wanted headers, the lookup of a cell by header
    aliases, and the row loops that keep outstanding homework and the behaviour and
    mail entries of one day. A table arrives as the texts of its header and body
    cells; loading pages and parsing HTML are outside the model. */
module EduScraper {
  import opened Wrappers
  import opened Text
  import opened Calendar
  import opened EduUtils
  import opened EduModels

  /** A `<table>` as the scraper sees it: the texts of its `thead th` cells, of all its
      `tr th` cells, and of the `td` cells of each `tbody tr` row. */
  datatype Table = Table(headCells: seq<string>, rowHeaderCells: seq<string>, bodyRows: seq<seq<string>>)

  /** One item of a header dict: a header key and its column. */
  datatype Column = Column(key: string, index: nat)

  /** A header dict (`Dict[str, int]`), its items in insertion order. */
  type HeaderMap = seq<Column>

  /** `header_map.keys()`, in order. */
  function Keys(m: HeaderMap): (r: seq<string>)
    ensures |r| == |m| && forall p :: 0 <= p < |m| ==> r[p] == m[p].key
  {
    seq(|m|, p requires 0 <= p < |m| => m[p].key)
  }

  /** The first position of `k` in `ks`, if any. */
  function IndexOf(ks: seq<string>, k: string): (r: Option<nat>)
    ensures r.Some? ==> r.value < |ks| && ks[r.value] == k
    ensures r.Some? ==> forall q :: 0 <= q < r.value ==> ks[q] != k
    ensures r.None? <==> k !in ks
  {
    if ks == [] then None
    else if ks[0] == k then Some(0)
    else
      assert ks == [ks[0]] + ks[1..];
      match IndexOf(ks[1..], k)
      case Some(p) => Some(p + 1)
      case None => None
  }

  /** `header_map.get(k)`. */
  function Get(m: HeaderMap, k: string): Option<nat> {
    match IndexOf(Keys(m), k)
    case Some(p) => Some(m[p].index)
    case None => None
  }

  /** Looking a key up in a list with one more key at the end. */
  lemma {:induction false} IndexOfSnoc(ks: seq<string>, x: string, k: string)
    ensures IndexOf(ks + [x], k) == if k in ks then IndexOf(ks, k) else if k == x then Some(|ks|) else None
    decreases |ks|
  {
    if ks == [] {
      assert ks + [x] == [x];
    } else {
      var t := ks + [x];
      assert t[0] == ks[0] && t[1..] == ks[1..] + [x];
      assert ks == [ks[0]] + ks[1..];
      if ks[0] != k {
        IndexOfSnoc(ks[1..], x, k);
      }
    }
  }

  /** `header_map[k] = v`: a key already present keeps its place and takes the new
      column; a new key goes last; no other key changes. */
  function Put(m: HeaderMap, k: string, v: nat): (r: HeaderMap)
    ensures Keys(r) == if k in Keys(m) then Keys(m) else Keys(m) + [k]
    ensures Get(r, k) == Some(v)
    ensures forall other :: other != k ==> Get(r, other) == Get(m, other)
  {
    match IndexOf(Keys(m), k)
    case Some(p) =>
      var r := m[p := Column(k, v)];
      assert Keys(r) == Keys(m);
      r
    case None =>
      var r := m + [Column(k, v)];
      assert Keys(r) == Keys(m) + [k];
      forall other | other != k ensures Get(r, other) == Get(m, other) {
        IndexOfSnoc(Keys(m), k, other);
      }
      IndexOfSnoc(Keys(m), k, k);
      r
  }

  /** The dict key of a header cell: its normalised, lowercased text. */
  function HeaderKey(text: string): string {
    Lower(NormaliseWhitespace(Some(text)))
  }

  /** The keys of a row of header cells, one per column. */
  function HeaderKeys(headers: seq<string>): (r: seq<string>)
    ensures |r| == |headers| && forall i :: 0 <= i < |headers| ==> r[i] == HeaderKey(headers[i])
  {
    seq(|headers|, i requires 0 <= i < |headers| => HeaderKey(headers[i]))
  }

  /** The cells `_map_table_headers` reads: `thead th`, or `tr th` when there are none. */
  function HeaderTexts(t: Table): seq<string> {
    if |t.headCells| > 0 then t.headCells else t.rowHeaderCells
  }

  /** The dict built from the keys of columns 0, 1, ...: an empty key is skipped but
      still uses up its column. */
  function MapKeys(ks: seq<string>): HeaderMap {
    if ks == [] then []
    else
      var m := MapKeys(ks[..|ks| - 1]);
      var k := ks[|ks| - 1];
      if k == "" then m else Put(m, k, |ks| - 1)
  }

  /** One more column adds its key, unless the key is empty. */
  lemma MapKeysNext(ks: seq<string>, i: nat)
    requires i < |ks|
    ensures MapKeys(ks[..i + 1]) == if ks[i] == "" then MapKeys(ks[..i]) else Put(MapKeys(ks[..i]), ks[i], i)
  {
    assert ks[..i + 1][..i] == ks[..i];
  }

  /** `_map_table_headers(table)` as a value. */
  function HeaderMapOf(headers: seq<string>): HeaderMap {
    MapKeys(HeaderKeys(headers))
  }

  /** `_map_table_headers(table)`. */
  method MapTableHeaders(table: Table) returns (mapping: HeaderMap)
    ensures mapping == HeaderMapOf(HeaderTexts(table))
  {
    var headers := table.headCells;
    if |headers| == 0 {
      headers := table.rowHeaderCells;
    }
    ghost var ks := HeaderKeys(headers);
    mapping := [];
    for idx := 0 to |headers|
      invariant mapping == MapKeys(ks[..idx])
    {
      var text := Lower(NormaliseWhitespace(Some(headers[idx])));
      MapKeysNext(ks, idx);
      assert text == ks[idx];
      if text != "" {
        mapping := Put(mapping, text, idx);
      }
    }
    assert ks[..|headers|] == ks;
  }

  /** A key maps to the LAST column that carries it, and only non-empty keys that some
      column carries are present. */
  lemma {:induction false} MapKeysLookup(ks: seq<string>, k: string)
    ensures Get(MapKeys(ks), k).Some? ==>
              var i := Get(MapKeys(ks), k).value;
              k != "" && i < |ks| && ks[i] == k && forall j :: i < j < |ks| ==> ks[j] != k
    ensures Get(MapKeys(ks), k).None? <==> k == "" || k !in ks
    decreases |ks|
  {
    if ks != [] {
      var n := |ks| - 1;
      var prefix := ks[..n];
      assert ks == prefix + [ks[n]];
      MapKeysLookup(prefix, k);
    }
  }

  /** The non-empty keys of `ks` in the order they first appear, each once. */
  function FirstAppearances(ks: seq<string>): (r: seq<string>)
    ensures forall k :: k in r <==> k != "" && k in ks
  {
    if ks == [] then []
    else
      var n := |ks| - 1;
      assert ks == ks[..n] + [ks[n]];
      var d := FirstAppearances(ks[..n]);
      if ks[n] == "" || ks[n] in d then d else d + [ks[n]]
  }

  /** Each key is listed once, and in the order of its first appearance. */
  lemma {:induction false} FirstAppearancesOrder(ks: seq<string>)
    ensures forall p, q :: 0 <= p < q < |FirstAppearances(ks)| ==>
              FirstAppearances(ks)[p] != FirstAppearances(ks)[q]
    ensures forall p, q :: 0 <= p < q < |FirstAppearances(ks)| ==>
              IndexOf(ks, FirstAppearances(ks)[p]).value < IndexOf(ks, FirstAppearances(ks)[q]).value
    decreases |ks|
  {
    if ks != [] {
      var n := |ks| - 1;
      var prefix := ks[..n];
      assert ks == prefix + [ks[n]];
      FirstAppearancesOrder(prefix);
      var d := FirstAppearances(prefix);
      var r := FirstAppearances(ks);
      forall k | k in d ensures IndexOf(ks, k) == IndexOf(prefix, k) {
        IndexOfSnoc(prefix, ks[n], k);
      }
      if !(ks[n] == "" || ks[n] in d) {
        IndexOfSnoc(prefix, ks[n], ks[n]);
        assert r == d + [ks[n]];
        forall p | 0 <= p < |d| ensures IndexOf(ks, r[p]).value < n {
          assert r[p] == d[p] && d[p] in d;
        }
      }
    }
  }

  /** The dict's keys are the non-empty keys of the columns in order of first appearance:
      a repeated key keeps its first place. */
  lemma {:induction false} MapKeysOrder(ks: seq<string>)
    ensures Keys(MapKeys(ks)) == FirstAppearances(ks)
    decreases |ks|
  {
    if ks != [] {
      var n := |ks| - 1;
      MapKeysOrder(ks[..n]);
    }
  }

  /** `_map_table_headers`: keys are the normalised lowercase header texts, each once,
      in order of first appearance; each maps to the last column that carries it. */
  lemma HeaderMapFacts(headers: seq<string>, k: string)
    ensures Keys(HeaderMapOf(headers)) == FirstAppearances(HeaderKeys(headers))
    ensures Get(HeaderMapOf(headers), k).Some? ==>
              var i := Get(HeaderMapOf(headers), k).value;
              k != "" && i < |headers| && HeaderKey(headers[i]) == k
              && forall j :: i < j < |headers| ==> HeaderKey(headers[j]) != k
    ensures Get(HeaderMapOf(headers), k).None? <==>
              k == "" || forall j :: 0 <= j < |headers| ==> HeaderKey(headers[j]) != k
  {
    var ks := HeaderKeys(headers);
    MapKeysOrder(ks);
    MapKeysLookup(ks, k);
    if k !in ks {
      forall j | 0 <= j < |headers| ensures HeaderKey(headers[j]) != k {
        assert ks[j] == HeaderKey(headers[j]);
      }
    }
  }

  /** `{h.lower() for h in required}.issubset(set(keys))`. */
  predicate Covers(keys: seq<string>, required: seq<string>) {
    forall i :: 0 <= i < |required| ==> Lower(required[i]) in keys
  }

  /** True when the table's header keys include every required header, lowercased, as
      a whole key. */
  predicate HasHeaders(t: Table, required: seq<string>) {
    Covers(Keys(HeaderMapOf(HeaderTexts(t))), required)
  }

  /** The header keys of each table. */
  function TableKeys(tables: seq<Table>): (r: seq<seq<string>>)
    ensures |r| == |tables|
    ensures forall i :: 0 <= i < |tables| ==> r[i] == Keys(HeaderMapOf(HeaderTexts(tables[i])))
  {
    seq(|tables|, i requires 0 <= i < |tables| => Keys(HeaderMapOf(HeaderTexts(tables[i]))))
  }

  /** The scan of `_find_table_with_header` from table `i` on, given each table's keys. */
  function FindFrom(keys: seq<seq<string>>, required: seq<string>, i: nat): (r: Option<nat>)
    ensures r.Some? ==> i <= r.value < |keys|
    decreases |keys| - i
  {
    if i >= |keys| then None
    else if Covers(keys[i], required) then Some(i)
    else FindFrom(keys, required, i + 1)
  }

  /** `_find_table_with_header(soup, required)` as a value: the position of the table
      it returns. */
  function FindTable(tables: seq<Table>, required: seq<string>): (r: Option<nat>)
    ensures r.Some? ==> r.value < |tables|
  {
    FindFrom(TableKeys(tables), required, 0)
  }

  /** The scan from `i` stops at the first table from `i` on with every required header. */
  lemma {:induction false} FindFromFirst(keys: seq<seq<string>>, required: seq<string>, i: nat)
    ensures FindFrom(keys, required, i).Some? ==>
              var t := FindFrom(keys, required, i).value;
              Covers(keys[t], required) && forall j :: i <= j < t ==> !Covers(keys[j], required)
    ensures FindFrom(keys, required, i).None? ==>
              forall j :: i <= j < |keys| ==> !Covers(keys[j], required)
    decreases |keys| - i
  {
    if i < |keys| && !Covers(keys[i], required) {
      FindFromFirst(keys, required, i + 1);
    }
  }

  /** `_find_table_with_header` returns the first table whose header keys include every
      lowercased required header, or None when no table has them all. */
  lemma FindTableFirst(tables: seq<Table>, required: seq<string>)
    ensures FindTable(tables, required).Some? ==>
              var t := FindTable(tables, required).value;
              HasHeaders(tables[t], required) && forall j :: 0 <= j < t ==> !HasHeaders(tables[j], required)
    ensures FindTable(tables, required).None? ==>
              forall j :: 0 <= j < |tables| ==> !HasHeaders(tables[j], required)
  {
    var keys := TableKeys(tables);
    FindFromFirst(keys, required, 0);
    forall j | 0 <= j < |tables| ensures HasHeaders(tables[j], required) == Covers(keys[j], required) {
    }
  }

  /** `_find_table_with_header(soup, required)`. */
  method FindTableWithHeader(tables: seq<Table>, required: seq<string>) returns (r: Option<nat>)
    ensures r == FindTable(tables, required)
  {
    ghost var keys := TableKeys(tables);
    for i := 0 to |tables|
      invariant FindTable(tables, required) == FindFrom(keys, required, i)
    {
      var headerMap := MapTableHeaders(tables[i]);
      assert Keys(headerMap) == keys[i];
      if Covers(Keys(headerMap), required) {
        return Some(i);
      }
    }
    return None;
  }

  /** The `if` of `_value_for_header`: the alias equals the header or occurs in it. */
  predicate Matches(alias: string, header: string) {
    Lower(alias) == header || Contains(header, Lower(alias))
  }

  /** The equality test adds nothing: a header matches exactly when the lowercased alias
      occurs in it. */
  lemma MatchesIsSubstring(alias: string, header: string)
    ensures Matches(alias, header) <==> Contains(header, Lower(alias))
  {
    if Lower(alias) == header {
      ContainsAt(header, header, 0);
    }
  }

  /** The stripped text of column `index`, when the row has that column and the text is
      not blank. */
  function Cell(values: seq<string>, index: nat): (r: Option<string>)
    ensures r.Some? ==> index < |values| && r.value == Strip(values[index]) && r.value != ""
    ensures r.None? ==> index >= |values| || Strip(values[index]) == ""
  {
    if index < |values| && Strip(values[index]) != "" then Some(Strip(values[index])) else None
  }

  /** Column `c` matches `alias` and holds a usable value. */
  predicate Hit(values: seq<string>, c: Column, alias: string) {
    Matches(alias, c.key) && Cell(values, c.index).Some?
  }

  /** The inner loop of `_value_for_header`: the first column, in dict order, that
      matches `alias` and holds a value. */
  function ForAlias(values: seq<string>, m: HeaderMap, alias: string): (r: Option<string>)
    ensures r.Some? ==> r.value != "" && Stripped(r.value)
  {
    if m == [] then None
    else if Hit(values, m[0], alias) then Cell(values, m[0].index)
    else ForAlias(values, m[1..], alias)
  }

  /** `_value_for_header(values, header_map, aliases)` as a value. */
  function ValueFor(values: seq<string>, m: HeaderMap, aliases: seq<string>): (r: Option<string>)
    ensures r.Some? ==> r.value != "" && Stripped(r.value)
  {
    if aliases == [] then None
    else
      match ForAlias(values, m, aliases[0])
      case Some(v) => Some(v)
      case None => ValueFor(values, m, aliases[1..])
  }

  /** Within one alias, columns are tried in dict order: the value comes from the first
      column that matches and holds a value. */
  lemma {:induction false} ForAliasFirstHit(values: seq<string>, m: HeaderMap, alias: string, p: nat)
    requires p < |m| && Hit(values, m[p], alias)
    requires forall q :: 0 <= q < p ==> !Hit(values, m[q], alias)
    ensures ForAlias(values, m, alias) == Cell(values, m[p].index)
    decreases p
  {
    if p > 0 {
      assert !Hit(values, m[0], alias);
      ForAliasFirstHit(values, m[1..], alias, p - 1);
    }
  }

  /** An alias finds nothing exactly when no column matches it with a value. */
  lemma {:induction false} ForAliasNone(values: seq<string>, m: HeaderMap, alias: string)
    ensures ForAlias(values, m, alias).None? <==> forall q :: 0 <= q < |m| ==> !Hit(values, m[q], alias)
    decreases |m|
  {
    if m != [] {
      ForAliasNone(values, m[1..], alias);
      if !Hit(values, m[0], alias) {
        assert forall q :: 1 <= q < |m| ==> m[q] == m[1..][q - 1];
      }
    }
  }

  /** Aliases are tried in order: the value comes from the first alias that finds one. */
  lemma {:induction false} ValueForFirstAlias(values: seq<string>, m: HeaderMap, aliases: seq<string>, i: nat)
    requires i < |aliases| && ForAlias(values, m, aliases[i]).Some?
    requires forall j :: 0 <= j < i ==> ForAlias(values, m, aliases[j]).None?
    ensures ValueFor(values, m, aliases) == ForAlias(values, m, aliases[i])
    decreases i
  {
    if i > 0 {
      assert ForAlias(values, m, aliases[0]).None?;
      ValueForFirstAlias(values, m, aliases[1..], i - 1);
    }
  }

  /** No alias finding anything is the only way to get None. */
  lemma {:induction false} ValueForNone(values: seq<string>, m: HeaderMap, aliases: seq<string>)
    ensures ValueFor(values, m, aliases).None? <==> forall i :: 0 <= i < |aliases| ==> ForAlias(values, m, aliases[i]).None?
    decreases |aliases|
  {
    if aliases != [] {
      ValueForNone(values, m, aliases[1..]);
      if ForAlias(values, m, aliases[0]).None? {
        assert forall i :: 1 <= i < |aliases| ==> aliases[i] == aliases[1..][i - 1];
      }
    }
  }

  /** `_value_for_header(values, header_map, aliases)`. */
  method ValueForHeader(values: seq<string>, headerMap: HeaderMap, aliases: seq<string>) returns (r: Option<string>)
    ensures r == ValueFor(values, headerMap, aliases)
  {
    for i := 0 to |aliases|
      invariant ValueFor(values, headerMap, aliases) == ValueFor(values, headerMap, aliases[i..])
    {
      var alias := aliases[i];
      var aliasLower := Lower(alias);
      assert aliases[i..][0] == alias && aliases[i..][1..] == aliases[i + 1..];
      for p := 0 to |headerMap|
        invariant ForAlias(values, headerMap, alias) == ForAlias(values, headerMap[p..], alias)
      {
        var column := headerMap[p];
        assert headerMap[p..][0] == column && headerMap[p..][1..] == headerMap[p + 1..];
        if aliasLower == column.key || Contains(column.key, aliasLower) {
          if column.index < |values| {
            var value := Strip(values[column.index]);
            if value != "" {
              return Some(value);
            }
          }
        }
      }
    }
    return None;
  }

  /** `[normalise_whitespace(cell.get_text()) for cell in cells]`. */
  function RowValues(cells: seq<string>): (r: seq<string>)
    ensures |r| == |cells|
    ensures forall k :: 0 <= k < |cells| ==> r[k] == NormaliseWhitespace(Some(cells[k]))
  {
    seq(|cells|, k requires 0 <= k < |cells| => NormaliseWhitespace(Some(cells[k])))
  }

  /** The body of a row loop: the items each row yields, in row order. */
  function Kept<T>(rows: seq<seq<string>>, row: seq<string> -> Option<T>): (r: seq<T>)
    ensures |r| <= |rows|
  {
    if rows == [] then []
    else
      var prefix := Kept(rows[..|rows| - 1], row);
      match row(rows[|rows| - 1])
      case Some(x) => prefix + [x]
      case None => prefix
  }

  /** One more row adds its item, if it yields one. */
  lemma KeptNext<T>(rows: seq<seq<string>>, row: seq<string> -> Option<T>, i: nat)
    requires i < |rows|
    ensures Kept(rows[..i + 1], row) == Kept(rows[..i], row) + (if row(rows[i]).Some? then [row(rows[i]).value] else [])
  {
    assert rows[..i + 1][..i] == rows[..i];
  }

  /** Whatever holds of every item a row can yield holds of every kept item. */
  lemma {:induction false} KeptOnly<T>(rows: seq<seq<string>>, row: seq<string> -> Option<T>, p: T -> bool)
    requires forall cells :: row(cells).Some? ==> p(row(cells).value)
    ensures forall k :: 0 <= k < |Kept(rows, row)| ==> p(Kept(rows, row)[k])
    decreases |rows|
  {
    if rows != [] {
      KeptOnly(rows[..|rows| - 1], row, p);
    }
  }

  /** A homework row is outstanding when its submission text is non-empty and says "not". */
  predicate Outstanding(submission: Option<string>) {
    TruthyText(submission) && Contains(Lower(submission.value), "not")
  }

  /** The homework item a `tbody` row yields: rows without cells and rows that are not
      outstanding yield none. The teacher column is looked up but never stored: the
      model's `set_by` field is populated only under its alias `teacher`, so the
      `set_by=` keyword is ignored as an unknown field and the item keeps None. */
  function HomeworkRow(m: HeaderMap, cells: seq<string>, parser: string -> Option<Ordinal>): (r: Option<HomeworkItem>)
    ensures r.Some? <==> cells != [] && Outstanding(ValueFor(RowValues(cells), m, ["submission"]))
    ensures r.Some? ==> r.value.submissionStatus == ValueFor(RowValues(cells), m, ["submission"])
    ensures r.Some? ==> r.value.setBy.None?
  {
    if cells == [] then None
    else
      var values := RowValues(cells);
      var submission := ValueFor(values, m, ["submission"]);
      if Outstanding(submission) then
        Some(HomeworkItem(
          subject := ValueFor(values, m, ["subject", "class"]),
          title := ValueFor(values, m, ["title", "description", "homework"]),
          setBy := None,
          dueDate := ParseDate(Some(ValueFor(values, m, ["due", "deadline"]).GetOr("")), parser),
          submissionStatus := submission,
          details := ValueFor(values, m, ["details", "notes"])))
      else None
  }

  /** `int(points_text)` when there is a text; a text that is not an integer gives None. */
  function Points(text: Option<string>): (r: Option<int>)
    ensures r.Some? <==> text.Some? && ParseInt(text.value).Some?
    ensures r.Some? ==> ParseInt(text.value) == r
  {
    if text.Some? then ParseInt(text.value) else None
  }

  /** The behaviour entry a `tbody` row yields: only rows dated `target` yield one. */
  function BehaviourRow(m: HeaderMap, cells: seq<string>, target: Ordinal, parser: string -> Option<Ordinal>): (r: Option<BehaviourEntry>)
    ensures r.Some? <==> cells != [] && ParseDate(ValueFor(RowValues(cells), m, ["date"]), parser) == Some(target)
    ensures r.Some? ==> r.value.date == Some(target)
    ensures r.Some? ==> r.value.points == Points(ValueFor(RowValues(cells), m, ["points", "score"]))
  {
    if cells == [] then None
    else
      var values := RowValues(cells);
      var entryDate := ParseDate(ValueFor(values, m, ["date"]), parser);
      if entryDate != Some(target) then None
      else
        Some(BehaviourEntry(
          date := entryDate,
          category := ValueFor(values, m, ["type", "category"]),
          points := Points(ValueFor(values, m, ["points", "score"])),
          description := ValueFor(values, m, ["description", "reason", "details"]),
          staff := ValueFor(values, m, ["staff", "teacher"])))
  }

  /** The mail entry a `tbody` row yields: only rows dated `target` yield one. */
  function MailRow(m: HeaderMap, cells: seq<string>, target: Ordinal, parser: string -> Option<Ordinal>): (r: Option<MailEntry>)
    ensures r.Some? <==> cells != [] && ParseDate(ValueFor(RowValues(cells), m, ["date", "received"]), parser) == Some(target)
    ensures r.Some? ==> r.value.date == Some(target)
  {
    if cells == [] then None
    else
      var values := RowValues(cells);
      var entryDate := ParseDate(ValueFor(values, m, ["date", "received"]), parser);
      if entryDate != Some(target) then None
      else
        Some(MailEntry(
          date := entryDate,
          sender := ValueFor(values, m, ["from", "sender"]),
          subject := ValueFor(values, m, ["subject", "title"]),
          summary := ValueFor(values, m, ["summary", "message", "content"])))
  }

  function HomeworkRowBy(m: HeaderMap, parser: string -> Option<Ordinal>): seq<string> -> Option<HomeworkItem> {
    (cells: seq<string>) => HomeworkRow(m, cells, parser)
  }

  function BehaviourRowBy(m: HeaderMap, target: Ordinal, parser: string -> Option<Ordinal>): seq<string> -> Option<BehaviourEntry> {
    (cells: seq<string>) => BehaviourRow(m, cells, target, parser)
  }

  function MailRowBy(m: HeaderMap, target: Ordinal, parser: string -> Option<Ordinal>): seq<string> -> Option<MailEntry> {
    (cells: seq<string>) => MailRow(m, cells, target, parser)
  }

  /** The rows of the first table with all of `required`, and its header dict. */
  function Found(tables: seq<Table>, required: seq<string>): Option<(HeaderMap, seq<seq<string>>)> {
    match FindTable(tables, required)
    case None => None
    case Some(i) => Some((HeaderMapOf(HeaderTexts(tables[i])), tables[i].bodyRows))
  }

  /** The list `_collect_homework` returns for a page's tables. */
  function Homework(tables: seq<Table>, parser: string -> Option<Ordinal>): seq<HomeworkItem> {
    match Found(tables, ["submission"])
    case None => []
    case Some((m, rows)) => Kept(rows, HomeworkRowBy(m, parser))
  }

  /** The entries `_collect_behaviour` returns for a page's tables. */
  function Behaviour(tables: seq<Table>, target: Ordinal, parser: string -> Option<Ordinal>): seq<BehaviourEntry> {
    match Found(tables, ["date", "points"])
    case None => []
    case Some((m, rows)) => Kept(rows, BehaviourRowBy(m, target, parser))
  }

  /** The list `_collect_mail` returns for a page's tables. */
  function Mail(tables: seq<Table>, target: Ordinal, parser: string -> Option<Ordinal>): seq<MailEntry> {
    match Found(tables, ["date", "subject"])
    case None => []
    case Some((m, rows)) => Kept(rows, MailRowBy(m, target, parser))
  }

  /** Every homework item collected is outstanding, and none names a teacher. */
  lemma HomeworkOutstanding(tables: seq<Table>, parser: string -> Option<Ordinal>)
    ensures forall k :: 0 <= k < |Homework(tables, parser)| ==> Outstanding(Homework(tables, parser)[k].submissionStatus)
    ensures forall k :: 0 <= k < |Homework(tables, parser)| ==> Homework(tables, parser)[k].setBy.None?
  {
    match Found(tables, ["submission"])
    case None =>
    case Some((m, rows)) =>
      KeptOnly(rows, HomeworkRowBy(m, parser), (item: HomeworkItem) => Outstanding(item.submissionStatus) && item.setBy.None?);
  }

  /** Every behaviour entry collected is dated `target`. */
  lemma BehaviourOnTarget(tables: seq<Table>, target: Ordinal, parser: string -> Option<Ordinal>)
    ensures forall k :: 0 <= k < |Behaviour(tables, target, parser)| ==> Behaviour(tables, target, parser)[k].date == Some(target)
  {
    match Found(tables, ["date", "points"])
    case None =>
    case Some((m, rows)) =>
      KeptOnly(rows, BehaviourRowBy(m, target, parser), (e: BehaviourEntry) => e.date == Some(target));
  }

  /** Every mail entry collected is dated `target`. */
  lemma MailOnTarget(tables: seq<Table>, target: Ordinal, parser: string -> Option<Ordinal>)
    ensures forall k :: 0 <= k < |Mail(tables, target, parser)| ==> Mail(tables, target, parser)[k].date == Some(target)
  {
    match Found(tables, ["date", "subject"])
    case None =>
    case Some((m, rows)) =>
      KeptOnly(rows, MailRowBy(m, target, parser), (e: MailEntry) => e.date == Some(target));
  }

  /** The body of `_collect_homework`'s row loop for one row. */
  method HomeworkFromRow(headerMap: HeaderMap, cells: seq<string>, parser: string -> Option<Ordinal>) returns (item: Option<HomeworkItem>)
    ensures item == HomeworkRow(headerMap, cells, parser)
    ensures item == HomeworkRowBy(headerMap, parser)(cells)
  {
    if cells == [] {
      return None;
    }
    var values := RowValues(cells);
    var submission := ValueForHeader(values, headerMap, ["submission"]);
    if TruthyText(submission) && Contains(Lower(submission.value), "not") {
      var subject := ValueForHeader(values, headerMap, ["subject", "class"]);
      var title := ValueForHeader(values, headerMap, ["title", "description", "homework"]);
      var teacher := ValueForHeader(values, headerMap, ["teacher", "staff", "set by"]);
      var due := ValueForHeader(values, headerMap, ["due", "deadline"]);
      var details := ValueForHeader(values, headerMap, ["details", "notes"]);
      // `set_by=teacher` is dropped: the field only accepts its alias `teacher`.
      item := Some(HomeworkItem(subject, title, None, ParseDate(Some(due.GetOr("")), parser), submission, details));
    } else {
      item := None;
    }
  }

  /** `_collect_homework(page, settings)` once the page's tables are read. */
  method CollectHomework(tables: seq<Table>, parser: string -> Option<Ordinal>) returns (items: seq<HomeworkItem>)
    ensures items == Homework(tables, parser)
  {
    var found := FindTableWithHeader(tables, ["submission"]);
    if found.None? {
      return [];
    }
    var table := tables[found.value];
    var headerMap := MapTableHeaders(table);
    items := HomeworkRows(headerMap, table.bodyRows, parser);
  }

  /** The row loop of `_collect_homework`. */
  method HomeworkRows(headerMap: HeaderMap, rows: seq<seq<string>>, parser: string -> Option<Ordinal>) returns (items: seq<HomeworkItem>)
    ensures items == Kept(rows, HomeworkRowBy(headerMap, parser))
  {
    items := [];
    for i := 0 to |rows|
      invariant items == Kept(rows[..i], HomeworkRowBy(headerMap, parser))
    {
      var item := HomeworkFromRow(headerMap, rows[i], parser);
      KeptNext(rows, HomeworkRowBy(headerMap, parser), i);
      if item.Some? {
        items := items + [item.value];
      }
    }
    assert rows[..|rows|] == rows;
  }

  /** The body of `_collect_behaviour`'s row loop for one row. */
  method BehaviourFromRow(headerMap: HeaderMap, cells: seq<string>, target: Ordinal, parser: string -> Option<Ordinal>)
    returns (entry: Option<BehaviourEntry>)
    ensures entry == BehaviourRow(headerMap, cells, target, parser)
    ensures entry == BehaviourRowBy(headerMap, target, parser)(cells)
  {
    if cells == [] {
      return None;
    }
    var values := RowValues(cells);
    var dateText := ValueForHeader(values, headerMap, ["date"]);
    var entryDate := ParseDate(dateText, parser);
    if entryDate != Some(target) {
      return None;
    }
    var pointsText := ValueForHeader(values, headerMap, ["points", "score"]);
    var points := if pointsText.Some? then ParseInt(pointsText.value) else None;
    var category := ValueForHeader(values, headerMap, ["type", "category"]);
    var description := ValueForHeader(values, headerMap, ["description", "reason", "details"]);
    var staff := ValueForHeader(values, headerMap, ["staff", "teacher"]);
    entry := Some(BehaviourEntry(entryDate, category, points, description, staff));
  }

  /** The entries `_collect_behaviour(page, settings, target_date)` returns once the
      page's tables are read. */
  method CollectBehaviour(tables: seq<Table>, target: Ordinal, parser: string -> Option<Ordinal>) returns (entries: seq<BehaviourEntry>)
    ensures entries == Behaviour(tables, target, parser)
  {
    var found := FindTableWithHeader(tables, ["date", "points"]);
    if found.None? {
      return [];
    }
    var table := tables[found.value];
    var headerMap := MapTableHeaders(table);
    entries := BehaviourRows(headerMap, table.bodyRows, target, parser);
  }

  /** The row loop of `_collect_behaviour`. */
  method BehaviourRows(headerMap: HeaderMap, rows: seq<seq<string>>, target: Ordinal, parser: string -> Option<Ordinal>) returns (entries: seq<BehaviourEntry>)
    ensures entries == Kept(rows, BehaviourRowBy(headerMap, target, parser))
  {
    entries := [];
    for i := 0 to |rows|
      invariant entries == Kept(rows[..i], BehaviourRowBy(headerMap, target, parser))
    {
      var entry := BehaviourFromRow(headerMap, rows[i], target, parser);
      KeptNext(rows, BehaviourRowBy(headerMap, target, parser), i);
      if entry.Some? {
        entries := entries + [entry.value];
      }
    }
    assert rows[..|rows|] == rows;
  }

  /** The body of `_collect_mail`'s row loop for one row. */
  method MailFromRow(headerMap: HeaderMap, cells: seq<string>, target: Ordinal, parser: string -> Option<Ordinal>)
    returns (entry: Option<MailEntry>)
    ensures entry == MailRow(headerMap, cells, target, parser)
    ensures entry == MailRowBy(headerMap, target, parser)(cells)
  {
    if cells == [] {
      return None;
    }
    var values := RowValues(cells);
    var dateText := ValueForHeader(values, headerMap, ["date", "received"]);
    var entryDate := ParseDate(dateText, parser);
    if entryDate != Some(target) {
      return None;
    }
    var sender := ValueForHeader(values, headerMap, ["from", "sender"]);
    var subject := ValueForHeader(values, headerMap, ["subject", "title"]);
    var summary := ValueForHeader(values, headerMap, ["summary", "message", "content"]);
    entry := Some(MailEntry(entryDate, sender, subject, summary));
  }

  /** `_collect_mail(page, settings, target_date)` once the page's tables are read. */
  method CollectMail(tables: seq<Table>, target: Ordinal, parser: string -> Option<Ordinal>) returns (entries: seq<MailEntry>)
    ensures entries == Mail(tables, target, parser)
  {
    var found := FindTableWithHeader(tables, ["date", "subject"]);
    if found.None? {
      return [];
    }
    var table := tables[found.value];
    var headerMap := MapTableHeaders(table);
    entries := MailRows(headerMap, table.bodyRows, target, parser);
  }

  /** The row loop of `_collect_mail`. */
  method MailRows(headerMap: HeaderMap, rows: seq<seq<string>>, target: Ordinal, parser: string -> Option<Ordinal>) returns (entries: seq<MailEntry>)
    ensures entries == Kept(rows, MailRowBy(headerMap, target, parser))
  {
    entries := [];
    for i := 0 to |rows|
      invariant entries == Kept(rows[..i], MailRowBy(headerMap, target, parser))
    {
      var entry := MailFromRow(headerMap, rows[i], target, parser);
      KeptNext(rows, MailRowBy(headerMap, target, parser), i);
      if entry.Some? {
        entries := entries + [entry.value];
      }
    }
    assert rows[..|rows|] == rows;
  }
}
