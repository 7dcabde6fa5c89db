/** The admin panel's CSV export (`downloadCSV`): a fixed header row, then one
    row of ten fields per listed order; every field is wrapped in double quotes
    with inner quotes doubled (the escaping of section 2, rules 5 to 7, of
    RFC 4180); fields are joined with "," and rows with a line feed; the file
    starts with the byte order mark U+FEFF. A reader for exactly that format
    is given too, so that what the export writes can be shown to read back. */
module Csv {
  import opened Collections
  import opened Strings
  import opened Menu
  import opened Cart
  import opened Shop
  import opened Admin

  /** The header row: order id, date, type, name, phone, table, pickup, memo, items, total. */
  const Header: seq<string> := ["주문ID", "날짜", "유형", "이름", "연락처", "테이블", "픽업", "메모", "메뉴", "총합"]

  /** The byte order mark the file starts with. */
  const Bom: char := '\U{FEFF}'

  /** `v.replace(/"/g, '""')`: every double quote doubled. */
  function DoubleQuotes(v: string): (r: string)
    ensures |r| >= |v|
  {
    if |v| == 0 then "" else (if v[0] == '"' then "\"\"" else [v[0]]) + DoubleQuotes(v[1..])
  }

  /** Doubling adds exactly one character per quote, and leaves a value without
      quotes as it is. */
  lemma {:induction false} DoubleQuotesCount(v: string)
    ensures |DoubleQuotes(v)| == |v| + multiset(v)['"']
    ensures '"' !in v ==> DoubleQuotes(v) == v
  {
    if |v| > 0 {
      DoubleQuotesCount(v[1..]);
      assert v == [v[0]] + v[1..];
    }
  }

  /** `"${v.replace(/"/g, '""')}"`: one field as written to the file. */
  function Escape(v: string): (r: string)
    ensures |r| >= 2 && r[0] == '"' && r[|r| - 1] == '"'
  {
    "\"" + DoubleQuotes(v) + "\""
  }

  /** Reads the inside of a quoted field up to its closing quote, turning each
      doubled quote back into one. Returns the value and what follows the
      closing quote, or nothing when the quote is never closed. */
  function ParseQuoted(s: string): (r: Option<(string, string)>)
    ensures r.Some? ==> |r.value.1| < |s|
    decreases |s|
  {
    if |s| == 0 then None
    else if s[0] == '"' then
      if |s| >= 2 && s[1] == '"' then
        match ParseQuoted(s[2..])
        case None => None
        case Some((v, rest)) => Some(("\"" + v, rest))
      else Some(("", s[1..]))
    else
      match ParseQuoted(s[1..])
      case None => None
      case Some((v, rest)) => Some(([s[0]] + v, rest))
  }

  /** Reading an escaped value back stops at its closing quote and returns the
      value, whatever follows as long as it is not a quote. */
  lemma {:induction false} ParseQuotedEscaped(v: string, rest: string)
    requires |rest| == 0 || rest[0] != '"'
    ensures ParseQuoted(DoubleQuotes(v) + "\"" + rest) == Some((v, rest))
  {
    var s := DoubleQuotes(v) + "\"" + rest;
    if |v| == 0 {
      assert s == "\"" + rest;
      assert s[1..] == rest;
    } else if v[0] == '"' {
      ParseQuotedEscaped(v[1..], rest);
      assert s == "\"\"" + (DoubleQuotes(v[1..]) + "\"" + rest);
      assert s[2..] == DoubleQuotes(v[1..]) + "\"" + rest;
      assert "\"" + v[1..] == v;
    } else {
      ParseQuotedEscaped(v[1..], rest);
      assert s == [v[0]] + (DoubleQuotes(v[1..]) + "\"" + rest);
      assert s[1..] == DoubleQuotes(v[1..]) + "\"" + rest;
      assert [v[0]] + v[1..] == v;
    }
  }

  /** Reads one quoted field that makes up the whole of `f`. */
  function Unescape(f: string): Option<string> {
    if |f| == 0 || f[0] != '"' then None
    else
      match ParseQuoted(f[1..])
      case Some((v, rest)) => if rest == "" then Some(v) else None
      case None => None
  }

  /** Unescaping an escaped field gives back the original value. */
  lemma UnescapeEscape(v: string)
    ensures Unescape(Escape(v)) == Some(v)
  {
    ParseQuotedEscaped(v, "");
    assert Escape(v)[1..] == DoubleQuotes(v) + "\"" + "";
  }

  /** Every field of a row, escaped. */
  function EscapeAll(fields: seq<string>): (r: seq<string>)
    ensures |r| == |fields|
    ensures forall i :: 0 <= i < |fields| ==> r[i] == Escape(fields[i])
  {
    if |fields| == 0 then [] else [Escape(fields[0])] + EscapeAll(fields[1..])
  }

  /** `r.map(escape).join(',')`: one row as written. */
  function EncodeRow(fields: seq<string>): string {
    Join(EscapeAll(fields), ",")
  }

  /** Every row, encoded. */
  function EncodeRows(rows: seq<seq<string>>): (r: seq<string>)
    ensures |r| == |rows|
    ensures forall i :: 0 <= i < |rows| ==> r[i] == EncodeRow(rows[i])
  {
    if |rows| == 0 then [] else [EncodeRow(rows[0])] + EncodeRows(rows[1..])
  }

  /** `rows.map(encodeRow).join('\n')`: the table as written. */
  function Serialize(rows: seq<seq<string>>): string {
    Join(EncodeRows(rows), "\n")
  }

  /** Reads quoted fields separated by commas, up to the end of the row. Returns
      the fields and what follows the row (a line feed or nothing). */
  function ParseFields(s: string): (r: Option<(seq<string>, string)>)
    ensures r.Some? ==> |r.value.1| < |s|
    decreases |s|
  {
    if |s| == 0 || s[0] != '"' then None
    else
      match ParseQuoted(s[1..])
      case None => None
      case Some((v, rest)) =>
        if |rest| > 0 && rest[0] == ',' then
          match ParseFields(rest[1..])
          case None => None
          case Some((vs, after)) => Some(([v] + vs, after))
        else Some(([v], rest))
  }

  /** Reads rows separated by line feeds up to the end of the text. */
  function ParseRows(s: string): Option<seq<seq<string>>>
    decreases |s|
  {
    match ParseFields(s)
    case None => None
    case Some((fields, rest)) =>
      if |rest| == 0 then Some([fields])
      else if rest[0] == '\n' then
        match ParseRows(rest[1..])
        case None => None
        case Some(rows) => Some([fields] + rows)
      else None
  }

  /** A quoted field whose inside reads as `v` followed by `rest`: at the end of a
      row it is the row's last field; before a comma the row's fields continue. */
  lemma ParseFieldsQuoted(inner: string, v: string, rest: string)
    requires ParseQuoted(inner) == Some((v, rest))
    ensures |rest| == 0 || rest[0] == '\n' ==> ParseFields("\"" + inner) == Some(([v], rest))
    ensures |rest| > 0 && rest[0] == ',' ==>
              ParseFields("\"" + inner)
              == match ParseFields(rest[1..])
                 case None => None
                 case Some((vs, after)) => Some(([v] + vs, after))
  {
    assert ("\"" + inner)[1..] == inner;
  }

  /** The last field of a row reads back as its value, leaving what follows the row. */
  lemma ParseLastField(f: string, rest: string)
    requires |rest| == 0 || rest[0] == '\n'
    ensures ParseFields(Escape(f) + rest) == Some(([f], rest))
  {
    var inner := DoubleQuotes(f) + "\"" + rest;
    ParseQuotedEscaped(f, rest);
    ParseFieldsQuoted(inner, f, rest);
    assert Escape(f) + rest == "\"" + inner;
  }

  /** A field followed by a comma reads back as its value, then the fields after it. */
  lemma ParseFieldThenComma(f: string, t: string)
    ensures ParseFields(Escape(f) + "," + t)
         == match ParseFields(t)
            case None => None
            case Some((vs, after)) => Some(([f] + vs, after))
  {
    var inner := DoubleQuotes(f) + "\"" + ("," + t);
    ParseQuotedEscaped(f, "," + t);
    ParseFieldsQuoted(inner, f, "," + t);
    assert ("," + t)[1..] == t;
    assert Escape(f) + "," + t == "\"" + inner;
  }

  /** A written row reads back as its fields, stopping at the end of the row. */
  lemma {:induction false} ParseEncodedRow(fields: seq<string>, rest: string)
    requires |fields| > 0
    requires |rest| == 0 || rest[0] == '\n'
    ensures ParseFields(EncodeRow(fields) + rest) == Some((fields, rest))
  {
    var f := fields[0];
    if |fields| == 1 {
      assert EncodeRow(fields) == Escape(f);
      ParseLastField(f, rest);
      assert [f] == fields;
    } else {
      var tail := fields[1..];
      assert EscapeAll(fields)[1..] == EscapeAll(tail);
      assert EncodeRow(fields) == Escape(f) + "," + EncodeRow(tail);
      assert EncodeRow(fields) + rest == Escape(f) + "," + (EncodeRow(tail) + rest);
      ParseFieldThenComma(f, EncodeRow(tail) + rest);
      ParseEncodedRow(tail, rest);
      assert [f] + tail == fields;
    }
  }

  /** A written table whose rows are all non-empty reads back as the same rows,
      so it has as many rows, and each row as many fields, as were written. */
  lemma {:induction false} ParseSerialized(rows: seq<seq<string>>)
    requires |rows| > 0
    requires forall i :: 0 <= i < |rows| ==> |rows[i]| > 0
    ensures ParseRows(Serialize(rows)) == Some(rows)
  {
    if |rows| == 1 {
      assert Serialize(rows) == EncodeRow(rows[0]) + "";
      ParseEncodedRow(rows[0], "");
      assert [rows[0]] == rows;
    } else {
      var tail := rows[1..];
      var rest := "\n" + Serialize(tail);
      assert EncodeRows(rows)[1..] == EncodeRows(tail);
      assert Serialize(rows) == EncodeRow(rows[0]) + rest;
      ParseEncodedRow(rows[0], rest);
      assert rest[1..] == Serialize(tail);
      ParseSerialized(tail);
      assert [rows[0]] + tail == rows;
    }
  }

  /** The names of a line's extras. */
  function ExtraNames(es: seq<Extra>): (r: seq<string>)
    ensures |r| == |es|
    ensures forall i :: 0 <= i < |es| ==> r[i] == es[i].name
  {
    if |es| == 0 then [] else [es[0].name] + ExtraNames(es[1..])
  }

  /** `${name}x${qty}` followed by `(+e1+e2)` when the line has extras. */
  function ItemSummary(l: CartLine): (r: string)
    ensures var head := l.item.name + "x" + IntToString(l.qty);
      |r| >= |head| && r[..|head|] == head
      && (|r| == |head| <==> l.extras.None? || l.extras.value == [])
      && (|r| > |head| ==> |r| >= |head| + 3 && r[|head|..|head| + 2] == "(+" && r[|r| - 1] == ')')
      && (l.extras.Some? && |l.extras.value| > 0 ==> r[|head| + 2..|r| - 1] == Join(ExtraNames(l.extras.value), "+"))
  {
    var head := l.item.name + "x" + IntToString(l.qty);
    var tail := if l.extras.Some? && |l.extras.value| > 0 then "(+" + Join(ExtraNames(l.extras.value), "+") + ")" else "";
    assert (head + tail)[..|head|] == head;
    assert |tail| > 0 ==> (head + tail)[|head|..|head| + 2] == tail[..2];
    assert |tail| > 0 ==> (head + tail)[|head| + 2..|head + tail| - 1] == tail[2..|tail| - 1];
    head + tail
  }

  /** The summaries of all lines. */
  function ItemSummaries(items: seq<CartLine>): (r: seq<string>)
    ensures |r| == |items|
    ensures forall i :: 0 <= i < |items| ==> r[i] == ItemSummary(items[i])
  {
    if |items| == 0 then [] else [ItemSummary(items[0])] + ItemSummaries(items[1..])
  }

  /** `o.memo?.replace(/\n/g, ' ')`, an absent memo written as the empty field. */
  function MemoField(memo: Option<string>): (r: string)
    ensures '\n' !in r
    ensures memo.None? ==> r == ""
    ensures memo.Some? ==> r == FlattenLines(memo.value) && |r| == |memo.value|
  {
    match memo
    case None => ""
    case Some(m) => FlattenLines(m)
  }

  /** One order's row, in the header's column order. */
  function OrderRow(o: Order): (r: seq<string>)
    ensures |r| == |Header| == 10
    ensures r[0] == o.id && r[1] == o.date.iso && r[2] == o.kind.Label()
    ensures r[3] == o.name.GetOr("") && r[4] == o.phone.GetOr("")
    ensures r[5] == o.tableNo.GetOr("") && r[6] == o.pickupAt.GetOr("")
    ensures r[7] == MemoField(o.memo) && '\n' !in r[7]
    ensures r[8] == Join(ItemSummaries(o.items), " / ")
    ensures r[9] == IntToString(o.total)
  {
    [o.id, o.date.iso, o.kind.Label(), o.name.GetOr(""), o.phone.GetOr(""),
     o.tableNo.GetOr(""), o.pickupAt.GetOr(""), MemoField(o.memo),
     Join(ItemSummaries(o.items), " / "), IntToString(o.total)]
  }

  /** The rows of the export: the header, then one row per order in list order. */
  function ExportRows(orders: seq<Order>): (rows: seq<seq<string>>)
    ensures |rows| == 1 + |orders|
    ensures rows[0] == Header
    ensures forall i :: 0 <= i < |rows| ==> |rows[i]| == 10
    ensures forall i :: 0 <= i < |orders| ==> rows[i + 1] == OrderRow(orders[i])
  {
    [Header] + seq(|orders|, i requires 0 <= i < |orders| => OrderRow(orders[i]))
  }

  /** `"\uFEFF" + csv`: the text of the exported file. */
  function ExportCsv(orders: seq<Order>): (r: string)
    ensures |r| > 0 && r[0] == Bom
    ensures ParseRows(r[1..]) == Some(ExportRows(orders))
  {
    var rows := ExportRows(orders);
    ParseSerialized(rows);
    assert ([Bom] + Serialize(rows))[1..] == Serialize(rows);
    [Bom] + Serialize(rows)
  }

  /** Reads an exported file: the byte order mark, then the rows. */
  function ParseExport(s: string): Option<seq<seq<string>>> {
    if |s| > 0 && s[0] == Bom then ParseRows(s[1..]) else None
  }

  /** The exported file reads back as its rows: the header and one ten-field row
      per order, each field holding exactly the value written. */
  lemma ExportReadsBack(orders: seq<Order>)
    ensures ParseExport(ExportCsv(orders)) == Some(ExportRows(orders))
  {
    var rows := ExportRows(orders);
    ParseSerialized(rows);
    assert ExportCsv(orders)[1..] == Serialize(rows);
  }

  /** Exporting an empty list gives the header row alone. */
  lemma EmptyExportIsHeaderOnly()
    ensures ExportCsv([]) == [Bom] + EncodeRow(Header)
    ensures ParseExport(ExportCsv([])) == Some([Header])
  {
    ExportReadsBack([]);
    assert ExportRows([]) == [Header];
    assert EncodeRows([Header]) == [EncodeRow(Header)];
  }

  /** The admin panel's export of `day` and `q` has one row per listed order after
      the header, and reads back as those rows. */
  lemma AdminExportRows(log: seq<Order>, day: string, q: string)
    ensures ParseExport(ExportCsv(Query(log, day, q))) == Some(ExportRows(Query(log, day, q)))
    ensures |ExportRows(Query(log, day, q))| == 1 + |Filter(log, Selected(day, q))|
  {
    ExportReadsBack(Query(log, day, q));
    QuerySpec(log, day, q);
    assert |Query(log, day, q)| == |multiset(Query(log, day, q))|;
    assert |Filter(log, Selected(day, q))| == |multiset(Filter(log, Selected(day, q)))|;
  }
}
