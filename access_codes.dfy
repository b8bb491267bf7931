/**
 * Access codes: `POST /api/admin/accessCodes` (generate `quantity` unused
 * codes), `GET /api/admin/accessCodes` (list with an optional used filter)
 * and `GET /api/admin/exportAccessCodes` (CSV export).
 *
 * The random part of a code is an input: `random(i)` is the text
 * `Math.random().toString(36)` gave for the i-th code, `ids(i)` the document
 * id the store assigned, and `faults(i)` the failure of the i-th create, if any.
 */
module AccessCodes {
  import opened Common
  import opened Text
  import opened Errors
  import opened Records
  import opened Auth

  const DefaultPrefix: string := "NLC-"

  /** JavaScript truthiness of an optional number: absent and 0 are falsy. */
  predicate TruthyNumber(o: Option<int>) { o.Some? && o.value != 0 }

  /** `substring(2, 8).toUpperCase()` of the random text: at most six characters. */
  function CodeSuffix(random: string): (r: string)
    ensures |r| <= 6
    ensures forall i :: 0 <= i < |r| ==> !('a' <= r[i] <= 'z')
  {
    Upper(Substring(random, 2, 8))
  }

  /** The i-th code document of a generation request. */
  function CodeAt(prefix: string, durationDays: int, i: nat, random: nat -> string, ids: nat -> string,
                  now: Millis): AccessCode
  {
    AccessCode(ids(i), prefix + CodeSuffix(random(i)), durationDays, false, None, None, now)
  }

  /** The documents the first `n` creates of a request leave in the store: those that did not fail. */
  function CodeBatch(prefix: string, durationDays: int, n: nat, random: nat -> string, ids: nat -> string,
                     now: Millis, faults: nat -> Option<Error>): (r: seq<AccessCode>)
    ensures |r| <= n
  {
    if n == 0 then []
    else
      CodeBatch(prefix, durationDays, n - 1, random, ids, now, faults)
      + (if faults(n - 1).None? then [CodeAt(prefix, durationDays, n - 1, random, ids, now)] else [])
  }

  /**
   * Every generated document is unused, unredeemed, has the requested duration
   * and a code made of the prefix and at most six more characters; when no
   * create fails there are exactly `n` of them, in request order.
   */
  lemma {:induction false} CodeBatchShape(prefix: string, durationDays: int, n: nat, random: nat -> string,
                                          ids: nat -> string, now: Millis, faults: nat -> Option<Error>)
    ensures var batch := CodeBatch(prefix, durationDays, n, random, ids, now, faults);
      && |batch| <= n
      && (forall c :: c in batch ==>
            && !c.isUsed && c.usedByUserId.None? && c.usedAt.None?
            && c.durationDays == durationDays
            && StartsWith(c.code, prefix) && |c.code| <= |prefix| + 6)
      && (FirstFault(faults, n).None? ==>
            |batch| == n
            && forall i :: 0 <= i < n ==> batch[i] == CodeAt(prefix, durationDays, i, random, ids, now))
  {
    if n > 0 {
      CodeBatchShape(prefix, durationDays, n - 1, random, ids, now, faults);
      var c := CodeAt(prefix, durationDays, n - 1, random, ids, now);
      assert c.code[..|prefix|] == prefix;
    }
  }

  /**
   * `POST`: 400 unless both `durationDays` and `quantity` are truthy (0 is
   * not). The loop runs `quantity` times (not at all for a negative one) and
   * the reply counts the creates issued; no uniqueness or per-student check is
   * made, and a `userId` in the body plays no part.
   */
  method GenerateCodes(codes: Collection<AccessCode>, auth: Result<User, Error>,
                       durationDays: Option<int>, quantity: Option<int>, prefix: Option<string>,
                       random: nat -> string, ids: nat -> string, now: Millis, faults: nat -> Option<Error>)
    returns (r: Reply<int>)
    modifies codes
    ensures auth.Failure? ==> r == Fail(auth.error) && codes.docs == old(codes.docs)
    ensures auth.Success? && !(TruthyNumber(durationDays) && TruthyNumber(quantity)) ==>
      r == Refused(400, "durationDays and quantity are required") && codes.docs == old(codes.docs)
    ensures auth.Success? && TruthyNumber(durationDays) && TruthyNumber(quantity) ==>
      var n: nat := if quantity.value > 0 then quantity.value else 0;
      var p := if prefix.Some? then prefix.value else DefaultPrefix;
      && codes.docs == old(codes.docs) + CodeBatch(p, durationDays.value, n, random, ids, now, faults)
      && r == (match FirstFault(faults, n) case Some(e) => Fail(e) case None => Ok(n))
  {
    if auth.Failure? {
      return Fail(auth.error);
    }
    if !TruthyNumber(durationDays) || !TruthyNumber(quantity) {
      return Refused(400, "durationDays and quantity are required");
    }
    var p := if prefix.Some? then prefix.value else DefaultPrefix;
    var n: nat := if quantity.value > 0 then quantity.value else 0;
    var failure: Option<Error> := None;
    var i := 0;
    while i < n
      invariant 0 <= i <= n
      invariant codes.docs == old(codes.docs) + CodeBatch(p, durationDays.value, i, random, ids, now, faults)
      invariant failure == FirstFault(faults, i)
    {
      var code := p + CodeSuffix(random(i));
      if faults(i).None? {
        codes.docs := codes.docs + [AccessCode(ids(i), code, durationDays.value, false, None, None, now)];
      } else if failure.None? {
        failure := faults(i);
      }
      i := i + 1;
    }
    r := if failure.Some? then Fail(failure.value) else Ok(n);
  }

  /** The used filter both list routes add: `isUsed` equal to true or false, or none for any other value. */
  function UsedFilter(used: Option<string>): seq<Query>
  {
    if used == Some("true") then [Equal("isUsed", Flag(true))]
    else if used == Some("false") then [Equal("isUsed", Flag(false))]
    else []
  }

  /** `GET`: newest first, `limit` defaulting to 50 and `offset` to 0, plus the used filter. */
  method ListQueries(used: Option<string>, limitParam: Option<string>, offsetParam: Option<string>)
    returns (queries: seq<Query>)
    ensures |queries| >= 3 && queries[0] == OrderDesc("$createdAt")
    ensures queries[1] == Limit(ParseInt(OrElse(limitParam, "50")))
    ensures queries[2] == Offset(ParseInt(OrElse(offsetParam, "0")))
    ensures !Truthy(limitParam) ==> queries[1] == Limit(Some(50))
    ensures !Truthy(offsetParam) ==> queries[2] == Offset(Some(0))
    ensures queries[3..] == UsedFilter(used)
  {
    DefaultNumerals();
    var limit := ParseInt(OrElse(limitParam, "50"));
    var offset := ParseInt(OrElse(offsetParam, "0"));
    queries := [OrderDesc("$createdAt"), Limit(limit), Offset(offset)];
    if used == Some("true") {
      queries := queries + [Equal("isUsed", Flag(true))];
    }
    if used == Some("false") {
      queries := queries + [Equal("isUsed", Flag(false))];
    }
  }

  /** `GET` of the export: at most 5000 documents, and the same used filter as the list route. */
  method ExportQueries(used: Option<string>) returns (queries: seq<Query>)
    ensures |queries| >= 1 && queries[0] == Limit(Some(5000))
    ensures queries[1..] == UsedFilter(used)
  {
    queries := [Limit(Some(5000))];
    if used == Some("true") {
      queries := queries + [Equal("isUsed", Flag(true))];
    }
    if used == Some("false") {
      queries := queries + [Equal("isUsed", Flag(false))];
    }
  }

  /** The header of the export, without its line break, spelled column by column. */
  const CsvHeader: string :=
    "Code" + "," + "Duration (Days)" + "," + "Is Used" + "," + "Used By (User ID)" + "," + "Used At" + "," + "Created At"

  const CsvColumns: seq<string> := ["Code", "Duration (Days)", "Is Used", "Used By (User ID)", "Used At", "Created At"]

  function BoolText(b: bool): string { if b then "true" else "false" }

  /**
   * The six values of a row, in column order; a missing or empty `usedByUserId`
   * or `usedAt` gives an empty field. `iso` renders a time as ISO-8601 text.
   */
  function CsvFields(doc: AccessCode, iso: Millis -> string): (f: seq<string>)
    ensures |f| == |CsvColumns|
  {
    [doc.code, IntToString(doc.durationDays), BoolText(doc.isUsed), OrElse(doc.usedByUserId, ""),
     if doc.usedAt.Some? then iso(doc.usedAt.value) else "", iso(doc.createdAt)]
  }

  /** Fields joined with commas, unquoted and unescaped. */
  function JoinFields(fields: seq<string>): string
  {
    if |fields| == 0 then "" else if |fields| == 1 then fields[0] else fields[0] + "," + JoinFields(fields[1..])
  }

  /** One document's row; it is a single line when no field holds a line break. */
  function CsvRow(doc: AccessCode, iso: Millis -> string): (r: string)
    ensures (forall i :: 0 <= i < |CsvColumns| ==> '\n' !in CsvFields(doc, iso)[i]) ==> '\n' !in r
  {
    var f := CsvFields(doc, iso);
    if forall i :: 0 <= i < |f| ==> '\n' !in f[i] then
      JoinFieldsAvoids(f, '\n');
      JoinFields(f)
    else JoinFields(f)
  }

  /** One line-break-terminated row per document, in input order. */
  function CsvRows(docs: seq<AccessCode>, iso: Millis -> string): string
  {
    if docs == [] then "" else CsvRow(docs[0], iso) + "\n" + CsvRows(docs[1..], iso)
  }

  /** The export: the header line, then one line per document. */
  function Csv(docs: seq<AccessCode>, iso: Millis -> string): (r: string)
    ensures (forall d :: d in docs ==> '\n' !in CsvRow(d, iso)) ==> Count(r, '\n') == |docs| + 1
  {
    var rows := CsvRows(docs, iso);
    if forall d :: d in docs ==> '\n' !in CsvRow(d, iso) then
      HeaderOneLine();
      CountAbsent(CsvHeader, '\n');
      CountAppend(CsvHeader, "\n", '\n');
      CountAppend(CsvHeader + "\n", rows, '\n');
      RowsBreaks(docs, iso);
      CsvHeader + "\n" + rows
    else CsvHeader + "\n" + rows
  }

  /** Rows without line breaks of their own give one line break per document. */
  lemma {:induction false} RowsBreaks(docs: seq<AccessCode>, iso: Millis -> string)
    requires forall d :: d in docs ==> '\n' !in CsvRow(d, iso)
    ensures Count(CsvRows(docs, iso), '\n') == |docs|
    decreases |docs|
  {
    if docs != [] {
      var row := CsvRow(docs[0], iso);
      RowsBreaks(docs[1..], iso);
      CountAbsent(row, '\n');
      CountAppend(row, "\n", '\n');
      CountAppend(row + "\n", CsvRows(docs[1..], iso), '\n');
    }
  }

  lemma {:induction false} CsvRowsAppend(docs: seq<AccessCode>, doc: AccessCode, iso: Millis -> string)
    ensures CsvRows(docs + [doc], iso) == CsvRows(docs, iso) + (CsvRow(doc, iso) + "\n")
    decreases |docs|
  {
    if docs == [] {
      assert CsvRows([doc], iso) == CsvRow(doc, iso) + "\n" + CsvRows([], iso);
    } else {
      assert (docs + [doc])[0] == docs[0];
      assert (docs + [doc])[1..] == docs[1..] + [doc];
      CsvRowsAppend(docs[1..], doc, iso);
    }
  }

  /** One more document adds its row to the rows of the documents before it. */
  lemma CsvRowsStep(docs: seq<AccessCode>, i: nat, iso: Millis -> string)
    requires i < |docs|
    ensures CsvRows(docs[..i + 1], iso) == CsvRows(docs[..i], iso) + (CsvRow(docs[i], iso) + "\n")
  {
    assert docs[..i + 1] == docs[..i] + [docs[i]];
    CsvRowsAppend(docs[..i], docs[i], iso);
  }

  /** The export of one more document is the export of those before it with that document's line appended. */
  lemma CsvStep(docs: seq<AccessCode>, i: nat, iso: Millis -> string)
    requires i < |docs|
    ensures Csv(docs[..i + 1], iso) == Csv(docs[..i], iso) + (CsvRow(docs[i], iso) + "\n")
  {
    CsvRowsStep(docs, i, iso);
    var header := CsvHeader + "\n";
    assert header + CsvRows(docs[..i], iso) + (CsvRow(docs[i], iso) + "\n")
        == header + (CsvRows(docs[..i], iso) + (CsvRow(docs[i], iso) + "\n"));
  }

  /** The export text, built as the route does: the header, then one `+=` per document. */
  method ExportCsv(docs: seq<AccessCode>, iso: Millis -> string) returns (csv: string)
    ensures csv == Csv(docs, iso)
  {
    csv := CsvHeader + "\n";
    var i := 0;
    assert docs[..0] == [];
    while i < |docs|
      invariant 0 <= i <= |docs|
      invariant csv == Csv(docs[..i], iso)
    {
      CsvStep(docs, i, iso);
      csv := csv + (CsvRow(docs[i], iso) + "\n");
      i := i + 1;
    }
    assert docs[..i] == docs;
  }


  /** Splitting comma-joined fields gives them back, provided none contains a comma. */
  lemma {:induction false} SplitJoinFields(fields: seq<string>)
    requires |fields| >= 1
    requires forall i :: 0 <= i < |fields| ==> ',' !in fields[i]
    ensures Split(JoinFields(fields), ',') == fields
    decreases |fields|
  {
    if |fields| == 1 {
      SplitNoSeparator(fields[0], ',');
    } else {
      SplitJoinFields(fields[1..]);
      SplitAtFirst(fields[0], ',', JoinFields(fields[1..]));
      assert fields[0] + "," + JoinFields(fields[1..]) == fields[0] + [','] + JoinFields(fields[1..]);
    }
  }

  /** The header is the column names joined with commas. */
  lemma HeaderIsJoin()
    ensures JoinFields(CsvColumns) == CsvHeader
  {
    var c := CsvColumns;
    assert JoinFields(c[5..]) == "Created At";
    assert JoinFields(c[4..]) == "Used At" + "," + JoinFields(c[5..]);
    assert JoinFields(c[3..]) == "Used By (User ID)" + "," + JoinFields(c[4..]);
    assert JoinFields(c[2..]) == "Is Used" + "," + JoinFields(c[3..]);
    assert JoinFields(c[1..]) == "Duration (Days)" + "," + JoinFields(c[2..]);
  }

  /** No column name contains a comma or a line break. */
  lemma ColumnsPlain()
    ensures forall i :: 0 <= i < |CsvColumns| ==> ',' !in CsvColumns[i] && '\n' !in CsvColumns[i]
  {
    forall i | 0 <= i < |CsvColumns|
      ensures ',' !in CsvColumns[i] && '\n' !in CsvColumns[i]
    {
      assert forall k :: 0 <= k < |CsvColumns[i]| ==> CsvColumns[i][k] != ',' && CsvColumns[i][k] != '\n';
    }
  }

  /** A character that is not a comma and occurs in no field does not occur in their join. */
  lemma {:induction false} JoinFieldsAvoids(fields: seq<string>, x: char)
    requires x != ','
    requires forall i :: 0 <= i < |fields| ==> x !in fields[i]
    ensures x !in JoinFields(fields)
    decreases |fields|
  {
    if |fields| > 1 {
      JoinFieldsAvoids(fields[1..], x);
    }
  }

  /** The header names the six columns in the order the rows fill them. */
  lemma HeaderColumns()
    ensures Split(CsvHeader, ',') == CsvColumns
  {
    var c := CsvColumns;
    HeaderIsJoin();
    ColumnsPlain();
    SplitJoinFields(c);
  }

  /** A row splits back into its fields in column order, when no field contains a comma. */
  lemma RowFields(doc: AccessCode, iso: Millis -> string)
    requires forall i :: 0 <= i < |CsvColumns| ==> ',' !in CsvFields(doc, iso)[i]
    ensures Split(CsvRow(doc, iso), ',') == CsvFields(doc, iso)
  {
    SplitJoinFields(CsvFields(doc, iso));
  }

  /** Split at line breaks, the rows give one line per document in order, then the empty text after the last break. */
  lemma {:induction false} SplitRows(docs: seq<AccessCode>, iso: Millis -> string)
    requires forall d :: d in docs ==> '\n' !in CsvRow(d, iso)
    ensures var lines := Split(CsvRows(docs, iso), '\n');
      && |lines| == |docs| + 1 && lines[|docs|] == ""
      && forall i :: 0 <= i < |docs| ==> lines[i] == CsvRow(docs[i], iso)
    decreases |docs|
  {
    if docs == [] {
      SplitNoSeparator("", '\n');
    } else {
      SplitRows(docs[1..], iso);
      assert CsvRow(docs[0], iso) + "\n" + CsvRows(docs[1..], iso)
          == CsvRow(docs[0], iso) + ['\n'] + CsvRows(docs[1..], iso);
      SplitAtFirst(CsvRow(docs[0], iso), '\n', CsvRows(docs[1..], iso));
    }
  }

  /** The header holds no line break. */
  lemma HeaderOneLine()
    ensures '\n' !in CsvHeader
  {
    HeaderIsJoin();
    ColumnsPlain();
    JoinFieldsAvoids(CsvColumns, '\n');
  }

  /**
   * Split at line breaks, the export is the header line and then the lines of
   * the rows; with `SplitRows`, that is one line per document, in input order,
   * and a final empty text, as long as no value contains a line break (values
   * are never quoted).
   */
  lemma CsvLines(docs: seq<AccessCode>, iso: Millis -> string)
    ensures Split(Csv(docs, iso), '\n') == [CsvHeader] + Split(CsvRows(docs, iso), '\n')
  {
    HeaderOneLine();
    assert Csv(docs, iso) == CsvHeader + ['\n'] + CsvRows(docs, iso);
    SplitAtFirst(CsvHeader, '\n', CsvRows(docs, iso));
  }
}
