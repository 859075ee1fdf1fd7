/** The CSV import page: each parsed CSV record (a column-to-text record) is
    normalised into a property row, incomplete rows are dropped, and the first
    ten are previewed. `Number(...)` is the partial parse `parse`, which gives
    `None` for a text that is not a finite number; CSV tokenising is not part
    of this model. */
module ImportPage {
  import opened Base

  /** A CSV record; a column the file lacks is `None`. */
  datatype RawRow = RawRow(
    address: Option<string>,
    city: Option<string>,
    state: Option<string>,
    zip: Option<string>,
    listPrice: Option<string>,
    arv: Option<string>,
    beds: Option<string>,
    baths: Option<string>,
    sqft: Option<string>,
    dom: Option<string>,
    status: Option<string>,
    motivationScore: Option<string>,
    mlsId: Option<string>,
    sellerPhone: Option<string>)

  /** A normalised row, as the page sends it. */
  datatype ImportRow = ImportRow(
    address: string,
    city: string,
    state: string,
    zip: string,
    listPrice: int,
    arv: Option<int>,
    beds: Option<int>,
    baths: Option<int>,
    sqft: Option<int>,
    dom: Option<int>,
    status: string,
    motivationScore: Option<int>,
    mlsId: Option<string>,
    sellerPhone: Option<string>)

  /** `toNumber`: nothing for a missing or blank cell, else the parse of the trimmed text. */
  function ToNumber(value: Option<string>, parse: string -> Option<int>): (r: Option<int>)
    ensures value.None? ==> r.None?
    ensures value.Some? && Trim(value.value) == "" ==> r.None?
    ensures value.Some? && Trim(value.value) != "" ==> r == parse(Trim(value.value))
    ensures r.Some? ==> value.Some? && parse(Trim(value.value)) == r
  {
    if value.None? then None
    else
      var trimmed := Trim(value.value);
      if trimmed == "" then None else parse(trimmed)
  }

  /** The status for an already trimmed and lower-cased text. */
  function StatusOf(v: string): (r: string)
    ensures r in {"Active", "Pending", "Off Market"}
    ensures r == "Pending" <==> v == "pending"
    ensures r == "Off Market" <==> v == "off market" || v == "off_market" || v == "offmarket"
  {
    if v == "pending" then "Pending"
    else if v == "off market" || v == "off_market" || v == "offmarket" then "Off Market"
    else "Active"
  }

  /** `normalizeStatus`: `(value || "").trim().toLowerCase()`, then `StatusOf` (for a text,
      `value || ""` and `value ?? ""` are the same). */
  function NormalizeStatus(value: Option<string>): (r: string)
    ensures r in {"Active", "Pending", "Off Market"}
  {
    StatusOf(Lower(Trim(value.GetOr(""))))
  }

  /** "pending" and the three "off market" spellings are recognised in any letter case and with
      white space around them; anything else, blank included, is "Active". */
  lemma NormalizeStatusSpec(value: Option<string>)
    ensures var v := Trim(value.GetOr(""));
      var r := NormalizeStatus(value);
      && (r == "Pending" <==> SameIgnoringCase(v, "pending"))
      && (r == "Off Market" <==>
            SameIgnoringCase(v, "off market") || SameIgnoringCase(v, "off_market")
            || SameIgnoringCase(v, "offmarket"))
      && (r == "Active" <==> !(r == "Pending" || r == "Off Market"))
  {
    NormalizeStatusPending(value);
    NormalizeStatusOffMarket(value);
  }

  lemma NormalizeStatusPending(value: Option<string>)
    ensures NormalizeStatus(value) == "Pending" <==> SameIgnoringCase(Trim(value.GetOr("")), "pending")
  {
    StatusOfLowerPending(Trim(value.GetOr("")));
  }

  lemma NormalizeStatusOffMarket(value: Option<string>)
    ensures var v := Trim(value.GetOr(""));
      NormalizeStatus(value) == "Off Market" <==>
        SameIgnoringCase(v, "off market") || SameIgnoringCase(v, "off_market") || SameIgnoringCase(v, "offmarket")
  {
    StatusOfLowerOffMarket(Trim(value.GetOr("")));
  }

  lemma StatusOfLowerPending(v: string)
    ensures StatusOf(Lower(v)) == "Pending" <==> SameIgnoringCase(v, "pending")
  {
    LowerIsLowercaseName(v, "pending");
  }

  lemma StatusOfLowerOffMarket(v: string)
    ensures StatusOf(Lower(v)) == "Off Market" <==>
              SameIgnoringCase(v, "off market") || SameIgnoringCase(v, "off_market") || SameIgnoringCase(v, "offmarket")
  {
    LowerIsLowercaseName(v, "off market");
    LowerIsLowercaseName(v, "off_market");
    LowerIsLowercaseName(v, "offmarket");
  }

  /** With the Kelvin sign, "OFF MAR\U{212A}ET" is a spelling of "off market". */
  lemma KelvinSpelling()
    ensures SameIgnoringCase("OFF MAR\U{212A}ET", "off market")
  {
  }

  /** The Kelvin sign lower-cases to `k`, so "OFF MAR\U{212A}ET" reads as "Off Market". */
  lemma KelvinSignOffMarket()
    ensures NormalizeStatus(Some("OFF MAR\U{212A}ET")) == "Off Market"
  {
    var v := "OFF MAR\U{212A}ET";
    KelvinSpelling();
    assert v[0] == 'O' && v[|v| - 1] == 'T';
    TrimNoSpaceEnds(v);
    NormalizeStatusOffMarket(Some(v));
  }

  /** A status the page produces normalises to itself, so normalising twice changes nothing. */
  lemma NormalizeStatusIdempotent(value: Option<string>)
    ensures NormalizeStatus(Some(NormalizeStatus(value))) == NormalizeStatus(value)
  {
    var r := NormalizeStatus(value);
    LabelNormalizesToItself(r);
  }

  lemma LabelNormalizesToItself(r: string)
    requires r in {"Active", "Pending", "Off Market"}
    ensures NormalizeStatus(Some(r)) == r
  {
    TrimOfTrimmedLabel(r);
    var v := Lower(r);
    if r == "Pending" {
      assert v == "pending";
    } else if r == "Off Market" {
      assert v == "off market";
    } else {
      assert v != "pending" && v != "off market" && v != "off_market" && v != "offmarket" by {
        assert |v| == 6;
      }
    }
  }

  lemma TrimOfTrimmedLabel(r: string)
    requires r in {"Active", "Pending", "Off Market"}
    ensures Trim(r) == r
  {
    var n := |r| - 1;
    assert !IsSpace(r[0]) && !IsSpace(r[n]) by {
      if r == "Active" { assert r[0] == 'A' && r[n] == 'e'; }
      else if r == "Pending" { assert r[0] == 'P' && r[n] == 'g'; }
      else { assert r[0] == 'O' && r[n] == 't'; }
    }
    TrimNoSpaceEnds(r);
  }

  /** `(cell ?? "").trim() || null` */
  function BlankToNone(cell: Option<string>): (r: Option<string>)
    ensures r.None? <==> Trim(cell.GetOr("")) == ""
    ensures r.Some? ==> r.value == Trim(cell.value)
  {
    var t := Trim(cell.GetOr(""));
    if t == "" then None else Some(t)
  }

  /** `normalizeRow` */
  function NormalizeRow(row: RawRow, parse: string -> Option<int>): (r: ImportRow)
    ensures r.address == Trim(row.address.GetOr("")) && r.city == Trim(row.city.GetOr(""))
    ensures r.state == Trim(row.state.GetOr("")) && r.zip == Trim(row.zip.GetOr(""))
    ensures r.listPrice == ToNumber(row.listPrice, parse).GetOr(0)
    ensures r.listPrice == 0 || row.listPrice.Some?
    ensures r.arv == ToNumber(row.arv, parse) && r.dom == ToNumber(row.dom, parse)
    ensures r.beds == ToNumber(row.beds, parse) && r.baths == ToNumber(row.baths, parse)
    ensures r.sqft == ToNumber(row.sqft, parse) && r.motivationScore == ToNumber(row.motivationScore, parse)
    ensures r.status == NormalizeStatus(row.status)
    ensures r.mlsId == BlankToNone(row.mlsId) && r.sellerPhone == BlankToNone(row.sellerPhone)
    ensures r.mlsId.None? <==> Trim(row.mlsId.GetOr("")) == ""
    ensures r.sellerPhone.None? <==> Trim(row.sellerPhone.GetOr("")) == ""
  {
    ImportRow(
      Trim(row.address.GetOr("")),
      Trim(row.city.GetOr("")),
      Trim(row.state.GetOr("")),
      Trim(row.zip.GetOr("")),
      ToNumber(row.listPrice, parse).GetOr(0),
      ToNumber(row.arv, parse),
      ToNumber(row.beds, parse),
      ToNumber(row.baths, parse),
      ToNumber(row.sqft, parse),
      ToNumber(row.dom, parse),
      NormalizeStatus(row.status),
      ToNumber(row.motivationScore, parse),
      BlankToNone(row.mlsId),
      BlankToNone(row.sellerPhone))
  }

  /** The filter of `handleParse` (the `list_price !== null` part always holds). */
  predicate Complete(r: ImportRow) {
    r.address != "" && r.city != "" && r.state != "" && r.zip != ""
  }

  /** `.filter(...)` with `Complete`, in order. */
  function KeepComplete(rows: seq<ImportRow>): (r: seq<ImportRow>)
    ensures |r| <= |rows|
    ensures forall i :: 0 <= i < |r| ==> Complete(r[i])
    ensures forall x :: x in r <==> x in rows && Complete(x)
  {
    if rows == [] then []
    else
      var init := rows[..|rows| - 1];
      var x := rows[|rows| - 1];
      assert rows == init + [x];
      var rest := KeepComplete(init);
      if Complete(x) then rest + [x] else rest
  }

  /** The kept rows hold each complete row as often as the input does. */
  lemma {:induction false} KeepCompleteCounts(rows: seq<ImportRow>)
    ensures forall x :: multiset(KeepComplete(rows))[x] == if Complete(x) then multiset(rows)[x] else 0
  {
    if rows != [] {
      var init := rows[..|rows| - 1];
      var x := rows[|rows| - 1];
      assert rows == init + [x];
      KeepCompleteCounts(init);
      var rest := KeepComplete(init);
      if Complete(x) {
        assert multiset(rest + [x]) == multiset(rest) + multiset{x};
      }
    }
  }

  /** Filtering two runs of rows is filtering each in turn: the kept rows stay in their order. */
  lemma {:induction false} KeepCompleteAppend(a: seq<ImportRow>, b: seq<ImportRow>)
    ensures KeepComplete(a + b) == KeepComplete(a) + KeepComplete(b)
  {
    if b != [] {
      var init := b[..|b| - 1];
      assert (a + b)[..|a + b| - 1] == a + init;
      assert (a + b)[|a + b| - 1] == b[|b| - 1];
      KeepCompleteAppend(a, init);
    } else {
      assert a + b == a;
    }
  }

  /** `data.map(normalizeRow)` */
  function NormalizeAll(data: seq<RawRow>, parse: string -> Option<int>): (rows: seq<ImportRow>)
    ensures |rows| == |data| && forall k :: 0 <= k < |data| ==> rows[k] == NormalizeRow(data[k], parse)
  {
    MapSeq(data, (r: RawRow) => NormalizeRow(r, parse))
  }

  /** `data.map(normalizeRow).filter(...)`: the complete normalised records, in the file's order. */
  function ParsedRows(data: seq<RawRow>, parse: string -> Option<int>): (rows: seq<ImportRow>)
    ensures |rows| <= |data|
    ensures forall i :: 0 <= i < |rows| ==> Complete(rows[i])
    ensures forall x :: x in rows <==> x in NormalizeAll(data, parse) && Complete(x)
  {
    KeepComplete(NormalizeAll(data, parse))
  }

  /** Each complete normalised record is imported as often as it occurs in the file. */
  lemma ParsedRowsCounts(data: seq<RawRow>, parse: string -> Option<int>)
    ensures forall x :: multiset(ParsedRows(data, parse))[x]
                        == if Complete(x) then multiset(NormalizeAll(data, parse))[x] else 0
  {
    KeepCompleteCounts(NormalizeAll(data, parse));
  }

  /** The rows of two parts of a file are the rows of the first part followed by those of the
      second: the file's order is kept. */
  lemma ParsedRowsInOrder(a: seq<RawRow>, b: seq<RawRow>, parse: string -> Option<int>)
    ensures ParsedRows(a + b, parse) == ParsedRows(a, parse) + ParsedRows(b, parse)
  {
    NormalizeAllAppend(a, b, parse);
    KeepCompleteAppend(NormalizeAll(a, parse), NormalizeAll(b, parse));
  }

  lemma NormalizeAllAppend(a: seq<RawRow>, b: seq<RawRow>, parse: string -> Option<int>)
    ensures NormalizeAll(a + b, parse) == NormalizeAll(a, parse) + NormalizeAll(b, parse)
  {
    MapSeqAppend(a, b, (r: RawRow) => NormalizeRow(r, parse));
  }

  /** A record whose four address columns are non-blank is imported, whatever else it holds. */
  lemma AddressedRecordKept(data: seq<RawRow>, k: int, parse: string -> Option<int>)
    requires 0 <= k < |data|
    requires Trim(data[k].address.GetOr("")) != "" && Trim(data[k].city.GetOr("")) != ""
    requires Trim(data[k].state.GetOr("")) != "" && Trim(data[k].zip.GetOr("")) != ""
    ensures NormalizeRow(data[k], parse) in ParsedRows(data, parse)
  {
    var r := NormalizeRow(data[k], parse);
    assert Complete(r);
    assert NormalizeAll(data, parse)[k] == r;
  }

  /** `rows.slice(0, 10)` */
  function Preview(rows: seq<ImportRow>): (r: seq<ImportRow>)
    ensures |r| == if |rows| < 10 then |rows| else 10
    ensures r == rows[..|r|]
  {
    if |rows| <= 10 then rows else rows[..10]
  }

  datatype ParseOutcome = ParseFailed(message: string) | Parsed(rows: seq<ImportRow>)

  /** `handleParse`: no file selected, a parser error (its first message, or a default when that is
      empty), or the parsed rows. */
  function HandleParse(hasFile: bool, errors: seq<string>, data: seq<RawRow>,
                       parse: string -> Option<int>): (r: ParseOutcome)
    ensures !hasFile ==> r == ParseFailed("Select a CSV file first.")
    ensures hasFile && errors != [] ==>
              r == ParseFailed(if errors[0] != "" then errors[0] else "Failed to parse CSV.")
    ensures r.Parsed? <==> hasFile && errors == []
    ensures r.Parsed? ==> r.rows == ParsedRows(data, parse)
  {
    if !hasFile then ParseFailed("Select a CSV file first.")
    else if errors != [] then ParseFailed(if errors[0] != "" then errors[0] else "Failed to parse CSV.")
    else Parsed(ParsedRows(data, parse))
  }
}
