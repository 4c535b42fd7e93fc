/** The procedure-catalogue importer (src/procedures/import_procedures.py):
    it loads CPT/HCPCS codes from a delimited file into the `procedures`
    table, reading columns by header name when the first row names them and
    by position otherwise. The file arrives as its rows of fields (dialect
    sniffing and file access are not modelled); `float()` is the opaque
    partial function `parse`. */
module ProcedureImport {
  import opened Common

  // ---------------------------------------------------------------------------
  // Header detection
  // ---------------------------------------------------------------------------

  /** Accepted header names, in priority order, for each logical column. */
  const CodeCandidates: seq<string> := ["hcpcs", "hcpcs code", "code", "cpt code"]
  const DescriptionCandidates: seq<string> := ["short description", "short_desc", "description", "descr"]
  const ReferenceCandidates: seq<string> :=
    ["non-facility total payment", "non facility total payment", "non_facility_total_payment",
     "non-facility payment", "nonfacility total payment", "reference_cost", "ref_cost"]

  /** `{name.lower(): name for name in fieldnames}.get(key)`: the last header
      whose lower-case form is `key` (later entries overwrite earlier ones). */
  function LowerLookup(fieldnames: seq<string>, key: string): (r: Option<string>)
    ensures r.Some? ==> r.value in fieldnames && ToLower(r.value) == key
    ensures r.None? <==> forall f :: f in fieldnames ==> ToLower(f) != key
    decreases |fieldnames|
  {
    if fieldnames == [] then None
    else
      var last := fieldnames[|fieldnames| - 1];
      assert forall f :: f in fieldnames ==> f in fieldnames[..|fieldnames| - 1] || f == last;
      if ToLower(last) == key then Some(last) else LowerLookup(fieldnames[..|fieldnames| - 1], key)
  }

  /** Index of the first candidate present among the headers. */
  function FirstPresent(fieldnames: seq<string>, candidates: seq<string>): (r: Option<nat>)
    ensures r.Some? ==> r.value < |candidates| && LowerLookup(fieldnames, candidates[r.value]).Some?
    ensures r.Some? ==> forall j :: 0 <= j < r.value ==> LowerLookup(fieldnames, candidates[j]).None?
    ensures r.None? ==> forall j :: 0 <= j < |candidates| ==> LowerLookup(fieldnames, candidates[j]).None?
  {
    if candidates == [] then None
    else if LowerLookup(fieldnames, candidates[0]).Some? then Some(0)
    else match FirstPresent(fieldnames, candidates[1..])
      case None => None
      case Some(i) => Some(i + 1)
  }

  /** `pick`: the header of the first candidate present. */
  function Pick(fieldnames: seq<string>, candidates: seq<string>): (r: Option<string>)
    ensures r.Some? ==> r.value in fieldnames && ToLower(r.value) in candidates
    ensures r.None? <==> forall f, c :: f in fieldnames && c in candidates ==> ToLower(f) != c
  {
    match FirstPresent(fieldnames, candidates)
    case None => None
    case Some(i) => LowerLookup(fieldnames, candidates[i])
  }

  /** The header names chosen for the three columns. */
  datatype Fields = Fields(code: string, description: string, reference: Option<string>)

  /** `detect_fields`; `None` is the ValueError raised when the code or the
      description column is missing. */
  function DetectFields(fieldnames: seq<string>): (r: Option<Fields>)
    ensures r.None? <==> Pick(fieldnames, CodeCandidates).None? || Pick(fieldnames, DescriptionCandidates).None?
    ensures r.Some? ==> r.value.code in fieldnames && ToLower(r.value.code) in CodeCandidates
    ensures r.Some? ==> r.value.description in fieldnames && ToLower(r.value.description) in DescriptionCandidates
    ensures r.Some? ==> r.value.reference == Pick(fieldnames, ReferenceCandidates)
  {
    var code := Pick(fieldnames, CodeCandidates);
    var description := Pick(fieldnames, DescriptionCandidates);
    if code.None? || description.None? then None
    else Some(Fields(code.value, description.value, Pick(fieldnames, ReferenceCandidates)))
  }

  /** Header matching ignores case, and a higher-priority candidate wins over
      any later one: a header reading "HCPCS" is the code column even when a
      "code" column is present too. */
  lemma {:induction false} PickPriority(fieldnames: seq<string>, candidates: seq<string>, i: nat)
    requires i < |candidates|
    requires exists f :: f in fieldnames && ToLower(f) == candidates[i]
    requires forall j :: 0 <= j < i ==> forall f :: f in fieldnames ==> ToLower(f) != candidates[j]
    ensures Pick(fieldnames, candidates).Some?
    ensures ToLower(Pick(fieldnames, candidates).value) == candidates[i]
  {
    assert LowerLookup(fieldnames, candidates[i]).Some?;
  }

  // ---------------------------------------------------------------------------
  // Field parsing
  // ---------------------------------------------------------------------------

  /** `s.replace(c, "")`. */
  function Without(s: string, c: char): (r: string)
    ensures forall x :: x in r ==> x in s && x != c
    ensures |r| <= |s|
    ensures c !in s ==> r == s
  {
    if s == [] then []
    else (if s[0] == c then [] else [s[0]]) + Without(s[1..], c)
  }

  /** The text handed to `float()`: trimmed, without "$" and ",". */
  function CleanCost(s: string): (r: string)
    ensures '$' !in r && ',' !in r
  {
    Without(Without(Trim(s), '$'), ',')
  }

  /** `parse_reference_cost`. */
  function ParseReferenceCost(value: Option<string>, parse: string -> Option<real>): (r: Option<real>)
    ensures value.None? ==> r.None?
    ensures value.Some? && AllSpace(value.value) ==> r.None?
    ensures value.Some? && !AllSpace(value.value) ==> r == parse(CleanCost(value.value))
  {
    match value
    case None => None
    case Some(v) =>
      var t := Trim(v);
      if t == [] then None else parse(Without(Without(t, '$'), ','))
  }

  /** A cost already written as a bare number, with no surrounding space,
      no "$" and no ",", reaches `float()` unchanged. */
  lemma {:induction false} CleanCostOfPlainNumber(s: string)
    requires s != [] && !IsSpace(s[0]) && !IsSpace(s[|s| - 1])
    requires '$' !in s && ',' !in s
    ensures CleanCost(s) == s
  {
    TrimUntouched(s);
  }

  predicate IsDigit(c: char) {
    '0' <= c <= '9'
  }

  /** `derive_code_system`: five digits are a CPT code, anything else HCPCS. */
  function DeriveCodeSystem(code: string): (r: string)
    ensures r == "cpt" <==> |Trim(code)| == 5 && forall i :: 0 <= i < 5 ==> IsDigit(Trim(code)[i])
    ensures r == "cpt" || r == "hcpcs"
  {
    var c := Trim(code);
    if |c| == 5 && forall i :: 0 <= i < 5 ==> IsDigit(c[i]) then "cpt" else "hcpcs"
  }

  // ---------------------------------------------------------------------------
  // Rows and the upsert
  // ---------------------------------------------------------------------------

  /** A `procedures` row as the importers see it, keyed by its unique code
      (the database-assigned id is not modelled here). */
  datatype Procedure = Procedure(code: string, description: string, codeSystem: string, referenceCost: Option<real>)

  /** What one accepted input row contributes. */
  datatype Line = Line(code: string, description: string, referenceCost: Option<real>)

  /** Every row of the table is stored under its own code. */
  predicate KeyedByCode(table: map<string, Procedure>) {
    forall c :: c in table ==> table[c].code == c
  }

  /** The row an upsert stores under the line's code. */
  function UpsertedRow(table: map<string, Procedure>, line: Line): Procedure {
    var codeSystem := DeriveCodeSystem(line.code);
    if line.code in table then
      var existing := table[line.code];
      existing.(
        description := if line.description != "" then line.description else existing.description,
        codeSystem := codeSystem,
        referenceCost := if line.referenceCost.Some? then line.referenceCost else existing.referenceCost)
    else
      Procedure(line.code, if line.description != "" then line.description else "Procedure " + line.code,
                codeSystem, line.referenceCost)
  }

  /** The body shared by the import loops: update the row of an existing
      code, or insert a new one. */
  function Upsert(table: map<string, Procedure>, line: Line): (t: map<string, Procedure>)
    ensures t.Keys == table.Keys + {line.code}
  {
    table[line.code := UpsertedRow(table, line)]
  }

  /** An upsert touches only the row of its code. An existing row keeps its
      old description when the new one is empty and its old cost when none
      was parsed; a new row gets "Procedure <code>" as its default
      description. Either way the code system is derived afresh, and the
      table stays keyed by code. */
  lemma {:induction false} UpsertEffect(table: map<string, Procedure>, line: Line)
    ensures var t := Upsert(table, line);
            && t == table[line.code := t[line.code]]
            && t[line.code].codeSystem == DeriveCodeSystem(line.code)
            && (line.code in table ==>
                  && t[line.code].description == (if line.description != "" then line.description else table[line.code].description)
                  && t[line.code].referenceCost == (if line.referenceCost.Some? then line.referenceCost else table[line.code].referenceCost))
            && (line.code !in table ==>
                  && t[line.code].description == (if line.description != "" then line.description else "Procedure " + line.code)
                  && t[line.code].referenceCost == line.referenceCost)
            && (KeyedByCode(table) ==> KeyedByCode(t))
  {
  }

  /** An insert grows the table by one row, an update leaves its size. */
  lemma {:induction false} UpsertSize(table: map<string, Procedure>, line: Line)
    ensures |Upsert(table, line).Keys| == |table.Keys| + (if line.code in table then 0 else 1)
  {
    var t := Upsert(table, line);
    if line.code in table {
      assert t.Keys == table.Keys;
    } else {
      assert t.Keys == table.Keys + {line.code};
      assert table.Keys !! {line.code};
    }
  }

  /** `row.get(name)` on a `csv.DictReader` row built from `header` and the
      row's fields: the field under the last column of that name; `None` when
      no column has the name or the row is too short to reach it. */
  function Field(header: seq<string>, values: seq<string>, name: string): (r: Option<string>)
    ensures name !in header ==> r.None?
    decreases |header|
  {
    if header == [] then None
    else if header[|header| - 1] == name then
      (if |header| - 1 < |values| then Some(values[|header| - 1]) else None)
    else Field(header[..|header| - 1], values, name)
  }

  /** The line a data row of a file with a header contributes, or `None` when
      its code is blank. */
  function HeaderLine(fields: Fields, header: seq<string>, values: seq<string>, parse: string -> Option<real>): (r: Option<Line>)
    ensures r.Some? ==> r.value.code != [] && r.value.code == Trim(OrElse(Field(header, values, fields.code), ""))
    ensures r.Some? ==> r.value.description == Trim(OrElse(Field(header, values, fields.description), ""))
    ensures r.Some? && fields.reference.None? ==> r.value.referenceCost.None?
    ensures r.None? <==> Trim(OrElse(Field(header, values, fields.code), "")) == []
  {
    var code := Trim(OrElse(Field(header, values, fields.code), ""));
    if code == [] then None
    else
      var description := Trim(OrElse(Field(header, values, fields.description), ""));
      var cost := if fields.reference.Some? then ParseReferenceCost(Field(header, values, fields.reference.value), parse) else None;
      Some(Line(code, description, cost))
  }

  /** `not row or all(not col.strip() for col in row)`. */
  predicate BlankRow(row: seq<string>) {
    forall i :: 0 <= i < |row| ==> AllSpace(row[i])
  }

  /** The line a row of a headerless file contributes: the code is the fourth
      field and the cost the sixth; blank rows, rows of fewer than six fields
      and blank codes contribute nothing. */
  function HeaderlessLine(values: seq<string>, parse: string -> Option<real>): (r: Option<Line>)
    ensures r.Some? <==> !BlankRow(values) && |values| >= 6 && Trim(values[3]) != []
    ensures r.Some? ==> r.value.code == Trim(values[3]) && r.value.description == "Procedure " + r.value.code
    ensures r.Some? ==> r.value.referenceCost == ParseReferenceCost(Some(values[5]), parse)
  {
    if BlankRow(values) || |values| < 6 then None
    else
      var code := Trim(values[3]);
      if code == [] then None
      else Some(Line(code, "Procedure " + code, ParseReferenceCost(Some(values[5]), parse)))
  }

  /** The table after the header import of `rows`, one row after the other. */
  function ApplyHeaderRows(table: map<string, Procedure>, fields: Fields, header: seq<string>,
                           rows: seq<seq<string>>, parse: string -> Option<real>): (t: map<string, Procedure>)
    ensures table.Keys <= t.Keys
    decreases |rows|
  {
    if rows == [] then table
    else
      var before := ApplyHeaderRows(table, fields, header, rows[..|rows| - 1], parse);
      match HeaderLine(fields, header, rows[|rows| - 1], parse)
      case None => before
      case Some(line) => Upsert(before, line)
  }

  /** The table after the headerless import of `rows`. */
  function ApplyHeaderlessRows(table: map<string, Procedure>, rows: seq<seq<string>>,
                               parse: string -> Option<real>): (t: map<string, Procedure>)
    ensures table.Keys <= t.Keys
    decreases |rows|
  {
    if rows == [] then table
    else
      var before := ApplyHeaderlessRows(table, rows[..|rows| - 1], parse);
      match HeaderlessLine(rows[|rows| - 1], parse)
      case None => before
      case Some(line) => Upsert(before, line)
  }

  /** One more row of the header import. */
  lemma {:induction false} HeaderRowStep(table: map<string, Procedure>, fields: Fields, header: seq<string>,
                                         rows: seq<seq<string>>, i: nat, parse: string -> Option<real>)
    requires i < |rows|
    ensures var line := HeaderLine(fields, header, rows[i], parse);
            var before := ApplyHeaderRows(table, fields, header, rows[..i], parse);
            && ApplyHeaderRows(table, fields, header, rows[..i + 1], parse) == (if line.Some? then Upsert(before, line.value) else before)
            && CodedHeaderRows(fields, header, rows[..i + 1], parse)
               == CodedHeaderRows(fields, header, rows[..i], parse) + (if line.Some? then 1 else 0)
  {
    assert rows[..i + 1][..i] == rows[..i];
  }

  /** One more row of the headerless import. */
  lemma {:induction false} HeaderlessRowStep(table: map<string, Procedure>, rows: seq<seq<string>>, i: nat,
                                             parse: string -> Option<real>)
    requires i < |rows|
    ensures var line := HeaderlessLine(rows[i], parse);
            var before := ApplyHeaderlessRows(table, rows[..i], parse);
            && ApplyHeaderlessRows(table, rows[..i + 1], parse) == (if line.Some? then Upsert(before, line.value) else before)
            && CodedHeaderlessRows(rows[..i + 1], parse) == CodedHeaderlessRows(rows[..i], parse) + (if line.Some? then 1 else 0)
  {
    assert rows[..i + 1][..i] == rows[..i];
  }

  /** Number of data rows with a non-blank code. */
  function CodedHeaderRows(fields: Fields, header: seq<string>, rows: seq<seq<string>>, parse: string -> Option<real>): (k: nat)
    ensures k <= |rows|
    decreases |rows|
  {
    if rows == [] then 0
    else CodedHeaderRows(fields, header, rows[..|rows| - 1], parse)
         + (if HeaderLine(fields, header, rows[|rows| - 1], parse).Some? then 1 else 0)
  }

  /** Number of headerless rows that contribute a line. */
  function CodedHeaderlessRows(rows: seq<seq<string>>, parse: string -> Option<real>): (k: nat)
    ensures k <= |rows|
    decreases |rows|
  {
    if rows == [] then 0
    else CodedHeaderlessRows(rows[..|rows| - 1], parse) + (if HeaderlessLine(rows[|rows| - 1], parse).Some? then 1 else 0)
  }

  /** The upsert of a line keeps the table keyed by code. */
  lemma {:induction false} UpsertKeyed(table: map<string, Procedure>, line: Line)
    requires KeyedByCode(table)
    ensures KeyedByCode(Upsert(table, line))
  {
    var t := Upsert(table, line);
    forall c | c in t ensures t[c].code == c {
      if c != line.code {
        assert t[c] == table[c];
      }
    }
  }

  /** The headerless import keeps the table keyed by code. */
  lemma {:induction false} HeaderlessKeyed(table: map<string, Procedure>, rows: seq<seq<string>>, parse: string -> Option<real>)
    requires KeyedByCode(table)
    ensures KeyedByCode(ApplyHeaderlessRows(table, rows, parse))
    decreases |rows|
  {
    if rows != [] {
      var front := rows[..|rows| - 1];
      HeaderlessKeyed(table, front, parse);
      var last := HeaderlessLine(rows[|rows| - 1], parse);
      if last.Some? {
        UpsertKeyed(ApplyHeaderlessRows(table, front, parse), last.value);
      }
    }
  }

  /** The code of every accepted headerless row ends up in the table with
      the placeholder description. */
  lemma {:induction false} HeaderlessDescription(table: map<string, Procedure>, rows: seq<seq<string>>,
                                                 parse: string -> Option<real>, i: nat)
    requires i < |rows| && HeaderlessLine(rows[i], parse).Some?
    ensures var code := HeaderlessLine(rows[i], parse).value.code;
            var t := ApplyHeaderlessRows(table, rows, parse);
            code in t && t[code].description == "Procedure " + code
    decreases |rows|
  {
    var front := rows[..|rows| - 1];
    var before := ApplyHeaderlessRows(table, front, parse);
    var code := HeaderlessLine(rows[i], parse).value.code;
    var last := HeaderlessLine(rows[|rows| - 1], parse);
    if i < |rows| - 1 {
      assert rows[i] == front[i];
      HeaderlessDescription(table, front, parse, i);
      if last.Some? && last.value.code != code {
        assert Upsert(before, last.value)[code] == before[code];
      }
    }
  }

  /** Every code the headerless import adds comes from one of its rows. */
  lemma {:induction false} HeaderlessOrigin(table: map<string, Procedure>, rows: seq<seq<string>>,
                                            parse: string -> Option<real>, c: string)
    requires c in ApplyHeaderlessRows(table, rows, parse) && c !in table
    ensures exists i :: 0 <= i < |rows| && HeaderlessLine(rows[i], parse).Some? && HeaderlessLine(rows[i], parse).value.code == c
    decreases |rows|
  {
    var front := rows[..|rows| - 1];
    if c in ApplyHeaderlessRows(table, front, parse) {
      HeaderlessOrigin(table, front, parse, c);
      var i :| 0 <= i < |front| && HeaderlessLine(front[i], parse).Some? && HeaderlessLine(front[i], parse).value.code == c;
      assert rows[i] == front[i];
    } else {
      assert HeaderlessLine(rows[|rows| - 1], parse).Some?;
    }
  }

  /** The headerless import adds exactly the codes of its accepted rows, and
      every row it touches carries the placeholder description. */
  lemma {:induction false} HeaderlessImportRows(table: map<string, Procedure>, rows: seq<seq<string>>, parse: string -> Option<real>)
    requires KeyedByCode(table)
    ensures var t := ApplyHeaderlessRows(table, rows, parse);
            && KeyedByCode(t)
            && (forall i :: 0 <= i < |rows| && HeaderlessLine(rows[i], parse).Some? ==>
                  var code := HeaderlessLine(rows[i], parse).value.code;
                  code in t && t[code].description == "Procedure " + code)
            && (forall c :: c in t && c !in table ==>
                  exists i :: 0 <= i < |rows| && HeaderlessLine(rows[i], parse).Some? && HeaderlessLine(rows[i], parse).value.code == c)
  {
    HeaderlessKeyed(table, rows, parse);
    forall i | 0 <= i < |rows| && HeaderlessLine(rows[i], parse).Some?
      ensures var code := HeaderlessLine(rows[i], parse).value.code;
              var t := ApplyHeaderlessRows(table, rows, parse);
              code in t && t[code].description == "Procedure " + code
    {
      HeaderlessDescription(table, rows, parse, i);
    }
    forall c | c in ApplyHeaderlessRows(table, rows, parse) && c !in table
      ensures exists i :: 0 <= i < |rows| && HeaderlessLine(rows[i], parse).Some? && HeaderlessLine(rows[i], parse).value.code == c
    {
      HeaderlessOrigin(table, rows, parse, c);
    }
  }

  // ---------------------------------------------------------------------------
  // The table and the import loops
  // ---------------------------------------------------------------------------

  /** How the file was read. */
  datatype Mode = WithHeader | Headerless

  datatype ImportReport = ImportReport(mode: Mode, created: nat, updated: nat)

  /** The `procedures` table as the importers write it. */
  class ProcedureCatalog {
    var procedures: map<string, Procedure>

    constructor ()
      ensures procedures == map[]
    {
      procedures := map[];
    }

    /** The upsert step of the import loops: look the code up, then update
        the existing row or insert a new one. Reports whether it inserted. */
    method UpsertLine(line: Line) returns (inserted: bool)
      modifies this
      ensures procedures == Upsert(old(procedures), line)
      ensures inserted <==> line.code !in old(procedures)
      ensures |procedures.Keys| == |old(procedures).Keys| + (if inserted then 1 else 0)
    {
      inserted := line.code !in procedures;
      UpsertSize(procedures, line);
      procedures := Upsert(procedures, line);
    }

    /** One row of an import loop: the row's line, when it has one, is
        upserted and counted as created or updated. */
    method ImportLine(line: Option<Line>, created: nat, updated: nat) returns (created': nat, updated': nat)
      modifies this
      ensures procedures == if line.Some? then Upsert(old(procedures), line.value) else old(procedures)
      ensures created' + updated' == created + updated + (if line.Some? then 1 else 0)
      ensures created' == created + |procedures.Keys| - |old(procedures).Keys|
    {
      created', updated' := created, updated;
      if line.Some? {
        var inserted := UpsertLine(line.value);
        if inserted {
          created' := created' + 1;
        } else {
          updated' := updated' + 1;
        }
      }
    }

    /** `import_with_header`: `header` is the file's first row and `rows` the
        rows after it. `None` is the ValueError of header detection, raised
        before any row is read. Every row with a code counts as created or
        updated; with autoflush a repeated code in the same file finds the
        row inserted for its first occurrence and counts as updated. */
    method ImportWithHeader(header: seq<string>, rows: seq<seq<string>>, parse: string -> Option<real>)
      returns (r: Option<(nat, nat)>)
      modifies this
      ensures r.None? <==> DetectFields(header).None?
      ensures r.None? ==> procedures == old(procedures)
      ensures r.Some? ==> procedures == ApplyHeaderRows(old(procedures), DetectFields(header).value, header, rows, parse)
      ensures r.Some? ==> r.value.0 + r.value.1 == CodedHeaderRows(DetectFields(header).value, header, rows, parse)
      ensures r.Some? ==> r.value.0 == |procedures.Keys| - |old(procedures).Keys|
    {
      var detected := DetectFields(header);
      if detected.None? {
        return None;
      }
      var fields := detected.value;
      var created := 0;
      var updated := 0;
      var i := 0;
      while i < |rows|
        invariant 0 <= i <= |rows|
        invariant procedures == ApplyHeaderRows(old(procedures), fields, header, rows[..i], parse)
        invariant created + updated == CodedHeaderRows(fields, header, rows[..i], parse)
        invariant created == |procedures.Keys| - |old(procedures).Keys|
      {
        HeaderRowStep(old(procedures), fields, header, rows, i, parse);
        var line := HeaderLine(fields, header, rows[i], parse);
        created, updated := ImportLine(line, created, updated);
        i := i + 1;
      }
      assert rows[..i] == rows;
      r := Some((created, updated));
    }

    /** `import_headerless_pfs`. */
    method ImportHeaderless(rows: seq<seq<string>>, parse: string -> Option<real>) returns (created: nat, updated: nat)
      modifies this
      ensures procedures == ApplyHeaderlessRows(old(procedures), rows, parse)
      ensures created + updated == CodedHeaderlessRows(rows, parse)
      ensures created == |procedures.Keys| - |old(procedures).Keys|
    {
      created := 0;
      updated := 0;
      var i := 0;
      while i < |rows|
        invariant 0 <= i <= |rows|
        invariant procedures == ApplyHeaderlessRows(old(procedures), rows[..i], parse)
        invariant created + updated == CodedHeaderlessRows(rows[..i], parse)
        invariant created == |procedures.Keys| - |old(procedures).Keys|
      {
        HeaderlessRowStep(old(procedures), rows, i, parse);
        var line := HeaderlessLine(rows[i], parse);
        created, updated := ImportLine(line, created, updated);
        i := i + 1;
      }
      assert rows[..i] == rows;
    }

    /** `import_procedures_from_pfs_file`: an empty file is an error; when the
        first row does not name a code and a description column the whole
        file, first row included, is imported by position. */
    method ImportFile(rows: seq<seq<string>>, parse: string -> Option<real>) returns (r: Outcome<ImportReport>)
      modifies this
      ensures rows == [] ==> r == Failure("File appears to be empty.") && procedures == old(procedures)
      ensures rows != [] && DetectFields(rows[0]).Some? ==>
                && r.Success? && r.value.mode == WithHeader
                && procedures == ApplyHeaderRows(old(procedures), DetectFields(rows[0]).value, rows[0], rows[1..], parse)
      ensures rows != [] && DetectFields(rows[0]).None? ==>
                && r.Success? && r.value.mode == Headerless
                && procedures == ApplyHeaderlessRows(old(procedures), rows, parse)
      ensures r.Success? ==> r.value.created == |procedures.Keys| - |old(procedures).Keys|
    {
      if rows == [] {
        return Failure("File appears to be empty.");
      }
      var withHeader := ImportWithHeader(rows[0], rows[1..], parse);
      if withHeader.Some? {
        return Success(ImportReport(WithHeader, withHeader.value.0, withHeader.value.1));
      }
      var created, updated := ImportHeaderless(rows, parse);
      r := Success(ImportReport(Headerless, created, updated));
    }
  }
}
