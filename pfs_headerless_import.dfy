/** The stand-alone importer for headerless PFS files
    (src/procedures/import_pfs_headerless_simple.py): the positional import
    with a sanity check on the code length, at most one upsert per code in a
    run, progress counters and a commit every 2000 used rows. Its own
    `parse_reference_cost` and `derive_code_system` are the same as those of
    the main importer and are reused from it. */
module PfsHeaderlessImport {
  import opened Common
  import opened ProcedureImport

  /** Used rows between intermediate commits. */
  const BatchSize: nat := 2000

  /** The line a row contributes before the duplicate check: the positional
      line of the main importer, restricted to codes of 3 to 7 characters. */
  function Accepted(row: seq<string>, parse: string -> Option<real>): (r: Option<Line>)
    ensures r.Some? <==> HeaderlessLine(row, parse).Some? && 3 <= |Trim(row[3])| <= 7
    ensures r.Some? ==> r.value == HeaderlessLine(row, parse).value
  {
    match HeaderlessLine(row, parse)
    case None => None
    case Some(line) => if |line.code| < 3 || |line.code| > 7 then None else Some(line)
  }

  /** `seen_codes` after one more row. */
  function StepSeen(seen: set<string>, line: Option<Line>): set<string> {
    if line.Some? then seen + {line.value.code} else seen
  }

  /** The table after one more row: the line is upserted only when its code
      was not seen earlier in the run. */
  function StepTable(table: map<string, Procedure>, seen: set<string>, line: Option<Line>): map<string, Procedure> {
    if line.Some? && line.value.code !in seen then Upsert(table, line.value) else table
  }

  /** The codes of the accepted rows: `seen_codes` after those rows. */
  function SeenCodes(rows: seq<seq<string>>, parse: string -> Option<real>): (s: set<string>)
    ensures forall c :: c in s ==> 3 <= |c| <= 7
    decreases |rows|
  {
    if rows == [] then {}
    else StepSeen(SeenCodes(rows[..|rows| - 1], parse), Accepted(rows[|rows| - 1], parse))
  }

  /** The table after the run. */
  function ApplyRows(table: map<string, Procedure>, rows: seq<seq<string>>, parse: string -> Option<real>): map<string, Procedure>
    decreases |rows|
  {
    if rows == [] then table
    else
      var front := rows[..|rows| - 1];
      StepTable(ApplyRows(table, front, parse), SeenCodes(front, parse), Accepted(rows[|rows| - 1], parse))
  }

  /** The run adds exactly its distinct accepted codes to the table. */
  lemma {:induction false} ApplyRowsKeys(table: map<string, Procedure>, rows: seq<seq<string>>, parse: string -> Option<real>)
    ensures ApplyRows(table, rows, parse).Keys == table.Keys + SeenCodes(rows, parse)
    decreases |rows|
  {
    if rows != [] {
      ApplyRowsKeys(table, rows[..|rows| - 1], parse);
    }
  }

  /** Every accepted code ends up with the placeholder description: its first
      row writes it, and the later rows of the same code are skipped. */
  lemma {:induction false} ApplyRowsDescription(table: map<string, Procedure>, rows: seq<seq<string>>,
                                                parse: string -> Option<real>, c: string)
    requires c in SeenCodes(rows, parse)
    ensures c in ApplyRows(table, rows, parse)
    ensures ApplyRows(table, rows, parse)[c].description == "Procedure " + c
    decreases |rows|
  {
    var front := rows[..|rows| - 1];
    var before := ApplyRows(table, front, parse);
    var line := Accepted(rows[|rows| - 1], parse);
    if c in SeenCodes(front, parse) {
      ApplyRowsDescription(table, front, parse, c);
      if line.Some? && line.value.code !in SeenCodes(front, parse) {
        assert Upsert(before, line.value)[c] == before[c];
      }
    } else {
      assert line.Some? && line.value.code == c;
      assert line.value.description == "Procedure " + c;
    }
  }

  /** The run adds exactly its distinct accepted codes to the table, and
      every one of them ends up with the placeholder description. */
  lemma {:induction false} ApplyRowsEffect(table: map<string, Procedure>, rows: seq<seq<string>>, parse: string -> Option<real>)
    ensures ApplyRows(table, rows, parse).Keys == table.Keys + SeenCodes(rows, parse)
    ensures forall c :: c in SeenCodes(rows, parse) ==> ApplyRows(table, rows, parse)[c].description == "Procedure " + c
  {
    ApplyRowsKeys(table, rows, parse);
    forall c | c in SeenCodes(rows, parse) ensures ApplyRows(table, rows, parse)[c].description == "Procedure " + c {
      ApplyRowsDescription(table, rows, parse, c);
    }
  }

  /** Intermediate commits happen at the positive multiples of the batch size
      reached so far. */
  predicate CommitsAtMultiples(commits: seq<nat>, used: nat) {
    && |commits| == used / BatchSize
    && forall j :: 0 <= j < |commits| ==> commits[j] == (j + 1) * BatchSize
  }

  /** One more used row: a commit is due exactly when the new count is a
      multiple of the batch size. */
  lemma {:induction false} CommitStep(commits: seq<nat>, used: nat)
    requires CommitsAtMultiples(commits, used)
    ensures (used + 1) % BatchSize == 0 ==> CommitsAtMultiples(commits + [used + 1], used + 1)
    ensures (used + 1) % BatchSize != 0 ==> CommitsAtMultiples(commits, used + 1)
  {
    var q := used / BatchSize;
    assert used == q * BatchSize + used % BatchSize;
    if (used + 1) % BatchSize == 0 {
      assert used % BatchSize == BatchSize - 1;
      assert used + 1 == (q + 1) * BatchSize;
    } else {
      assert used % BatchSize < BatchSize - 1;
      assert used + 1 == q * BatchSize + (used % BatchSize + 1);
    }
  }

  /** One more row of the run. */
  lemma {:induction false} RowStep(table: map<string, Procedure>, rows: seq<seq<string>>, i: nat, parse: string -> Option<real>)
    requires i < |rows|
    ensures var line := Accepted(rows[i], parse);
            && SeenCodes(rows[..i + 1], parse) == StepSeen(SeenCodes(rows[..i], parse), line)
            && ApplyRows(table, rows[..i + 1], parse) == StepTable(ApplyRows(table, rows[..i], parse), SeenCodes(rows[..i], parse), line)
  {
    assert rows[..i + 1][..i] == rows[..i];
  }

  /** The loop state of a run: the counters, `seen_codes` and the commits
      made so far. */
  datatype Progress = Progress(totalRows: nat, usedRows: nat, created: nat, updated: nat,
                               seen: set<string>, batchCommits: seq<nat>)

  /** The counters agree with `seen_codes`, with the growth of the table
      from `base` rows, and with the commits made. */
  predicate Counters(p: Progress, table: map<string, Procedure>, base: int) {
    && p.usedRows == |p.seen|
    && p.created + p.updated == p.usedRows
    && p.created == |table.Keys| - base
    && CommitsAtMultiples(p.batchCommits, p.usedRows)
  }

  /** What the loop state and the table are after the first `i` rows of a
      run that started from `start`. */
  predicate Consistent(p: Progress, table: map<string, Procedure>, start: map<string, Procedure>,
                       rows: seq<seq<string>>, i: nat, parse: string -> Option<real>)
    requires i <= |rows|
  {
    && p.totalRows == i
    && p.seen == SeenCodes(rows[..i], parse)
    && table == ApplyRows(start, rows[..i], parse)
    && Counters(p, table, |start.Keys|)
  }

  /** A row whose code is new to the run: it counts as used, its line is
      upserted, and a commit follows when the used rows reach a multiple of
      the batch size. */
  method UseRow(catalog: ProcedureCatalog, p: Progress, ghost base: int, line: Line) returns (q: Progress)
    requires Counters(p, catalog.procedures, base)
    requires line.code !in p.seen
    modifies catalog
    ensures catalog.procedures == Upsert(old(catalog.procedures), line)
    ensures q.seen == p.seen + {line.code}
    ensures q.totalRows == p.totalRows
    ensures Counters(q, catalog.procedures, base)
  {
    assert |p.seen + {line.code}| == |p.seen| + 1;
    CommitStep(p.batchCommits, p.usedRows);
    q := p.(seen := p.seen + {line.code}, usedRows := p.usedRows + 1);
    var inserted := catalog.UpsertLine(line);
    if inserted {
      q := q.(created := q.created + 1);
    } else {
      q := q.(updated := q.updated + 1);
    }
    if q.usedRows % BatchSize == 0 {
      q := q.(batchCommits := q.batchCommits + [q.usedRows]);
    }
  }

  /** The body of the row loop, given the row's accepted line. */
  method ProcessRow(catalog: ProcedureCatalog, p: Progress, ghost base: int, line: Option<Line>) returns (q: Progress)
    requires Counters(p, catalog.procedures, base)
    modifies catalog
    ensures catalog.procedures == StepTable(old(catalog.procedures), p.seen, line)
    ensures q.seen == StepSeen(p.seen, line)
    ensures q.totalRows == p.totalRows + 1
    ensures Counters(q, catalog.procedures, base)
  {
    q := p.(totalRows := p.totalRows + 1);
    if line.Some? && line.value.code in q.seen {
      assert q.seen + {line.value.code} == q.seen;
    } else if line.Some? {
      q := UseRow(catalog, q, base, line.value);
    }
  }

  /** `import_pfs_headerless` over the rows of the file. */
  method ImportPfsHeaderless(catalog: ProcedureCatalog, rows: seq<seq<string>>, parse: string -> Option<real>)
    returns (s: Progress)
    modifies catalog
    ensures catalog.procedures == ApplyRows(old(catalog.procedures), rows, parse)
    ensures s.totalRows == |rows|
    ensures s.usedRows == |SeenCodes(rows, parse)|
    ensures s.created + s.updated == s.usedRows
    ensures s.created == |catalog.procedures.Keys| - |old(catalog.procedures).Keys|
    ensures CommitsAtMultiples(s.batchCommits, s.usedRows)
  {
    ghost var start := catalog.procedures;
    s := Progress(0, 0, 0, 0, {}, []);
    var i := 0;
    while i < |rows|
      invariant 0 <= i <= |rows|
      invariant Consistent(s, catalog.procedures, start, rows, i, parse)
    {
      var line := Accepted(rows[i], parse);
      s := ProcessRow(catalog, s, |start.Keys|, line);
      RowStep(start, rows, i, parse);
      i := i + 1;
    }
    assert rows[..i] == rows;
  }
}
