/** Importing a confirmation CSV that two people entered: when the entries count as equal, and what the import makes of each row. */
module DualEntry {
  import opened Ordering
  import opened CanonicalJson
  import opened Ledger
  import opened DrawMachine
  import opened ConfirmationCsv
  import opened EventPayloads
  import opened Workflow
  import opened WorkflowLog
  import opened WorkflowChanges
  import opened WorkflowRuns
  import opened WorkflowAcceptance
  import opened RowVerdicts

  // ---------------------------------------------------------------------------
  // Two entries
  // ---------------------------------------------------------------------------

  lemma RowKeysDiffer(row: CsvRow)
    ensures DistinctKeys(RowMembers(row), MemberKey)
  {
    var ms := RowMembers(row);
    assert |ms[0].key| == 19 && |ms[1].key| == 20 && |ms[2].key| == 12;
    assert |ms[3].key| == 8 && |ms[4].key| == 17 && |ms[5].key| == 15;
  }

  lemma RowKeysAgree(a: CsvRow, b: CsvRow)
    ensures forall i :: 0 <= i < 6 ==> RowMembers(a)[i].key == RowMembers(b)[i].key
  {
  }

  lemma SameRow(a: CsvRow, b: CsvRow)
    requires Same(RowJson(a), RowJson(b))
    ensures a == b
  {
    RowKeysDiffer(a);
    RowKeysAgree(a, b);
    var u, v := RowMembers(a), RowMembers(b);
    AlignedSame(u, v);
    hide DistinctKeys;
    assert Same(u[0].value, v[0].value) && Same(u[1].value, v[1].value) && Same(u[2].value, v[2].value);
    assert Same(u[3].value, v[3].value) && Same(u[4].value, v[4].value) && Same(u[5].value, v[5].value);
  }

  lemma {:induction false} RowsAt(rows: seq<CsvRow>, i: nat)
    requires i < |rows|
    ensures RowsJson(rows)[i] == RowJson(rows[i])
  {
    if i > 0 { RowsAt(rows[1..], i - 1); }
  }

  /** Two entries print to one text exactly if they are the same rows. */
  lemma EntriesCompare(a: seq<CsvRow>, b: seq<CsvRow>)
    ensures AuditText(Arr(RowsJson(a))) == AuditText(Arr(RowsJson(b))) <==> a == b
  {
    var u, v := Arr(RowsJson(a)), Arr(RowsJson(b));
    if AuditText(u) == AuditText(v) {
      RowsValid(a);
      ItemsValid(RowsJson(a));
      RowsValid(b);
      ItemsValid(RowsJson(b));
      TextIsUnambiguous(u, v);
      forall i | 0 <= i < |a| ensures a[i] == b[i] {
        RowsAt(a, i);
        RowsAt(b, i);
        assert Same(u.items[i], v.items[i]);
        hide Same, RowJson;
        SameRow(a[i], b[i]);
      }
    }
  }

  /** The roles that may enter a confirmation CSV. */
  const ENTRY_ROLES := ["TreasuryOwner", "OperationsOwner", "FundAdministrator", "RiskOwner"]

  /** An import needs two people, each in an entry role, and two entries that read as the same rows. */
  lemma TwoPeopleSameRows(cfg: Config, s: State, env: Env, entrant: string, confirmer: string, batchKey: string, first: string, second: string)
    ensures ImportCsv(cfg, s, env, entrant, confirmer, batchKey, first, second).Ok? ==>
              && entrant != confirmer && entrant != "" && batchKey != "" && !KeyUsed(s.chain.rows, batchKey)
              && ParseConfirmationCsv(first).Some? && ParseConfirmationCsv(first) == ParseConfirmationCsv(second)
              && MayAct(env, entrant, ENTRY_ROLES, []) && MayAct(env, confirmer, ENTRY_ROLES, [])
    ensures entrant == confirmer ==> ImportCsv(cfg, s, env, entrant, confirmer, batchKey, first, second) == Err(DualEntrySamePerson)
    ensures entrant != confirmer && ParseConfirmationCsv(first).Some? && ParseConfirmationCsv(second).Some? ==>
              (ImportCsv(cfg, s, env, entrant, confirmer, batchKey, first, second) == Err(DualEntryMismatch)
               <== ParseConfirmationCsv(first) != ParseConfirmationCsv(second))
  {
    RoleMeansGrant(env, entrant, CSV_ENTRY_ROLES, []);
    RoleMeansGrant(env, confirmer, CSV_ENTRY_ROLES, []);
    hide AppendTo, RequireRole, ImportRows, ImportedPayload, KeyUsed, ParseConfirmationCsv, AuditText, RowsJson, MayAct;
    match (ParseConfirmationCsv(first), ParseConfirmationCsv(second))
    case (Some(a), Some(b)) => EntriesCompare(a, b);
    case _ =>
  }

  // ---------------------------------------------------------------------------
  // Row by row
  // ---------------------------------------------------------------------------

  /** Each row of an accepted import comes to its verdict on the tables the rows before it left. */
  lemma RowsComeToVerdicts(cfg: Config, s: State, env: Env, entrant: string, confirmer: string, batchKey: string, first: string, second: string, n: nat)
    returns (u: State, v: State, role: string)
    requires Inv(cfg, s) && ImportCsv(cfg, s, env, entrant, confirmer, batchKey, first, second).Ok?
    requires ParseConfirmationCsv(first).Some? && n < |ParseConfirmationCsv(first).value|
    ensures var results := ImportCsv(cfg, s, env, entrant, confirmer, batchKey, first, second).value.1;
            |results| == |ParseConfirmationCsv(first).value|
            && Verdict(cfg, u, v, env, ImportContext(entrant, confirmer, role, batchKey, n), ParseConfirmationCsv(first).value[n], results[n])
    ensures n == 0 ==> u == s.(chain := u.chain)
    ensures n == |ParseConfirmationCsv(first).value| - 1 ==> v == ImportCsv(cfg, s, env, entrant, confirmer, batchKey, first, second).value.0
  {
    hide Inv, MidImport, Extended, KeyUsed, Log, ImportRows, ImportedPayload, AuditText, RowsJson, RequireRole, ParseConfirmationCsv, Unrecorded, Verdict;
    var rows := ParseConfirmationCsv(first).value;
    role := RequireRole(env, entrant, CSV_ENTRY_ROLES, []).value;
    var input := PlainEvent(cfg, entrant, role, "CSV_BATCH_IMPORTED", "SETTLEMENT_CONFIRMATION", batchKey, batchKey, ImportedPayload(rows, confirmer));
    UnusedIsUnrecorded(s.chain.rows, batchKey, "CSV_BATCH_IMPORTED");
    LogExtends(cfg, s, env, (|rows|, 1), input);
    var s1 := Log(cfg, s, env, (|rows|, 1), input).value;
    ImportStartsInv(cfg, s, s1, batchKey, entrant);
    var ic := ImportContext(entrant, confirmer, role, batchKey, 0);
    RowJudgedInTurn(cfg, s1, env, ic, rows, n);
    u, v := ImportRows(cfg, s1, env, ic, rows[..n]).value.0, ImportRows(cfg, s1, env, ic, rows[..n + 1]).value.0;
    NoRows(cfg, s1, env, ic, rows, n);
  }

  lemma NoRows(cfg: Config, s: State, env: Env, ic: ImportContext, rows: seq<CsvRow>, n: nat)
    requires n < |rows|
    ensures n == 0 ==> ImportRows(cfg, s, env, ic, rows[..n]) == Ok((s, []))
    ensures n == |rows| - 1 ==> rows[..n + 1] == rows
  {
  }
}
