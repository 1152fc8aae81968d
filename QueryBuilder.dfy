/** The statement `_run_query` submits: fixed SQL text plus four typed bound parameters. */
module QueryBuilder {
  import opened Options
  import opened Text
  import opened Validation

  /** `bigquery.ScalarQueryParameter(name, type, value)`. */
  datatype Parameter = Parameter(name: string, paramType: string, value: string)

  /** The SQL text with the job configuration's parameter list. */
  datatype Query = Query(sql: string, parameters: seq<Parameter>)

  /** The BigQuery type each input is bound with: text for the first two fields, dates for the last two. */
  function ParamType(f: Field): (t: string)
    ensures t == (if Rank(f) < 2 then "STRING" else "DATE")
  {
    match f
    case Crop => "STRING"
    case Region => "STRING"
    case StartDate => "DATE"
    case EndDate => "DATE"
  }

  /** `str(value)`, where an absent value prints as `None`. */
  function PyStr(v: Option<string>): (s: string)
    ensures v.Some? ==> s == v.value
    ensures v.None? ==> s == "None"
  {
    match v
    case None => "None"
    case Some(s) => s
  }

  /** How a parameter is referenced in the SQL text. */
  function Placeholder(name: string): string {
    "@" + name
  }

  // The template split at the four placeholders, so that each
  // placeholder's position is evident.
  const SqlHead := "\nSELECT *\nFROM `"
  const SqlWhere := "`\nWHERE crop   = "
  const SqlRegion := "\n  AND region = "
  const SqlStart := "\n  AND date  >= "
  const SqlEnd := "\n  AND date  <= "
  const SqlTail := "\nORDER BY date\n"

  /** `_QUERY_TEMPLATE.format(project=..., dataset=..., table=...)`. */
  function SqlText(project: string, dataset: string, table: string): string {
    SqlHead + (project + "." + dataset + "." + table) + SqlConditions()
  }

  /**
   * The table reference `project.dataset.table` sits between the back-quotes
   * after `FROM`, and the rest of the text is fixed.
   */
  lemma SqlTextShape(project: string, dataset: string, table: string)
    ensures var sql := SqlText(project, dataset, table);
      var ref := project + "." + dataset + "." + table;
      && sql[|SqlHead|..] == ref + SqlConditions()
      && Contains(sql, ref)
  {
    ContainsBetween(SqlHead, project + "." + dataset + "." + table, SqlConditions());
  }

  /** The WHERE and ORDER BY part of the template, from the closing back-quote on. */
  function SqlConditions(): string {
    SqlWhere + (Placeholder("crop") + (SqlRegion + (Placeholder("region")
    + (SqlStart + (Placeholder("start_date") + (SqlEnd + (Placeholder("end_date") + SqlTail)))))))
  }

  /**
   * The bound parameter for one field: its name, its type and
   * `str(value).strip()`, which is the stripped input when one was given.
   */
  function ParameterFor(inputs: Inputs, f: Field): (p: Parameter)
    ensures p.name == Name(f) && p.paramType == ParamType(f)
    ensures inputs.Value(f).Some? ==> p.value == Strip(inputs.Value(f).value)
    ensures Trimmed(p.value)
  {
    Parameter(Name(f), ParamType(f), Strip(PyStr(inputs.Value(f))))
  }

  /**
   * The query of `_run_query`. The text depends on the target table only;
   * the inputs travel solely as the four parameters crop/STRING,
   * region/STRING, start_date/DATE, end_date/DATE, each carrying the
   * stripped input, and every parameter is referenced as `@name` in the text.
   */
  function BuildQuery(project: string, dataset: string, table: string, inputs: Inputs): (q: Query)
    ensures q.sql == SqlText(project, dataset, table)
    ensures |q.parameters| == |Fields|
    ensures forall i :: 0 <= i < |Fields| ==>
      && q.parameters[i].name == Name(Fields[i])
      && q.parameters[i].paramType == (if i < 2 then "STRING" else "DATE")
      && q.parameters[i].value == Strip(PyStr(inputs.Value(Fields[i])))
    ensures forall i :: 0 <= i < |q.parameters| ==> Contains(q.sql, Placeholder(q.parameters[i].name))
  {
    var params := seq(|Fields|, i requires 0 <= i < |Fields| => ParameterFor(inputs, Fields[i]));
    var q := Query(SqlText(project, dataset, table), params);
    assert forall i :: 0 <= i < |params| ==> Contains(q.sql, Placeholder(params[i].name)) by {
      PlaceholdersPresent(project, dataset, table);
    }
    q
  }

  lemma PlaceholdersPresent(project: string, dataset: string, table: string)
    ensures forall f :: Contains(SqlText(project, dataset, table), Placeholder(Name(f)))
  {
    var pc, pr, ps, pe := Placeholder("crop"), Placeholder("region"), Placeholder("start_date"), Placeholder("end_date");
    // The conditions, peeled one fixed piece and one placeholder at a time.
    var e := SqlEnd + (pe + SqlTail);
    var s := SqlStart + (ps + e);
    var r := SqlRegion + (pr + s);
    var c := SqlWhere + (pc + r);
    assert SqlConditions() == c;
    ContainsAfter(SqlEnd, pe, SqlTail);
    ContainsAfter(SqlStart, ps, e);
    ContainsAfter(SqlRegion, pr, s);
    ContainsAfter(SqlWhere, pc, r);
    forall t | t in {pc, pr, ps, pe} ensures Contains(c, t) {
      if t in {pr, ps, pe} {
        if t in {ps, pe} {
          if t == pe {
            ContainsBehind(ps, e, t);
            ContainsBehind(SqlStart, ps + e, t);
          }
          ContainsBehind(pr, s, t);
          ContainsBehind(SqlRegion, pr + s, t);
        }
        ContainsBehind(pc, r, t);
        ContainsBehind(SqlWhere, pc + r, t);
      }
    }
    forall f ensures Contains(SqlText(project, dataset, table), Placeholder(Name(f))) {
      assert Placeholder(Name(f)) in {pc, pr, ps, pe};
      ContainsBehind(SqlHead + (project + "." + dataset + "." + table), c, Placeholder(Name(f)));
    }
  }

  /** The SQL text is the same whatever the inputs: no input value is spliced into it. */
  lemma SqlIndependentOfInputs(project: string, dataset: string, table: string, a: Inputs, b: Inputs)
    ensures BuildQuery(project, dataset, table, a).sql == BuildQuery(project, dataset, table, b).sql
  {
  }

  /**
   * After validation each parameter holds the input with its outer
   * whitespace removed, which is non-empty and trimmed.
   */
  lemma ValidatedParameters(project: string, dataset: string, table: string, inputs: Inputs, i: nat)
    requires Validate(inputs).Pass?
    requires i < |Fields|
    ensures var p := BuildQuery(project, dataset, table, inputs).parameters[i];
      && inputs.Value(Fields[i]).Some?
      && p.value == Strip(inputs.Value(Fields[i]).value)
      && p.value != ""
      && Trimmed(p.value)
  {
    ValidatedInputsPresent(inputs, Fields[i]);
  }
}
