/** The statements the Postgres adapter sends (src/adapters/postgres.ts):
    the value tuple of one record, the multi-row `INSERT` of `saveBatch` with
    its `$1..$12n` placeholders, the single-row `INSERT` of `save`, and the
    `WHERE` clause and parameter list `getStats` builds from a filter.

    Parameters are modelled as typed SQL values; the statements as text.
    Running them is not modelled. */
module Postgres {
  import opened Wrappers
  import opened Text
  import opened Types

  /** The table written when none is configured. */
  const DefaultTable := "llm_tracking"

  function TableName(configured: Option<string>): (t: string)
    ensures configured.None? ==> t == DefaultTable
    ensures configured.Some? ==> t == configured.value
  {
    configured.GetOr(DefaultTable)
  }

  /** A statement parameter as the driver receives it. */
  datatype SqlValue =
    | SqlText(text: string)
    | SqlInt(number: int)
    | SqlReal(amount: real)
    | SqlBool(flag: bool)
    | SqlTime(ms: int)
    | SqlNull

  /** A statement and its parameters. */
  datatype Query = Query(text: string, values: seq<SqlValue>)

  // ---------------------------------------------------------------------------
  // One row
  // ---------------------------------------------------------------------------

  /** The columns of an `INSERT`, in order. */
  const Columns: seq<string> := [
    "request_id", "project_name", "provider", "model",
    "prompt_tokens", "completion_tokens", "total_tokens", "cost_usd",
    "timestamp", "latency_ms", "success", "error"]

  /** The value a record stores in the named column: an absent cost or error
      is `NULL`. */
  function ColumnValue(r: TrackingData, column: string): SqlValue {
    if column == "request_id" then SqlText(r.requestId)
    else if column == "project_name" then SqlText(r.projectName)
    else if column == "provider" then SqlText(ProviderName(r.provider))
    else if column == "model" then SqlText(r.model)
    else if column == "prompt_tokens" then SqlInt(r.tokenUsage.promptTokens)
    else if column == "completion_tokens" then SqlInt(r.tokenUsage.completionTokens)
    else if column == "total_tokens" then SqlInt(r.tokenUsage.totalTokens)
    else if column == "cost_usd" then (if r.costUsd.Some? then SqlReal(r.costUsd.value) else SqlNull)
    else if column == "timestamp" then SqlTime(r.timestamp)
    else if column == "latency_ms" then SqlInt(r.latencyMs)
    else if column == "success" then SqlBool(r.success)
    else if column == "error" then (if r.error.Some? then SqlText(r.error.value) else SqlNull)
    else SqlNull
  }

  /** The twelve parameters of one record, as both `save` and `saveBatch`
      push them. */
  function RowValues(r: TrackingData): (v: seq<SqlValue>)
    ensures |v| == |Columns|
  {
    [ SqlText(r.requestId), SqlText(r.projectName), SqlText(ProviderName(r.provider)), SqlText(r.model),
      SqlInt(r.tokenUsage.promptTokens), SqlInt(r.tokenUsage.completionTokens), SqlInt(r.tokenUsage.totalTokens),
      if r.costUsd.Some? then SqlReal(r.costUsd.value) else SqlNull,
      SqlTime(r.timestamp), SqlInt(r.latencyMs), SqlBool(r.success),
      if r.error.Some? then SqlText(r.error.value) else SqlNull ]
  }

  /** The tuple follows the column list: the j-th value is what the record
      stores in the j-th column. */
  lemma RowFollowsColumns(r: TrackingData)
    ensures forall j :: 0 <= j < |Columns| ==> RowValues(r)[j] == ColumnValue(r, Columns[j])
  {
  }

  /** Reads a record back from a row of twelve values. */
  function RowToRecord(v: seq<SqlValue>): Option<TrackingData> {
    if |v| != 12 then None
    else if !(v[0].SqlText? && v[1].SqlText? && v[2].SqlText? && v[3].SqlText?) then None
    else if !(v[4].SqlInt? && v[5].SqlInt? && v[6].SqlInt?) then None
    else if !(v[4].number >= 0 && v[5].number >= 0 && v[6].number >= 0) then None
    else if !(v[7].SqlReal? || v[7].SqlNull?) then None
    else if !(v[8].SqlTime? && v[9].SqlInt? && v[10].SqlBool?) then None
    else if !(v[11].SqlText? || v[11].SqlNull?) then None
    else
      match ParseProvider(v[2].text)
      case None => None
      case Some(provider) =>
        Some(TrackingData(
          v[0].text, v[1].text, provider, v[3].text,
          TokenUsage(v[4].number, v[5].number, v[6].number),
          if v[7].SqlReal? then Some(v[7].amount) else None,
          v[8].ms, v[9].number, v[10].flag,
          if v[11].SqlText? then Some(v[11].text) else None))
  }

  /** No field is lost or altered on the way to the row: reading the row
      back gives the record, including an absent cost and an absent error. */
  lemma RowRoundTrip(r: TrackingData)
    ensures RowToRecord(RowValues(r)) == Some(r)
  {
    ProviderNameRoundTrip(r.provider);
  }

  // ---------------------------------------------------------------------------
  // Placeholders
  // ---------------------------------------------------------------------------

  /** `$f, $f+1, ..., $f+c-1` as separate strings. */
  function Refs(f: nat, c: nat): (r: seq<string>)
    ensures |r| == c
    ensures forall j :: 0 <= j < c ==> r[j] == "$" + NatToString(f + j)
  {
    seq(c, j requires 0 <= j < c => "$" + NatToString(f + j))
  }

  /** Parts that each reference one parameter, counting up from `first`,
      together reference `first` to `first + |parts| - 1`. */
  lemma {:induction false} SinglesRefs(parts: seq<string>, first: nat)
    requires forall i :: 0 <= i < |parts| ==> ParamRefs(parts[i]) == [first + i]
    ensures JoinedRefs(parts) == Range(first, |parts|)
    decreases |parts|
  {
    if |parts| > 0 {
      var rest := parts[1..];
      forall i | 0 <= i < |rest|
        ensures ParamRefs(rest[i]) == [first + 1 + i]
      {
        assert rest[i] == parts[i + 1];
      }
      SinglesRefs(rest, first + 1);
      assert JoinedRefs(parts) == ParamRefs(parts[0]) + JoinedRefs(rest);
      RangeSplit(first, 1, |rest|);
    }
  }

  lemma RefsRefs(f: nat, c: nat)
    ensures JoinedRefs(Refs(f, c)) == Range(f, c)
  {
    var r := Refs(f, c);
    forall j | 0 <= j < c
      ensures ParamRefs(r[j]) == [f + j]
    {
      PlaceholderRefs(f + j);
    }
    SinglesRefs(r, f);
  }

  /** The placeholder group of the record at `index`:
      `($12i+1, ..., $12i+12)`. */
  function Group(index: nat): string {
    "(" + Join(", ", Refs(12 * index + 1, 12)) + ")"
  }

  /** Group `i` references `$12i+1` to `$12i+12`, in order. */
  lemma GroupRefs(index: nat)
    ensures ParamRefs(Group(index)) == Range(12 * index + 1, 12)
  {
    var inner := Join(", ", Refs(12 * index + 1, 12));
    assert Group(index) == "(" + (inner + ")");
    ParamRefsAppend("(", inner + ")");
    ParamRefsAppend(inner, ")");
    NoDollarNoRefs("(");
    NoDollarNoRefs(")");
    ParamRefsJoin(", ", Refs(12 * index + 1, 12));
    RefsRefs(12 * index + 1, 12);
  }

  /** The groups of the records at indexes `start` to `start + n - 1`. */
  function Groups(start: nat, n: nat): (g: seq<string>)
    ensures |g| == n
    ensures forall i :: 0 <= i < n ==> g[i] == Group(start + i)
  {
    seq(n, i requires 0 <= i < n => Group(start + i))
  }

  /** Parts that each reference the next twelve parameters, starting at
      `first`, together reference `first` to `first + 12n - 1`. */
  lemma {:induction false} BlocksRefs(parts: seq<string>, first: nat)
    requires forall i :: 0 <= i < |parts| ==> ParamRefs(parts[i]) == Range(first + 12 * i, 12)
    ensures JoinedRefs(parts) == Range(first, 12 * |parts|)
    decreases |parts|
  {
    if |parts| > 0 {
      var rest := parts[1..];
      forall i | 0 <= i < |rest|
        ensures ParamRefs(rest[i]) == Range(first + 12 + 12 * i, 12)
      {
        assert rest[i] == parts[i + 1];
      }
      BlocksRefs(rest, first + 12);
      assert JoinedRefs(parts) == ParamRefs(parts[0]) + JoinedRefs(rest);
      RangeSplit(first, 12, 12 * |rest|);
    }
  }

  lemma GroupsRefs(start: nat, n: nat)
    ensures JoinedRefs(Groups(start, n)) == Range(12 * start + 1, 12 * n)
  {
    var g := Groups(start, n);
    forall i | 0 <= i < n
      ensures ParamRefs(g[i]) == Range(12 * start + 1 + 12 * i, 12)
    {
      GroupRefsAt(start, i);
    }
    BlocksRefs(g, 12 * start + 1);
  }

  lemma GroupRefsAt(start: nat, i: nat)
    ensures ParamRefs(Group(start + i)) == Range(12 * start + 1 + 12 * i, 12)
  {
    var k := start + i;
    GroupRefs(k);
    assert 12 * k + 1 == 12 * start + 1 + 12 * i;
  }

  /** `placeholders.join(', ')` for `n` records. */
  function ValuesText(n: nat): string {
    Join(", ", Groups(0, n))
  }

  /** The `VALUES` list of `n` records references `$1` to `$12n`, each once,
      in increasing order. */
  lemma ValuesTextRefs(n: nat)
    ensures ParamRefs(ValuesText(n)) == Range(1, 12 * n)
  {
    ParamRefsJoin(", ", Groups(0, n));
    GroupsRefs(0, n);
  }

  // ---------------------------------------------------------------------------
  // INSERT statements
  // ---------------------------------------------------------------------------

  /** The column list of an `INSERT`. */
  function ColumnList(): string {
    Join(", ", Columns)
  }

  lemma {:induction false} JoinNoDollar(sep: string, parts: seq<string>)
    requires '$' !in sep
    requires forall k :: 0 <= k < |parts| ==> '$' !in parts[k]
    ensures '$' !in Join(sep, parts)
    decreases |parts|
  {
    if |parts| > 1 {
      JoinNoDollar(sep, parts[1..]);
    }
  }

  lemma ColumnListNoDollar()
    ensures '$' !in ColumnList()
  {
    assert forall k :: 0 <= k < |Columns| ==> '$' !in Columns[k];
    JoinNoDollar(", ", Columns);
  }

  /** The statement text up to the first placeholder group. */
  function InsertPrefix(table: string): string {
    "INSERT INTO " + table + " \n        (" + ColumnList() + ")\n        VALUES "
  }

  lemma PrefixNoDollar(table: string)
    requires '$' !in table
    ensures '$' !in InsertPrefix(table)
  {
    ColumnListNoDollar();
    FramedNoDollar(table, ColumnList());
  }

  lemma FramedNoDollar(table: string, columns: string)
    requires '$' !in table && '$' !in columns
    ensures '$' !in "INSERT INTO " + table + " \n        (" + columns + ")\n        VALUES "
  {
  }

  lemma PrefixRefs(table: string)
    requires '$' !in table
    ensures ParamRefs(InsertPrefix(table)) == []
  {
    PrefixNoDollar(table);
    NoDollarNoRefs(InsertPrefix(table));
  }

  /** The parameters of a batch: the rows of the records, one after the other. */
  function BatchValues(records: seq<TrackingData>): (v: seq<SqlValue>)
    ensures |v| == 12 * |records|
  {
    if |records| == 0 then []
    else BatchValues(records[..|records| - 1]) + RowValues(records[|records| - 1])
  }

  /** Value `j` of record `i` is parameter `12i + j`. */
  lemma {:induction false} BatchValuesAt(records: seq<TrackingData>, i: nat, j: nat)
    requires i < |records| && j < 12
    ensures BatchValues(records)[12 * i + j] == RowValues(records[i])[j]
    decreases |records|
  {
    var n := |records| - 1;
    if i < n {
      BatchValuesAt(records[..n], i, j);
      assert records[..n][i] == records[i];
    }
  }

  /** The twelve values of record `i` sit at positions `12i` to `12i + 11`,
      and read back as that record. */
  lemma BatchSlice(records: seq<TrackingData>, i: nat)
    requires i < |records|
    ensures 12 * i + 12 <= |BatchValues(records)|
    ensures BatchValues(records)[12 * i .. 12 * i + 12] == RowValues(records[i])
    ensures RowToRecord(BatchValues(records)[12 * i .. 12 * i + 12]) == Some(records[i])
  {
    var v := BatchValues(records);
    var slice := v[12 * i .. 12 * i + 12];
    forall j | 0 <= j < 12
      ensures slice[j] == RowValues(records[i])[j]
    {
      assert slice[j] == v[12 * i + j];
      BatchValuesAt(records, i, j);
    }
    RowRoundTrip(records[i]);
  }

  /** The `forEach` of `saveBatch`: one placeholder group and twelve values
      per record, in the order of the records. */
  method BuildBatch(records: seq<TrackingData>) returns (placeholders: seq<string>, values: seq<SqlValue>)
    ensures placeholders == Groups(0, |records|)
    ensures values == BatchValues(records)
  {
    placeholders := [];
    values := [];
    for index := 0 to |records|
      invariant placeholders == Groups(0, index)
      invariant values == BatchValues(records[..index])
    {
      placeholders := placeholders + [Group(index)];
      values := values + RowValues(records[index]);
      assert records[..index + 1][..index] == records[..index];
    }
    assert records[..|records|] == records;
  }

  /** `saveBatch`: no statement for an empty batch; otherwise one `INSERT`
      whose placeholders `$1..$12n` line up with the rows of the records. */
  function SaveBatch(table: string, records: seq<TrackingData>): (q: Option<Query>)
    ensures q.None? <==> |records| == 0
    ensures q.Some? ==> |q.value.values| == 12 * |records|
    ensures q.Some? ==> forall i, j :: 0 <= i < |records| && 0 <= j < 12 ==>
      q.value.values[12 * i + j] == ColumnValue(records[i], Columns[j])
    ensures q.Some? && '$' !in table ==> ParamRefs(q.value.text) == Range(1, 12 * |records|)
  {
    if |records| == 0 then None
    else
      var text := InsertPrefix(table) + ValuesText(|records|);
      var values := BatchValues(records);
      assert forall i, j :: 0 <= i < |records| && 0 <= j < 12 ==> values[12 * i + j] == ColumnValue(records[i], Columns[j]) by {
        forall i, j | 0 <= i < |records| && 0 <= j < 12
          ensures values[12 * i + j] == ColumnValue(records[i], Columns[j])
        {
          BatchValuesAt(records, i, j);
          RowFollowsColumns(records[i]);
        }
      }
      assert '$' !in table ==> ParamRefs(text) == Range(1, 12 * |records|) by {
        if '$' !in table {
          PrefixRefs(table);
          ParamRefsAppend(InsertPrefix(table), ValuesText(|records|));
          ValuesTextRefs(|records|);
        }
      }
      Some(Query(text, values))
  }

  /** Group `index` after the column list: the statement references
      exactly that group's twelve parameters. */
  lemma InsertRefs(table: string, index: nat)
    requires '$' !in table
    ensures ParamRefs(InsertPrefix(table) + Group(index)) == Range(12 * index + 1, 12)
  {
    var p := InsertPrefix(table);
    PrefixRefs(table);
    assert Group(index)[0] == '(';
    ParamRefsAppend(p, Group(index));
    GroupRefs(index);
  }

  /** `save`: a single-row `INSERT` whose twelve placeholders, written out
      in the source, are those of the first group of a batch; it sends
      exactly what `saveBatch` sends for a batch of one. */
  method Save(table: string, r: TrackingData) returns (q: Query)
    ensures |q.values| == 12
    ensures forall j :: 0 <= j < 12 ==> q.values[j] == ColumnValue(r, Columns[j])
    ensures '$' !in table ==> ParamRefs(q.text) == Range(1, 12)
    ensures SaveBatch(table, [r]) == Some(q)
  {
    var first: nat := 0;
    q := Query(InsertPrefix(table) + Group(first), RowValues(r));
    if '$' !in table {
      InsertRefs(table, first);
    }
    RowFollowsColumns(r);
    BatchOfOne(table, [r]);
  }

  /** A batch of one is the first group and the record's row. */
  lemma BatchOfOne(table: string, records: seq<TrackingData>)
    requires |records| == 1
    ensures SaveBatch(table, records) == Some(Query(InsertPrefix(table) + Group(|records| - 1), RowValues(records[0])))
  {
    assert records[..0] == [];
    assert BatchValues(records) == RowValues(records[0]);
    assert ValuesText(|records|) == Groups(0, |records|)[0];
  }

  // ---------------------------------------------------------------------------
  // getStats
  // ---------------------------------------------------------------------------

  /** The comparison of a condition. */
  datatype Comparison = Equals | AtLeast | AtMost

  /** The text between the column and the placeholder. */
  function OpText(op: Comparison): (t: string)
    ensures '$' !in t
  {
    match op
    case Equals => " = "
    case AtLeast => " >= "
    case AtMost => " <= "
  }

  /** A `column op $k` condition with the value it binds. */
  datatype Condition = Condition(column: string, op: Comparison, value: SqlValue)

  /** A present, non-empty string: JavaScript truthiness of a string field. */
  predicate Given(s: Option<string>) {
    s.Some? && s.value != ""
  }

  /** The condition each field of the filter contributes, if any. An empty
      string is skipped; a date is an object and always counts as set. */
  function ProjectCondition(f: StatsFilter): seq<Condition> {
    if Given(f.projectName) then [Condition("project_name", Equals, SqlText(f.projectName.value))] else []
  }

  function ProviderCondition(f: StatsFilter): seq<Condition> {
    if f.provider.Some? then [Condition("provider", Equals, SqlText(ProviderName(f.provider.value)))] else []
  }

  function ModelCondition(f: StatsFilter): seq<Condition> {
    if Given(f.model) then [Condition("model", Equals, SqlText(f.model.value))] else []
  }

  function StartCondition(f: StatsFilter): seq<Condition> {
    if f.startDate.Some? then [Condition("timestamp", AtLeast, SqlTime(f.startDate.value))] else []
  }

  function EndCondition(f: StatsFilter): seq<Condition> {
    if f.endDate.Some? then [Condition("timestamp", AtMost, SqlTime(f.endDate.value))] else []
  }

  /** The conditions `getStats` emits, in its fixed order: project, provider,
      model, start and end date. */
  function Conditions(f: StatsFilter): (cs: seq<Condition>)
    ensures |cs| <= 5
    ensures cs == [] <==>
      !Given(f.projectName) && f.provider.None? && !Given(f.model) && f.startDate.None? && f.endDate.None?
  {
    ProjectCondition(f) + ProviderCondition(f) + ModelCondition(f) + StartCondition(f) + EndCondition(f)
  }

  /** The text of a condition bound to parameter `$k`. */
  function ConditionText(c: Condition, k: nat): string {
    c.column + OpText(c.op) + "$" + NatToString(k)
  }

  /** The condition texts numbered from `start`. */
  function ConditionTexts(cs: seq<Condition>, start: nat): (t: seq<string>)
    ensures |t| == |cs|
    ensures forall k :: 0 <= k < |cs| ==> t[k] == ConditionText(cs[k], start + k)
  {
    seq(|cs|, k requires 0 <= k < |cs| => ConditionText(cs[k], start + k))
  }

  lemma ConditionTextsSnoc(cs: seq<Condition>, c: Condition, start: nat)
    ensures ConditionTexts(cs + [c], start) == ConditionTexts(cs, start) + [ConditionText(c, start + |cs|)]
  {
    var a := ConditionTexts(cs + [c], start);
    var b := ConditionTexts(cs, start) + [ConditionText(c, start + |cs|)];
    assert |a| == |b|;
    forall k | 0 <= k < |a|
      ensures a[k] == b[k]
    {
      if k < |cs| {
        assert (cs + [c])[k] == cs[k];
      }
    }
  }

  /** The values bound to the conditions, in order. */
  function Parameters(cs: seq<Condition>): (v: seq<SqlValue>)
    ensures |v| == |cs|
    ensures forall k :: 0 <= k < |cs| ==> v[k] == cs[k].value
  {
    seq(|cs|, k requires 0 <= k < |cs| => cs[k].value)
  }

  lemma ParametersSnoc(cs: seq<Condition>, c: Condition)
    ensures Parameters(cs + [c]) == Parameters(cs) + [c.value]
  {
    var a := Parameters(cs + [c]);
    var b := Parameters(cs) + [c.value];
    assert |a| == |b|;
    forall k | 0 <= k < |a|
      ensures a[k] == b[k]
    {
      if k < |cs| {
        assert (cs + [c])[k] == cs[k];
      }
    }
  }

  /** One step of `getStats`: push the text of condition `c` bound to
      `$paramIndex`, advance the index, and push the bound value. The lists
      stay those of the conditions emitted so far, in order. */
  method Push(conditions: seq<string>, values: seq<SqlValue>, paramIndex: nat, c: Condition, ghost emitted: seq<Condition>)
    returns (conditions': seq<string>, values': seq<SqlValue>, next: nat)
    requires conditions == ConditionTexts(emitted, 1) && values == Parameters(emitted) && paramIndex == |emitted| + 1
    ensures conditions' == ConditionTexts(emitted + [c], 1)
    ensures values' == Parameters(emitted + [c])
    ensures next == |emitted + [c]| + 1
  {
    ConditionTextsSnoc(emitted, c, 1);
    ParametersSnoc(emitted, c);
    conditions' := conditions + [c.column + OpText(c.op) + "$" + NatToString(paramIndex)];
    next := paramIndex + 1;
    values' := values + [c.value];
  }

  /** The condition and parameter lists of `getStats`, built as it builds
      them: each truthy field pushes a condition numbered by the running
      `paramIndex` and its value. */
  method BuildStatsFilter(f: StatsFilter) returns (conditions: seq<string>, values: seq<SqlValue>)
    ensures conditions == ConditionTexts(Conditions(f), 1)
    ensures values == Parameters(Conditions(f))
  {
    conditions := [];
    values := [];
    var paramIndex: nat := 1;
    ghost var emitted: seq<Condition> := [];
    if Given(f.projectName) {
      var c := Condition("project_name", Equals, SqlText(f.projectName.value));
      conditions, values, paramIndex := Push(conditions, values, paramIndex, c, emitted);
      emitted := emitted + [c];
    }
    assert emitted == ProjectCondition(f);
    if f.provider.Some? {
      var c := Condition("provider", Equals, SqlText(ProviderName(f.provider.value)));
      conditions, values, paramIndex := Push(conditions, values, paramIndex, c, emitted);
      emitted := emitted + [c];
    }
    assert emitted == ProjectCondition(f) + ProviderCondition(f);
    if Given(f.model) {
      var c := Condition("model", Equals, SqlText(f.model.value));
      conditions, values, paramIndex := Push(conditions, values, paramIndex, c, emitted);
      emitted := emitted + [c];
    }
    assert emitted == ProjectCondition(f) + ProviderCondition(f) + ModelCondition(f);
    if f.startDate.Some? {
      var c := Condition("timestamp", AtLeast, SqlTime(f.startDate.value));
      conditions, values, paramIndex := Push(conditions, values, paramIndex, c, emitted);
      emitted := emitted + [c];
    }
    assert emitted == ProjectCondition(f) + ProviderCondition(f) + ModelCondition(f) + StartCondition(f);
    if f.endDate.Some? {
      var c := Condition("timestamp", AtMost, SqlTime(f.endDate.value));
      conditions, values, paramIndex := Push(conditions, values, paramIndex, c, emitted);
      emitted := emitted + [c];
    }
    assert emitted == ProjectCondition(f) + ProviderCondition(f) + ModelCondition(f) + StartCondition(f) + EndCondition(f);
  }

  /** `WHERE c1 AND c2 ...`, or nothing when there are no conditions. */
  function WhereClause(conditions: seq<string>): (w: string)
    ensures |conditions| == 0 <==> w == ""
  {
    if |conditions| > 0 then "WHERE " + Join(" AND ", conditions) else ""
  }

  lemma ConditionTextRefs(c: Condition, k: nat)
    requires '$' !in c.column
    ensures ParamRefs(ConditionText(c, k)) == [k]
  {
    var lead := c.column + OpText(c.op);
    assert ConditionText(c, k) == lead + ("$" + NatToString(k));
    ParamRefsAppend(lead, "$" + NatToString(k));
    NoDollarNoRefs(lead);
    PlaceholderRefs(k);
  }

  lemma ConditionTextsRefs(cs: seq<Condition>, start: nat)
    requires forall k :: 0 <= k < |cs| ==> '$' !in cs[k].column
    ensures JoinedRefs(ConditionTexts(cs, start)) == Range(start, |cs|)
  {
    var texts := ConditionTexts(cs, start);
    forall k | 0 <= k < |texts|
      ensures ParamRefs(texts[k]) == [start + k]
    {
      ConditionTextRefs(cs[k], start + k);
    }
    SinglesRefs(texts, start);
  }

  /** The k-th of any '$'-free conditions references `$k`. */
  lemma WhereRefs(cs: seq<Condition>)
    requires forall k :: 0 <= k < |cs| ==> '$' !in cs[k].column
    ensures ParamRefs(WhereClause(ConditionTexts(cs, 1))) == Range(1, |cs|)
  {
    var texts := ConditionTexts(cs, 1);
    if |cs| > 0 {
      ConditionTextsRefs(cs, 1);
      ParamRefsJoin(" AND ", texts);
      ParamRefsAppend("WHERE ", Join(" AND ", texts));
      NoDollarNoRefs("WHERE ");
    } else {
      NoDollarNoRefs("");
    }
  }

  /** The columns `getStats` filters on. */
  predicate FilterColumn(column: string) {
    column == "project_name" || column == "provider" || column == "model" || column == "timestamp"
  }

  lemma FilterColumnsNoDollar(column: string)
    requires FilterColumn(column)
    ensures '$' !in column
  {
  }

  /** The k-th condition of the `WHERE` clause references `$k`: the clause
      references `$1` up to the number of parameters, each once, in order. */
  lemma WhereClauseRefs(f: StatsFilter)
    ensures ParamRefs(WhereClause(ConditionTexts(Conditions(f), 1))) == Range(1, |Parameters(Conditions(f))|)
  {
    var cs := Conditions(f);
    assert forall k :: 0 <= k < |cs| ==> FilterColumn(cs[k].column);
    forall k | 0 <= k < |cs|
      ensures '$' !in cs[k].column
    {
      FilterColumnsNoDollar(cs[k].column);
    }
    WhereRefs(cs);
  }

  /** Whether a stored record satisfies one condition. */
  predicate Holds(c: Condition, r: TrackingData) {
    var stored := ColumnValue(r, c.column);
    match c.op
    case Equals => stored == c.value
    case AtLeast => stored.SqlTime? && c.value.SqlTime? && stored.ms >= c.value.ms
    case AtMost => stored.SqlTime? && c.value.SqlTime? && stored.ms <= c.value.ms
  }

  /** Every condition of `cs` holds of `r`. */
  predicate AllHold(cs: seq<Condition>, r: TrackingData) {
    forall k :: 0 <= k < |cs| ==> Holds(cs[k], r)
  }

  lemma AllHoldAppend(a: seq<Condition>, b: seq<Condition>, r: TrackingData)
    ensures AllHold(a + b, r) <==> AllHold(a, r) && AllHold(b, r)
  {
    if AllHold(a, r) && AllHold(b, r) {
      forall k | 0 <= k < |a + b|
        ensures Holds((a + b)[k], r)
      {
        if k >= |a| {
          assert (a + b)[k] == b[k - |a|];
        }
      }
    }
    if AllHold(a + b, r) {
      forall k | 0 <= k < |a|
        ensures Holds(a[k], r)
      {
        assert (a + b)[k] == a[k];
      }
      forall k | 0 <= k < |b|
        ensures Holds(b[k], r)
      {
        assert (a + b)[|a| + k] == b[k];
      }
    }
  }

  /** What a filter asks for, field by field: the given project, provider
      and model, and a timestamp within the dates, both ends included. */
  predicate FilterMatches(f: StatsFilter, r: TrackingData) {
    && (Given(f.projectName) ==> r.projectName == f.projectName.value)
    && (f.provider.Some? ==> r.provider == f.provider.value)
    && (Given(f.model) ==> r.model == f.model.value)
    && (f.startDate.Some? ==> r.timestamp >= f.startDate.value)
    && (f.endDate.Some? ==> r.timestamp <= f.endDate.value)
  }

  lemma AllHoldSingle(c: Condition, r: TrackingData)
    ensures AllHold([c], r) <==> Holds(c, r)
  {
    assert [c][0] == c;
  }

  /** Each field's condition holds exactly when the record agrees with that
      field of the filter. */
  lemma FieldConditionsMean(f: StatsFilter, r: TrackingData)
    ensures AllHold(ProjectCondition(f), r) <==> (Given(f.projectName) ==> r.projectName == f.projectName.value)
    ensures AllHold(ProviderCondition(f), r) <==> (f.provider.Some? ==> r.provider == f.provider.value)
    ensures AllHold(ModelCondition(f), r) <==> (Given(f.model) ==> r.model == f.model.value)
    ensures AllHold(StartCondition(f), r) <==> (f.startDate.Some? ==> r.timestamp >= f.startDate.value)
    ensures AllHold(EndCondition(f), r) <==> (f.endDate.Some? ==> r.timestamp <= f.endDate.value)
  {
    if Given(f.projectName) {
      AllHoldSingle(ProjectCondition(f)[0], r);
    }
    if f.provider.Some? {
      AllHoldSingle(ProviderCondition(f)[0], r);
      ProviderNameRoundTrip(r.provider);
      ProviderNameRoundTrip(f.provider.value);
    }
    if Given(f.model) {
      AllHoldSingle(ModelCondition(f)[0], r);
    }
    if f.startDate.Some? {
      AllHoldSingle(StartCondition(f)[0], r);
    }
    if f.endDate.Some? {
      AllHoldSingle(EndCondition(f)[0], r);
    }
  }

  /** A record satisfies every emitted condition exactly when it matches the
      filter: the `WHERE` clause selects what the filter means. */
  lemma ConditionsMeanFilter(f: StatsFilter, r: TrackingData)
    ensures AllHold(Conditions(f), r) <==> FilterMatches(f, r)
  {
    AllHoldAppend(ProjectCondition(f) + ProviderCondition(f) + ModelCondition(f) + StartCondition(f), EndCondition(f), r);
    AllHoldAppend(ProjectCondition(f) + ProviderCondition(f) + ModelCondition(f), StartCondition(f), r);
    AllHoldAppend(ProjectCondition(f) + ProviderCondition(f), ModelCondition(f), r);
    AllHoldAppend(ProjectCondition(f), ProviderCondition(f), r);
    FieldConditionsMean(f, r);
  }
}
