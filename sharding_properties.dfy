/** Properties of the sharding rule aggregate that relate several of its
    lookups to one another. */
module ShardingProperties {
  import opened Wrappers
  import opened Text
  import opened Seqs
  import opened Rules
  import opened Sharding

  // ---------------------------------------------------------------- binding group strings

  /** Writing trimmed, comma-free member names as one comma-separated group
      string and reading the group back gives exactly those names. */
  lemma BindingGroupRoundTrip(members: seq<string>)
    requires |members| >= 1
    requires forall i :: 0 <= i < |members| ==> ',' !in members[i]
    requires forall i :: 0 <= i < |members| ==>
               |members[i]| == 0 || (!IsWhitespace(members[i][0]) && !IsWhitespace(members[i][|members[i]| - 1]))
    ensures BindingGroupMembers(Join(members, ',')) == members
  {
    SplitJoin(members, ',');
    forall i | 0 <= i < |members|
      ensures Trim(members[i]) == members[i]
    {
      TrimUnchanged(members[i]);
    }
  }

  // ---------------------------------------------------------------- case-insensitive lookups

  /** Two spellings of a name that differ only in letter case are classified
      alike: same explicit rule, same broadcast status, same binding group. */
  lemma ClassificationIgnoresCase(rule: ShardingRule, a: string, b: string)
    requires EqualsIgnoreCase(a, b)
    ensures rule.FindTableRule(a) == rule.FindTableRule(b)
    ensures rule.IsBroadcastTable(a) == rule.IsBroadcastTable(b)
    ensures rule.FindBindingTableRule(a) == rule.FindBindingTableRule(b)
    ensures rule.Contains(a) == rule.Contains(b)
  {
    var ra, rb := rule.FindTableRule(a), rule.FindTableRule(b);
    if ra.Some? && rb.Some? {
      var ka :| 0 <= ka < |rule.tableRules| && rule.tableRules[ka] == ra.value &&
                EqualsIgnoreCase(ra.value.logicTable, a) &&
                forall j :: 0 <= j < ka ==> !EqualsIgnoreCase(rule.tableRules[j].logicTable, a);
      var kb :| 0 <= kb < |rule.tableRules| && rule.tableRules[kb] == rb.value &&
                EqualsIgnoreCase(rb.value.logicTable, b) &&
                forall j :: 0 <= j < kb ==> !EqualsIgnoreCase(rule.tableRules[j].logicTable, b);
      assert ka == kb;
    }
    var ga, gb := rule.FindBindingTableRule(a), rule.FindBindingTableRule(b);
    if ga.Some? && gb.Some? {
      var ka :| 0 <= ka < |rule.bindingTableRules| && rule.bindingTableRules[ka] == ga.value &&
                ga.value.HasLogicTable(a) &&
                forall j :: 0 <= j < ka ==> !rule.bindingTableRules[j].HasLogicTable(a);
      var kb :| 0 <= kb < |rule.bindingTableRules| && rule.bindingTableRules[kb] == gb.value &&
                gb.value.HasLogicTable(b) &&
                forall j :: 0 <= j < kb ==> !rule.bindingTableRules[j].HasLogicTable(b);
      assert ka == kb;
    }
  }

  /** An explicit rule found for a name is the first rule with that logical
      table, so a rule no earlier rule shadows is found by its own name. */
  lemma FindTableRuleRoundTrip(rule: ShardingRule, k: nat)
    requires k < |rule.tableRules|
    requires forall j :: 0 <= j < k ==>
               !EqualsIgnoreCase(rule.tableRules[j].logicTable, rule.tableRules[k].logicTable)
    ensures rule.FindTableRule(rule.tableRules[k].logicTable) == Some(rule.tableRules[k])
  {
  }

  /** Whatever `GetTableRule` resolves is a rule for that logical table. */
  lemma ResolvedRuleNamesTable(rule: ShardingRule, logicTableName: string)
    requires rule.GetTableRule(logicTableName).Success?
    ensures EqualsIgnoreCase(rule.GetTableRule(logicTableName).value.logicTable, logicTableName)
  {
  }

  // ---------------------------------------------------------------- broadcast and default routing

  /** A broadcast table without an explicit rule lives in every configured
      data source: its first node is in the first data source, and asking for
      any configured data source finds the table there. */
  lemma BroadcastTableRouting(rule: ShardingRule, logicTableName: string, dataSourceName: string)
    requires rule.Valid()
    requires rule.FindTableRule(logicTableName).None? && rule.IsBroadcastTable(logicTableName)
    ensures rule.IsAllBroadcastTables([logicTableName]) && !rule.IsAllInDefaultDataSource([logicTableName])
    ensures rule.GetDataNode(logicTableName) ==
              Success(DataNode(rule.shardingDataSourceNames.dataSourceNames[0], logicTableName))
    ensures dataSourceName in rule.shardingDataSourceNames.dataSourceNames ==>
              rule.GetDataNodeAt(dataSourceName, logicTableName) == Success(DataNode(dataSourceName, logicTableName))
    ensures dataSourceName !in rule.shardingDataSourceNames.dataSourceNames ==>
              rule.GetDataNodeAt(dataSourceName, logicTableName).Failure?
  {
  }

  /** A name with neither an explicit rule nor a broadcast entry is routed to
      the default data source alone, and fails when there is none. */
  lemma DefaultDataSourceRouting(rule: ShardingRule, logicTableName: string, dataSourceName: string)
    requires rule.FindTableRule(logicTableName).None? && !rule.IsBroadcastTable(logicTableName)
    ensures rule.IsAllInDefaultDataSource([logicTableName]) && !rule.IsAllBroadcastTables([logicTableName])
    ensures rule.HasDefaultDataSource() ==>
              rule.GetDataNode(logicTableName) ==
                Success(DataNode(rule.shardingDataSourceNames.defaultDataSourceName.value, logicTableName))
    ensures rule.HasDefaultDataSource() ==>
              (rule.GetDataNodeAt(dataSourceName, logicTableName).Success? <==>
                 dataSourceName == rule.shardingDataSourceNames.defaultDataSourceName.value &&
                 dataSourceName in rule.shardingDataSourceNames.dataSourceNames)
    ensures !rule.HasDefaultDataSource() ==>
              rule.GetDataNode(logicTableName).Failure? &&
              rule.GetDataNode(logicTableName).error.ShardingConfigurationError?
  {
    if rule.HasDefaultDataSource() {
      var defaultName := rule.shardingDataSourceNames.defaultDataSourceName.value;
      assert rule.GetTableRule(logicTableName).value.actualDataNodes == [DataNode(defaultName, logicTableName)];
    }
  }

  /** The first data node of a table is also the node found when asking for
      the table in that node's data source, provided it is a configured one. */
  lemma FirstNodeFoundInItsDataSource(rule: ShardingRule, logicTableName: string)
    requires rule.GetDataNode(logicTableName).Success?
    requires rule.GetDataNode(logicTableName).value.dataSourceName in rule.shardingDataSourceNames.dataSourceNames
    ensures rule.GetDataNodeAt(rule.GetDataNode(logicTableName).value.dataSourceName, logicTableName) ==
              rule.GetDataNode(logicTableName)
  {
  }

  // ---------------------------------------------------------------- binding tables

  /** In a valid aggregate, every table of a binding group has an explicit rule. */
  lemma BindingMemberHasRule(rule: ShardingRule, logicTableName: string)
    requires rule.Valid()
    requires rule.FindBindingTableRule(logicTableName).Some?
    ensures rule.FindTableRule(logicTableName).Some?
  {
    var group := rule.FindBindingTableRule(logicTableName).value;
    var k :| 0 <= k < |rule.bindingTableRules| && rule.bindingTableRules[k] == group &&
             group.HasLogicTable(logicTableName) &&
             forall j :: 0 <= j < k ==> !rule.bindingTableRules[j].HasLogicTable(logicTableName);
    var t :| t in group.tableRules && EqualsIgnoreCase(t.logicTable, logicTableName);
    ResolvedGroupShares(rule.shardingRuleConfig.bindingTableGroups[k], rule.tableRules);
    assert t in rule.tableRules;
    var i :| 0 <= i < |rule.tableRules| && rule.tableRules[i] == t;
  }

  /** In a valid aggregate the binding groups add nothing to `Contains`: a
      name is known exactly when it has an explicit rule or is broadcast. */
  lemma ContainsUnderValid(rule: ShardingRule, logicTableName: string)
    requires rule.Valid()
    ensures rule.Contains(logicTableName) <==>
              rule.FindTableRule(logicTableName).Some? || rule.IsBroadcastTable(logicTableName)
  {
  }

  /** When the names are all binding tables, each of them has a binding group. */
  lemma AllBindingTablesHaveGroups(rule: ShardingRule, logicTableNames: seq<string>)
    requires rule.AllBindingTables(logicTableNames)
    ensures forall i :: 0 <= i < |logicTableNames| ==> rule.FindBindingTableRule(logicTableNames[i]).Some?
  {
  }

  /** In a valid aggregate, names that are all binding tables all have explicit rules. */
  lemma AllBindingTablesHaveRules(rule: ShardingRule, logicTableNames: seq<string>)
    requires rule.Valid() && rule.AllBindingTables(logicTableNames)
    ensures forall i :: 0 <= i < |logicTableNames| ==> rule.FindTableRule(logicTableNames[i]).Some?
  {
    AllBindingTablesHaveGroups(rule, logicTableNames);
    forall i | 0 <= i < |logicTableNames|
      ensures rule.FindTableRule(logicTableNames[i]).Some?
    {
      BindingMemberHasRule(rule, logicTableNames[i]);
    }
  }

  // ---------------------------------------------------------------- sharding logic table names

  /** A name is kept exactly when it is an input name with an explicit rule. */
  lemma {:induction false} ShardingLogicTableNamesMembers(rule: ShardingRule, logicTableNames: seq<string>, name: string)
    ensures name in rule.ShardingLogicTableNames(logicTableNames) <==>
              name in logicTableNames && rule.FindTableRule(name).Some?
    decreases |logicTableNames|
  {
    if |logicTableNames| > 0 {
      var prefix := logicTableNames[..|logicTableNames| - 1];
      ShardingLogicTableNamesMembers(rule, prefix, name);
      assert logicTableNames == prefix + [logicTableNames[|logicTableNames| - 1]];
    }
  }

  /** The kept names appear in their input order. */
  lemma {:induction false} ShardingLogicTableNamesInOrder(rule: ShardingRule, logicTableNames: seq<string>)
    ensures IsSubsequence(rule.ShardingLogicTableNames(logicTableNames), logicTableNames)
    decreases |logicTableNames|
  {
    if |logicTableNames| > 0 {
      var prefix := logicTableNames[..|logicTableNames| - 1];
      var last := logicTableNames[|logicTableNames| - 1];
      var kept := rule.ShardingLogicTableNames(prefix);
      ShardingLogicTableNamesInOrder(rule, prefix);
      assert logicTableNames[..|logicTableNames| - 1] == prefix;
      if rule.FindTableRule(last).Some? {
        var result := kept + [last];
        assert rule.ShardingLogicTableNames(logicTableNames) == result;
        assert result[..|result| - 1] == kept && result[|result| - 1] == last;
      } else {
        assert rule.ShardingLogicTableNames(logicTableNames) == kept;
      }
    }
  }

  // ---------------------------------------------------------------- key generation and columns

  /** A table with a key column also has a key generator. */
  lemma KeyColumnHasGenerator(rule: ShardingRule, logicTableName: string)
    requires rule.FindGenerateKeyColumn(logicTableName).Some?
    ensures rule.GenerateKey(logicTableName).Success?
  {
  }

  /** When the table's explicit rule has a key column, that is the column found. */
  lemma KeyColumnOfFoundRule(rule: ShardingRule, logicTableName: string)
    requires rule.FindTableRule(logicTableName).Some?
    requires rule.FindTableRule(logicTableName).value.generateKeyColumn.Some?
    ensures rule.FindGenerateKeyColumn(logicTableName) ==
              Some(Column(rule.FindTableRule(logicTableName).value.generateKeyColumn.value, logicTableName))
  {
  }

  /** Only a table with an explicit rule has sharding columns. */
  lemma ShardingColumnNeedsRule(rule: ShardingRule, column: Column)
    requires rule.IsShardingColumn(column)
    ensures rule.FindTableRule(column.tableName).Some?
  {
  }

  /** With no default database strategy configured, a rule without its own
      database strategy is never routed by hint. */
  lemma NoHintWithoutHintStrategy(rule: ShardingRule, tableRule: TableRule)
    requires rule.Valid()
    requires rule.shardingRuleConfig.defaultDatabaseShardingStrategyConfig.None?
    requires tableRule.databaseShardingStrategy.None?
    ensures !rule.IsRoutingByHint(tableRule)
  {
  }

  // ---------------------------------------------------------------- logic indexes and data sources

  /** An index declared by exactly one rule leads back to that rule's table. */
  lemma LogicIndexRoundTrip(rule: ShardingRule, k: nat)
    requires k < |rule.tableRules| && rule.tableRules[k].logicIndex.Some?
    requires forall j :: 0 <= j < |rule.tableRules| && j != k ==>
               rule.tableRules[j].logicIndex != rule.tableRules[k].logicIndex
    ensures rule.GetLogicTableName(rule.tableRules[k].logicIndex.value) == Success(rule.tableRules[k].logicTable)
  {
  }

  /** A physical table claimed by no earlier rule, in a rule that keeps all
      its nodes in one data source, is mapped back to that data source. */
  lemma ActualDataSourceRoundTrip(rule: ShardingRule, k: nat, node: DataNode)
    requires k < |rule.tableRules| && node in rule.tableRules[k].actualDataNodes
    requires forall j :: 0 <= j < k ==> !rule.tableRules[j].IsExisted(node.tableName)
    requires forall m :: m in rule.tableRules[k].actualDataNodes ==> m.dataSourceName == node.dataSourceName
    ensures rule.GetActualDataSourceName(node.tableName) == Success(node.dataSourceName)
  {
  }

  /** The data source reported for a physical table is the owning rule's first
      data source, not the one holding the table: with `t_order_0` in `ds0`
      and `t_order_1` in `ds1` under one rule, `t_order_1` is reported in `ds0`. */
  lemma ActualDataSourceIsOwnersFirst(rule: ShardingRule, first: DataNode, second: DataNode)
    requires |rule.tableRules| == 1 && rule.tableRules[0].actualDataNodes == [first, second]
    requires first.dataSourceName != second.dataSourceName
    ensures rule.GetActualDataSourceName(second.tableName) == Success(first.dataSourceName)
    ensures rule.GetActualDataSourceName(second.tableName) != Success(second.dataSourceName)
  {
  }
}
