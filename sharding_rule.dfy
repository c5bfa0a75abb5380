/** The sharding rule aggregate: built once from a rule configuration and the
    physical data source names, then only answering lookups that turn logical
    table, column, index and data source names into routing facts. */
module Sharding {
  import opened Wrappers
  import opened Text
  import opened Seqs
  import opened Rules

  /** The key column of the default key-generator configuration, if any. */
  function DefaultGenerateKeyColumn(config: ShardingRuleConfiguration): (r: Option<string>)
    ensures config.defaultKeyGeneratorConfig.None? ==> r.None?
    ensures r.Some? ==> config.defaultKeyGeneratorConfig.Some? &&
                        config.defaultKeyGeneratorConfig.value.column == Some(r.value)
    ensures config.defaultKeyGeneratorConfig.Some? ==> r == config.defaultKeyGeneratorConfig.value.column
  {
    if config.defaultKeyGeneratorConfig.None? then None else config.defaultKeyGeneratorConfig.value.column
  }

  /** One table rule per table rule configuration, in configuration order. */
  function TableRulesOf(config: ShardingRuleConfiguration): (rules: seq<TableRule>)
    ensures |rules| == |config.tableRuleConfigs|
    ensures forall i :: 0 <= i < |rules| ==>
              rules[i] == NewTableRule(config.tableRuleConfigs[i], DefaultGenerateKeyColumn(config))
  {
    seq(|config.tableRuleConfigs|, i requires 0 <= i < |config.tableRuleConfigs| =>
          NewTableRule(config.tableRuleConfigs[i], DefaultGenerateKeyColumn(config)))
  }

  /** An unconfigured default strategy shards on nothing; a configured one is used as given. */
  function CreateDefaultShardingStrategy(config: Option<ShardingStrategy>): (s: ShardingStrategy)
    ensures config.None? ==> s.kind == NoneSharding && s.shardingColumns == {}
    ensures config.Some? ==> s == config.value
  {
    if config.None? then NoneShardingStrategy else config.value
  }

  /** An unconfigured default key generator is the built-in Snowflake generator. */
  function CreateDefaultKeyGenerator(config: Option<KeyGeneratorConfiguration>): (g: KeyGenerator)
    ensures config.None? ==> g == SnowflakeGenerator
    ensures config.Some? ==> g == config.value.keyGenerator
  {
    if config.None? then SnowflakeGenerator else config.value.keyGenerator
  }

  /** The first table rule whose logical table equals the name, ignoring case. */
  function FindTableRuleIn(tableRules: seq<TableRule>, logicTableName: string): (r: Option<TableRule>)
    ensures r.None? <==>
              forall i :: 0 <= i < |tableRules| ==> !EqualsIgnoreCase(tableRules[i].logicTable, logicTableName)
    ensures r.Some? ==>
              exists k :: 0 <= k < |tableRules| && tableRules[k] == r.value &&
                EqualsIgnoreCase(r.value.logicTable, logicTableName) &&
                forall j :: 0 <= j < k ==> !EqualsIgnoreCase(tableRules[j].logicTable, logicTableName)
  {
    var k := FirstIndex(tableRules, (t: TableRule) => EqualsIgnoreCase(t.logicTable, logicTableName));
    if k < |tableRules| then Some(tableRules[k]) else None
  }

  /** The member names of one binding group string: split on "," and trimmed. */
  function BindingGroupMembers(bindingTableGroup: string): (members: seq<string>)
    ensures |members| == |Split(bindingTableGroup, ',')|
    ensures forall i :: 0 <= i < |members| ==> members[i] == Trim(Split(bindingTableGroup, ',')[i])
    ensures |members| >= 1
    ensures forall i :: 0 <= i < |members| ==> ',' !in members[i]
    ensures forall i :: 0 <= i < |members| && |members[i]| > 0 ==>
              !IsWhitespace(members[i][0]) && !IsWhitespace(members[i][|members[i]| - 1])
  {
    var pieces := Split(bindingTableGroup, ',');
    seq(|pieces|, i requires 0 <= i < |pieces| => Trim(pieces[i]))
  }

  /** `getTableRule` as it behaves while the constructor runs: the explicit
      lookup works, but its broadcast fallback reads `broadcastTables`,
      which is not yet assigned, and so fails. */
  function GetTableRuleDuringConstruction(tableRules: seq<TableRule>, logicTableName: string): (r: Result<TableRule, ShardingError>)
    ensures r.Success? <==>
              exists i :: 0 <= i < |tableRules| && EqualsIgnoreCase(tableRules[i].logicTable, logicTableName)
    ensures r.Success? ==> r.value in tableRules && EqualsIgnoreCase(r.value.logicTable, logicTableName)
    ensures r.Success? ==> FindTableRuleIn(tableRules, logicTableName) == Some(r.value)
    ensures r.Failure? ==> r.error == NullPointer
  {
    match FindTableRuleIn(tableRules, logicTableName)
    case Some(t) => Success(t)
    case None => Failure(NullPointer)
  }

  /** Every member of the binding group names an explicit table rule. */
  predicate GroupResolves(bindingTableGroup: string, tableRules: seq<TableRule>)
  {
    var members := BindingGroupMembers(bindingTableGroup);
    forall i :: 0 <= i < |members| ==> FindTableRuleIn(tableRules, members[i]).Some?
  }

  /** The explicit table rules of a binding group's members, in member order. */
  function ResolvedGroup(bindingTableGroup: string, tableRules: seq<TableRule>): seq<TableRule>
    requires GroupResolves(bindingTableGroup, tableRules)
  {
    var members := BindingGroupMembers(bindingTableGroup);
    seq(|members|, i requires 0 <= i < |members| => FindTableRuleIn(tableRules, members[i]).value)
  }

  /** Every table rule of a resolved binding group is one of the aggregate's
      own table rules, never a copy or a synthesised one. */
  lemma ResolvedGroupShares(bindingTableGroup: string, tableRules: seq<TableRule>)
    requires GroupResolves(bindingTableGroup, tableRules)
    ensures forall t :: t in ResolvedGroup(bindingTableGroup, tableRules) ==> t in tableRules
  {
  }

  /** A member without an explicit table rule makes the whole group unresolvable. */
  lemma MissingMemberBreaksGroup(bindingTableGroup: string, tableRules: seq<TableRule>, i: nat)
    requires i < |BindingGroupMembers(bindingTableGroup)|
    requires FindTableRuleIn(tableRules, BindingGroupMembers(bindingTableGroup)[i]).None?
    ensures !GroupResolves(bindingTableGroup, tableRules)
  {
  }

  /** Resolving every member, in order, yields exactly the resolved group. */
  lemma AllMembersResolveGroup(bindingTableGroup: string, tableRules: seq<TableRule>, rules: seq<TableRule>)
    requires |rules| == |BindingGroupMembers(bindingTableGroup)|
    requires forall j :: 0 <= j < |rules| ==>
               FindTableRuleIn(tableRules, BindingGroupMembers(bindingTableGroup)[j]) == Some(rules[j])
    ensures GroupResolves(bindingTableGroup, tableRules)
    ensures ResolvedGroup(bindingTableGroup, tableRules) == rules
  {
  }

  /** The contents of a `TreeSet` ordered by `String.CASE_INSENSITIVE_ORDER`
      after adding every name: one case-folded key per distinct spelling. */
  function CaseInsensitiveSet(names: seq<string>): set<string>
  {
    set t | t in names :: FoldCase(t)
  }

  /** The case-insensitive set holds a name exactly when some element equals
      it ignoring case. */
  lemma CaseInsensitiveSetHolds(names: seq<string>, name: string)
    ensures FoldCase(name) in CaseInsensitiveSet(names) <==> exists t :: t in names && EqualsIgnoreCase(t, name)
  {
  }

  /** The case-insensitive set is empty only when nothing was added. */
  lemma CaseInsensitiveSetEmpty(names: seq<string>)
    ensures |CaseInsensitiveSet(names)| > 0 <==> |names| > 0
  {
    if |names| > 0 {
      assert FoldCase(names[0]) in CaseInsensitiveSet(names);
    }
  }

  /** Adding one more name adds its case-folded key. */
  lemma CaseInsensitiveSetAdd(names: seq<string>, i: nat)
    requires i < |names|
    ensures CaseInsensitiveSet(names[..i + 1]) == CaseInsensitiveSet(names[..i]) + {FoldCase(names[i])}
  {
  }

  /** The case-insensitive set of a group's logical tables holds a name
      exactly when the group has that logical table. */
  lemma GroupSetHoldsName(group: BindingTableRule, logicTableName: string)
    ensures FoldCase(logicTableName) in CaseInsensitiveSet(group.AllLogicTables()) <==>
              group.HasLogicTable(logicTableName)
  {
    CaseInsensitiveSetHolds(group.AllLogicTables(), logicTableName);
  }

  /** Checking a non-empty list of names against the case-insensitive set of
      a group's logical tables, as `isAllBindingTables` does, tells whether
      the group has every one of them. */
  lemma GroupSetHoldsAll(group: BindingTableRule, logicTableNames: seq<string>)
    requires |logicTableNames| > 0
    ensures (|CaseInsensitiveSet(group.AllLogicTables())| > 0 &&
             forall n | n in logicTableNames :: FoldCase(n) in CaseInsensitiveSet(group.AllLogicTables())) ==
            (forall i | 0 <= i < |logicTableNames| :: group.HasLogicTable(logicTableNames[i]))
  {
    var keys := CaseInsensitiveSet(group.AllLogicTables());
    forall n | n in logicTableNames
      ensures FoldCase(n) in keys <==> group.HasLogicTable(n)
    {
      GroupSetHoldsName(group, n);
    }
    assert (forall n | n in logicTableNames :: group.HasLogicTable(n)) ==
           (forall i | 0 <= i < |logicTableNames| :: group.HasLogicTable(logicTableNames[i]));
    CaseInsensitiveSetEmpty(group.AllLogicTables());
    if group.HasLogicTable(logicTableNames[0]) {
      var t :| t in group.tableRules && EqualsIgnoreCase(t.logicTable, logicTableNames[0]);
      assert |group.AllLogicTables()| > 0;
    }
  }

  class ShardingRule {
    const shardingRuleConfig: ShardingRuleConfiguration
    const shardingDataSourceNames: ShardingDataSourceNames
    const tableRules: seq<TableRule>
    const bindingTableRules: seq<BindingTableRule>
    const broadcastTables: seq<string>
    const defaultDatabaseShardingStrategy: ShardingStrategy
    const defaultTableShardingStrategy: ShardingStrategy
    const defaultShardingKeyGenerator: KeyGenerator
    const masterSlaveRules: seq<MasterSlaveRule>

    /** Every field is what the construction derives from the configuration. */
    ghost predicate Valid()
    {
      && |shardingDataSourceNames.dataSourceNames| > 0
      && shardingDataSourceNames.defaultDataSourceName == shardingRuleConfig.defaultDataSourceName
      && tableRules == TableRulesOf(shardingRuleConfig)
      && |bindingTableRules| == |shardingRuleConfig.bindingTableGroups|
      && (forall i :: 0 <= i < |bindingTableRules| ==>
            GroupResolves(shardingRuleConfig.bindingTableGroups[i], tableRules) &&
            bindingTableRules[i].tableRules == ResolvedGroup(shardingRuleConfig.bindingTableGroups[i], tableRules))
      && broadcastTables == shardingRuleConfig.broadcastTables
      && defaultDatabaseShardingStrategy == CreateDefaultShardingStrategy(shardingRuleConfig.defaultDatabaseShardingStrategyConfig)
      && defaultTableShardingStrategy == CreateDefaultShardingStrategy(shardingRuleConfig.defaultTableShardingStrategyConfig)
      && defaultShardingKeyGenerator == CreateDefaultKeyGenerator(shardingRuleConfig.defaultKeyGeneratorConfig)
      && |masterSlaveRules| == |shardingRuleConfig.masterSlaveRuleConfigs|
      && (forall i :: 0 <= i < |masterSlaveRules| ==>
            masterSlaveRules[i] == NewMasterSlaveRule(shardingRuleConfig.masterSlaveRuleConfigs[i]))
    }

    /** Freezes the parts built by `Create` into the aggregate. */
    constructor Assemble(
      config: ShardingRuleConfiguration, dataSourceNames: ShardingDataSourceNames,
      tables: seq<TableRule>, bindings: seq<BindingTableRule>, broadcasts: seq<string>,
      databaseStrategy: ShardingStrategy, tableStrategy: ShardingStrategy,
      keyGenerator: KeyGenerator, masterSlaves: seq<MasterSlaveRule>)
      ensures shardingRuleConfig == config && shardingDataSourceNames == dataSourceNames
      ensures tableRules == tables && bindingTableRules == bindings && broadcastTables == broadcasts
      ensures defaultDatabaseShardingStrategy == databaseStrategy
      ensures defaultTableShardingStrategy == tableStrategy
      ensures defaultShardingKeyGenerator == keyGenerator && masterSlaveRules == masterSlaves
    {
      shardingRuleConfig := config;
      shardingDataSourceNames := dataSourceNames;
      tableRules := tables;
      bindingTableRules := bindings;
      broadcastTables := broadcasts;
      defaultDatabaseShardingStrategy := databaseStrategy;
      defaultTableShardingStrategy := tableStrategy;
      defaultShardingKeyGenerator := keyGenerator;
      masterSlaveRules := masterSlaves;
    }

    /** Builds the aggregate: fails on an empty data source collection, and
        when a binding group names a table without an explicit table rule. */
    static method Create(config: ShardingRuleConfiguration, dataSourceNames: seq<string>)
      returns (r: Result<ShardingRule, ShardingError>)
      ensures |dataSourceNames| == 0 ==> r == Failure(IllegalArgument("Data sources cannot be empty."))
      ensures r.Success? <==>
                |dataSourceNames| > 0 &&
                forall i :: 0 <= i < |config.bindingTableGroups| ==>
                  GroupResolves(config.bindingTableGroups[i], TableRulesOf(config))
      ensures |dataSourceNames| > 0 && r.Failure? ==> r.error == NullPointer
      ensures r.Success? ==> fresh(r.value) && r.value.Valid() && r.value.shardingRuleConfig == config
      ensures r.Success? ==>
                r.value.shardingDataSourceNames == ShardingDataSourceNames(dataSourceNames, config.defaultDataSourceName)
    {
      if |dataSourceNames| == 0 {
        return Failure(IllegalArgument("Data sources cannot be empty."));
      }
      var names := ShardingDataSourceNames(dataSourceNames, config.defaultDataSourceName);
      var tables := CreateTableRules(config.tableRuleConfigs, DefaultGenerateKeyColumn(config));
      assert tables == TableRulesOf(config);
      var bindings := CreateBindingTableRules(config.bindingTableGroups, tables);
      if bindings.Failure? {
        return Failure(bindings.error);
      }
      var databaseStrategy := CreateDefaultShardingStrategy(config.defaultDatabaseShardingStrategyConfig);
      var tableStrategy := CreateDefaultShardingStrategy(config.defaultTableShardingStrategyConfig);
      var keyGenerator := CreateDefaultKeyGenerator(config.defaultKeyGeneratorConfig);
      var masterSlaves := CreateMasterSlaveRules(config.masterSlaveRuleConfigs);
      var rule := new ShardingRule.Assemble(config, names, tables, bindings.value, config.broadcastTables,
                                            databaseStrategy, tableStrategy, keyGenerator, masterSlaves);
      return Success(rule);
    }

    /** One table rule per configuration, in order, each inheriting the default key column. */
    static method CreateTableRules(configs: seq<TableRuleConfiguration>, defaultGenerateKeyColumn: Option<string>)
      returns (result: seq<TableRule>)
      ensures |result| == |configs|
      ensures forall i :: 0 <= i < |configs| ==> result[i] == NewTableRule(configs[i], defaultGenerateKeyColumn)
    {
      result := [];
      for i := 0 to |configs|
        invariant |result| == i
        invariant forall j :: 0 <= j < i ==> result[j] == NewTableRule(configs[j], defaultGenerateKeyColumn)
      {
        result := result + [NewTableRule(configs[i], defaultGenerateKeyColumn)];
      }
    }

    /** One binding rule per binding group string, in order. */
    static method CreateBindingTableRules(groups: seq<string>, tables: seq<TableRule>)
      returns (result: Result<seq<BindingTableRule>, ShardingError>)
      ensures result.Success? <==> forall i :: 0 <= i < |groups| ==> GroupResolves(groups[i], tables)
      ensures result.Failure? ==> result.error == NullPointer
      ensures result.Success? ==>
                |result.value| == |groups| &&
                forall i :: 0 <= i < |groups| ==>
                  GroupResolves(groups[i], tables) && result.value[i].tableRules == ResolvedGroup(groups[i], tables)
    {
      var rules: seq<BindingTableRule> := [];
      for i := 0 to |groups|
        invariant |rules| == i
        invariant forall j :: 0 <= j < i ==>
                    GroupResolves(groups[j], tables) && rules[j].tableRules == ResolvedGroup(groups[j], tables)
      {
        var rule := CreateBindingTableRule(groups[i], tables);
        if rule.Failure? {
          return Failure(rule.error);
        }
        rules := rules + [rule.value];
      }
      return Success(rules);
    }

    /** Splits the group on ",", trims each piece and resolves the pieces in order. */
    static method CreateBindingTableRule(bindingTableGroup: string, tables: seq<TableRule>)
      returns (result: Result<BindingTableRule, ShardingError>)
      ensures result.Success? <==> GroupResolves(bindingTableGroup, tables)
      ensures result.Success? ==> result.value.tableRules == ResolvedGroup(bindingTableGroup, tables)
      ensures result.Failure? ==> result.error == NullPointer
    {
      var members := BindingGroupMembers(bindingTableGroup);
      var rules := ResolveMembers(members, tables);
      if rules.Failure? {
        MissingMemberBreaksGroup(bindingTableGroup, tables, rules.error);
        return Failure(NullPointer);
      }
      AllMembersResolveGroup(bindingTableGroup, tables, rules.value);
      return Success(BindingTableRule(rules.value));
    }

    /** Looks up each member's explicit table rule in order; fails with the
        index of the first member that has none. */
    static method ResolveMembers(members: seq<string>, tables: seq<TableRule>)
      returns (result: Result<seq<TableRule>, nat>)
      ensures result.Success? ==> |result.value| == |members|
      ensures result.Success? ==>
                forall j :: 0 <= j < |members| ==> FindTableRuleIn(tables, members[j]) == Some(result.value[j])
      ensures result.Failure? ==> result.error < |members| && FindTableRuleIn(tables, members[result.error]).None?
    {
      var rules: seq<TableRule> := [];
      for i := 0 to |members|
        invariant |rules| == i
        invariant forall j :: 0 <= j < i ==> FindTableRuleIn(tables, members[j]) == Some(rules[j])
      {
        var tableRule := GetTableRuleDuringConstruction(tables, members[i]);
        if tableRule.Failure? {
          return Failure(i);
        }
        rules := rules + [tableRule.value];
      }
      return Success(rules);
    }

    /** One master/slave rule per configuration, in order. */
    static method CreateMasterSlaveRules(configs: seq<MasterSlaveRuleConfiguration>)
      returns (result: seq<MasterSlaveRule>)
      ensures |result| == |configs|
      ensures forall i :: 0 <= i < |configs| ==> result[i] == NewMasterSlaveRule(configs[i])
    {
      result := [];
      for i := 0 to |configs|
        invariant |result| == i
        invariant forall j :: 0 <= j < i ==> result[j] == NewMasterSlaveRule(configs[j])
      {
        result := result + [NewMasterSlaveRule(configs[i])];
      }
    }

    // ---------------------------------------------------------------- table rules

    function FindTableRule(logicTableName: string): (r: Option<TableRule>)
      ensures r.None? <==>
                forall i :: 0 <= i < |tableRules| ==> !EqualsIgnoreCase(tableRules[i].logicTable, logicTableName)
      ensures r.Some? ==>
                exists k :: 0 <= k < |tableRules| && tableRules[k] == r.value &&
                  EqualsIgnoreCase(r.value.logicTable, logicTableName) &&
                  forall j :: 0 <= j < k ==> !EqualsIgnoreCase(tableRules[j].logicTable, logicTableName)
    {
      FindTableRuleIn(tableRules, logicTableName)
    }

    /** The first table rule one of whose actual data nodes is the given physical table. */
    function FindTableRuleByActualTable(actualTableName: string): (r: Option<TableRule>)
      ensures r.None? <==> forall i :: 0 <= i < |tableRules| ==> !tableRules[i].IsExisted(actualTableName)
      ensures r.Some? ==>
                exists k :: 0 <= k < |tableRules| && tableRules[k] == r.value && r.value.IsExisted(actualTableName) &&
                  forall j :: 0 <= j < k ==> !tableRules[j].IsExisted(actualTableName)
    {
      var k := FirstIndex(tableRules, (t: TableRule) => t.IsExisted(actualTableName));
      if k < |tableRules| then Some(tableRules[k]) else None
    }

    /** `Strings.isNullOrEmpty` negated, on the default data source name. */
    function HasDefaultDataSource(): (r: bool)
      ensures r <==> exists name :: shardingDataSourceNames.defaultDataSourceName == Some(name) && |name| > 0
    {
      shardingDataSourceNames.defaultDataSourceName.Some? && shardingDataSourceNames.defaultDataSourceName.value != ""
    }

    /** The explicit rule; else, for a broadcast table, the table in every data
        source; else the table in the default data source; else a configuration error. */
    function GetTableRule(logicTableName: string): (r: Result<TableRule, ShardingError>)
      ensures FindTableRule(logicTableName).Some? ==> r == Success(FindTableRule(logicTableName).value)
      ensures FindTableRule(logicTableName).None? && IsBroadcastTable(logicTableName) ==>
                r.Success? && r.value.logicTable == logicTableName &&
                |r.value.actualDataNodes| == |shardingDataSourceNames.dataSourceNames| &&
                forall i :: 0 <= i < |r.value.actualDataNodes| ==>
                  r.value.actualDataNodes[i] == DataNode(shardingDataSourceNames.dataSourceNames[i], logicTableName)
      ensures FindTableRule(logicTableName).None? && !IsBroadcastTable(logicTableName) && HasDefaultDataSource() ==>
                r.Success? && r.value.logicTable == logicTableName &&
                r.value.actualDataNodes == [DataNode(shardingDataSourceNames.defaultDataSourceName.value, logicTableName)]
      ensures FindTableRule(logicTableName).None? && !IsBroadcastTable(logicTableName) && !HasDefaultDataSource() ==>
                r.Failure? && r.error.ShardingConfigurationError?
    {
      match FindTableRule(logicTableName)
      case Some(t) => Success(t)
      case None =>
        if IsBroadcastTable(logicTableName) then
          Success(BroadcastTableRule(shardingDataSourceNames.dataSourceNames, logicTableName))
        else if HasDefaultDataSource() then
          Success(DefaultTableRule(shardingDataSourceNames.defaultDataSourceName.value, logicTableName))
        else
          Failure(ShardingConfigurationError(
            "Cannot find table rule and default data source with logic table: '" + logicTableName + "'"))
    }

    // ---------------------------------------------------------------- strategies

    /** The table rule's own database strategy, else the aggregate default. */
    function GetDatabaseShardingStrategy(tableRule: TableRule): (s: ShardingStrategy)
      ensures tableRule.databaseShardingStrategy.Some? ==> s == tableRule.databaseShardingStrategy.value
      ensures tableRule.databaseShardingStrategy.None? ==> s == defaultDatabaseShardingStrategy
    {
      if tableRule.databaseShardingStrategy.None? then defaultDatabaseShardingStrategy
      else tableRule.databaseShardingStrategy.value
    }

    /** The table rule's own table strategy, else the aggregate default. */
    function GetTableShardingStrategy(tableRule: TableRule): (s: ShardingStrategy)
      ensures tableRule.tableShardingStrategy.Some? ==> s == tableRule.tableShardingStrategy.value
      ensures tableRule.tableShardingStrategy.None? ==> s == defaultTableShardingStrategy
    {
      if tableRule.tableShardingStrategy.None? then defaultTableShardingStrategy
      else tableRule.tableShardingStrategy.value
    }

    /** Both effective strategies are Hint strategies. */
    function IsRoutingByHint(tableRule: TableRule): (r: bool)
      ensures r <==> GetDatabaseShardingStrategy(tableRule).kind == HintSharding &&
                     GetTableShardingStrategy(tableRule).kind == HintSharding
    {
      GetDatabaseShardingStrategy(tableRule).kind.HintSharding? && GetTableShardingStrategy(tableRule).kind.HintSharding?
    }

    /** The column is a sharding column of one of the rule's effective strategies. */
    function IsShardingColumnOf(tableRule: TableRule, column: Column): (r: bool)
      ensures r <==> column.name in GetDatabaseShardingStrategy(tableRule).shardingColumns +
                                    GetTableShardingStrategy(tableRule).shardingColumns
    {
      column.name in GetDatabaseShardingStrategy(tableRule).shardingColumns ||
      column.name in GetTableShardingStrategy(tableRule).shardingColumns
    }

    /** Some table rule of the column's table, matched ignoring case, shards on the column. */
    function IsShardingColumn(column: Column): (r: bool)
      ensures r <==> exists i :: 0 <= i < |tableRules| &&
                       EqualsIgnoreCase(tableRules[i].logicTable, column.tableName) &&
                       IsShardingColumnOf(tableRules[i], column)
    {
      var k := FirstIndex(tableRules, (t: TableRule) =>
                 EqualsIgnoreCase(t.logicTable, column.tableName) && IsShardingColumnOf(t, column));
      k < |tableRules|
    }

    // ---------------------------------------------------------------- binding tables

    /** The first binding group that has the logical table, ignoring case. */
    function FindBindingTableRule(logicTableName: string): (r: Option<BindingTableRule>)
      ensures r.None? <==> forall i :: 0 <= i < |bindingTableRules| ==> !bindingTableRules[i].HasLogicTable(logicTableName)
      ensures r.Some? ==>
                exists k :: 0 <= k < |bindingTableRules| && bindingTableRules[k] == r.value &&
                  r.value.HasLogicTable(logicTableName) &&
                  forall j :: 0 <= j < k ==> !bindingTableRules[j].HasLogicTable(logicTableName)
    {
      var k := FirstIndex(bindingTableRules, (b: BindingTableRule) => b.HasLogicTable(logicTableName));
      if k < |bindingTableRules| then Some(bindingTableRules[k]) else None
    }

    /** The binding group of the first name, in input order, that belongs to any group. */
    function FindBindingTableRuleForNames(logicTableNames: seq<string>): (r: Option<BindingTableRule>)
      ensures r.None? <==> forall i :: 0 <= i < |logicTableNames| ==> FindBindingTableRule(logicTableNames[i]).None?
      ensures r.Some? ==>
                exists k :: 0 <= k < |logicTableNames| && r == FindBindingTableRule(logicTableNames[k]) &&
                  forall j :: 0 <= j < k ==> FindBindingTableRule(logicTableNames[j]).None?
    {
      var k := FirstIndex(logicTableNames, (n: string) => FindBindingTableRule(n).Some?);
      if k < |logicTableNames| then FindBindingTableRule(logicTableNames[k]) else None
    }

    /** The names are not empty, and every one of them belongs, ignoring case,
        to the binding group of the first name that has a group. */
    ghost predicate AllBindingTables(logicTableNames: seq<string>)
    {
      && |logicTableNames| > 0
      && FindBindingTableRuleForNames(logicTableNames).Some?
      && forall i :: 0 <= i < |logicTableNames| ==>
           FindBindingTableRuleForNames(logicTableNames).value.HasLogicTable(logicTableNames[i])
    }

    /** Collects the found group's logical tables in a case-insensitive set
        and checks that it holds every name. */
    method IsAllBindingTables(logicTableNames: seq<string>) returns (r: bool)
      ensures r == AllBindingTables(logicTableNames)
    {
      if |logicTableNames| == 0 {
        return false;
      }
      var bindingTableRule := FindBindingTableRuleForNames(logicTableNames);
      if bindingTableRule.None? {
        return false;
      }
      var group := bindingTableRule.value;
      var logicTables := group.AllLogicTables();
      var result: set<string> := {};
      for i := 0 to |logicTables|
        invariant result == CaseInsensitiveSet(logicTables[..i])
      {
        CaseInsensitiveSetAdd(logicTables, i);
        result := result + {FoldCase(logicTables[i])};
      }
      assert logicTables[..|logicTables|] == logicTables;
      r := |result| > 0 && forall n | n in logicTableNames :: FoldCase(n) in result;
      GroupSetHoldsAll(group, logicTableNames);
    }

    // ---------------------------------------------------------------- broadcast and default tables

    /** Some configured broadcast table equals the name, ignoring case. */
    function IsBroadcastTable(logicTableName: string): (r: bool)
      ensures r <==> exists i :: 0 <= i < |broadcastTables| && EqualsIgnoreCase(broadcastTables[i], logicTableName)
    {
      FirstIndex(broadcastTables, (b: string) => EqualsIgnoreCase(b, logicTableName)) < |broadcastTables|
    }

    /** Not empty, and every name is a broadcast table. */
    function IsAllBroadcastTables(logicTableNames: seq<string>): (r: bool)
      ensures r <==> |logicTableNames| > 0 &&
                     forall i :: 0 <= i < |logicTableNames| ==> IsBroadcastTable(logicTableNames[i])
    {
      |logicTableNames| > 0 &&
      FirstIndex(logicTableNames, (n: string) => !IsBroadcastTable(n)) == |logicTableNames|
    }

    /** Not empty, and no name has an explicit table rule or is a broadcast table. */
    function IsAllInDefaultDataSource(logicTableNames: seq<string>): (r: bool)
      ensures r <==> |logicTableNames| > 0 &&
                     forall i :: 0 <= i < |logicTableNames| ==>
                       FindTableRule(logicTableNames[i]).None? && !IsBroadcastTable(logicTableNames[i])
    {
      FirstIndex(logicTableNames, (n: string) => FindTableRule(n).Some? || IsBroadcastTable(n)) == |logicTableNames| &&
      |logicTableNames| > 0
    }

    /** An explicit table rule, a binding group or a broadcast table knows the name. */
    function Contains(logicTableName: string): (r: bool)
      ensures r <==> FindTableRule(logicTableName).Some? || FindBindingTableRule(logicTableName).Some? ||
                     IsBroadcastTable(logicTableName)
    {
      FindTableRule(logicTableName).Some? || FindBindingTableRule(logicTableName).Some? || IsBroadcastTable(logicTableName)
    }

    /** The input names that have an explicit table rule, in input order. */
    function ShardingLogicTableNames(logicTableNames: seq<string>): seq<string>
    {
      if |logicTableNames| == 0 then []
      else
        var last := logicTableNames[|logicTableNames| - 1];
        ShardingLogicTableNames(logicTableNames[..|logicTableNames| - 1]) +
          (if FindTableRule(last).Some? then [last] else [])
    }

    /** Appends each name with an explicit table rule to the result. */
    method GetShardingLogicTableNames(logicTableNames: seq<string>) returns (result: seq<string>)
      ensures result == ShardingLogicTableNames(logicTableNames)
    {
      result := [];
      for i := 0 to |logicTableNames|
        invariant result == ShardingLogicTableNames(logicTableNames[..i])
      {
        assert logicTableNames[..i + 1][..i] == logicTableNames[..i];
        if FindTableRule(logicTableNames[i]).Some? {
          result := result + [logicTableNames[i]];
        }
      }
      assert logicTableNames[..|logicTableNames|] == logicTableNames;
    }

    // ---------------------------------------------------------------- key generation

    /** The key column of the first rule of the table, ignoring case, that has
        one, as a column of the table name the caller gave. */
    function FindGenerateKeyColumn(logicTableName: string): (r: Option<Column>)
      ensures r.None? <==>
                forall i :: 0 <= i < |tableRules| ==>
                  !(EqualsIgnoreCase(tableRules[i].logicTable, logicTableName) && tableRules[i].generateKeyColumn.Some?)
      ensures r.Some? ==>
                r.value.tableName == logicTableName &&
                exists k :: 0 <= k < |tableRules| &&
                  EqualsIgnoreCase(tableRules[k].logicTable, logicTableName) &&
                  tableRules[k].generateKeyColumn == Some(r.value.name) &&
                  forall j :: 0 <= j < k ==>
                    !(EqualsIgnoreCase(tableRules[j].logicTable, logicTableName) && tableRules[j].generateKeyColumn.Some?)
    {
      var k := FirstIndex(tableRules, (t: TableRule) =>
                 EqualsIgnoreCase(t.logicTable, logicTableName) && t.generateKeyColumn.Some?);
      if k < |tableRules| then Some(Column(tableRules[k].generateKeyColumn.value, logicTableName)) else None
    }

    /** The generator that produces the key: the table rule's own, else the
        default; a table without an explicit rule is a configuration error. */
    function GenerateKey(logicTableName: string): (r: Result<KeyGenerator, ShardingError>)
      ensures FindTableRule(logicTableName).None? ==> r.Failure? && r.error.ShardingConfigurationError?
      ensures FindTableRule(logicTableName).Some? && FindTableRule(logicTableName).value.shardingKeyGenerator.Some? ==>
                r == Success(FindTableRule(logicTableName).value.shardingKeyGenerator.value)
      ensures FindTableRule(logicTableName).Some? && FindTableRule(logicTableName).value.shardingKeyGenerator.None? ==>
                r == Success(defaultShardingKeyGenerator)
    {
      match FindTableRule(logicTableName)
      case None => Failure(ShardingConfigurationError("Cannot find strategy for generate keys."))
      case Some(t) =>
        Success(if t.shardingKeyGenerator.None? then defaultShardingKeyGenerator else t.shardingKeyGenerator.value)
    }

    // ---------------------------------------------------------------- index and data nodes

    /** The logical table of the first rule declaring the index, compared case-sensitively. */
    function GetLogicTableName(logicIndexName: string): (r: Result<string, ShardingError>)
      ensures r.Failure? <==> forall i :: 0 <= i < |tableRules| ==> tableRules[i].logicIndex != Some(logicIndexName)
      ensures r.Failure? ==> r.error.ShardingConfigurationError?
      ensures r.Success? ==>
                exists k :: 0 <= k < |tableRules| && tableRules[k].logicIndex == Some(logicIndexName) &&
                  r.value == tableRules[k].logicTable &&
                  forall j :: 0 <= j < k ==> tableRules[j].logicIndex != Some(logicIndexName)
    {
      var k := FirstIndex(tableRules, (t: TableRule) => t.logicIndex == Some(logicIndexName));
      if k < |tableRules| then Success(tableRules[k].logicTable)
      else Failure(ShardingConfigurationError(
        "Cannot find logic table name with logic index name: '" + logicIndexName + "'"))
    }

    /** The first actual data node of the resolved table rule. */
    function GetDataNode(logicTableName: string): (r: Result<DataNode, ShardingError>)
      ensures GetTableRule(logicTableName).Failure? ==> r == Failure(GetTableRule(logicTableName).error)
      ensures GetTableRule(logicTableName).Success? && |GetTableRule(logicTableName).value.actualDataNodes| == 0 ==>
                r == Failure(IndexOutOfBounds(0))
      ensures r.Success? ==>
                GetTableRule(logicTableName).Success? &&
                |GetTableRule(logicTableName).value.actualDataNodes| > 0 &&
                r.value == GetTableRule(logicTableName).value.actualDataNodes[0]
      ensures GetTableRule(logicTableName).Success? && |GetTableRule(logicTableName).value.actualDataNodes| > 0 ==> r.Success?
    {
      match GetTableRule(logicTableName)
      case Failure(e) => Failure(e)
      case Success(t) => if |t.actualDataNodes| == 0 then Failure(IndexOutOfBounds(0)) else Success(t.actualDataNodes[0])
    }

    /** The first actual data node of the resolved table rule that lies in the
        requested data source, that data source being a configured one. */
    function GetDataNodeAt(dataSourceName: string, logicTableName: string): (r: Result<DataNode, ShardingError>)
      ensures GetTableRule(logicTableName).Failure? ==> r == Failure(GetTableRule(logicTableName).error)
      ensures GetTableRule(logicTableName).Success? ==>
                var nodes := GetTableRule(logicTableName).value.actualDataNodes;
                && (r.Failure? <==>
                      (dataSourceName !in shardingDataSourceNames.dataSourceNames ||
                       forall i :: 0 <= i < |nodes| ==> nodes[i].dataSourceName != dataSourceName))
                && (r.Failure? ==> r.error.ShardingConfigurationError?)
                && (r.Success? ==>
                      exists k :: 0 <= k < |nodes| && nodes[k] == r.value &&
                        forall j :: 0 <= j < k ==> nodes[j].dataSourceName != dataSourceName)
      ensures r.Success? ==>
                r.value.dataSourceName == dataSourceName && dataSourceName in shardingDataSourceNames.dataSourceNames
    {
      match GetTableRule(logicTableName)
      case Failure(e) => Failure(e)
      case Success(t) =>
        var k := FirstIndex(t.actualDataNodes, (n: DataNode) =>
                   n.dataSourceName in shardingDataSourceNames.dataSourceNames && n.dataSourceName == dataSourceName);
        if k < |t.actualDataNodes| then Success(t.actualDataNodes[k])
        else Failure(ShardingConfigurationError(
          "Cannot find actual data node for data source name: '" + dataSourceName +
          "' and logic table name: '" + logicTableName + "'"))
    }

    // ---------------------------------------------------------------- data sources

    /** The master of the first master/slave rule with exactly this name. */
    function FindMasterDataSourceName(masterSlaveRuleName: string): (r: Option<string>)
      ensures r.None? <==> forall i :: 0 <= i < |masterSlaveRules| ==> masterSlaveRules[i].name != masterSlaveRuleName
      ensures r.Some? ==>
                exists k :: 0 <= k < |masterSlaveRules| && masterSlaveRules[k].name == masterSlaveRuleName &&
                  r.value == masterSlaveRules[k].masterDataSourceName &&
                  forall j :: 0 <= j < k ==> masterSlaveRules[j].name != masterSlaveRuleName
    {
      var k := FirstIndex(masterSlaveRules, (m: MasterSlaveRule) => m.name == masterSlaveRuleName);
      if k < |masterSlaveRules| then Some(masterSlaveRules[k].masterDataSourceName) else None
    }

    /** The default data source redirected to its master when a master/slave
        rule bears its name; absent when there is no default. */
    function FindActualDefaultDataSourceName(): (r: Option<string>)
      ensures !HasDefaultDataSource() ==> r.None?
      ensures HasDefaultDataSource() ==>
                var defaultName := shardingDataSourceNames.defaultDataSourceName.value;
                && (FindMasterDataSourceName(defaultName).Some? ==> r == FindMasterDataSourceName(defaultName))
                && ((forall i :: 0 <= i < |masterSlaveRules| ==> masterSlaveRules[i].name != defaultName) ==>
                      r == Some(defaultName))
    {
      if !HasDefaultDataSource() then None
      else
        var defaultName := shardingDataSourceNames.defaultDataSourceName.value;
        var master := FindMasterDataSourceName(defaultName);
        if master.Some? then master else Some(defaultName)
    }

    /** The first master/slave rule that has the data source as master or slave. */
    function FindMasterSlaveRule(dataSourceName: string): (r: Option<MasterSlaveRule>)
      ensures r.None? <==>
                forall i :: 0 <= i < |masterSlaveRules| ==> !masterSlaveRules[i].ContainDataSourceName(dataSourceName)
      ensures r.Some? ==>
                exists k :: 0 <= k < |masterSlaveRules| && masterSlaveRules[k] == r.value &&
                  r.value.ContainDataSourceName(dataSourceName) &&
                  forall j :: 0 <= j < k ==> !masterSlaveRules[j].ContainDataSourceName(dataSourceName)
    {
      var k := FirstIndex(masterSlaveRules, (m: MasterSlaveRule) => m.ContainDataSourceName(dataSourceName));
      if k < |masterSlaveRules| then Some(masterSlaveRules[k]) else None
    }

    /** The first data source of the rule owning the physical table; else the
        default data source; else a runtime (not a configuration) error. */
    function GetActualDataSourceName(actualTableName: string): (r: Result<string, ShardingError>)
      ensures FindTableRuleByActualTable(actualTableName).Some? ==>
                var owner := FindTableRuleByActualTable(actualTableName).value;
                |owner.actualDataNodes| > 0 && r == Success(owner.actualDataNodes[0].dataSourceName)
      ensures FindTableRuleByActualTable(actualTableName).None? && HasDefaultDataSource() ==>
                r == Success(shardingDataSourceNames.defaultDataSourceName.value)
      ensures FindTableRuleByActualTable(actualTableName).None? && !HasDefaultDataSource() ==>
                r.Failure? && r.error.ShardingRuntimeError?
    {
      match FindTableRuleByActualTable(actualTableName)
      case Some(t) =>
        assert |t.actualDataNodes| > 0 by {
          var n :| n in t.actualDataNodes && EqualsIgnoreCase(n.tableName, actualTableName);
        }
        Success(t.actualDataNodes[0].dataSourceName)
      case None =>
        if HasDefaultDataSource() then Success(shardingDataSourceNames.defaultDataSourceName.value)
        else Failure(ShardingRuntimeError(
          "Cannot found actual data source name of '" + actualTableName + "' in sharding rule."))
    }
  }
}
