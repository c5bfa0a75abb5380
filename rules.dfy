/** The collaborators of the sharding rule aggregate, reduced to the fields
    and queries the aggregate reads: data nodes, strategies, key generators,
    table rules, binding groups, master/slave rules, the configured data
    source names, and the configuration the aggregate is built from. */
module Rules {
  import opened Wrappers
  import opened Text

  /** One physical location: a table in a data source. */
  datatype DataNode = DataNode(dataSourceName: string, tableName: string)

  /** The strategy variants the aggregate tells apart; Standard, Complex
      and Inline strategies are all `OtherSharding`. */
  datatype StrategyKind = NoneSharding | HintSharding | OtherSharding

  /** A sharding strategy seen only through its variant and the columns it shards on. */
  datatype ShardingStrategy = ShardingStrategy(kind: StrategyKind, shardingColumns: set<string>)

  /** `new NoneShardingStrategy()`: shards on no column. */
  const NoneShardingStrategy := ShardingStrategy(NoneSharding, {})

  /** A key generator, identified but not run: the built-in Snowflake
      generator or one supplied by the configuration. */
  datatype KeyGenerator = SnowflakeGenerator | ConfiguredGenerator(id: nat)

  datatype KeyGeneratorConfiguration =
    KeyGeneratorConfiguration(column: Option<string>, keyGenerator: KeyGenerator)

  /** A table rule configuration whose data-node expression is already expanded. */
  datatype TableRuleConfiguration = TableRuleConfiguration(
    logicTable: string,
    logicIndex: Option<string>,
    actualDataNodes: seq<DataNode>,
    databaseShardingStrategyConfig: Option<ShardingStrategy>,
    tableShardingStrategyConfig: Option<ShardingStrategy>,
    keyGeneratorConfig: Option<KeyGeneratorConfiguration>)

  datatype TableRule = TableRule(
    logicTable: string,
    logicIndex: Option<string>,
    actualDataNodes: seq<DataNode>,
    databaseShardingStrategy: Option<ShardingStrategy>,
    tableShardingStrategy: Option<ShardingStrategy>,
    generateKeyColumn: Option<string>,
    shardingKeyGenerator: Option<KeyGenerator>)
  {
    /** Some actual data node of this rule is the given physical table, ignoring case. */
    predicate IsExisted(actualTableName: string)
    {
      exists n :: n in actualDataNodes && EqualsIgnoreCase(n.tableName, actualTableName)
    }
  }

  /** The registry of physical data source names and the optional default one. */
  datatype ShardingDataSourceNames =
    ShardingDataSourceNames(dataSourceNames: seq<string>, defaultDataSourceName: Option<string>)

  /** A table rule built from its configuration: the rule's own key column
      when its key-generator configuration names one, else the aggregate's
      default key column. */
  function NewTableRule(config: TableRuleConfiguration, defaultGenerateKeyColumn: Option<string>): TableRule
  {
    var ownColumn :=
      if config.keyGeneratorConfig.Some? then config.keyGeneratorConfig.value.column else None;
    TableRule(
      config.logicTable,
      config.logicIndex,
      config.actualDataNodes,
      config.databaseShardingStrategyConfig,
      config.tableShardingStrategyConfig,
      if ownColumn.Some? then ownColumn else defaultGenerateKeyColumn,
      if config.keyGeneratorConfig.Some? then Some(config.keyGeneratorConfig.value.keyGenerator) else None)
  }

  /** The rule synthesised for a broadcast table: the table once in every data source. */
  function BroadcastTableRule(dataSourceNames: seq<string>, logicTableName: string): (r: TableRule)
    ensures |r.actualDataNodes| == |dataSourceNames|
    ensures forall i :: 0 <= i < |dataSourceNames| ==>
              r.actualDataNodes[i] == DataNode(dataSourceNames[i], logicTableName)
  {
    TableRule(logicTableName, None,
              seq(|dataSourceNames|, i requires 0 <= i < |dataSourceNames| => DataNode(dataSourceNames[i], logicTableName)),
              None, None, None, None)
  }

  /** The rule synthesised for an unconfigured table: the table in the one default data source. */
  function DefaultTableRule(defaultDataSourceName: string, logicTableName: string): TableRule
  {
    TableRule(logicTableName, None, [DataNode(defaultDataSourceName, logicTableName)], None, None, None, None)
  }

  /** A group of table rules that are always routed alike. */
  datatype BindingTableRule = BindingTableRule(tableRules: seq<TableRule>)
  {
    predicate HasLogicTable(logicTableName: string)
    {
      exists t :: t in tableRules && EqualsIgnoreCase(t.logicTable, logicTableName)
    }

    function AllLogicTables(): (r: seq<string>)
      ensures |r| == |tableRules|
      ensures forall i :: 0 <= i < |r| ==> r[i] == tableRules[i].logicTable
    {
      seq(|tableRules|, i requires 0 <= i < |tableRules| => tableRules[i].logicTable)
    }
  }

  datatype MasterSlaveRuleConfiguration =
    MasterSlaveRuleConfiguration(name: string, masterDataSourceName: string, slaveDataSourceNames: seq<string>)

  /** A read/write split: the data source called `name` is one master and several slaves. */
  datatype MasterSlaveRule =
    MasterSlaveRule(name: string, masterDataSourceName: string, slaveDataSourceNames: seq<string>)
  {
    predicate ContainDataSourceName(dataSourceName: string)
    {
      dataSourceName == masterDataSourceName || dataSourceName in slaveDataSourceNames
    }
  }

  function NewMasterSlaveRule(config: MasterSlaveRuleConfiguration): MasterSlaveRule
  {
    MasterSlaveRule(config.name, config.masterDataSourceName, config.slaveDataSourceNames)
  }

  /** What the aggregate is built from; strategy configurations are taken
      as the strategies the strategy factory makes of them. */
  datatype ShardingRuleConfiguration = ShardingRuleConfiguration(
    tableRuleConfigs: seq<TableRuleConfiguration>,
    bindingTableGroups: seq<string>,
    broadcastTables: seq<string>,
    defaultDataSourceName: Option<string>,
    defaultDatabaseShardingStrategyConfig: Option<ShardingStrategy>,
    defaultTableShardingStrategyConfig: Option<ShardingStrategy>,
    defaultKeyGeneratorConfig: Option<KeyGeneratorConfiguration>,
    masterSlaveRuleConfigs: seq<MasterSlaveRuleConfiguration>)

  /** A column of a logical table. */
  datatype Column = Column(name: string, tableName: string)

  /** The ways a query or the construction can fail. */
  datatype ShardingError =
    | IllegalArgument(message: string)             // Preconditions.checkArgument
    | NullPointer                                  // a field read before it is assigned
    | IndexOutOfBounds(index: int)                 // List.get on a too-short list
    | ShardingConfigurationError(message: string)  // ShardingConfigurationException
    | ShardingRuntimeError(message: string)        // ShardingException
}
