# ShardingRule — a verified Dafny model

This project models `ShardingRule`, the aggregate rule object of the ShardingSphere
sharding core. It is built once from a sharding rule configuration and the list of
physical data source names. From these it derives:

- the table rules;
- the binding-table groups;
- the broadcast tables;
- the default database and table sharding strategies;
- the default key generator;
- the master/slave rules.

After construction it only answers lookups. These turn a logical table, column, index
or data source name into a routing fact: the table rule and its data nodes, the
effective sharding strategy, binding/broadcast/default-data-source classification, the
key generator, and the data source of a physical table.

Files:

- `wrappers.dfy` — `Option` and `Result`: Java's `Optional`, and an operation that
  either returns or throws.
- `seqs.dfy` — `FirstIndex`, the early-return linear scan behind every `find*`/`is*`
  query, and `IsSubsequence`.
- `text.dfy` — `equalsIgnoreCase` (via ASCII case folding), and Guava's
  `Splitter.on(",").trimResults()` (`Split`, `Trim`, with `Join` as the inverse of
  `Split`).
- `rules.dfy` — the collaborators at their interfaces: data nodes, table rules,
  binding table rules, strategies, key generators, master/slave rules, the
  configuration records, and the error kinds.
- `sharding_rule.dfy` — the aggregate itself. It is class `Sharding.ShardingRule`, whose
  fields are `const` (Java `final`). It is built by `Create`: the `create*` helpers
  are loops proved against specification functions (`TableRulesOf`, `ResolvedGroup`).
  Most queries are functions over the frozen fields. The two queries that loop in
  Java are methods: `IsAllBindingTables` fills a case-insensitive set, proved against
  `CaseInsensitiveSet`, and `GetShardingLogicTableNames` appends kept names, proved
  against `ShardingLogicTableNames`.
- `sharding_properties.dfy` — lemmas that relate several queries: case-insensitive
  classification, routing of broadcast and default tables, binding groups under a
  valid aggregate, round trips for logic indexes and physical tables, and key columns.

Behaviour worth noting:

- **Empty data-source list.** The constructor rejects an empty list at line 75 with
  Guava's `Preconditions.checkArgument`, so the failure is `IllegalArgument`, not a
  sharding configuration error.
- **Unresolvable binding-group member.** A member without an explicit table rule makes
  construction fail with `NullPointer`. Line 79 resolves binding groups through
  `getTableRule`, which falls through to `isBroadcastTable`, and that reads
  `broadcastTables` before line 80 assigns it.
  (`Create`, `GetTableRuleDuringConstruction`.)
- **Logic index lookup.** `getLogicTableName` compares logic index names
  case-sensitively (`String.equals`, line 359), unlike the table name lookups, which
  ignore case.
- **Physical table round trip.** `getActualDataSourceName` does not in general map a
  physical table back to the data source holding it. Line 443 returns the *first* data
  source of the owning table rule.
  - `ShardingProperties.ActualDataSourceRoundTrip` proves the round trip only for an
    owning rule whose nodes all lie in one data source.
  - `ShardingProperties.ActualDataSourceIsOwnersFirst` shows it failing. With
    `t_order_0` in `ds0` and `t_order_1` in `ds1` under one rule, `t_order_1` is
    reported in `ds0`.

Assumed collaborator behaviour (their sources are not part of this model):

- a table rule made from a configuration keeps the logical table, logic index, data
  nodes and strategies, and takes its key column from its own key-generator
  configuration, else from the default one;
- a table rule's own key generator is the generator of its own key-generator
  configuration, and it has none when that configuration is absent;
- `TableRule.getActualDatasourceNames()` iterates in node order, so its first element
  (line 443) is the data source of the rule's first data node;
- a sharding strategy's `getShardingColumns().contains` (line 318) is exact,
  case-sensitive membership of the column name;
- `BindingTableRule.getAllLogicTables()` (line 225) lists the members' logical tables in
  member order;
- a broadcast table rule has one node per data source;
- a default table rule has one node in the default data source;
- `TableRule.isExisted` is a case-insensitive match on a node's table name;
- `MasterSlaveRule.containDataSourceName` is membership as master or slave;
- `BindingTableRule.hasLogicTable` is a case-insensitive match on a member's logical table.

## Model

| member | source | states |
|---|---|---|
| Sharding.ShardingRule.Create | sharding-core/src/main/java/org/apache/shardingsphere/core/rule/ShardingRule.java:74-85 | an empty data source list fails with IllegalArgument; otherwise construction succeeds exactly when every member of every binding group has an explicit table rule, and fails with NullPointer otherwise; a built aggregate is fresh and Valid (every field is the one derived from the configuration) |
| Sharding.ShardingRule.CreateTableRules | sharding-core/src/main/java/org/apache/shardingsphere/core/rule/ShardingRule.java:87-98 | one table rule per table rule configuration, in order, each given the default key column |
| Sharding.TableRulesOf | sharding-core/src/main/java/org/apache/shardingsphere/core/rule/ShardingRule.java:87-94 | the table rules are as many as the configurations, and the i-th is made from the i-th configuration |
| Sharding.DefaultGenerateKeyColumn | sharding-core/src/main/java/org/apache/shardingsphere/core/rule/ShardingRule.java:96-98 | without a default key-generator configuration there is no default key column; with one, the default key column is exactly that configuration's column (which may itself be absent) |
| Sharding.ShardingRule.CreateBindingTableRules | sharding-core/src/main/java/org/apache/shardingsphere/core/rule/ShardingRule.java:100-106 | succeeds exactly when every group resolves, failing with NullPointer otherwise; on success there is one binding rule per group, in order, holding that group's resolved table rules |
| Sharding.ShardingRule.CreateBindingTableRule | sharding-core/src/main/java/org/apache/shardingsphere/core/rule/ShardingRule.java:108-114 | succeeds exactly when every split-and-trimmed member has an explicit rule; the result's table rules are the members' explicit rules in member order; failure is NullPointer |
| Sharding.ShardingRule.ResolveMembers | sharding-core/src/main/java/org/apache/shardingsphere/core/rule/ShardingRule.java:110-112 | either every member's explicit rule, in member order, or the index of a member that has none |
| Sharding.GetTableRuleDuringConstruction | sharding-core/src/main/java/org/apache/shardingsphere/core/rule/ShardingRule.java:111 | during construction a member resolves exactly when some explicit table rule's logical table equals it ignoring case, to the first such rule (findTableRule's first match); otherwise it fails with NullPointer, because the broadcast fallback of getTableRule (line 173) reads the not-yet-assigned broadcastTables |
| Sharding.BindingGroupMembers | sharding-core/src/main/java/org/apache/shardingsphere/core/rule/ShardingRule.java:110 | the members are the comma-separated pieces of the group string, in order and each trimmed (one member per piece, so at least one); no member contains the separator ','; no member starts or ends with whitespace |
| Sharding.ResolvedGroupShares | sharding-core/src/main/java/org/apache/shardingsphere/core/rule/ShardingRule.java:108-114 | a binding group holds the aggregate's own table rules, never synthesised ones |
| ShardingProperties.BindingGroupRoundTrip | sharding-core/src/main/java/org/apache/shardingsphere/core/rule/ShardingRule.java:110 | trimmed, comma-free names joined with "," are split and trimmed back to exactly those names |
| Sharding.CreateDefaultShardingStrategy | sharding-core/src/main/java/org/apache/shardingsphere/core/rule/ShardingRule.java:116-118 | an unconfigured default strategy is the none strategy with no sharding columns; a configured one is used as given |
| Sharding.CreateDefaultKeyGenerator | sharding-core/src/main/java/org/apache/shardingsphere/core/rule/ShardingRule.java:120-122 | an unconfigured default key generator is the Snowflake generator; a configured one is used as given |
| Sharding.ShardingRule.CreateMasterSlaveRules | sharding-core/src/main/java/org/apache/shardingsphere/core/rule/ShardingRule.java:124-130 | one master/slave rule per configuration, in order |
| Sharding.FindTableRuleIn | sharding-core/src/main/java/org/apache/shardingsphere/core/rule/ShardingRule.java:138-145 | absent exactly when no table rule's logical table equals the name ignoring case; otherwise the first one that does |
| Sharding.ShardingRule.FindTableRule | sharding-core/src/main/java/org/apache/shardingsphere/core/rule/ShardingRule.java:138-145 | absent exactly when no table rule of the aggregate has a logical table equal to the name ignoring case; otherwise the first one that does |
| Sharding.ShardingRule.FindTableRuleByActualTable | sharding-core/src/main/java/org/apache/shardingsphere/core/rule/ShardingRule.java:153-160 | absent exactly when no table rule has the physical table; otherwise the first one that has it |
| Sharding.ShardingRule.GetTableRule | sharding-core/src/main/java/org/apache/shardingsphere/core/rule/ShardingRule.java:168-180 | the explicit rule if there is one; else, for a broadcast table, a rule with the table in every data source in order; else, with a non-empty default data source, a rule with the table in it alone; else a configuration error |
| Sharding.ShardingRule.HasDefaultDataSource | sharding-core/src/main/java/org/apache/shardingsphere/core/rule/ShardingRule.java:176 | true exactly when a default data source name is configured and is not empty, the negation of Strings.isNullOrEmpty used here and at lines 403 and 445 |
| ShardingProperties.ResolvedRuleNamesTable | sharding-core/src/main/java/org/apache/shardingsphere/core/rule/ShardingRule.java:168-180 | every rule that getTableRule returns is for the requested logical table, ignoring case |
| ShardingProperties.FindTableRuleRoundTrip | sharding-core/src/main/java/org/apache/shardingsphere/core/rule/ShardingRule.java:138-145 | a table rule that no earlier rule shadows is found by its own logical table name |
| ShardingProperties.ClassificationIgnoresCase | sharding-core/src/main/java/org/apache/shardingsphere/core/rule/ShardingRule.java:138-145 | names equal ignoring case get the same explicit rule, broadcast status, binding group and contains answer |
| Sharding.ShardingRule.GetDatabaseShardingStrategy | sharding-core/src/main/java/org/apache/shardingsphere/core/rule/ShardingRule.java:192-194 | the table rule's own database strategy, else the default one |
| Sharding.ShardingRule.GetTableShardingStrategy | sharding-core/src/main/java/org/apache/shardingsphere/core/rule/ShardingRule.java:206-208 | the table rule's own table strategy, else the default one |
| Sharding.ShardingRule.IsRoutingByHint | sharding-core/src/main/java/org/apache/shardingsphere/core/rule/ShardingRule.java:484-486 | true exactly when both effective strategies are hint strategies |
| ShardingProperties.NoHintWithoutHintStrategy | sharding-core/src/main/java/org/apache/shardingsphere/core/rule/ShardingRule.java:484-486 | with no default database strategy configured, a rule without its own database strategy is never routed by hint |
| Sharding.ShardingRule.IsAllBindingTables | sharding-core/src/main/java/org/apache/shardingsphere/core/rule/ShardingRule.java:216-227 | the case-insensitive set check answers exactly whether the names are non-empty and all belong to the binding group of the first name that has a group |
| Sharding.GroupSetHoldsAll | sharding-core/src/main/java/org/apache/shardingsphere/core/rule/ShardingRule.java:224-226 | the set is non-empty and contains every name exactly when the group has every name |
| Sharding.GroupSetHoldsName | sharding-core/src/main/java/org/apache/shardingsphere/core/rule/ShardingRule.java:224-226 | a name's folded key is in the set of a group's logical tables exactly when the group has that table |
| Sharding.CaseInsensitiveSetHolds | sharding-core/src/main/java/org/apache/shardingsphere/core/rule/ShardingRule.java:224-225 | the case-insensitive set holds a name exactly when some added name equals it ignoring case |
| Sharding.CaseInsensitiveSetEmpty | sharding-core/src/main/java/org/apache/shardingsphere/core/rule/ShardingRule.java:224-226 | the case-insensitive set is empty exactly when nothing was added |
| Sharding.ShardingRule.FindBindingTableRuleForNames | sharding-core/src/main/java/org/apache/shardingsphere/core/rule/ShardingRule.java:229-237 | absent exactly when no name has a binding group; otherwise the group of the first name that has one |
| Sharding.ShardingRule.FindBindingTableRule | sharding-core/src/main/java/org/apache/shardingsphere/core/rule/ShardingRule.java:245-252 | absent exactly when no binding group has the logical table; otherwise the first group that has it |
| ShardingProperties.AllBindingTablesHaveGroups | sharding-core/src/main/java/org/apache/shardingsphere/core/rule/ShardingRule.java:216-237 | when names are all binding tables, every one of them has a binding group |
| ShardingProperties.AllBindingTablesHaveRules | sharding-core/src/main/java/org/apache/shardingsphere/core/rule/ShardingRule.java:216-237 | in a built aggregate, names that are all binding tables all have explicit table rules |
| ShardingProperties.BindingMemberHasRule | sharding-core/src/main/java/org/apache/shardingsphere/core/rule/ShardingRule.java:245-252 | in a built aggregate, a name with a binding group has an explicit table rule |
| Sharding.ShardingRule.IsAllBroadcastTables | sharding-core/src/main/java/org/apache/shardingsphere/core/rule/ShardingRule.java:260-270 | true exactly when the names are non-empty and every one is a broadcast table |
| Sharding.ShardingRule.IsBroadcastTable | sharding-core/src/main/java/org/apache/shardingsphere/core/rule/ShardingRule.java:278-285 | true exactly when some broadcast table equals the name ignoring case |
| Sharding.ShardingRule.IsAllInDefaultDataSource | sharding-core/src/main/java/org/apache/shardingsphere/core/rule/ShardingRule.java:293-300 | true exactly when the names are non-empty and none has an explicit rule or is a broadcast table |
| ShardingProperties.BroadcastTableRouting | sharding-core/src/main/java/org/apache/shardingsphere/core/rule/ShardingRule.java:168-175 | a broadcast table without an explicit rule is all-broadcast and not default-routed; its first node is in the first data source; it is found in every configured data source and in no other |
| ShardingProperties.DefaultDataSourceRouting | sharding-core/src/main/java/org/apache/shardingsphere/core/rule/ShardingRule.java:168-180 | a name with neither an explicit rule nor a broadcast entry is default-routed; with a default, its only node is there and only that configured data source finds it; without one, the lookup is a configuration error |
| Sharding.ShardingRule.IsShardingColumn | sharding-core/src/main/java/org/apache/shardingsphere/core/rule/ShardingRule.java:308-319 | true exactly when some table rule of the column's table, matched ignoring case, has the column in one of its effective strategies |
| Sharding.ShardingRule.IsShardingColumnOf | sharding-core/src/main/java/org/apache/shardingsphere/core/rule/ShardingRule.java:317-319 | true exactly when the column name is among the sharding columns of the rule's effective database strategy or of its effective table strategy |
| ShardingProperties.ShardingColumnNeedsRule | sharding-core/src/main/java/org/apache/shardingsphere/core/rule/ShardingRule.java:308-315 | a sharding column belongs to a table with an explicit rule |
| Sharding.ShardingRule.FindGenerateKeyColumn | sharding-core/src/main/java/org/apache/shardingsphere/core/rule/ShardingRule.java:327-334 | absent exactly when no rule of the table has a key column; otherwise the first such rule's column, tagged with the name as given |
| ShardingProperties.KeyColumnOfFoundRule | sharding-core/src/main/java/org/apache/shardingsphere/core/rule/ShardingRule.java:327-334 | when the table's explicit rule has a key column, that is the column found |
| Sharding.ShardingRule.GenerateKey | sharding-core/src/main/java/org/apache/shardingsphere/core/rule/ShardingRule.java:342-349 | a configuration error without an explicit rule; otherwise the rule's own key generator, else the default one |
| ShardingProperties.KeyColumnHasGenerator | sharding-core/src/main/java/org/apache/shardingsphere/core/rule/ShardingRule.java:327-349 | a table that has a key column also gets a key generator |
| Sharding.ShardingRule.GetLogicTableName | sharding-core/src/main/java/org/apache/shardingsphere/core/rule/ShardingRule.java:357-364 | the logical table of the first rule declaring the index (compared exactly); a configuration error exactly when no rule declares it |
| ShardingProperties.LogicIndexRoundTrip | sharding-core/src/main/java/org/apache/shardingsphere/core/rule/ShardingRule.java:357-364 | an index declared by exactly one rule leads back to that rule's logical table |
| Sharding.ShardingRule.GetDataNode | sharding-core/src/main/java/org/apache/shardingsphere/core/rule/ShardingRule.java:372-375 | the resolved rule's first data node; the rule lookup's error if it fails; index-out-of-bounds 0 for a rule without nodes |
| Sharding.ShardingRule.GetDataNodeAt | sharding-core/src/main/java/org/apache/shardingsphere/core/rule/ShardingRule.java:384-392 | the first node of the resolved rule in the requested data source; a configuration error exactly when the data source is not configured or holds no node |
| ShardingProperties.FirstNodeFoundInItsDataSource | sharding-core/src/main/java/org/apache/shardingsphere/core/rule/ShardingRule.java:372-392 | the first data node is also the node found in its own data source, when that data source is configured |
| Sharding.ShardingRule.FindActualDefaultDataSourceName | sharding-core/src/main/java/org/apache/shardingsphere/core/rule/ShardingRule.java:401-408 | absent without a non-empty default; the master of the master/slave rule named after the default if there is one; else the default itself |
| Sharding.ShardingRule.FindMasterDataSourceName | sharding-core/src/main/java/org/apache/shardingsphere/core/rule/ShardingRule.java:410-417 | absent exactly when no master/slave rule has the name; otherwise the master of the first that has it |
| Sharding.ShardingRule.FindMasterSlaveRule | sharding-core/src/main/java/org/apache/shardingsphere/core/rule/ShardingRule.java:425-432 | absent exactly when no master/slave rule has the data source as master or slave; otherwise the first that has it |
| Sharding.ShardingRule.GetActualDataSourceName | sharding-core/src/main/java/org/apache/shardingsphere/core/rule/ShardingRule.java:440-449 | the first data source of the first rule owning the physical table; else the non-empty default; else a runtime (not configuration) error |
| ShardingProperties.ActualDataSourceRoundTrip | sharding-core/src/main/java/org/apache/shardingsphere/core/rule/ShardingRule.java:440-444 | a physical table no earlier rule claims, in a rule keeping every node in one data source, maps back to that data source |
| ShardingProperties.ActualDataSourceIsOwnersFirst | sharding-core/src/main/java/org/apache/shardingsphere/core/rule/ShardingRule.java:440-444 | under a rule with two nodes in different data sources, the second node's table is reported in the first node's data source, not its own |
| Sharding.ShardingRule.Contains | sharding-core/src/main/java/org/apache/shardingsphere/core/rule/ShardingRule.java:457-459 | true exactly when the name has an explicit rule, a binding group or a broadcast entry |
| ShardingProperties.ContainsUnderValid | sharding-core/src/main/java/org/apache/shardingsphere/core/rule/ShardingRule.java:457-459 | in a built aggregate, contains holds exactly when the name has an explicit rule or is broadcast, because binding groups only hold explicit rules |
| Sharding.ShardingRule.GetShardingLogicTableNames | sharding-core/src/main/java/org/apache/shardingsphere/core/rule/ShardingRule.java:467-476 | the loop appends exactly the names of the specification ShardingLogicTableNames |
| ShardingProperties.ShardingLogicTableNamesMembers | sharding-core/src/main/java/org/apache/shardingsphere/core/rule/ShardingRule.java:467-476 | a name is in the result exactly when it is an input name with an explicit rule |
| ShardingProperties.ShardingLogicTableNamesInOrder | sharding-core/src/main/java/org/apache/shardingsphere/core/rule/ShardingRule.java:467-476 | the result is a subsequence of the input: kept names stay in input order |

## Left out

- The sources of `TableRule`, `BindingTableRule`, `DataNode`, `ShardingDataSourceNames`, `MasterSlaveRule`, the configuration classes, the strategy factory and the key generators are not part of this model. Their behaviour is assumed as listed under "Assumed collaborator behaviour" above; nothing else about them is used.
- `TableRule`'s own normalisation of the logical table name (such as lower-casing), and its expansion of inline data-node expressions, are not modelled. A table rule keeps the name and node list it is configured with.
- `ShardingDataSourceNames`' own adjustments of the data source names (a single data source becoming the default, renaming through master/slave rules) are not modelled. The names are kept as given, with the configured default.
- The strategy factory and each strategy's sharding algorithm are not modelled. A strategy is its kind (none, hint, other) and its set of sharding columns.
- `GenerateKey`: returns the key generator that would be asked for the key, not a key value. The Snowflake algorithm and the other generators' values (clock, worker id, sequence) are not modelled.
- `equalsIgnoreCase` and `String.CASE_INSENSITIVE_ORDER` are modelled by folding ASCII letters only. Java's full Unicode case folding is not modelled.
- `Create` models only the two failures this class raises itself. It does not model exceptions thrown inside the collaborators' constructors, or null configuration collections.
- Concurrency: the aggregate is immutable after construction, so there is nothing to model.
