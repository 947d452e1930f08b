/**
 * Queries over a global secondary index: the key-condition expression with
 * alias-protected attribute names and values, the scan direction, the
 * pagination pass-through, and the result envelope.
 */
module GlobalSecondaryIndex {
  import opened Wrappers
  import opened DocumentClient
  import opened Metadata
  import Lists

  /** Alias tokens; the real names and values travel in the alias maps. */
  const HashKeyRef := "#hk"
  const HashValueRef := ":hkv"
  const RangeKeyRef := "#rk"

  /** The hash-equality clause every index query starts with. */
  const HashCondition := HashKeyRef + " = " + HashValueRef

  /** The capacity report asked of the store for every query. */
  const ReturnConsumedCapacityTotal := "TOTAL"

  datatype Order = ASC | DESC

  /**
   * What `RangeKeyOperation.parse(operation, alias)` returns: a condition on
   * the range key written against `alias`, and the values it binds.
   */
  datatype ParsedRange = ParsedRange(
    conditionExpression: string,
    expressionAttributeValues: map<string, AttributeValue>)

  /** The envelope a query returns. */
  datatype QueryResult<T> = QueryResult(
    records: seq<T>,
    count: Option<int>,
    scannedCount: Option<int>,
    lastEvaluatedKey: Option<Key>,
    consumedCapacity: Option<ConsumedCapacity>)

  /** An alias for an attribute name, as DynamoDB requires: it starts with '#'. */
  predicate IsNameAlias(s: string) {
    |s| > 0 && s[0] == '#'
  }

  /** The order a query runs in: ascending unless the caller chose one. */
  function EffectiveOrder(rangeOrder: Option<Order>): Order {
    rangeOrder.GetOr(ASC)
  }

  /**
   * The request of the hash-and-range index query, for the effective order
   * `order`; `parse` is the range-key operation parser.
   */
  function FullQueryInput<R>(
    tableName: string, index: FullGlobalSecondaryIndexMetadata,
    hash: AttributeValue, range: Option<R>, order: Order,
    limit: Option<int>, startKey: Option<Key>,
    parse: (R, string) -> ParsedRange): (r: QueryInput)
    ensures r.TableName == tableName && r.IndexName == index.name
    ensures r.Limit == limit && r.ExclusiveStartKey == startKey
    ensures r.ScanIndexForward == Some(order == ASC)
    ensures forall alias :: alias in r.ExpressionAttributeNames ==> IsNameAlias(alias)
    ensures r.ExpressionAttributeNames.Values ==
              if range.None? then {index.hash.name} else {index.hash.name, index.range.name}
    ensures range.None? ==>
              && r.KeyConditionExpression == "#hk = :hkv"
              && r.ExpressionAttributeNames == map["#hk" := index.hash.name]
              && r.ExpressionAttributeValues == map[":hkv" := hash]
    ensures range.Some? ==>
              var parsed := parse(range.value, "#rk");
              && r.KeyConditionExpression == "#hk = :hkv AND " + parsed.conditionExpression
              && r.ExpressionAttributeNames == map["#hk" := index.hash.name, "#rk" := index.range.name]
              && r.ExpressionAttributeValues == map[":hkv" := hash] + parsed.expressionAttributeValues
  {
    var (rangeClause, rangeNames, rangeValues) :=
      match range
      case None => ("", map[], map[])
      case Some(operation) =>
        var parsed := parse(operation, RangeKeyRef);
        (" AND " + parsed.conditionExpression,
         map[RangeKeyRef := index.range.name],
         parsed.expressionAttributeValues);
    var names := map[HashKeyRef := index.hash.name] + rangeNames;
    assert names[HashKeyRef] == index.hash.name;
    assert range.Some? ==> names[RangeKeyRef] == index.range.name;
    QueryInput(
      TableName := tableName,
      IndexName := index.name,
      Limit := limit,
      ScanIndexForward := Some(order == ASC),
      ExclusiveStartKey := startKey,
      ReturnConsumedCapacity := ReturnConsumedCapacityTotal,
      KeyConditionExpression := HashCondition + rangeClause,
      ExpressionAttributeNames := names,
      ExpressionAttributeValues := map[HashValueRef := hash] + rangeValues)
  }

  /** The request of the hash-only index query. */
  function HashQueryInput(
    tableName: string, index: HashGlobalSecondaryIndexMetadata,
    hash: AttributeValue, limit: Option<int>): (r: QueryInput)
    ensures r.TableName == tableName && r.IndexName == index.name && r.Limit == limit
    ensures r.ScanIndexForward.None? && r.ExclusiveStartKey.None?
    ensures r.KeyConditionExpression == "#hk = :hkv"
    ensures r.ExpressionAttributeNames == map["#hk" := index.hash.name]
    ensures r.ExpressionAttributeValues == map[":hkv" := hash]
  {
    QueryInput(
      TableName := tableName,
      IndexName := index.name,
      Limit := limit,
      ScanIndexForward := None,
      ExclusiveStartKey := None,
      ReturnConsumedCapacity := ReturnConsumedCapacityTotal,
      KeyConditionExpression := HashCondition,
      ExpressionAttributeNames := map[HashKeyRef := index.hash.name],
      ExpressionAttributeValues := map[HashValueRef := hash])
  }

  /** Shapes a query response into the envelope both index variants return. */
  function ToQueryResult<T>(deserialize: AttributeMap -> T, output: QueryOutput): (r: QueryResult<T>)
    ensures output.Items.None? ==> r.records == []
    ensures output.Items.Some? ==>
              && |r.records| == |output.Items.value|
              && forall i :: 0 <= i < |r.records| ==> r.records[i] == deserialize(output.Items.value[i])
    ensures r.count == output.Count && r.scannedCount == output.ScannedCount
    ensures r.lastEvaluatedKey == output.LastEvaluatedKey
    ensures r.consumedCapacity == output.ConsumedCapacity
  {
    QueryResult(
      records := Lists.MapSeq(deserialize, output.Items.GetOr([])),
      count := output.Count,
      scannedCount := output.ScannedCount,
      lastEvaluatedKey := output.LastEvaluatedKey,
      consumedCapacity := output.ConsumedCapacity)
  }

  /** The attribute and value the hash alias tokens of a request stand for. */
  function ResolvedHashKey(q: QueryInput): Option<(string, AttributeValue)> {
    if HashKeyRef in q.ExpressionAttributeNames && HashValueRef in q.ExpressionAttributeValues
    then Some((q.ExpressionAttributeNames[HashKeyRef], q.ExpressionAttributeValues[HashValueRef]))
    else None
  }

  /**
   * The key-condition expression is made of alias tokens and the parser's
   * output only: the index's attribute names (and table) never enter it.
   */
  lemma KeyConditionIgnoresAttributeNames<R>(
    table1: string, index1: FullGlobalSecondaryIndexMetadata,
    table2: string, index2: FullGlobalSecondaryIndexMetadata,
    hash: AttributeValue, range: Option<R>, order: Order,
    limit: Option<int>, startKey: Option<Key>, parse: (R, string) -> ParsedRange)
    ensures FullQueryInput(table1, index1, hash, range, order, limit, startKey, parse).KeyConditionExpression
         == FullQueryInput(table2, index2, hash, range, order, limit, startKey, parse).KeyConditionExpression
  {
  }

  /**
   * The alias maps resolve `#hk` and `:hkv` to the index's hash attribute and
   * the caller's hash value, unless the range parser binds `:hkv` itself, in
   * which case its value overrides the hash value (`Object.assign`).
   */
  lemma HashAliasesResolve<R>(
    tableName: string, index: FullGlobalSecondaryIndexMetadata,
    hash: AttributeValue, range: Option<R>, order: Order,
    limit: Option<int>, startKey: Option<Key>, parse: (R, string) -> ParsedRange)
    ensures var q := FullQueryInput(tableName, index, hash, range, order, limit, startKey, parse);
            var bound := if range.Some? then parse(range.value, "#rk").expressionAttributeValues else map[];
            ResolvedHashKey(q) ==
              Some((index.hash.name, if ":hkv" in bound then bound[":hkv"] else hash))
    ensures range.Some? ==>
              var q := FullQueryInput(tableName, index, hash, range, order, limit, startKey, parse);
              var bound := parse(range.value, "#rk").expressionAttributeValues;
              forall alias :: alias in bound ==>
                alias in q.ExpressionAttributeValues && q.ExpressionAttributeValues[alias] == bound[alias]
  {
  }

  /** The hash-only query sends the full query's request without range, order or cursor. */
  lemma HashQueryIsFullQueryWithoutRange<R>(
    tableName: string, index: HashGlobalSecondaryIndexMetadata, rangeAttribute: Attribute,
    hash: AttributeValue, limit: Option<int>, parse: (R, string) -> ParsedRange)
    ensures var full := FullGlobalSecondaryIndexMetadata(index.name, index.hash, rangeAttribute);
            HashQueryInput(tableName, index, hash, limit)
            == FullQueryInput(tableName, full, hash, None, ASC, limit, None, parse)
                 .(ScanIndexForward := None)
  {
  }

  /** A page's cursor, passed back as the start key, reaches the store verbatim. */
  lemma CursorResumes<T, R>(
    deserialize: AttributeMap -> T, page: QueryOutput,
    tableName: string, index: FullGlobalSecondaryIndexMetadata,
    hash: AttributeValue, range: Option<R>, order: Order, limit: Option<int>,
    parse: (R, string) -> ParsedRange)
    ensures var cursor := ToQueryResult(deserialize, page).lastEvaluatedKey;
            FullQueryInput(tableName, index, hash, range, order, limit, cursor, parse).ExclusiveStartKey
            == page.LastEvaluatedKey
  {
  }

  /** The caller's query options; `query` writes the default order back into them. */
  class QueryOptions<R> {
    var hash: AttributeValue
    var range: Option<R>
    var rangeOrder: Option<Order>
    var limit: Option<int>
    var exclusiveStartKey: Option<Key>

    constructor (hash: AttributeValue, range: Option<R>, rangeOrder: Option<Order>,
                 limit: Option<int>, exclusiveStartKey: Option<Key>)
      ensures this.hash == hash && this.range == range && this.rangeOrder == rangeOrder
      ensures this.limit == limit && this.exclusiveStartKey == exclusiveStartKey
    {
      this.hash := hash;
      this.range := range;
      this.rangeOrder := rangeOrder;
      this.limit := limit;
      this.exclusiveStartKey := exclusiveStartKey;
    }
  }

  /** An index with a hash and a range key. */
  class FullGlobalSecondaryIndex<T, R> {
    const tableClass: TableClass<T>
    const metadata: FullGlobalSecondaryIndexMetadata
    const documentClient: Client

    constructor (tableClass: TableClass<T>, metadata: FullGlobalSecondaryIndexMetadata, documentClient: Client)
      ensures this.tableClass == tableClass && this.metadata == metadata
      ensures this.documentClient == documentClient
    {
      this.tableClass := tableClass;
      this.metadata := metadata;
      this.documentClient := documentClient;
    }

    /**
     * Queries the index. A missing order becomes ascending in the caller's
     * options; the request is FullQueryInput for the effective order, and
     * the store's response is shaped by ToQueryResult.
     */
    method Query(options: QueryOptions<R>, parse: (R, string) -> ParsedRange) returns (result: QueryResult<T>)
      modifies options`rangeOrder
      ensures options.rangeOrder == Some(EffectiveOrder(old(options.rangeOrder)))
      ensures result == ToQueryResult(tableClass.deserialize, documentClient.query(
                FullQueryInput(tableClass.metadata.name, metadata, options.hash, options.range,
                               EffectiveOrder(old(options.rangeOrder)), options.limit,
                               options.exclusiveStartKey, parse)))
    {
      if options.rangeOrder.None? {
        options.rangeOrder := Some(ASC);
      }
      var scanIndexForward := options.rangeOrder.value == ASC;

      var params := QueryInput(
        TableName := tableClass.metadata.name,
        IndexName := metadata.name,
        Limit := options.limit,
        ScanIndexForward := Some(scanIndexForward),
        ExclusiveStartKey := options.exclusiveStartKey,
        ReturnConsumedCapacity := ReturnConsumedCapacityTotal,
        KeyConditionExpression := HashCondition,
        ExpressionAttributeNames := map[HashKeyRef := metadata.hash.name],
        ExpressionAttributeValues := map[HashValueRef := options.hash]);

      if options.range.Some? {
        var rangeKeyOptions := parse(options.range.value, RangeKeyRef);
        params := params.(KeyConditionExpression :=
          params.KeyConditionExpression + " AND " + rangeKeyOptions.conditionExpression);
        params := params.(ExpressionAttributeNames :=
          params.ExpressionAttributeNames + map[RangeKeyRef := metadata.range.name]);
        params := params.(ExpressionAttributeValues :=
          params.ExpressionAttributeValues + rangeKeyOptions.expressionAttributeValues);
      }

      assert params == FullQueryInput(tableClass.metadata.name, metadata, options.hash, options.range,
                                      options.rangeOrder.value, options.limit,
                                      options.exclusiveStartKey, parse);
      var response := documentClient.query(params);
      result := ToQueryResult(tableClass.deserialize, response);
    }
  }

  /** An index with a hash key only. */
  class HashGlobalSecondaryIndex<T> {
    const tableClass: TableClass<T>
    const metadata: HashGlobalSecondaryIndexMetadata
    const documentClient: Client

    constructor (tableClass: TableClass<T>, metadata: HashGlobalSecondaryIndexMetadata, documentClient: Client)
      ensures this.tableClass == tableClass && this.metadata == metadata
      ensures this.documentClient == documentClient
    {
      this.tableClass := tableClass;
      this.metadata := metadata;
      this.documentClient := documentClient;
    }

    /**
     * Queries the index on the hash value alone: every record is a
     * deserialized item of the store's response to the bare hash request.
     */
    function Query(hash: AttributeValue, limit: Option<int>): (result: QueryResult<T>)
      ensures var response := documentClient.query(
                HashQueryInput(tableClass.metadata.name, metadata, hash, limit));
              && |result.records| == |response.Items.GetOr([])|
              && (forall i :: 0 <= i < |result.records| ==>
                    result.records[i] == tableClass.deserialize(response.Items.value[i]))
              && result.count == response.Count
              && result.scannedCount == response.ScannedCount
              && result.lastEvaluatedKey == response.LastEvaluatedKey
              && result.consumedCapacity == response.ConsumedCapacity
    {
      ToQueryResult(tableClass.deserialize,
        documentClient.query(HashQueryInput(tableClass.metadata.name, metadata, hash, limit)))
    }
  }
}
