/**
 * The request and response records of the DynamoDB DocumentClient that the
 * accessors build and read, and the table and index metadata they consult.
 * Field names follow the client's wire names.
 */
module DocumentClient {
  import opened Wrappers

  /** A native value the DocumentClient marshals for the store; opaque here. */
  type AttributeValue

  /** The backend's resource-cost report; only ever passed through. */
  type ConsumedCapacity

  /** An item as the DocumentClient returns it: attribute name to value. */
  type AttributeMap = map<string, AttributeValue>

  /** A primary key or a continuation cursor: attribute name to value. */
  type Key = map<string, AttributeValue>

  datatype QueryInput = QueryInput(
    TableName: string,
    IndexName: string,
    Limit: Option<int>,
    ScanIndexForward: Option<bool>,
    ExclusiveStartKey: Option<Key>,
    ReturnConsumedCapacity: string,
    KeyConditionExpression: string,
    ExpressionAttributeNames: map<string, string>,
    ExpressionAttributeValues: map<string, AttributeValue>)

  datatype QueryOutput = QueryOutput(
    Items: Option<seq<AttributeMap>>,
    Count: Option<int>,
    ScannedCount: Option<int>,
    LastEvaluatedKey: Option<Key>,
    ConsumedCapacity: Option<ConsumedCapacity>)

  datatype GetInput = GetInput(TableName: string, Key: Key)
  datatype GetOutput = GetOutput(Item: Option<AttributeMap>)

  datatype DeleteInput = DeleteInput(TableName: string, Key: Key)

  datatype AttributeAction = ADD | PUT | DELETE
  datatype AttributeValueUpdate = AttributeValueUpdate(Action: AttributeAction, Value: AttributeValue)
  datatype UpdateInput = UpdateInput(
    TableName: string,
    Key: Key,
    AttributeUpdates: map<string, AttributeValueUpdate>)

  datatype KeysAndAttributes = KeysAndAttributes(Keys: seq<Key>)
  datatype BatchGetInput = BatchGetInput(RequestItems: map<string, KeysAndAttributes>)
  datatype BatchGetOutput = BatchGetOutput(Responses: Option<map<string, seq<AttributeMap>>>)

  /** One entry of a batch write: `{ DeleteRequest: { Key } }`. */
  datatype WriteRequest = DeleteRequest(Key: Key)

  /**
   * The calls whose responses the accessors read, each seen as the response
   * the store gives to a request.
   */
  datatype Client = Client(
    query: QueryInput -> QueryOutput,
    get: GetInput -> GetOutput,
    batchGet: BatchGetInput -> BatchGetOutput)
}

/** Schema metadata as the decorators record it. */
module Metadata {
  import opened DocumentClient

  /** A declared attribute: its name in the store and its property on the entity class. */
  datatype Attribute = Attribute(name: string, propertyName: string)

  datatype TableMetadata = TableMetadata(name: string, attributes: seq<Attribute>)

  /**
   * An entity class `ITable<T>`: its table metadata, and `Codec.deserialize`
   * applied to that class (turns a stored item into an entity).
   */
  datatype TableClass<T> = TableClass(metadata: TableMetadata, deserialize: AttributeMap -> T)

  datatype FullGlobalSecondaryIndexMetadata =
    FullGlobalSecondaryIndexMetadata(name: string, hash: Attribute, range: Attribute)

  datatype HashGlobalSecondaryIndexMetadata =
    HashGlobalSecondaryIndexMetadata(name: string, hash: Attribute)

  datatype HashPrimaryKeyMetadata = HashPrimaryKeyMetadata(hash: Attribute)
}
