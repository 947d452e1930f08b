/**
 * Access by a hash-only primary key: the single-entry key map, the requests
 * of get, delete, batch get, batch delete and update, and the shaping of the
 * responses the source reads.
 */
module PrimaryKey {
  import opened Wrappers
  import opened DocumentClient
  import opened Metadata
  import Lists

  /** A change-set entry `[action, value]`. */
  type Change = (AttributeAction, AttributeValue)

  /** A batch-delete key, the one-element tuple `[hashKey]`. */
  datatype HashKeyTuple = HashKeyTuple(hashKey: AttributeValue)

  /** What batchGet returns. */
  datatype BatchGetResult<T> = BatchGetResult(records: seq<T>)

  /** The store's batch-get response has no list for the table (the source throws a TypeError). */
  datatype BatchGetError = MissingResponses

  /** The table name and request list handed to `batchWrite`. */
  datatype BatchWriteCall = BatchWriteCall(tableName: string, requests: seq<WriteRequest>)

  /** Store names of the declared attributes. */
  ghost function AttributeNames(attributes: seq<Attribute>): set<string> {
    set i | 0 <= i < |attributes| :: attributes[i].name
  }

  /**
   * The attribute updates the `update` loop builds: for each declared
   * attribute in order whose property has a change, the entry
   * store name to {Action, Value}; a later attribute with the same store
   * name overwrites an earlier one.
   */
  function DeclaredUpdates(attributes: seq<Attribute>, changes: map<string, Change>)
    : (updates: map<string, AttributeValueUpdate>)
    ensures updates.Keys <= AttributeNames(attributes)
    ensures |updates| <= |attributes|
    decreases |attributes|
  {
    if attributes == [] then map[]
    else
      var attr := attributes[|attributes| - 1];
      var earlier := DeclaredUpdates(attributes[..|attributes| - 1], changes);
      assert AttributeNames(attributes[..|attributes| - 1]) <= AttributeNames(attributes) by {
        forall name | name in AttributeNames(attributes[..|attributes| - 1])
          ensures name in AttributeNames(attributes)
        {
          var i :| 0 <= i < |attributes| - 1 && attributes[..|attributes| - 1][i].name == name;
          assert attributes[i].name == name;
        }
      }
      assert attr.name in AttributeNames(attributes) by {
        assert attributes[|attributes| - 1].name == attr.name;
      }
      if attr.propertyName in changes then
        var change := changes[attr.propertyName];
        earlier[attr.name := AttributeValueUpdate(change.0, change.1)]
      else
        earlier
  }

  /** A store name gets an entry exactly when some declared attribute with that name has a change. */
  lemma {:induction false} DeclaredUpdatesKeys(attributes: seq<Attribute>, changes: map<string, Change>, name: string)
    ensures name in DeclaredUpdates(attributes, changes)
            <==> exists i :: 0 <= i < |attributes| && attributes[i].name == name
                             && attributes[i].propertyName in changes
    decreases |attributes|
  {
    if attributes != [] {
      var n := |attributes| - 1;
      var prefix := attributes[..n];
      DeclaredUpdatesKeys(prefix, changes, name);
      if name in DeclaredUpdates(prefix, changes) {
        var i :| 0 <= i < n && prefix[i].name == name && prefix[i].propertyName in changes;
        assert attributes[i] == prefix[i];
      }
      if exists i :: 0 <= i < |attributes| && attributes[i].name == name
                     && attributes[i].propertyName in changes {
        var i :| 0 <= i < |attributes| && attributes[i].name == name
                 && attributes[i].propertyName in changes;
        if i < n {
          assert prefix[i] == attributes[i];
        }
      }
    }
  }

  /**
   * The entry for a declared attribute with a change holds that change's
   * action and value, unless a later attribute with the same store name
   * also has a change.
   */
  lemma {:induction false} DeclaredUpdatesEntry(attributes: seq<Attribute>, changes: map<string, Change>, i: nat)
    requires i < |attributes| && attributes[i].propertyName in changes
    requires forall j :: i < j < |attributes| && attributes[j].name == attributes[i].name
                         ==> attributes[j].propertyName !in changes
    ensures var change := changes[attributes[i].propertyName];
            var updates := DeclaredUpdates(attributes, changes);
            attributes[i].name in updates
            && updates[attributes[i].name] == AttributeValueUpdate(change.0, change.1)
    decreases |attributes|
  {
    var n := |attributes| - 1;
    if i < n {
      var prefix := attributes[..n];
      DeclaredUpdatesEntry(prefix, changes, i);
    }
  }

  /**
   * Only changes to declared properties matter: two change sets that agree on
   * every declared property name give the same updates.
   */
  lemma {:induction false} DeclaredUpdatesOnlyDeclared(
    attributes: seq<Attribute>, changes1: map<string, Change>, changes2: map<string, Change>)
    requires forall i :: 0 <= i < |attributes| ==>
               (attributes[i].propertyName in changes1 <==> attributes[i].propertyName in changes2)
    requires forall i :: 0 <= i < |attributes| && attributes[i].propertyName in changes1 ==>
               changes1[attributes[i].propertyName] == changes2[attributes[i].propertyName]
    ensures DeclaredUpdates(attributes, changes1) == DeclaredUpdates(attributes, changes2)
    decreases |attributes|
  {
    if attributes != [] {
      var n := |attributes| - 1;
      DeclaredUpdatesOnlyDeclared(attributes[..n], changes1, changes2);
    }
  }

  /** A change to an undeclared property produces no entry and no error. */
  lemma UndeclaredChangeDropped(
    attributes: seq<Attribute>, changes: map<string, Change>, property: string, change: Change)
    requires forall i :: 0 <= i < |attributes| ==> attributes[i].propertyName != property
    ensures DeclaredUpdates(attributes, changes[property := change]) == DeclaredUpdates(attributes, changes)
  {
    DeclaredUpdatesOnlyDeclared(attributes, changes[property := change], changes);
  }

  /** Access to a table whose primary key is a hash key only. */
  class HashPrimaryKey<T> {
    const tableClass: TableClass<T>
    const metadata: HashPrimaryKeyMetadata
    const documentClient: Client

    constructor (tableClass: TableClass<T>, metadata: HashPrimaryKeyMetadata, documentClient: Client)
      ensures this.tableClass == tableClass && this.metadata == metadata
      ensures this.documentClient == documentClient
    {
      this.tableClass := tableClass;
      this.metadata := metadata;
      this.documentClient := documentClient;
    }

    /** The key of the item with hash key `hashKey`: one entry, under the hash attribute's store name. */
    function KeyOf(hashKey: AttributeValue): (key: Key)
      ensures key.Keys == {metadata.hash.name}
      ensures key[metadata.hash.name] == hashKey
    {
      map[metadata.hash.name := hashKey]
    }

    /** The request `delete` sends; the source discards the response. */
    function Delete(hashKey: AttributeValue): (request: DeleteInput)
      ensures request.TableName == tableClass.metadata.name
      ensures request.Key.Keys == {metadata.hash.name} && request.Key[metadata.hash.name] == hashKey
    {
      DeleteInput(tableClass.metadata.name, KeyOf(hashKey))
    }

    /** The request `get` sends. */
    function GetRequest(hashKey: AttributeValue): (request: GetInput)
      ensures request.TableName == tableClass.metadata.name
      ensures request.Key.Keys == {metadata.hash.name} && request.Key[metadata.hash.name] == hashKey
    {
      GetInput(tableClass.metadata.name, KeyOf(hashKey))
    }

    /** The item with hash key `hashKey`: absent exactly when the store returns no item. */
    function Get(hashKey: AttributeValue): (r: Option<T>)
      ensures var response := documentClient.get(GetRequest(hashKey));
              && (r.None? <==> response.Item.None?)
              && (r.Some? ==> r.value == tableClass.deserialize(response.Item.value))
    {
      var dynamoRecord := documentClient.get(GetRequest(hashKey));
      if dynamoRecord.Item.None? then None
      else Some(tableClass.deserialize(dynamoRecord.Item.value))
    }

    /** The request `batchGet` sends: one key per input key, in order, under the table name. */
    function BatchGetRequest(keys: seq<AttributeValue>): (request: BatchGetInput)
      ensures request.RequestItems.Keys == {tableClass.metadata.name}
      ensures var sent := request.RequestItems[tableClass.metadata.name].Keys;
              && |sent| == |keys|
              && forall i :: 0 <= i < |keys| ==>
                   sent[i].Keys == {metadata.hash.name} && sent[i][metadata.hash.name] == keys[i]
    {
      BatchGetInput(map[tableClass.metadata.name := KeysAndAttributes(Lists.MapSeq(KeyOf, keys))])
    }

    /**
     * The records of a batch get: the store's items for the table,
     * deserialized in the order returned; a response without the table's
     * list is the source's TypeError.
     */
    function BatchGet(keys: seq<AttributeValue>): (r: Result<BatchGetResult<T>, BatchGetError>)
      ensures var response := documentClient.batchGet(BatchGetRequest(keys)).Responses;
              var table := tableClass.metadata.name;
              && (r.Failure? <==> response.None? || table !in response.value)
              && (r.Success? ==>
                    && |r.value.records| == |response.value[table]|
                    && forall i :: 0 <= i < |r.value.records| ==>
                         r.value.records[i] == tableClass.deserialize(response.value[table][i]))
    {
      var res := documentClient.batchGet(BatchGetRequest(keys));
      if res.Responses.None? || tableClass.metadata.name !in res.Responses.value then
        Failure(MissingResponses)
      else
        Success(BatchGetResult(Lists.MapSeq(tableClass.deserialize, res.Responses.value[tableClass.metadata.name])))
    }

    /** The delete request for one batch-delete key. */
    function DeleteRequestOf(key: HashKeyTuple): WriteRequest {
      DeleteRequest(KeyOf(key.hashKey))
    }

    /**
     * What `batchDelete` hands to `batchWrite`: the table name and one delete
     * request per key tuple, in order, each keyed by the tuple's hash key.
     */
    function BatchDelete(keys: seq<HashKeyTuple>): (call: BatchWriteCall)
      ensures call.tableName == tableClass.metadata.name
      ensures |call.requests| == |keys|
      ensures forall i :: 0 <= i < |keys| ==>
                call.requests[i].Key.Keys == {metadata.hash.name}
                && call.requests[i].Key[metadata.hash.name] == keys[i].hashKey
    {
      BatchWriteCall(tableClass.metadata.name, Lists.MapSeq(DeleteRequestOf, keys))
    }

    /**
     * The request `update` sends: the item's key, and the change set filtered
     * to declared attributes and renamed to store names.
     */
    method Update(hashKey: AttributeValue, changes: map<string, Change>) returns (request: UpdateInput)
      ensures request.TableName == tableClass.metadata.name
      ensures request.Key.Keys == {metadata.hash.name} && request.Key[metadata.hash.name] == hashKey
      ensures request.AttributeUpdates == DeclaredUpdates(tableClass.metadata.attributes, changes)
    {
      var attributes := tableClass.metadata.attributes;
      var attributeUpdates: map<string, AttributeValueUpdate> := map[];
      for i := 0 to |attributes|
        invariant attributeUpdates == DeclaredUpdates(attributes[..i], changes)
      {
        var attr := attributes[i];
        if attr.propertyName in changes {
          var change := changes[attr.propertyName];
          attributeUpdates := attributeUpdates[attr.name := AttributeValueUpdate(change.0, change.1)];
        }
        assert attributes[..i + 1][..i] == attributes[..i];
      }
      assert attributes[..|attributes|] == attributes;
      request := UpdateInput(tableClass.metadata.name, KeyOf(hashKey), attributeUpdates);
    }
  }
}
