# dynamo-typeorm query core in Dafny

This project models how dynamo-typeorm turns typed lookups into DynamoDB
DocumentClient requests, and how it reshapes the responses. It covers two
accessors:

- **Global secondary index queries** (`src/query/global_secondary_index.ts`).
  The hash-and-range variant builds a `QueryInput` whose key-condition
  expression uses only alias tokens (DynamoDB's protection against reserved
  words): `#hk = :hkv`, plus, with a range predicate, the range-key operation
  parser's condition written against `#rk`. It sets the scan direction from the order,
  which defaults to ascending and is written back into the caller's options.
  It passes the page limit and start key through unchanged. The hash-only
  variant sends the bare hash clause. Both shape the response into the same
  envelope: deserialized records, counts, cursor and capacity.
- **Hash primary-key access** (`src/query/hash_primary_key.ts`). This is the
  single-entry key map behind get, delete and update. Get returns absent when
  there is no item. It also covers the key list of a batch get, the request
  list a batch delete hands to `batchWrite`, and the `update` loop. That loop
  keeps only changes to declared properties, renames them to store names and
  turns `[action, value]` into `{Action, Value}`.

Modules: `Wrappers` (Option, Result) and `Lists` (the element-wise array map)
are in `wrappers.dfy`. `DocumentClient` (request and response records) and
`Metadata` (table, attribute and index metadata) are in `document_client.dfy`.
`GlobalSecondaryIndex` is in `global_secondary_index.dfy` and `PrimaryKey` is
in `hash_primary_key.dfy`.

Collaborators whose code is not part of this model are parameters:

- `Codec.deserialize(tableClass, item)` is the `deserialize` field of a
  `TableClass`.
- `RangeKeyOperation.parse(operation, alias)` is the `parse` argument of the
  index queries.
- The DocumentClient's `query`, `get` and `batchGet` calls are the function
  fields of `Client`. Each maps a request to the response the store gives.

Attribute values and the capacity report are opaque types. Delete and update
discard the store's response in the source, so the model returns the request
they send.

`batchGet` has no batch-size check. The code has only a TODO at
`src/query/hash_primary_key.ts:45`, so the model has none either.

## Model

| member | source | states |
|---|---|---|
| Lists.MapSeq | src/query/global_secondary_index.ts:60-62 | the mapped array has the input's length and order, each element being `f` of the corresponding input element |
| GlobalSecondaryIndex.FullQueryInput | src/query/global_secondary_index.ts:34-55 | table name from the table metadata, index name from the index metadata; limit and start key passed unchanged; ScanIndexForward is true exactly when the order is ASC; every name-map key is a `#` alias and the name map's values are exactly the index's hash (and, with a range, range) attribute names; without a range the expression is `#hk = :hkv` with `{#hk: hash name}` and `{:hkv: hash}`; with a range the expression is `#hk = :hkv AND ` followed by the parser's condition for alias `#rk`, names gain `#rk: range name`, and the parser's values are merged over `{:hkv: hash}` |
| GlobalSecondaryIndex.HashQueryInput | src/query/global_secondary_index.ts:79-91 | the hash-only request: bare `#hk = :hkv` clause with the hash name and hash value maps, table and index names from metadata, the limit passed through, no ScanIndexForward and no ExclusiveStartKey |
| GlobalSecondaryIndex.ToQueryResult | src/query/global_secondary_index.ts:59-67 | records are the response items deserialized, same length and order; no items gives no records; count, scanned count, last evaluated key and consumed capacity are copied verbatim |
| GlobalSecondaryIndex.KeyConditionIgnoresAttributeNames | src/query/global_secondary_index.ts:10-13 | the key-condition expression is the same for any table and index metadata: attribute names never enter it, only alias tokens and the parser's output |
| GlobalSecondaryIndex.HashAliasesResolve | src/query/global_secondary_index.ts:41-54 | the aliases `#hk` and `:hkv` resolve to the index's hash attribute and the caller's hash value, unless the parser binds `:hkv` itself, which then overrides it; every value the parser binds is in the request verbatim |
| GlobalSecondaryIndex.HashQueryIsFullQueryWithoutRange | src/query/global_secondary_index.ts:78-91 | the hash-only request equals the full request with no range predicate and no start key, minus the scan direction flag |
| GlobalSecondaryIndex.CursorResumes | src/query/global_secondary_index.ts:39-65 | a page's last evaluated key, passed back as the start key, reaches the next request unchanged |
| GlobalSecondaryIndex.QueryOptions.constructor | src/query/global_secondary_index.ts:22-28 | the caller's options object holds exactly the given hash, range, order, limit and start key |
| GlobalSecondaryIndex.FullGlobalSecondaryIndex.constructor | src/query/global_secondary_index.ts:16-20 | the index keeps its table class, index metadata and client |
| GlobalSecondaryIndex.FullGlobalSecondaryIndex.Query | src/query/global_secondary_index.ts:22-68 | a missing order is set to ASC in the caller's options (and no other option changes); the store receives FullQueryInput for the effective order and the result is that response's envelope |
| GlobalSecondaryIndex.HashGlobalSecondaryIndex.constructor | src/query/global_secondary_index.ts:72-76 | the index keeps its table class, index metadata and client |
| GlobalSecondaryIndex.HashGlobalSecondaryIndex.Query | src/query/global_secondary_index.ts:78-104 | the records are the deserialized items the store returns for the bare hash request, same length and order; count, scanned count, cursor and consumed capacity are copied verbatim from that response |
| PrimaryKey.DeclaredUpdates | src/query/hash_primary_key.ts:93-104 | the update map only has store names of declared attributes as keys, and has no more entries than there are declared attributes |
| PrimaryKey.DeclaredUpdatesKeys | src/query/hash_primary_key.ts:96-98 | a store name has an entry exactly when some declared attribute with that name has its property in the change set |
| PrimaryKey.DeclaredUpdatesEntry | src/query/hash_primary_key.ts:97-102 | a declared attribute's entry is `{Action: change[0], Value: change[1]}` of its property's change, unless a later attribute with the same store name also has a change |
| PrimaryKey.DeclaredUpdatesOnlyDeclared | src/query/hash_primary_key.ts:93-104 | change sets that agree on the declared property names produce the same updates |
| PrimaryKey.UndeclaredChangeDropped | src/query/hash_primary_key.ts:96-98 | adding a change for a property no attribute declares leaves the updates unchanged, with no error |
| PrimaryKey.HashPrimaryKey.constructor | src/query/hash_primary_key.ts:14-18 | the accessor keeps its table class, key metadata and client |
| PrimaryKey.HashPrimaryKey.KeyOf | src/query/hash_primary_key.ts:23-25 | the key map has exactly one entry: hash attribute name to the supplied key |
| PrimaryKey.HashPrimaryKey.Delete | src/query/hash_primary_key.ts:20-27 | the delete request names the table and carries the single-entry key map |
| PrimaryKey.HashPrimaryKey.GetRequest | src/query/hash_primary_key.ts:31-36 | the get request names the table and carries the single-entry key map |
| PrimaryKey.HashPrimaryKey.Get | src/query/hash_primary_key.ts:29-42 | absent exactly when the store's response has no item; otherwise the deserialized item |
| PrimaryKey.HashPrimaryKey.BatchGetRequest | src/query/hash_primary_key.ts:44-56 | one request entry, under the table name, with one single-entry key map per input key in input order, and no length check |
| PrimaryKey.HashPrimaryKey.BatchGet | src/query/hash_primary_key.ts:58-62 | fails exactly when the response has no list for the table; otherwise the records are that list deserialized, same length and order |
| PrimaryKey.HashPrimaryKey.BatchDelete | src/query/hash_primary_key.ts:66-80 | batchWrite receives the table name and one delete request per key tuple, in order, each keyed `{hash name: key[0]}` |
| PrimaryKey.HashPrimaryKey.Update | src/query/hash_primary_key.ts:84-114 | the update request names the table, carries the single-entry key map, and its attribute updates are DeclaredUpdates of the declared attributes and the change set (the loop's result) |

## Left out

- The network calls and async/await. Each store call is a function from request to response, so throttling, errors and state are not modelled.
- `ReturnConsumedCapacity: "TOTAL"` is set as a constant. The capacity report and the cursor are opaque and only passed through.
- `Codec.deserialize` and `RangeKeyOperation.parse` are not part of this model. They are parameters with no assumed semantics, so operator formats and parser validation errors are not modelled.
- `batchWrite` (`src/query/batch_write.ts`) is not part of this model. Its chunking, retries and backoff are absent, so `BatchDelete` stops at the arguments handed to it.
- `PrimaryKey.HashPrimaryKey.BatchGet`: the model has no batch-size limit, because the code has only a TODO there.
- `PrimaryKey.HashPrimaryKey.Update`: the change set is a dictionary of own keys. A property name that matches an inherited JavaScript object member (such as `constructor`) would read a truthy prototype value in the source. The model does not capture that.
- `PrimaryKey.HashPrimaryKey.Delete`: returns the request sent. The store's response is discarded by the source, so nothing about it is modelled.
- Hash key values are modelled as `AttributeValue`. The source's generic `HashKeyType` is not distinguished from the values the client marshals.
- `src/query/__test__/writer_spec.ts` is an integration test against a live table, and `Writer` is not part of this model.
