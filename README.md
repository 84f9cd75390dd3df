# jetmock, modelled in Dafny

jetmock is a mock server. A *mock flow* is an ordered list of typed steps
(elements): an `API_TRIGGER_REQUEST` or `KAFKA_TRIGGER` step that says what starts
the flow, an optional `CONDITION`, `CALLBACK_API`, `KAFKA_PUBLISHER` and
`GLOBAL_VARIABLE` steps that act, and an `API_TRIGGER_RESPONSE` step that answers
an HTTP caller. An HTTP call is matched against the stored flows by
method and path (an exact path first, then a URL template such as
`/orders/:id`); a Kafka message is matched by broker and topic. The
matched flow's steps then run in order-number order over one execution
context, with `{{…}}` placeholders resolved against it and against the
global variables.

Flows, groups, Kafka brokers, global variables and collection nodes are
kept in an embedded RocksDB store. The repository has two generations of
this persistence layer, and both are modelled, each over its own store:

- the storage generation (`storage/` with the services in `service/`):
  MockFlowStorage, GroupStorage, KafkaBrokerStorage and
  GlobalEnvironmentStorage write RocksDB directly and keep id sets and
  request and Kafka indexes beside each record;
- the repository generation (`repository/` with `service/kafka/`):
  RocksDbRepository and the repositories over it, MockFlowService,
  CreateMockService and the repository copies of the Kafka services.

RocksDB is modelled as a class holding a map from keys to stored records
and the strictly sorted list of its keys, so that prefix scans walk keys in
byte order as the real iterator does. Serialisation is taken as the
identity: a record reads back only at the type it was written with. The
SpEL evaluator and the JSON parser are oracle parameters, random UUIDs come
from an `IdSource` object, and the Kafka and HTTP clients are represented
only by the objects the server builds for them (listener containers and
producer templates) and by the exceptions they can raise.

Every operation is stated against a specification function of the old
state and the inputs, and the properties the source relies on are lemmas
about those functions: key and index round trips, "save then find",
"delete undoes save", which flow a request or message selects, the order
in which steps run, and what the placeholder renderer leaves unchanged.

## Model

| member | source | states |
|---|---|---|
| JavaLang.TrimLeftMeaning | src/main/java/jetmock/service/DynamicKafkaTemplateFactory.java:21 | `trim` drops exactly the longest leading run of characters at or below the space, and nothing else |
| JavaLang.TrimRightMeaning | src/main/java/jetmock/service/DynamicKafkaTemplateFactory.java:21 | `trim` drops exactly the longest trailing run of characters at or below the space, and nothing else |
| JavaLang.TrimIdempotent | src/main/java/jetmock/service/PlaceholderService.java:37 | trimming a trimmed text changes nothing |
| JavaLang.LowerCase | src/main/java/jetmock/storage/GroupStorage.java:131 | `toLowerCase` keeps the length and maps each character on its own (ASCII letters only; see Left out) |
| JavaLang.LowerCaseOfLower | src/main/java/jetmock/storage/GroupStorage.java:131 | a text with no capital letter is its own lower case |
| JavaLang.IndexOf | src/main/java/jetmock/service/PlaceholderService.java:64 | `indexOf` gives the first position holding c, and -1 exactly when c does not occur |
| JavaLang.IndexOfAfter | src/main/java/jetmock/service/PlaceholderService.java:64-66 | the first c of `a + c + b` sits just after a when a holds none |
| JavaLang.IndexOfWithin | src/main/java/jetmock/service/PlaceholderService.java:64-66 | the first c of `a + b` is the first of a when a holds one |
| JavaLang.ReplaceChar | src/main/java/jetmock/service/DslObject.java:85 | `replace(char, char)` keeps the length and swaps exactly the occurrences of the one character |
| JavaLang.PiecesHaveNoDelimiter | src/main/java/jetmock/service/RequestUrlService.java:17 | no piece between delimiters holds the delimiter |
| JavaLang.PiecesWithoutDelimiter | src/main/java/jetmock/service/RequestUrlService.java:17 | a text without the delimiter is its only piece |
| JavaLang.PiecesAppendDelimiter | src/main/java/jetmock/service/RequestUrlService.java:17 | a delimiter at the end adds exactly one empty piece |
| JavaLang.JoinPieces | src/main/java/jetmock/service/RequestUrlService.java:17 | the pieces joined by the delimiter give the text back |
| JavaLang.DropTrailingEmpty | src/main/java/jetmock/service/RequestUrlService.java:17 | a prefix of the pieces that ends in a non-empty one (or is empty), and only empty pieces were dropped |
| JavaLang.Split | src/main/java/jetmock/service/RequestUrlService.java:17 | `split` pieces hold no delimiter, and when the text has one the last piece is not empty |
| JavaLang.NatToString | src/main/java/jetmock/service/ElementService.java:70 | decimal text: non-empty and all digits |
| JavaLang.ParseInt | src/main/java/jetmock/service/CreateMockService.java:55 | `Integer.valueOf` gives a value only in the 32-bit range |
| JavaLang.ParseIntToString | src/main/java/jetmock/service/PlaceholderService.java:69 | every 32-bit integer's text reads back as that integer |
| JavaLang.ParseIntOfToString | src/main/java/jetmock/service/PlaceholderService.java:69 | the text of any integer reads back as itself when it fits 32 bits, and is a NumberFormatException when it does not |
| JavaLang.HexDigitsValue | src/main/java/jetmock/service/kafka/KafkaListenerLifecycleService.java:65 | the value of n hex digits is below 16^n |
| JavaLang.ParseHexLong | src/main/java/jetmock/service/kafka/KafkaListenerLifecycleService.java:65 | `Long.parseLong(group, 16)`: never above Long.MAX_VALUE, and for 1 to 12 hex digits the digits' value |
| JavaLang.HexText | src/main/java/jetmock/service/kafka/KafkaListenerLifecycleService.java:65 | exactly w hex digits, none a capital letter |
| JavaLang.UuidText | src/main/java/jetmock/service/kafka/KafkaListenerLifecycleService.java:65 | `UUID.toString` is canonical (8-4-4-4-12 hex digits) and lower case |
| JavaLang.UuidFromString | src/main/java/jetmock/service/CreateMockService.java:38 | `UUID.fromString`: IllegalArgumentException exactly when the text is longer than 36 characters or lacks exactly four dashes; otherwise a NumberFormatException or the canonical lower-case text |
| JavaLang.HexTextOfDigits | src/main/java/jetmock/service/kafka/KafkaListenerLifecycleService.java:65 | printing the value of w hex digits at width w gives the digits back in lower case |
| JavaLang.UuidOfCanonical | src/main/java/jetmock/service/CreateMockService.java:38 | a canonical text parses to its own lower case |
| JavaLang.UuidFromStringIdempotent | src/main/java/jetmock/service/CreateMockService.java:38 | what `fromString` gives reads back unchanged |
| JavaLang.HexTextValue | src/main/java/jetmock/service/kafka/KafkaListenerLifecycleService.java:65 | the printed group holds the value modulo 16^w, which is the mask `fromString` applies |
| JavaLang.LeadingZerosValue | src/main/java/jetmock/service/kafka/KafkaListenerLifecycleService.java:65 | leading zeros do not change a group's value |
| JavaLang.PaddedGroupText | src/main/java/jetmock/service/kafka/KafkaListenerLifecycleService.java:65 | a short group prints zero-padded to its width, in lower case |
| JavaLang.ShortFormIsPadded | src/main/java/jetmock/service/CreateMockService.java:38 | a short form such as `1-1-1-1-1` parses to the canonical text whose groups are its own, zero-padded |
| JavaLang.ShortFormParses | src/main/java/jetmock/service/CreateMockService.java:38 | five hex groups within their widths parse to the UUID of their values |
| JavaLang.UuidFromGroups | src/main/java/jetmock/service/CreateMockService.java:38 | within 36 characters and with four dashes, the parse is that of the five groups |
| JavaLang.InSomeOrder | src/main/java/jetmock/storage/GroupStorage.java:65 | a hash set's iteration visits every element exactly once and nothing else |
| JavaLang.IdSource.Fresh | src/main/java/jetmock/storage/GroupStorage.java:34 | `randomUUID` yields the next id of the supply and advances it by one |
| Values.TextOrNull | src/main/java/jetmock/storage/MockFlowStorage.java:203 | `Objects.toString(v, null)` is null exactly for null |
| Values.ContextGet | src/main/java/jetmock/service/PlaceholderService.java:70 | `context.get(order)`: null for an order with no entry, the stored payload otherwise |
| Values.Lookup | src/main/java/jetmock/service/RequestUrlService.java:41 | `Map.get` of an absent key is null |
| Values.Put | src/main/java/jetmock/service/RequestUrlService.java:41 | `Map.put` keeps the key list when the key is present and appends the key otherwise |
| Values.LookupPut | src/main/java/jetmock/service/RequestUrlService.java:41 | after `put(k, v)`, k reads v and every other key reads as before |
| Values.PutKeepsUniqueKeys | src/main/java/jetmock/service/MockFlowService.java:105-107 | `put` never makes a key appear twice |
| Records.WithElements | src/main/java/jetmock/service/MockFlowService.java:47 | `setFlowElements` keeps the flow's id and group and replaces its steps |
| Records.SliceSorted | src/main/java/jetmock/service/AsyncFlowExecutor.java:32-37 | a run of consecutive steps of a sorted list is sorted |
| Records.InsertByOrder | src/main/java/jetmock/service/MockService.java:203 | inserting one step adds exactly that step to the multiset |
| Records.WithOrderInsert | src/main/java/jetmock/service/MockService.java:203 | inserting a step adds it at the front of the steps sharing its order number and leaves the other order numbers' runs alone |
| IdSets.SetOf | src/main/java/jetmock/storage/GroupStorage.java:75-78 | a stored id set or id list reads as its set of members; any other record does not read |
| IdSets.ReadSet | src/main/java/jetmock/storage/MockFlowStorage.java:237-245 | an absent key is the empty set; a record that is no id collection fails to decode; otherwise its members |
| IdSets.ReadIds | src/main/java/jetmock/storage/GroupStorage.java:75-78 | the same set as `readSet`, with a read failure raised as IllegalStateException |
| IdSets.UpdatedIds | src/main/java/jetmock/storage/GroupStorage.java:80-84 | a failed read changes nothing and raises IllegalStateException; otherwise the set with the id added or removed is written back |
| IdSets.StoredAt | src/main/java/jetmock/storage/GroupStorage.java:86-96 | a record exactly for a key that is stored |
| IdSets.ListsExactlyStep | src/main/java/jetmock/storage/GroupStorage.java:65-67 | visiting one more id appends its record when there is one, so the loop's list matches the ids visited so far |
| ExecutionContext.Context.Put | src/main/java/jetmock/service/ElementService.java:108 | `context.put(order, payload)` sets that order's entry and leaves every other entry alone |
| RocksStore.AsFlow | src/main/java/jetmock/storage/MockFlowStorage.java:218 | a record reads back as a flow exactly when a flow was written |
| RocksStore.AsMatch | src/main/java/jetmock/repository/RocksDbRepository.java:52 | a record reads back as a match projection exactly when one was written |
| RocksStore.AsIdSet | src/main/java/jetmock/storage/MockFlowStorage.java:242-245 | a record reads back as an id set exactly when one was written |
| RocksStore.AsIdList | src/main/java/jetmock/repository/RocksDbRepository.java:29-34 | a record reads back as an id list exactly when one was written |
| RocksStore.AsIdText | src/main/java/jetmock/storage/GroupStorage.java:57 | a record reads back as a UUID exactly when one was written |
| RocksStore.AsGroup | src/main/java/jetmock/storage/GroupStorage.java:53 | a record reads back as a group exactly when one was written |
| RocksStore.AsBroker | src/main/java/jetmock/storage/KafkaBrokerStorage.java:26-40 | a record reads back as a broker exactly when one was written |
| RocksStore.AsVariableList | src/main/java/jetmock/storage/GlobalEnvironmentStorage.java:30-34 | a record reads back as a variable list exactly when one was written |
| RocksStore.AsVariable | src/main/java/jetmock/repository/GlobalEnvironmentRepository.java:17-19 | a record reads back as one global variable exactly when one was written |
| RocksStore.AsNode | src/main/java/jetmock/repository/CollectionRepository.java:17-19 | a record reads back as a collection node exactly when one was written |
| RocksStore.PrefixedKeys | src/main/java/jetmock/repository/RocksDbRepository.java:124-129 | exactly the stored keys that start with the prefix |
| RocksStore.WithoutPrefix | src/main/java/jetmock/repository/RocksDbRepository.java:116-140 | the store keeps exactly the keys without the prefix, each with its value |
| RocksStore.MembersAppend | src/main/java/jetmock/repository/RocksDbRepository.java:124-129 | one more key visited adds exactly that key to the visited set |
| RocksStore.SortedCardinality | src/main/java/jetmock/repository/RocksDbRepository.java:124-129 | an iterator visits no key twice, so it visits as many keys as the store holds |
| RocksStore.DistinctCardinality | src/main/java/jetmock/repository/RocksDbRepository.java:124-129 | a list without repeats has as many members as entries |
| RocksStore.RocksDb.constructor | src/main/java/jetmock/config/RocksDbConfig.java:28-31 | a freshly opened store is empty |
| RocksStore.RocksDb.Get | src/main/java/jetmock/repository/RocksDbRepository.java:48-50 | `db.get` answers exactly for a stored key, with its value |
| RocksStore.RocksDb.Put | src/main/java/jetmock/repository/RocksDbRepository.java:66 | `db.put` sets the key and keeps the iterator's key list sorted |
| RocksStore.RocksDb.Delete | src/main/java/jetmock/repository/RocksDbRepository.java:109 | `db.delete` removes the key, absent or not |
| RocksStore.RocksDb.DeleteBatch | src/main/java/jetmock/repository/RocksDbRepository.java:127-132 | a batch of deletes removes every listed key at once |
| RocksStore.RocksDb.Seek | src/main/java/jetmock/repository/RocksDbRepository.java:84 | a seek lands on a position of the key list |
| RocksStore.ScanVisitsPrefixedKeys | src/main/java/jetmock/repository/RocksDbRepository.java:83-88 | the seek-and-scan visits exactly the keys with the prefix, in ascending order, each once |
| RocksStore.PrefixedMembers | src/main/java/jetmock/repository/RocksDbRepository.java:83-88 | the filtered key list holds exactly the stored keys with the prefix |
| KeyOrder.LessIrreflexive | src/main/java/jetmock/repository/RocksDbRepository.java:84 | no key sorts below itself |
| KeyOrder.LessTransitive | src/main/java/jetmock/repository/RocksDbRepository.java:84 | the byte order on keys is transitive |
| KeyOrder.LessTotal | src/main/java/jetmock/repository/RocksDbRepository.java:84 | any two different keys are ordered one way |
| KeyOrder.LessAsymmetric | src/main/java/jetmock/repository/RocksDbRepository.java:84 | no two keys sort below each other |
| KeyOrder.SeekIndex | src/main/java/jetmock/repository/RocksDbRepository.java:84 | `seek(p)` lands on the first key not below p |
| KeyOrder.SeekIndexAll | src/main/java/jetmock/repository/RocksDbRepository.java:84 | every key from the seek position on is at or above p |
| KeyOrder.PrefixedNotBelow | src/main/java/jetmock/repository/RocksDbRepository.java:84-85 | a key that starts with p never sorts below p |
| KeyOrder.PastPrefix | src/main/java/jetmock/repository/RocksDbRepository.java:85 | a key at or above p without the prefix sorts above every key with it, so the scan may stop there |
| KeyOrder.PrefixRunEnd | src/main/java/jetmock/repository/RocksDbRepository.java:84-86 | the scan stops at the first key from the seek position without the prefix |
| KeyOrder.PrefixRun | src/main/java/jetmock/repository/RocksDbRepository.java:84-86 | in a sorted key list the keys with prefix p are exactly those from the seek position up to the first one without it |
| KeyOrder.KeysWithPrefix | src/main/java/jetmock/repository/RocksDbRepository.java:84-86 | the keys with the prefix, in ascending order |
| KeyOrder.FilterIsSlice | src/main/java/jetmock/repository/RocksDbRepository.java:84-86 | when exactly one slice holds the prefixed keys, the filter is that slice |
| KeyOrder.ScanIsKeysWithPrefix | src/main/java/jetmock/repository/RocksDbRepository.java:84-86 | the seek-and-scan returns exactly the prefixed keys in order |
| KeyOrder.InsertKeepsSorted | src/main/java/jetmock/repository/RocksDbRepository.java:66 | putting a new key at its seek position keeps the key list sorted |
| KeyOrder.RemoveKeepsSorted | src/main/java/jetmock/repository/RocksDbRepository.java:109 | removing a key keeps the key list sorted |
| KeyOrder.SortedDistinct | src/main/java/jetmock/repository/RocksDbRepository.java:84-86 | a sorted key list has no repeats |
| RocksDbRepository.BuildKey | src/main/java/jetmock/repository/RocksDbRepository.java:25-27 | the key is the prefix, a colon, then the key |
| RocksDbRepository.BuildKeyInjective | src/main/java/jetmock/repository/RocksDbRepository.java:25-27 | two keys built on one prefix are equal only for the same key |
| RocksDbRepository.RemoveAll | src/main/java/jetmock/repository/RocksDbRepository.java:75 | `removeIf(equals x)` drops every x and keeps the rest in order |
| RocksDbRepository.RemoveAllAbsent | src/main/java/jetmock/repository/RocksDbRepository.java:75 | removing an absent value changes nothing |
| RocksDbRepository.WithAppended | src/main/java/jetmock/repository/RocksDbRepository.java:73-78 | `saveToList` writes the list without x, then x last |
| RocksDbRepository.WithAppendedContents | src/main/java/jetmock/repository/RocksDbRepository.java:73-78 | x occurs exactly once, last; every other value keeps its count and order |
| RocksDbRepository.SaveToListIdempotent | src/main/java/jetmock/repository/RocksDbRepository.java:73-78 | saving x to a list that already ends in its only copy changes nothing |
| RocksDbRepository.RemoveAllLast | src/main/java/jetmock/repository/RocksDbRepository.java:75-76 | removing the x just appended to a list without x gives the list back |
| RocksDbRepository.RemoveFirst | src/main/java/jetmock/repository/RocksDbRepository.java:98 | `List.remove(x)` drops only the first x |
| RocksDbRepository.FirstIndex | src/main/java/jetmock/repository/RocksDbRepository.java:98 | the first position holding x |
| RocksDbRepository.Find | src/main/java/jetmock/repository/RocksDbRepository.java:46-58 | `findByKey`: empty for an absent key or a record of the wrong type, the record otherwise |
| RocksDbRepository.ListAt | src/main/java/jetmock/repository/RocksDbRepository.java:29-34 | the stored id list, or the empty list when the key is absent or holds something else |
| RocksDbRepository.DecodeAll | src/main/java/jetmock/repository/RocksDbRepository.java:80-94 | one value per key, or RuntimeException |
| RocksDbRepository.DecodeAllMeaning | src/main/java/jetmock/repository/RocksDbRepository.java:80-94 | the read succeeds exactly when every key holds a value of the type, and then lists those values in key order |
| RocksDbRepository.Repository.FindByKey | src/main/java/jetmock/repository/RocksDbRepository.java:41-58 | returns `Find` of the store |
| RocksDbRepository.Repository.FindByPrefixedKey | src/main/java/jetmock/repository/RocksDbRepository.java:36-39 | returns `Find` at `prefix:key` |
| RocksDbRepository.Repository.FindListByKey | src/main/java/jetmock/repository/RocksDbRepository.java:29-34 | returns `ListAt` of the store |
| RocksDbRepository.Repository.Save | src/main/java/jetmock/repository/RocksDbRepository.java:64-71 | the store with the key set to the value |
| RocksDbRepository.Repository.SavePrefixed | src/main/java/jetmock/repository/RocksDbRepository.java:60-62 | the store with `prefix:key` set to the value |
| RocksDbRepository.Repository.SaveToList | src/main/java/jetmock/repository/RocksDbRepository.java:73-78 | the list at the key becomes `WithAppended` of the stored list |
| RocksDbRepository.Repository.DeleteFromList | src/main/java/jetmock/repository/RocksDbRepository.java:96-101 | the first x is removed and the list written back only when x was in it; otherwise the store is unchanged |
| RocksDbRepository.Repository.FindAll | src/main/java/jetmock/repository/RocksDbRepository.java:80-94 | the values of every key with the prefix in ascending key order, or RuntimeException when one does not decode |
| RocksDbRepository.Repository.Delete | src/main/java/jetmock/repository/RocksDbRepository.java:107-114 | the store without the key |
| RocksDbRepository.Repository.DeletePrefixed | src/main/java/jetmock/repository/RocksDbRepository.java:103-105 | the store without `prefix:key` |
| RocksDbRepository.Repository.DeleteByPrefix | src/main/java/jetmock/repository/RocksDbRepository.java:116-140 | every key with the prefix is gone, every other key kept, and the count returned is how many there were |
| RocksDbRepository.ScanDecode | src/main/java/jetmock/repository/RocksDbRepository.java:83-88 | the loop decodes exactly the run from the seek position while keys carry the prefix |
| RocksDbRepository.ScanRun | src/main/java/jetmock/repository/RocksDbRepository.java:83-88 | that run is the prefixed keys in order, as many as the store holds |
| RocksDbRepository.DecodeAllStep | src/main/java/jetmock/repository/RocksDbRepository.java:87 | one more key decoded extends the list, or fails the read |
| RocksDbRepository.PrefixDecodeFails | src/main/java/jetmock/repository/RocksDbRepository.java:87-91 | a value that does not decode early in the scan fails the whole scan |
| GlobalEnvironmentStorage.AllVariables | src/main/java/jetmock/storage/GlobalEnvironmentStorage.java:24-35 | `getAll`: the empty list for an absent key, the stored list otherwise, and a decode failure for any other record |
| GlobalEnvironmentStorage.Validated | src/main/java/jetmock/storage/GlobalEnvironmentStorage.java:55-63 | `validate` passes exactly a variable whose key is present and not blank, and raises IllegalArgumentException otherwise |
| GlobalEnvironmentStorage.WithoutKey | src/main/java/jetmock/storage/GlobalEnvironmentStorage.java:48 | `removeIf` keeps exactly the entries whose key is not the new key, and drops nothing else |
| GlobalEnvironmentStorage.WithKey | src/main/java/jetmock/storage/GlobalEnvironmentStorage.java:48 | exactly the entries whose key is k |
| GlobalEnvironmentStorage.UpsertEffect | src/main/java/jetmock/storage/GlobalEnvironmentStorage.java:42-53 | a failed upsert leaves the store alone; it succeeds exactly when the key is valid, the list reads and no stored entry lacks a key; then the list minus the same key plus the new entry is written |
| GlobalEnvironmentStorage.UpsertErrors | src/main/java/jetmock/storage/GlobalEnvironmentStorage.java:42-62 | a bad key raises IllegalArgumentException first, then an unreadable list fails to decode, then an entry without a key raises NullPointerException |
| GlobalEnvironmentStorage.FirstValue | src/main/java/jetmock/storage/GlobalEnvironmentStorage.java:69-75 | empty exactly when no entry's key equals the key ignoring case; a found value comes from such an entry and is never null; any failure is NullPointerException |
| GlobalEnvironmentStorage.ValueByKey | src/main/java/jetmock/storage/GlobalEnvironmentStorage.java:69-75 | an unreadable list fails to decode; otherwise the stream's answer over the stored list |
| GlobalEnvironmentStorage.Storage.GetAll | src/main/java/jetmock/storage/GlobalEnvironmentStorage.java:24-35 | returns `AllVariables` of the store |
| GlobalEnvironmentStorage.Storage.SaveAll | src/main/java/jetmock/storage/GlobalEnvironmentStorage.java:37-40 | the single key holds the given list |
| GlobalEnvironmentStorage.Storage.Upsert | src/main/java/jetmock/storage/GlobalEnvironmentStorage.java:42-53 | the new store and the outcome are `UpsertEffect` of the old store |
| GlobalEnvironmentStorage.Storage.GetValueByKey | src/main/java/jetmock/storage/GlobalEnvironmentStorage.java:69-75 | returns `ValueByKey` of the store |
| GlobalEnvironmentStorage.WithKeyAppend | src/main/java/jetmock/storage/GlobalEnvironmentStorage.java:48-50 | the entries with key k of a list with one appended entry |
| GlobalEnvironmentStorage.WithKeyOfWithout | src/main/java/jetmock/storage/GlobalEnvironmentStorage.java:48 | after the removal no entry has the removed key, and every other key keeps its entries |
| GlobalEnvironmentStorage.UpsertLeavesOneEntry | src/main/java/jetmock/storage/GlobalEnvironmentStorage.java:42-53 | after an upsert exactly one entry has the key, it is the new one and it is last; every other key keeps its entries in order |
| GlobalEnvironmentStorage.WithoutKeyAppend | src/main/java/jetmock/storage/GlobalEnvironmentStorage.java:48-50 | removing a key from a list with one appended entry |
| GlobalEnvironmentStorage.WithoutKeyTwice | src/main/java/jetmock/storage/GlobalEnvironmentStorage.java:48 | removing a key twice is removing it once |
| GlobalEnvironmentStorage.UpsertIdempotent | src/main/java/jetmock/storage/GlobalEnvironmentStorage.java:42-53 | upserting the same variable twice leaves the store as one upsert does |
| GlobalEnvironmentStorage.SaveAllThenGetAll | src/main/java/jetmock/storage/GlobalEnvironmentStorage.java:24-40 | `saveAll` then `getAll` gives the list back |
| GlobalEnvironmentStorage.UpsertThenLookup | src/main/java/jetmock/storage/GlobalEnvironmentStorage.java:42-75 | the upserted value is found under every spelling of its key, unless an older entry whose key differs only in case comes first |
| GlobalEnvironmentStorage.FirstValueAppend | src/main/java/jetmock/storage/GlobalEnvironmentStorage.java:71-74 | entries that do not match do not change the lookup |
| GlobalEnvironmentStorage.CaseVariantShadowsUpsert | src/main/java/jetmock/storage/GlobalEnvironmentStorage.java:48-72 | after `FOO` = 1, an upsert of `foo` = 2 still reads 1 for `foo` |
| GlobalEnvironmentStorage.WithoutFoldedKey | src/main/java/jetmock/storage/GlobalEnvironmentStorage.java:48 | the entries whose key differs from k even ignoring case, and every such entry |
| GlobalEnvironmentStorage.FoldedUpsertEffect | src/main/java/jetmock/storage/GlobalEnvironmentStorage.java:42-53 | the intended upsert fails exactly as `upsert` does, and on success changes only the single key |
| GlobalEnvironmentStorage.FoldedUpsertThenLookup | src/main/java/jetmock/storage/GlobalEnvironmentStorage.java:42-75 | after the intended upsert every spelling of the key finds the new value, whatever was stored before |
| Constant.BranchIff | src/main/java/jetmock/constant/Constant.java:33 | one alternative `.*[c]+.*` matches a whole string exactly when it holds c and no line terminator |
| Constant.BlacklistIsRegexLanguage | src/main/java/jetmock/constant/Constant.java:32-33 | the guard's predicate is exactly the language of the blacklist expression under whole-string matching |
| Constant.LineTerminatorPassesGuard | src/main/java/jetmock/service/MockService.java:181-183 | a condition holding a line terminator is never flagged, whatever `;` or backslash it holds |
| Constant.NewlineSemicolonPassesGuard | src/main/java/jetmock/constant/Constant.java:32-33 | as written: `1\n;2` holds a `;` and is not flagged |
| Constant.DotAllBranchIff | src/main/java/jetmock/constant/Constant.java:33 | corrected: one alternative matched with line terminators allowed holds exactly the strings containing its character |
| Constant.ForbiddenIsDotAllLanguage | src/main/java/jetmock/constant/Constant.java:32-33 | the corrected guard is the blacklist's language with line terminators allowed; it flags everything the written guard flags, and more exactly on strings with a line terminator |
| Constant.PlainTextNeverFlagged | src/main/java/jetmock/service/MockService.java:181-183 | a condition with neither `;` nor a backslash is never flagged |
| RequestUrlService.UrlMatches | src/main/java/jetmock/service/RequestUrlService.java:16-29 | true exactly when the template and the request have the same number of segments and each template segment is a `:` variable or equals its partner |
| RequestUrlService.PathVariables | src/main/java/jetmock/service/RequestUrlService.java:31-45 | ArrayIndexOutOfBounds exactly when the request has fewer segments than the template |
| RequestUrlService.ExtractPathVariables | src/main/java/jetmock/service/RequestUrlService.java:31-45 | the loop returns `PathVariables` of the two split paths |
| RequestUrlService.GetRequestPath | src/main/java/jetmock/service/RequestUrlService.java:47-49 | StringIndexOutOfBounds exactly when the URI is shorter than `/` plus the group name; otherwise the rest of the URI, that many characters shorter |
| RequestUrlService.GetRequestPathStripsGroup | src/main/java/jetmock/service/RequestUrlService.java:47-49 | on `/group` followed by a path the result is that path |
| RequestUrlService.TrailingSlashIgnored | src/main/java/jetmock/service/RequestUrlService.java:17 | String.split drops the trailing empty piece, so a non-empty path and the same path with `/` appended split alike |
| RequestUrlService.VariableSegment | src/main/java/jetmock/service/RequestUrlService.java:40-41 | a segment binds the name n exactly when it is `:` followed by n |
| RequestUrlService.BoundNames | src/main/java/jetmock/service/RequestUrlService.java:37-43 | a name is bound exactly when some template segment is `:` followed by it |
| RequestUrlService.BoundValue | src/main/java/jetmock/service/RequestUrlService.java:41 | a name is bound to the request segment at the last template position that names it |
| AsyncFlowExecutor.AfterTrigger | src/main/java/jetmock/service/AsyncFlowExecutor.java:32-37 | the sorted steps strictly after the first step of the trigger's type, or all of them when there is none (findIndex -1); the result is a sorted suffix |
| AsyncFlowExecutor.AfterTriggerRun | src/main/java/jetmock/service/AsyncFlowExecutor.java:25-40 | a missing flow or a failed read ends in IllegalStateException and changes nothing |
| AsyncFlowExecutor.Executor.RunElementsAfterTrigger | src/main/java/jetmock/service/AsyncFlowExecutor.java:25-40 | the method's context, UUID counter and store are those of `AfterTriggerRun` on the flow stored at the id |
| RequestUrlService.MatchedUrlBindsItsVariables | src/main/java/jetmock/service/RequestUrlService.java:16-45 | on a URL the template matches, extraction succeeds and binds exactly the names of the template's `:` segments |
| GlobalEnvironmentRepository.SavedAll | src/main/java/jetmock/repository/GlobalEnvironmentRepository.java:25-31 | `saveAll` saves in list order; a variable without a key ends the loop with RuntimeException, the earlier saves kept |
| GlobalEnvironmentRepository.VariableRepository.FindByKey | src/main/java/jetmock/repository/GlobalEnvironmentRepository.java:17-19 | returns the read at `global_variable:<key>` |
| GlobalEnvironmentRepository.VariableRepository.GetAll | src/main/java/jetmock/repository/GlobalEnvironmentRepository.java:21-23 | returns the prefix scan of `global_variable` |
| GlobalEnvironmentRepository.VariableRepository.SaveAll | src/main/java/jetmock/repository/GlobalEnvironmentRepository.java:25-27 | the new store and outcome are `SavedAll` of the old store |
| GlobalEnvironmentRepository.VariableRepository.Save | src/main/java/jetmock/repository/GlobalEnvironmentRepository.java:29-31 | the value alone is written at the bare key |
| GlobalEnvironmentRepository.SaveInvisibleToFindByKey | src/main/java/jetmock/repository/GlobalEnvironmentRepository.java:17-31 | `save` never changes what `findByKey` of the same key reads |
| GlobalEnvironmentRepository.SaveAllLastWins | src/main/java/jetmock/repository/GlobalEnvironmentRepository.java:25-31 | after a successful `saveAll` each key holds the value of the last variable with that key; other keys keep what they held |
| GlobalEnvironmentRepository.SaveAllKeeps | src/main/java/jetmock/repository/GlobalEnvironmentRepository.java:25-31 | a key no variable names is left as it was |
| GlobalEnvironmentRepository.SaveAllStopsAtMissingKey | src/main/java/jetmock/repository/GlobalEnvironmentRepository.java:25-31 | a variable without a key stops `saveAll` there: the earlier ones stay saved and the later ones are not |
| CollectionRepository.NodeRepository.FindById | src/main/java/jetmock/repository/CollectionRepository.java:17-19 | returns the read at `collection:<id>` |
| CollectionRepository.NodeRepository.Save | src/main/java/jetmock/repository/CollectionRepository.java:21-23 | `collection:<id>` holds the node |
| CollectionRepository.NodeRepository.FindAll | src/main/java/jetmock/repository/CollectionRepository.java:25-27 | returns the prefix scan of `collection` |
| CollectionRepository.NodeRepository.Delete | src/main/java/jetmock/repository/CollectionRepository.java:29-31 | the store without `collection:<id>` |
| CollectionRepository.SaveThenFindById | src/main/java/jetmock/repository/CollectionRepository.java:17-23 | `findById` after `save` gives the latest node saved under that id and leaves other ids alone |
| CollectionRepository.DeleteRemovesOnlyNode | src/main/java/jetmock/repository/CollectionRepository.java:29-31 | `delete` removes that node and no other key |
| CollectionRepository.FindAllListsEveryNode | src/main/java/jetmock/repository/CollectionRepository.java:25-27 | when every key starting with `collection` holds a node, `findAll` lists them all in key order |
| KafkaBrokerRepository.BrokerRepository.Save | src/main/java/jetmock/repository/KafkaBrokerRepository.java:18-23 | the id is drawn only when the broker has none; the broker is written at `kafka-broker:<id>` and returned with its id |
| KafkaBrokerRepository.BrokerRepository.FindById | src/main/java/jetmock/repository/KafkaBrokerRepository.java:25-27 | returns the read at `kafka-broker:<id>` |
| KafkaBrokerRepository.BrokerRepository.FindAll | src/main/java/jetmock/repository/KafkaBrokerRepository.java:29-31 | returns the prefix scan of `kafka-broker` |
| KafkaBrokerRepository.BrokerRepository.Delete | src/main/java/jetmock/repository/KafkaBrokerRepository.java:33-35 | the store without `kafka-broker:<id>` |
| KafkaBrokerRepository.SaveThenFindById | src/main/java/jetmock/repository/KafkaBrokerRepository.java:18-27 | `findById` reads what `save` wrote |
| KafkaBrokerRepository.DeleteKeepsOthers | src/main/java/jetmock/repository/KafkaBrokerRepository.java:25-35 | deleting one broker leaves every other broker readable as before |
| KafkaBrokerRepository.ForeignKeyBreaksFindAll | src/main/java/jetmock/repository/KafkaBrokerRepository.java:29-31 | any key starting with `kafka-broker`, colon or not, that holds no broker makes `findAll` fail |
| KafkaBrokerStorage.BrokerKey | src/main/java/jetmock/storage/KafkaBrokerStorage.java:111-113 | the key is `kafka-broker:` followed by the id |
| KafkaBrokerStorage.BrokerKeyDistinct | src/main/java/jetmock/storage/KafkaBrokerStorage.java:111-113 | no canonical id makes a broker key equal to `kafka-broker:ids` |
| KafkaBrokerStorage.BrokerAt | src/main/java/jetmock/storage/KafkaBrokerStorage.java:71-81 | a missing key is empty, a value that is not a broker is an IllegalState, otherwise the stored broker |
| KafkaBrokerStorage.Storage.constructor | src/main/java/jetmock/storage/KafkaBrokerStorage.java:21-22 | the storage holds the given database and id source |
| KafkaBrokerStorage.Storage.Save | src/main/java/jetmock/storage/KafkaBrokerStorage.java:30-39 | an id is drawn only when the broker has none; the broker is written under its key, its id added to the id set, and the broker returned |
| KafkaBrokerStorage.Storage.FindById | src/main/java/jetmock/storage/KafkaBrokerStorage.java:41-43 | the answer is `BrokerAt` of the current store |
| KafkaBrokerStorage.Storage.FindAll | src/main/java/jetmock/storage/KafkaBrokerStorage.java:45-53 | fails exactly when the id set or one listed broker is unreadable; otherwise lists the stored broker of each listed id once, skipping ids with no broker |
| KafkaBrokerStorage.Storage.Delete | src/main/java/jetmock/storage/KafkaBrokerStorage.java:55-58 | deletes the broker key, then removes the id from the id set |
| KafkaBrokerStorage.Storage.UpdateIds | src/main/java/jetmock/storage/KafkaBrokerStorage.java:60-69 | reads the id set (empty when absent), adds or removes the id, writes the set back |
| KafkaBrokerStorage.SaveReadsBack | src/main/java/jetmock/storage/KafkaBrokerStorage.java:30-43 | after a save the broker reads back by id and its id is listed |
| KafkaBrokerStorage.DeleteRemovesBroker | src/main/java/jetmock/storage/KafkaBrokerStorage.java:41-58 | after a delete the broker is gone and its id is not listed, whether or not it existed |
| KafkaBrokerStorage.DeleteUnknownKeepsIds | src/main/java/jetmock/storage/KafkaBrokerStorage.java:55-69 | deleting an unlisted id succeeds and leaves the listed ids as they were |
| KafkaBrokerStorage.DeleteUnknownWritesIdSet | src/main/java/jetmock/storage/KafkaBrokerStorage.java:55-69 | deleting in a store without an id set still writes an empty id set |
| SettingsService.Response | src/main/java/jetmock/service/SettingsService.java:48-54 | the response carries the broker's id and url |
| SettingsService.Found | src/main/java/jetmock/service/SettingsService.java:48-54 | a stored broker answers its response; a missing one is `KAFKA_BROKER_NOT_FOUND`; an unreadable one is an IllegalState |
| SettingsService.SaveThenFindById | src/main/java/jetmock/service/SettingsService.java:33-54 | a broker saved under a fresh id is found with that id and the request's url |
| SettingsService.DeleteThenFindById | src/main/java/jetmock/service/SettingsService.java:39-54 | after a delete, `findById` answers `KAFKA_BROKER_NOT_FOUND` |
| SettingsService.Service.constructor | src/main/java/jetmock/service/SettingsService.java:24 | the service holds the given broker storage |
| SettingsService.Service.GetAll | src/main/java/jetmock/service/SettingsService.java:27-31 | fails exactly when `findAll` fails; otherwise answers the response of each listed broker, in order |
| SettingsService.Service.Save | src/main/java/jetmock/service/SettingsService.java:33-37 | the request's url is saved under one freshly drawn id |
| SettingsService.Service.Delete | src/main/java/jetmock/service/SettingsService.java:39-46 | an unknown or unreadable broker is answered with that error and nothing changes; a stored one is deleted |
| SettingsService.Service.FindById | src/main/java/jetmock/service/SettingsService.java:48-54 | the answer is `Found` of the current store |
| GroupStorage.GroupKey | src/main/java/jetmock/storage/GroupStorage.java:126-128 | the key is `group:` followed by the id |
| GroupStorage.GroupNameKey | src/main/java/jetmock/storage/GroupStorage.java:130-132 | the key is `group:name:` followed by the lower-cased name, so names differing only in case share it |
| GroupStorage.GroupKeyDistinct | src/main/java/jetmock/storage/GroupStorage.java:126-132 | a canonical id never makes a group key equal to the id set key or any name key |
| GroupStorage.NameKeyDistinct | src/main/java/jetmock/storage/GroupStorage.java:130-132 | no name key equals `group:ids` |
| GroupStorage.GroupAt | src/main/java/jetmock/storage/GroupStorage.java:86-96 | a missing key is empty, a value that is not a group is an IllegalState, otherwise the stored group |
| GroupStorage.NamedId | src/main/java/jetmock/storage/GroupStorage.java:56-57 | the id stored under the case-folded name, empty when the key is absent, an error when it holds no id |
| GroupStorage.GroupNamed | src/main/java/jetmock/storage/GroupStorage.java:56-59 | `findByName` is `findById` of the id under the folded name, empty without one, an error when that read fails |
| GroupStorage.Storage.constructor | src/main/java/jetmock/storage/GroupStorage.java:21-22 | the storage holds the given database and id source |
| GroupStorage.Storage.Save | src/main/java/jetmock/storage/GroupStorage.java:32-42 | an id is drawn only when the group has none; the group, its name entry and its listed id are written and the group returned |
| GroupStorage.Storage.Delete | src/main/java/jetmock/storage/GroupStorage.java:44-50 | a stored group's key, name entry and listed id are removed; an unknown id changes nothing |
| GroupStorage.Storage.FindById | src/main/java/jetmock/storage/GroupStorage.java:52-54 | the answer is `GroupAt` of the current store |
| GroupStorage.Storage.FindByName | src/main/java/jetmock/storage/GroupStorage.java:56-59 | the answer is `GroupNamed` of the current store |
| GroupStorage.Storage.FindAll | src/main/java/jetmock/storage/GroupStorage.java:61-73 | fails exactly when the id set or one listed group is unreadable; otherwise lists the stored group of each listed id once, skipping ids with no group |
| GroupStorage.Storage.UpdateIds | src/main/java/jetmock/storage/GroupStorage.java:75-84 | reads the id set (empty when absent), adds or removes the id, writes the set back |
| GroupStorage.SaveReadsBack | src/main/java/jetmock/storage/GroupStorage.java:32-59 | after a save the group reads back by id and by every spelling of its name, and its id is listed |
| GroupStorage.DeleteUnknownIsNoOp | src/main/java/jetmock/storage/GroupStorage.java:44-50 | deleting an unknown id leaves the store as it was |
| GroupStorage.DeleteRemovesGroup | src/main/java/jetmock/storage/GroupStorage.java:44-59 | after deleting a stored group it is found neither by id nor by name, and its id is not listed |
| GroupStorage.RenameKeepsOldName | src/main/java/jetmock/storage/GroupStorage.java:32-42 | as written: saving a group under a new name leaves the old name's entry, so the old name still finds the renamed group |
| GroupStorage.RenameDropsOldName | src/main/java/jetmock/storage/GroupStorage.java:32-42 | after the corrected save the old name finds nothing, and the id and every spelling of the new name find the group |
| GroupService.Response | src/main/java/jetmock/service/GroupService.java:47-63 | the response carries the group's id, name and status and the given count |
| GroupService.Identified | src/main/java/jetmock/service/GroupService.java:37-39 | the group as `save` stores it: its own id kept, otherwise a drawn one, name and status unchanged |
| GroupService.CreateThenRecreate | src/main/java/jetmock/service/GroupService.java:31-41 | a created group reads back active, and every spelling of its name is then taken, so creating it again is refused |
| GroupService.DeleteKeepsGroupFlows | src/main/java/jetmock/service/GroupService.java:67-74 | deleting a group leaves its flow set key and so its flow count unchanged |
| GroupService.Service.constructor | src/main/java/jetmock/service/GroupService.java:26-27 | the service holds the given group and flow storages |
| GroupService.Service.CreateGroup | src/main/java/jetmock/service/GroupService.java:31-41 | a name taken in any letter case is refused with 400 `GROUP_ALREADY_EXISTS` and nothing is stored; otherwise an active group of that name is saved under a new id |
| GroupService.Service.GetAll | src/main/java/jetmock/service/GroupService.java:43-52 | the listed groups, each with the size of its flow set; a failing listing or count is an IllegalState |
| GroupService.Service.UpdateGroupStatus | src/main/java/jetmock/service/GroupService.java:54-60 | an unknown id is 404 `GROUP_NOT_FOUND` and nothing is stored; otherwise the stored group is saved with only `isActive` replaced by the request's nullable flag |
| GroupService.StatusUpdateReadsBack | src/main/java/jetmock/service/GroupService.java:54-60 | after a status update the group reads back with its id and name and the request's flag, a null flag stored and answered as null |
| GroupService.Service.FindById | src/main/java/jetmock/service/GroupService.java:62-65 | an unknown id is 404 `GROUP_NOT_FOUND`; otherwise the group's response without a count |
| GroupService.Service.DeleteGroup | src/main/java/jetmock/service/GroupService.java:67-74 | an unknown id is 404 `GROUP_NOT_FOUND` and nothing is deleted; otherwise the group is deleted under its own id |
| CollectionService.FiledStep | src/main/java/jetmock/service/CollectionService.java:48-58 | filing one more node appends it to the roots, to its parent's children, or nowhere |
| CollectionService.NodeMapMeaning | src/main/java/jetmock/service/CollectionService.java:37-44 | the id index succeeds exactly when the ids are distinct and then maps each id to its node |
| CollectionService.RootIdsMeaning | src/main/java/jetmock/service/CollectionService.java:48-51 | an id is a root exactly when some node with a null or empty parent has it |
| CollectionService.ChildIdsMeaning | src/main/java/jetmock/service/CollectionService.java:52-56 | an id is filed under a parent exactly when some node with that stored parent has it |
| CollectionService.RootsListedOnce | src/main/java/jetmock/service/CollectionService.java:46-51 | with distinct ids no root is listed twice |
| CollectionService.ChildrenListedOnce | src/main/java/jetmock/service/CollectionService.java:52-56 | with distinct ids no child is filed twice under one parent |
| CollectionService.NodePlacement | src/main/java/jetmock/service/CollectionService.java:48-58 | a root is listed among the roots and under no parent; any other node is filed only under its own parent, or nowhere when that parent is not stored |
| CollectionService.OrphanAppearsNowhere | src/main/java/jetmock/service/CollectionService.java:53-56 | a node whose parent is not stored is neither a root nor a child |
| CollectionService.Service.constructor | src/main/java/jetmock/service/CollectionService.java:21 | the service holds the given repository and id source |
| CollectionService.Service.CreateNode | src/main/java/jetmock/service/CollectionService.java:25-32 | a node with a fresh id and the request's name, type and parent is saved |
| CollectionService.Service.GetFullTree | src/main/java/jetmock/service/CollectionService.java:34-60 | an unreadable list or a duplicate id throws; otherwise every node is indexed, the roots listed and each other node filed under its parent, in list order |
| CollectionService.Service.DeleteNode | src/main/java/jetmock/service/CollectionService.java:62-64 | the node's key is removed whether or not it was stored |
| CollectionService.Service.UpdateNode | src/main/java/jetmock/service/CollectionService.java:66-78 | an unknown id is 404 `NODE_NOT_FOUND` and nothing is saved; otherwise the node is saved with only its name replaced |
| Records.FirstAttributeIndex | src/main/java/jetmock/service/ElementService.java:155-157 | the position of the first attribute with the name; none exactly when no attribute has it |
| Records.AttrText | src/main/java/jetmock/storage/MockFlowStorage.java:200-206 | null exactly when no attribute has the name; NullPointerException from findFirst exactly when the first such attribute holds null; otherwise that value's text |
| Records.FirstElementIndex | src/main/java/jetmock/repository/MockFlowRepository.java:114-118 | the position of the first step with the name; none exactly when no step has it |
| Records.InsertByOrderSorted | src/main/java/jetmock/service/MockService.java:203 | inserting a step into a sorted run keeps it sorted |
| Records.SortByOrder | src/main/java/jetmock/service/MockService.java:203 | the steps sorted by order number, as a permutation of the input |
| Records.SortByOrderStable | src/main/java/jetmock/service/MockService.java:203 | the sort is stable: the steps sharing an order number keep their relative order |
| Records.SortSortedIsIdentity | src/main/java/jetmock/service/AsyncFlowExecutor.java:32 | sorting steps that are already in order changes nothing |
| ElementService.DeclaredType | src/main/java/jetmock/service/ElementService.java:81-87 | no field exactly when the class declares no field of that name; otherwise the declared field's type |
| ElementService.Defaults | src/main/java/jetmock/service/ElementService.java:45 | a new payload holds every declared field, each null |
| ElementService.ConvertValue | src/main/java/jetmock/service/ElementService.java:64-79 | null stays null; an Integer field fails with NumberFormatException exactly on text that is no integer; a Boolean field is true exactly on "true" in any case; a String field takes the text |
| ElementService.ConvertKeepsTyped | src/main/java/jetmock/service/ElementService.java:64-79 | a value that already has the field's type converts to itself |
| ElementService.MappedFields | src/main/java/jetmock/service/ElementService.java:43-62 | the mapped payload has exactly the declared fields; every failure is rethrown as RuntimeException |
| ElementService.MappedFieldsMeaning | src/main/java/jetmock/service/ElementService.java:47-56 | each declared field holds the converted value of the last attribute with its name, or null when none names it; an undeclared name is no field |
| ElementService.MappedFieldsFails | src/main/java/jetmock/service/ElementService.java:47-61 | the mapping throws exactly when some attribute naming a declared field holds a value its type rejects |
| ElementService.MappedFailureSticks | src/main/java/jetmock/service/ElementService.java:47-61 | once the attributes so far fail, the whole mapping fails |
| ElementService.Mapped | src/main/java/jetmock/service/ElementService.java:43-62 | a payload object of the class holding the mapped fields, exactly when the mapping succeeds |
| ElementService.Service.MapAttributes | src/main/java/jetmock/service/ElementService.java:43-62 | the loop over the attributes computes `Mapped` |
| ElementService.AttributeValue | src/main/java/jetmock/service/ElementService.java:154-159 | null when no attribute has the name or its value is null; the text when the value is a string; ClassCastException for any other value |
| ElementService.ElementIndex | src/main/java/jetmock/service/ElementService.java:89-96 | the first position of a step of that type; -1 exactly when there is none |
| ElementService.Service.FindIndex | src/main/java/jetmock/service/ElementService.java:89-96 | the loop returns `ElementIndex` |
| ElementService.Resolved | src/main/java/jetmock/service/ElementService.java:102-103 | a null body stays null and draws no UUID; a body is rendered by the placeholder scan |
| ElementService.Send | src/main/java/jetmock/service/ElementService.java:98-122 | the callback sleeps its latency first; a failure leaves the context as it was; a success writes only the step's own order number; neither touches the global variables |
| ElementService.CallbackNeedsLatency | src/main/java/jetmock/service/CallbackService.java:24-27 | a callback whose latency is null throws NullPointer, a negative one IllegalArgument, and neither stores anything |
| ElementService.SendStoresResolvedBody | src/main/java/jetmock/service/ElementService.java:102-108 | the stored payload is of the step's class and holds the resolved body and every other mapped field as mapped |
| ElementService.Service.ExecuteSend | src/main/java/jetmock/service/ElementService.java:98-122 | the method's new context and UUID counter are those of `Send` |
| ElementService.Children | src/main/java/jetmock/service/ElementService.java:132 | iterating a JSON node yields an array's items, an object's values, and nothing otherwise |
| ElementService.NodeVariable | src/main/java/jetmock/service/ElementService.java:134-146 | a node is skipped exactly when its key is missing or null; the variable's key is the key's text and its value the value's text, or null |
| ElementService.NodeVariables | src/main/java/jetmock/service/ElementService.java:132-148 | at most one variable per node, each with a key |
| ElementService.Service.UpsertNodes | src/main/java/jetmock/service/ElementService.java:132-148 | the loop's store and outcome are those of upserting the nodes' variables in order |
| ElementService.UpsertFailureSticks | src/main/java/jetmock/service/ElementService.java:132-148 | an upsert that throws ends the loop: later nodes change nothing |
| ElementService.UpsertAllLastWins | src/main/java/jetmock/service/ElementService.java:132-148 | after the loop the variable with a key is the last node's with that key, or the stored one when no node has it |
| ElementService.SetVariables | src/main/java/jetmock/service/ElementService.java:124-152 | a failure leaves the context as it was; a success writes only the step's own order number |
| ElementService.Service.ExecuteGlobalVariable | src/main/java/jetmock/service/ElementService.java:124-152 | the method's context, counter and store are those of `SetVariables` |
| ElementService.Act | src/main/java/jetmock/service/ElementService.java:33-41 | an unknown type changes nothing; a failure leaves the context; a success writes only the step's order number; only GLOBAL_VARIABLE touches the global variables |
| ElementService.ActTouchesOwnOrder | src/main/java/jetmock/service/ElementService.java:108 | a step never changes the context entry of another order number |
| ElementService.Service.ExecuteElementAction | src/main/java/jetmock/service/ElementService.java:33-41 | the method's context, counter and store are those of `Act` |
| ElementService.Service.RunSteps | src/main/java/jetmock/service/AsyncFlowExecutor.java:35-37 | the loop over positions from..to computes `Run` over that slice, stopping at the first exception |
| ElementService.RunErrSticks | src/main/java/jetmock/service/MockService.java:208-210 | once a step has thrown, the remaining steps do nothing |
| ElementService.RunConcatenate | src/main/java/jetmock/service/MockService.java:208-210 | running two runs of steps one after the other is running their concatenation |
| ElementService.InertStepsChangeNothing | src/main/java/jetmock/service/ElementService.java:39 | a run of steps of unknown types changes nothing |
| AsyncFlowExecutor.AfterTriggerIs | src/main/java/jetmock/service/AsyncFlowExecutor.java:32-37 | the steps run after the trigger are the sorted steps past its first position |
| ElementService.RunExtends | src/main/java/jetmock/service/AsyncFlowExecutor.java:35-37 | the run over one more step is that step applied to the run so far |
| ElementService.RunStopsAt | src/main/java/jetmock/service/AsyncFlowExecutor.java:35-37 | a run that throws on a prefix of the steps throws the same on all of them |
| ElementService.MappedLast | src/main/java/jetmock/service/ElementService.java:47-61 | the last attribute makes the mapping throw exactly when its value is rejected, once the earlier ones did not |
| ElementService.Service.ResolveField | src/main/java/jetmock/service/ElementService.java:102-103 | the field's text rendered by `resolvePlaceholders`, null staying null |
| DebugRocksService.ReadValue | src/main/java/jetmock/service/DebugRocksService.java:103-111 | a value renders as a JSON tree exactly when it parses, otherwise as the binary text node |
| DebugRocksService.BinaryLabelReadsBack | src/main/java/jetmock/service/DebugRocksService.java:107-109 | the fallback text is `[BINARY] size=` followed by digits that read back as the byte count |
| DebugRocksService.FirstFailure | src/main/java/jetmock/service/DebugRocksService.java:80-87 | the position of the first key whose delete throws, every earlier delete succeeding; the length when none throws |
| DebugRocksService.Service.constructor | src/main/java/jetmock/service/DebugRocksService.java:19 | the service holds the given database |
| DebugRocksService.Service.DumpAll | src/main/java/jetmock/service/DebugRocksService.java:22-36 | every key in iteration order with its rendered value |
| DebugRocksService.Service.DumpByPrefix | src/main/java/jetmock/service/DebugRocksService.java:38-57 | the run of keys with the prefix, from the seek position, each with its rendered value |
| DebugRocksService.Service.GetByKey | src/main/java/jetmock/service/DebugRocksService.java:91-101 | null for an absent key, otherwise the rendered value |
| DebugRocksService.Service.DeleteByPrefix | src/main/java/jetmock/service/DebugRocksService.java:59-89 | the keys before the first failing delete are removed; with no failure the report gives the prefix and equal scanned and deleted counts, with one it is an IllegalState |
| DebugRocksService.Service.DeleteEach | src/main/java/jetmock/service/DebugRocksService.java:79-87 | deletes keys in order up to the first failing one and counts them |
| DebugRocksService.DumpRun | src/main/java/jetmock/service/DebugRocksService.java:43-55 | collects the keys from the seek position while they carry the prefix, with their values |
| DebugRocksService.CollectRun | src/main/java/jetmock/service/DebugRocksService.java:65-77 | collects the keys from the seek position while they carry the prefix |
| DebugRocksService.DumpAllListsStore | src/main/java/jetmock/service/DebugRocksService.java:22-36 | `dumpAll` lists each stored key once, strictly ascending, with its rendered value |
| DebugRocksService.DumpByPrefixListsPrefixed | src/main/java/jetmock/service/DebugRocksService.java:38-57 | `dumpByPrefix` lists exactly the stored keys having the prefix, strictly ascending |
| DebugRocksService.DumpedListsKeys | src/main/java/jetmock/service/DebugRocksService.java:28-33 | dumping a sorted list of distinct stored keys lists exactly those keys in that order |
| DebugRocksService.DeleteByPrefixClears | src/main/java/jetmock/service/DebugRocksService.java:59-89 | with no failing delete, no key with the prefix is left and every other key is untouched |
| DebugRocksService.DeleteByPrefixPartial | src/main/java/jetmock/service/DebugRocksService.java:80-87 | a failing delete leaves the earlier keys deleted and the failing key in place: the operation is not atomic |
| DslObject.GetField | src/main/java/jetmock/service/DslObject.java:20-36 | null for null, the map's entry for a map, the named field for an object, null otherwise |
| DslObject.GetMissingIsNull | src/main/java/jetmock/service/DslObject.java:20-36 | a field the value does not hold reads as null |
| DslObject.GetAfterPut | src/main/java/jetmock/service/DslObject.java:25-27 | after `put`, reading that key gives the value put and other keys are unchanged |
| DslObject.JsonOf | src/main/java/jetmock/service/DslObject.java:38-52 | an empty map for null, the map itself for a map, otherwise the parsed object; the JSON text `null` gives null, any other non-object text a RuntimeException |
| DslObject.JsonIdempotent | src/main/java/jetmock/service/DslObject.java:38-52 | `json()` again of a map `json()` gave is the same map |
| DslObject.JsonOfNullText | src/main/java/jetmock/service/DslObject.java:38-52 | text holding JSON `null` gives null, and `json()` of that is the empty map |
| DslObject.StrOf | src/main/java/jetmock/service/DslObject.java:54-56 | the empty string for null, otherwise the value's text |
| DslObject.DefaultIfNull | src/main/java/jetmock/service/DslObject.java:101-103 | the default exactly when the value is null or its text equals the default; otherwise the value's text |
| DslObject.StrIsDefaultEmpty | src/main/java/jetmock/service/DslObject.java:54-56 | proof helper, unfolding one definition: `str()` equals `defaultIfNull("")` |
| DslObject.BoolOf | src/main/java/jetmock/service/DslObject.java:58-75 | false for null, a Boolean itself, otherwise whether the trimmed text is `true`, `yes`, `on` in any case or `1` |
| DslObject.TruthyNotBlank | src/main/java/jetmock/service/DslObject.java:66-74 | no blank text is a truthy word, so the blank check never changes the answer |
| DslObject.BoolIgnoresPadding | src/main/java/jetmock/service/DslObject.java:66 | padding around a word does not change `bool()` |
| DslObject.NumText | src/main/java/jetmock/service/DslObject.java:77-91 | zero for null and for text blank after trimming; a number's own text; otherwise the trimmed text with commas turned into points |
| CreateMockService.BaseFlow | src/main/java/jetmock/service/CreateMockService.java:35-40 | the stored flow, or a new empty one under the mock id whose group id is the request's parsed as a UUID; a null group id is a NullPointer and a malformed one an IllegalArgument, only for a new flow |
| CreateMockService.NewFlowKeepsCanonicalGroup | src/main/java/jetmock/service/CreateMockService.java:36-40 | a new flow under a canonical group id belongs to that group in lower case |
| CreateMockService.CreateKeepsListeners | src/main/java/jetmock/service/CreateMockService.java:32-51 | upserting keeps every running listener: the registry only gains the saved flow's listener, and the flow reads back under its id |
| CreateMockService.Service.constructor | src/main/java/jetmock/service/CreateMockService.java:28-30 | the service holds the given repository and lifecycle service |
| CreateMockService.Service.Upsert | src/main/java/jetmock/service/CreateMockService.java:32-51 | a request that fails validation reads, stores and starts nothing; a valid one reads, converts, saves and starts as `Created` says |
| CreateMockService.Service.Apply | src/main/java/jetmock/service/CreateMockService.java:35-48 | the base flow gets the converted steps, is saved and its listener started; a failed read or conversion stores nothing |
| CreateMockService.Service.SaveAndStart | src/main/java/jetmock/service/CreateMockService.java:47-48 | the flow is saved and then its listener started; a failed save starts nothing |
| ElementSchema.ValueOf | src/main/java/jetmock/contant/ElementSchema.java:9-39 | the constant with exactly that name, otherwise an IllegalArgument when no constant has it |
| ElementSchema.Fields | src/main/java/jetmock/contant/ElementSchema.java:11-36 | the field names of a schema, one per rule |
| ElementSchema.RuleOf | src/main/java/jetmock/contant/ElementSchema.java:37 | no rule exactly for fields the schema lacks, else the field's rule |
| ElementSchema.FirstRule | src/main/java/jetmock/contant/ElementSchema.java:37 | no rule exactly when no entry has the field, else that entry's rule |
| ElementSchema.SevenKinds | src/main/java/jetmock/contant/ElementSchema.java:9-36 | there are seven distinct constants and `valueOf(name())` gives each back |
| ElementSchema.ValueOfName | src/main/java/jetmock/contant/ElementSchema.java:9-36 | a name `valueOf` accepts is the name of the constant it returns |
| ElementSchema.FieldsDistinct | src/main/java/jetmock/contant/ElementSchema.java:11-36 | no schema lists a field twice |
| ElementSchema.RuleFlagsFollowType | src/main/java/jetmock/contant/ElementSchema.java:11-36 | every INTEGER rule is notNull only and every STRING or TEXT rule notBlank only |
| ElementSchema.FieldSets | src/main/java/jetmock/contant/ElementSchema.java:11-36 | the field list of each of the seven kinds |
| ElementSchema.TypesByField | src/main/java/jetmock/contant/ElementSchema.java:11-36 | STRING for names and expressions, INTEGER for status and latency, TEXT for header, body, param and variable |
| FlowStepMapping.DetailSteps | src/main/java/jetmock/service/MockFlowService.java:101-110 | one step map per element, in order-number order |
| FlowStepMapping.LookupSnoc | src/main/java/jetmock/service/MockFlowService.java:104-108 | reading an appended map: a key already present keeps its value, the new key gives the new value |
| FlowStepMapping.KeysSnoc | src/main/java/jetmock/service/MockFlowService.java:104-108 | appending a new key adds it last to the keys |
| FlowStepMapping.PutAttributesRecoversStep | src/main/java/jetmock/service/MockFlowService.java:70-85 | putting a step's attributes on a map gives the step's value under every non-header key and leaves other keys alone |
| FlowStepMapping.ElementParts | src/main/java/jetmock/service/MockFlowService.java:61-93 | a converted element has the drawn id, the step's element name, the parsed order number and the step's attributes |
| FlowStepMapping.StepRoundTrip | src/main/java/jetmock/service/MockFlowService.java:61-110 | a converted step comes back from `getByMockId` with the same keys and values, the order number as an Integer |
| FlowStepMapping.OrderNumberKept | src/main/java/jetmock/service/MockFlowService.java:106 | an Integer order number converts to itself |
| FlowStepMapping.ConversionMeaning | src/main/java/jetmock/service/MockFlowService.java:46-48 | the conversion succeeds exactly when every step converts, keeps the steps' order, and draws one id per step |
| FlowStepMapping.DetailStepsMatchRequest | src/main/java/jetmock/service/MockFlowService.java:95-113 | every step `getByMockId` lists has the keys and values of one request step, the order number as its parsed number |
| FlowStepMapping.StepAttributes | src/main/java/jetmock/service/MockFlowService.java:68-85 | the attribute loop gives the attribute list or the first error |
| FlowStepMapping.ErrorStays | src/main/java/jetmock/service/MockFlowService.java:70-85 | once a prefix of the keys fails the whole loop fails the same way |
| FlowStepMapping.ToFlowElement | src/main/java/jetmock/service/MockFlowService.java:61-93 | the element that the step converts to; an id is drawn only when it converts |
| FlowStepMapping.ConvertSteps | src/main/java/jetmock/service/MockFlowService.java:46-48 | the steps in order, one drawn id each, or the first step's error |
| FlowStepMapping.ConversionErrorStays | src/main/java/jetmock/service/MockFlowService.java:46-48 | once a prefix of the steps fails the whole conversion fails the same way and draws no more ids |
| KafkaListenerLifecycleService.TriggerMeaning | src/main/java/jetmock/service/KafkaListenerLifecycleService.java:55-69 | no trigger exactly when the flow has no KAFKA_TRIGGER step; otherwise the first such step's broker id (parsed as a UUID), url of the stored broker and topic, or the error of the failing read |
| KafkaListenerLifecycleService.CollectedAreKeysOfElements | src/main/java/jetmock/service/KafkaListenerLifecycleService.java:29-38 | the listener keys collected from a listing of flows are the keys of its elements, in any order |
| KafkaListenerLifecycleService.StartedKeysStep | src/main/java/jetmock/service/KafkaListenerLifecycleService.java:29-38 | one more flow adds only its own listener key, when its trigger resolves |
| KafkaListenerLifecycleService.StartedKeysIgnoreOrder | src/main/java/jetmock/service/KafkaListenerLifecycleService.java:29-38 | two listings of the same flows start the same listeners |
| KafkaListenerLifecycleService.ExtendsTransitive | src/main/java/jetmock/service/KafkaListenerLifecycleService.java:29-38 | a registry that keeps every listener of one that keeps every listener of a third keeps those too |
| KafkaListenerLifecycleService.Service.constructor | src/main/java/jetmock/service/KafkaListenerLifecycleService.java:23-25 | the service holds the given manager and broker storage |
| KafkaListenerLifecycleService.Service.ExtractTrigger | src/main/java/jetmock/service/KafkaListenerLifecycleService.java:55-69 | the trigger `TriggerWith` finds over the broker storage, or its error |
| KafkaListenerLifecycleService.Service.StartIfExists | src/main/java/jetmock/service/KafkaListenerLifecycleService.java:29-38 | no trigger or a failing one registers nothing; otherwise the listener for the trigger's url, topic and group runs afterwards and only a new key is registered |
| KafkaListenerLifecycleService.Service.StopIfExists | src/main/java/jetmock/service/KafkaListenerLifecycleService.java:40-48 | no trigger or a failing one stops nothing; otherwise the listener for the trigger's key is stopped and unregistered, if there was one |
| KafkaListenerLifecycleService.Service.Restart | src/main/java/jetmock/service/KafkaListenerLifecycleService.java:50-53 | stop then start: a flow with a trigger ends with a freshly started listener under its key |
| KafkaListenerLifecycleService.Service.GetAllActive | src/main/java/jetmock/service/KafkaListenerLifecycleService.java:74-76 | the manager's listing |
| RepositoryKafkaListenerLifecycleService.RepositoryTriggerErrors | src/main/java/jetmock/service/kafka/KafkaListenerLifecycleService.java:57-71 | over the repository a trigger fails only by a cast, a missing broker attribute, the UUID parse or a missing broker |
| RepositoryKafkaListenerLifecycleService.Service.constructor | src/main/java/jetmock/service/kafka/KafkaListenerLifecycleService.java:25-27 | the service holds the given manager and broker repository |
| RepositoryKafkaListenerLifecycleService.Service.ExtractTrigger | src/main/java/jetmock/service/kafka/KafkaListenerLifecycleService.java:57-71 | the trigger found over the broker repository, or its error |
| RepositoryKafkaListenerLifecycleService.Service.StartIfExists | src/main/java/jetmock/service/kafka/KafkaListenerLifecycleService.java:31-40 | no trigger or a failing one registers nothing; otherwise the trigger's listener runs afterwards and only a new key is registered |
| RepositoryKafkaListenerLifecycleService.Service.StopIfExists | src/main/java/jetmock/service/kafka/KafkaListenerLifecycleService.java:42-50 | no trigger or a failing one stops nothing; otherwise the trigger's listener is stopped and unregistered, if there was one |
| RepositoryKafkaListenerLifecycleService.Service.Restart | src/main/java/jetmock/service/kafka/KafkaListenerLifecycleService.java:52-55 | stop then start: a flow with a trigger ends with a freshly started listener under its key |
| RepositoryKafkaListenerLifecycleService.Service.GetAllActive | src/main/java/jetmock/service/kafka/KafkaListenerLifecycleService.java:76-78 | the manager's listing |
| RuntimeKafkaListenerManager.ListenerProps | src/main/java/jetmock/service/RuntimeKafkaListenerManager.java:73-82 | bootstrap servers and group as given, String deserializers, latest offset, auto-commit on |
| RuntimeKafkaListenerManager.SplitLimit | src/main/java/jetmock/service/RuntimeKafkaListenerManager.java:94 | at most limit - 1 splits, the last part holding the rest, empty parts kept |
| RuntimeKafkaListenerManager.Listed | src/main/java/jetmock/service/RuntimeKafkaListenerManager.java:89-101 | a key's listing entry is its first three `\|`-separated parts |
| RuntimeKafkaListenerManager.Container.constructor | src/main/java/jetmock/service/RuntimeKafkaListenerManager.java:37-54 | the container is built for the url, group and topic, named `runtime-kafka-` plus the key, and running |
| RuntimeKafkaListenerManager.Container.Stop | src/main/java/jetmock/service/RuntimeKafkaListenerManager.java:69 | the container no longer runs |
| RuntimeKafkaListenerManager.Container.Deliver | src/main/java/jetmock/service/RuntimeKafkaListenerManager.java:41-48 | a record is handed on with the broker id the container was started with and the record's topic and value |
| RuntimeKafkaListenerManager.Manager.constructor | src/main/java/jetmock/service/RuntimeKafkaListenerManager.java:28-29 | the registry starts empty |
| RuntimeKafkaListenerManager.Manager.Start | src/main/java/jetmock/service/RuntimeKafkaListenerManager.java:31-58 | a registered key changes nothing whatever the broker id; otherwise one new running container for the topic, url and group is registered under the key |
| RuntimeKafkaListenerManager.Manager.Stop | src/main/java/jetmock/service/RuntimeKafkaListenerManager.java:60-71 | the key's container is removed and stopped; an absent key changes nothing |
| RuntimeKafkaListenerManager.Manager.Remove | src/main/java/jetmock/service/RuntimeKafkaListenerManager.java:62 | the removed container, or null when the key is absent |
| RuntimeKafkaListenerManager.Manager.GetActiveListeners | src/main/java/jetmock/service/RuntimeKafkaListenerManager.java:88-104 | one entry per registered key, its parts joining back to the key, with its container's running flag |
| RuntimeKafkaListenerManager.ListEntries | src/main/java/jetmock/service/RuntimeKafkaListenerManager.java:90-102 | each key's split with its container's running flag |
| RuntimeKafkaListenerManager.ListingCoversKeys | src/main/java/jetmock/service/RuntimeKafkaListenerManager.java:88-104 | the listing has an entry for every key, and every entry joins back to a key |
| RuntimeKafkaListenerManager.SplitThenJoin | src/main/java/jetmock/service/RuntimeKafkaListenerManager.java:94 | joining a split's parts with the delimiter gives the string back |
| RuntimeKafkaListenerManager.ListedJoinsBack | src/main/java/jetmock/service/RuntimeKafkaListenerManager.java:84-94 | splitting a key and joining the parts gives the key |
| RuntimeKafkaListenerManager.SplitsInTwo | src/main/java/jetmock/service/RuntimeKafkaListenerManager.java:94 | a string holding the delimiter splits in two under limit 2 |
| RuntimeKafkaListenerManager.KeyFirstSeparator | src/main/java/jetmock/service/RuntimeKafkaListenerManager.java:84-86 | the first `\|` of a key is at most at the end of its url |
| RuntimeKafkaListenerManager.KeySplits | src/main/java/jetmock/service/RuntimeKafkaListenerManager.java:84-94 | a key always splits into three parts |
| RuntimeKafkaListenerManager.SplitAtFirst | src/main/java/jetmock/service/RuntimeKafkaListenerManager.java:94 | a string without the delimiter, followed by it, splits off as the first part |
| RuntimeKafkaListenerManager.SplitsIntoParts | src/main/java/jetmock/service/RuntimeKafkaListenerManager.java:84-94 | three parts joined with `\|` split back into them when the first two have no `\|` |
| RuntimeKafkaListenerManager.KeySplitRecoversParts | src/main/java/jetmock/service/RuntimeKafkaListenerManager.java:84-99 | splitting a key recovers url, topic and group exactly when neither url nor topic contains `\|` |
| RuntimeKafkaListenerManager.ListedKeyNamesItsParts | src/main/java/jetmock/service/RuntimeKafkaListenerManager.java:84-99 | whatever the broker id, a key's entry names its url, topic and group when they have no `\|` |
| RuntimeKafkaListenerManager.StartThenStopRestores | src/main/java/jetmock/service/RuntimeKafkaListenerManager.java:31-71 | starting a fresh key and stopping it leaves the registry as it was |
| KafkaSelection.KafkaHeader | src/main/java/jetmock/service/KafkaTriggerService.java:57-59 | the header holds exactly the topic and the broker id, null when absent |
| KafkaSelection.KafkaPayload | src/main/java/jetmock/service/KafkaTriggerService.java:55-65 | the message read as a map, whose failure escapes, as the body; the topic and broker id header; no path |
| KafkaSelection.CandidateOf | src/main/java/jetmock/service/KafkaTriggerService.java:126-142 | the flow's id and the expression of its first CONDITION step; a flow without one is an IllegalState |
| KafkaSelection.Candidates | src/main/java/jetmock/service/KafkaTriggerService.java:96-98 | one candidate per flow in visiting order, or the error of the first flow without one |
| KafkaSelection.CandidatesFailAtFirst | src/main/java/jetmock/service/KafkaTriggerService.java:96-98 | the error that escapes is that of the first flow in visiting order without a candidate |
| KafkaSelection.KafkaEligible | src/main/java/jetmock/service/KafkaTriggerService.java:144-170 | a null or blank condition is eligible; one the blacklist expression matches as written (a `;` or a backslash and no line terminator) is not; any other, `1\n;2` included, is eligible exactly when it evaluates to true |
| KafkaSelection.KafkaAndHttpDifferOnBlank | src/main/java/jetmock/service/KafkaTriggerService.java:144-150 | the Kafka and HTTP eligibility disagree exactly on null or blank conditions |
| KafkaSelection.NewlineConditionIsEvaluated | src/main/java/jetmock/service/KafkaTriggerService.java:150-174 | the condition `1\n;2` passes the blacklist of both triggers and is eligible exactly when it evaluates to true |
| KafkaSelection.Reflexive | src/main/java/jetmock/service/KafkaTriggerService.java:104 | a total order relates every id to itself |
| KafkaSelection.StringOrderIsTotal | src/main/java/jetmock/service/kafka/KafkaTriggerService.java:106 | `String.compareTo` order is total |
| KafkaSelection.InsertById | src/main/java/jetmock/service/KafkaTriggerService.java:104 | inserting before the first candidate whose id is not below keeps the list sorted and equal ids in order |
| KafkaSelection.SortById | src/main/java/jetmock/service/KafkaTriggerService.java:104 | a stable sort of the candidates by id |
| KafkaSelection.InsertByIdSorted | src/main/java/jetmock/service/KafkaTriggerService.java:104 | inserting into a sorted list keeps it sorted |
| KafkaSelection.SortByIdSorted | src/main/java/jetmock/service/KafkaTriggerService.java:104 | the sort leaves the candidates ascending by id |
| KafkaSelection.FirstEligible | src/main/java/jetmock/service/KafkaTriggerService.java:106-117 | the index of the first eligible candidate, every earlier one ineligible; the length when none is |
| KafkaSelection.SortedCandidates | src/main/java/jetmock/service/KafkaTriggerService.java:100-104 | a single candidate is left as it is; two or more are sorted |
| KafkaSelection.Chosen | src/main/java/jetmock/service/KafkaTriggerService.java:100-123 | no candidate is 404 `MOCK_NOT_FOUND`; two or more with a null id throw NullPointer; otherwise the first eligible in sorted order, or 404 |
| KafkaSelection.SameElements | src/main/java/jetmock/service/KafkaTriggerService.java:104 | sorting keeps the same candidates |
| KafkaSelection.ChosenIsLeastEligible | src/main/java/jetmock/service/KafkaTriggerService.java:100-123 | the chosen candidate is eligible and has the least id of all eligible candidates, whatever the listing order |
| KafkaSelection.ChosenNotFoundIffNoneEligible | src/main/java/jetmock/service/KafkaTriggerService.java:100-123 | the choice is 404 exactly when no candidate is eligible |
| KafkaSelection.SelectionIgnoresListingOrder | src/main/java/jetmock/service/KafkaTriggerService.java:94-123 | with distinct ids every visiting order of the same candidates makes the same choice |
| KafkaSelection.SameIdsPresent | src/main/java/jetmock/service/KafkaTriggerService.java:104 | reordering keeps whether every candidate has an id |
| KafkaSelection.SameEligibility | src/main/java/jetmock/service/KafkaTriggerService.java:106-123 | reordering keeps whether the choice finds nothing |
| KafkaSelection.LeastEligibleIsUnique | src/main/java/jetmock/service/KafkaTriggerService.java:104-117 | with distinct ids the least eligible candidate is unique |
| KafkaSelection.TriggerOrder | src/main/java/jetmock/service/KafkaTriggerService.java:67-79 | the order number of the flow's first KAFKA_TRIGGER step; IllegalState when there is none |
| KafkaSelection.ElementsAtMost | src/main/java/jetmock/service/KafkaTriggerService.java:94-98 | a listing has at most as many distinct elements as positions |
| KafkaSelection.RepeatShrinks | src/main/java/jetmock/service/KafkaTriggerService.java:94-98 | a listing with a repeat has fewer distinct elements than positions |
| KafkaSelection.ListingIsDistinct | src/main/java/jetmock/service/KafkaTriggerService.java:94-98 | a listing of a set visits no flow twice |
| KafkaSelection.DistinctMultiset | src/main/java/jetmock/service/KafkaTriggerService.java:94-98 | a listing without repeats counts each flow once |
| KafkaSelection.CandidatesIgnoreListingOrder | src/main/java/jetmock/service/KafkaTriggerService.java:94-98 | two listings of the same flows with distinct ids both fail or give the same candidates in another order |
| KafkaSelection.CandidatesOfListingOk | src/main/java/jetmock/service/KafkaTriggerService.java:94-98 | a listing gives candidates exactly when every flow of the set has one |
| KafkaSelection.SameMembers | src/main/java/jetmock/service/KafkaTriggerService.java:94-98 | two candidate lists built from the same set hold the same candidates |
| KafkaSelection.CandidatesOfListing | src/main/java/jetmock/service/KafkaTriggerService.java:94-98 | a listing's candidates have no repeats and are exactly the set's candidates |
| KafkaSelection.ChosenFlowIsLeastEligible | src/main/java/jetmock/service/KafkaTriggerService.java:91-124 | the chosen candidate comes from an eligible listed flow with the least id among eligible listed flows |
| KafkaSelection.ListedCandidate | src/main/java/jetmock/service/KafkaTriggerService.java:96-98 | every listed flow has its candidate among the candidates |
| DynamicKafkaTemplateFactory.TemplateProps | src/main/java/jetmock/service/DynamicKafkaTemplateFactory.java:22-31 | the key as bootstrap servers, String serializers, acks all, idempotence on, `Integer.MAX_VALUE` retries, five requests in flight |
| DynamicKafkaTemplateFactory.TemplateKey | src/main/java/jetmock/service/DynamicKafkaTemplateFactory.java:17-21 | as written: a null or blank string is an IllegalArgument, any other is trimmed |
| DynamicKafkaTemplateFactory.CheckedTemplateKey | src/main/java/jetmock/service/DynamicKafkaTemplateFactory.java:17-21 | corrected: a string that trims to nothing is refused too; otherwise the same key as written |
| DynamicKafkaTemplateFactory.KafkaTemplate.constructor | src/main/java/jetmock/service/DynamicKafkaTemplateFactory.java:33-34 | the template holds the given configuration |
| DynamicKafkaTemplateFactory.Factory.constructor | src/main/java/jetmock/service/DynamicKafkaTemplateFactory.java:14 | the cache starts empty |
| DynamicKafkaTemplateFactory.Factory.GetTemplate | src/main/java/jetmock/service/DynamicKafkaTemplateFactory.java:16-36 | a null or blank string caches nothing; any other is trimmed, so a string of control characters such as NUL is cached under the empty key, and the template cached under that key is returned, built from `TemplateProps` only when the key is new |
| DynamicKafkaTemplateFactory.LeadingPaddingSharesKey | src/main/java/jetmock/service/DynamicKafkaTemplateFactory.java:21 | padding that `trim` removes does not change the cache key |
| DynamicKafkaTemplateFactory.ControlCharacterPassesGuard | src/main/java/jetmock/service/DynamicKafkaTemplateFactory.java:17-21 | as written, a single NUL passes the blank check and is cached under the empty key; the corrected key refuses it |
| KafkaTriggerService.IndexedFlows | src/main/java/jetmock/service/KafkaTriggerService.java:94 | the flows indexed under the broker id and topic, a null part reading `null` |
| KafkaTriggerService.Prepared | src/main/java/jetmock/service/KafkaTriggerService.java:42-46 | the payload, the candidates, the choice and the flow read again, in the stream's visiting order |
| KafkaTriggerService.Reloaded | src/main/java/jetmock/service/KafkaTriggerService.java:81-89 | the chosen flow read again by its id; 404 `MOCK_NOT_FOUND` when it is gone |
| KafkaTriggerService.PreparedChoosesLeastEligible | src/main/java/jetmock/service/KafkaTriggerService.java:91-124 | the flow that answers is the eligible indexed flow with the least id in UUID order |
| KafkaTriggerService.NoEligibleFlowIsNotFound | src/main/java/jetmock/service/KafkaTriggerService.java:100-123 | with a candidate for every flow but none eligible the message is 404 `MOCK_NOT_FOUND` |
| KafkaTriggerService.PreparedIgnoresListingOrder | src/main/java/jetmock/service/KafkaTriggerService.java:94-98 | with distinct ids every visiting order gives the same outcome |
| KafkaTriggerService.Service.constructor | src/main/java/jetmock/service/KafkaTriggerService.java:35-37 | the service holds the given collaborators, condition oracle and UUID order |
| KafkaTriggerService.Service.ProcessKafkaMessage | src/main/java/jetmock/service/KafkaTriggerService.java:42-53 | a message that finds no flow or no KAFKA_TRIGGER step fails before any step runs; otherwise the payload is put in a fresh context at the trigger's order and the later steps run |
| KafkaTriggerService.Service.Fire | src/main/java/jetmock/service/KafkaTriggerService.java:48-52 | the payload is stored at the trigger order, then the steps after the trigger run |
| KafkaTriggerService.Service.Prepare | src/main/java/jetmock/service/KafkaTriggerService.java:43-46 | the payload, then the flow, as `Prepared` says |
| KafkaTriggerService.Service.SetTriggerContext | src/main/java/jetmock/service/KafkaTriggerService.java:67-79 | the payload is put at the first KAFKA_TRIGGER step's order number, or an IllegalState |
| KafkaTriggerService.Service.FindMock | src/main/java/jetmock/service/KafkaTriggerService.java:81-89 | the chosen candidate's flow read again; 404 when it is gone |
| KafkaTriggerService.Service.FindMockFlow | src/main/java/jetmock/service/KafkaTriggerService.java:91-124 | candidates from the indexed flows, 404 for none, sorted when two or more, the first eligible, 404 when none is |
| KafkaSelection.Choose | src/main/java/jetmock/service/KafkaTriggerService.java:100-123 | the choice `Chosen` describes, shared by both service generations: 404 MOCK_NOT_FOUND with no candidates, NullPointer when two or more and one has no id, else the first eligible candidate in id order |
| KafkaSelection.FirstEligibleOf | src/main/java/jetmock/service/KafkaTriggerService.java:106-123 | the first candidate in sorted order whose condition holds, or 404 MOCK_NOT_FOUND when none does |
| RepositoryKafkaTriggerService.IndexedFlows | src/main/java/jetmock/service/kafka/KafkaTriggerService.java:96 | the stored flows of the ids indexed under the broker id and topic |
| RepositoryKafkaTriggerService.Prepared | src/main/java/jetmock/service/kafka/KafkaTriggerService.java:44-48 | the payload, the candidates, the choice and the flow read again |
| RepositoryKafkaTriggerService.Reloaded | src/main/java/jetmock/service/kafka/KafkaTriggerService.java:83-91 | the chosen flow read again by its id; 404 `MOCK_NOT_FOUND` when it is gone |
| RepositoryKafkaTriggerService.PreparedChoosesLeastEligible | src/main/java/jetmock/service/kafka/KafkaTriggerService.java:93-126 | the flow that answers is the eligible indexed flow with the least id in String order |
| RepositoryKafkaTriggerService.NoEligibleFlowIsNotFound | src/main/java/jetmock/service/kafka/KafkaTriggerService.java:102-125 | with a candidate for every flow but none eligible the message is 404 |
| RepositoryKafkaTriggerService.PreparedIgnoresListingOrder | src/main/java/jetmock/service/kafka/KafkaTriggerService.java:96-100 | with distinct ids every visiting order gives the same outcome |
| RepositoryKafkaTriggerService.Service.constructor | src/main/java/jetmock/service/kafka/KafkaTriggerService.java:37-39 | the service holds the given collaborators and condition oracle |
| RepositoryKafkaTriggerService.Service.ProcessKafkaMessage | src/main/java/jetmock/service/kafka/KafkaTriggerService.java:44-55 | a message that finds no flow or no KAFKA_TRIGGER step fails before any step runs; otherwise the payload goes in a fresh context and the later steps run |
| RepositoryKafkaTriggerService.Service.Prepare | src/main/java/jetmock/service/kafka/KafkaTriggerService.java:45-48 | the payload, then the flow |
| RepositoryKafkaTriggerService.Service.Fire | src/main/java/jetmock/service/kafka/KafkaTriggerService.java:50-54 | the payload is stored, then the steps after the trigger run |
| RepositoryKafkaTriggerService.Service.SetTriggerContext | src/main/java/jetmock/service/kafka/KafkaTriggerService.java:69-81 | the payload is put at the first KAFKA_TRIGGER step's order number, or an IllegalState |
| RepositoryKafkaTriggerService.Service.FindMock | src/main/java/jetmock/service/kafka/KafkaTriggerService.java:83-91 | the chosen candidate's flow read again; 404 when it is gone |
| RepositoryKafkaTriggerService.Service.FindMockFlow | src/main/java/jetmock/service/kafka/KafkaTriggerService.java:93-126 | candidates, 404 for none, sorted, the first eligible, 404 when none is |
| KafkaTriggerStartupRunner.Runner.constructor | src/main/java/jetmock/service/KafkaTriggerStartupRunner.java:16-17 | the runner holds the given storage and lifecycle service |
| KafkaTriggerStartupRunner.Runner.Run | src/main/java/jetmock/service/KafkaTriggerStartupRunner.java:19-41 | a failing `findAll` touches no listener; otherwise the registry gains exactly the keys of the flows whose trigger resolves and keeps every earlier listener |
| KafkaTriggerStartupRunner.Runner.StartAll | src/main/java/jetmock/service/KafkaTriggerStartupRunner.java:32-38 | the loop over the visited flows gains the keys of the resolving flows |
| KafkaTriggerStartupRunner.Runner.StartSwallowing | src/main/java/jetmock/service/KafkaTriggerStartupRunner.java:33-37 | one flow's listener is started when its trigger resolves; a failure is swallowed and changes nothing |
| RepositoryKafkaTriggerStartupRunner.MatchKeysAreKeysOfStoredFlows | src/main/java/jetmock/service/kafka/KafkaTriggerStartupRunner.java:33-40 | a key is registered exactly when some listed id names a stored flow whose trigger resolves to it |
| RepositoryKafkaTriggerStartupRunner.MatchKeysStep | src/main/java/jetmock/service/kafka/KafkaTriggerStartupRunner.java:33-40 | one more listed id adds only its own key |
| RepositoryKafkaTriggerStartupRunner.Runner.constructor | src/main/java/jetmock/service/kafka/KafkaTriggerStartupRunner.java:17-18 | the runner holds the given repository and lifecycle service |
| RepositoryKafkaTriggerStartupRunner.Runner.Run | src/main/java/jetmock/service/kafka/KafkaTriggerStartupRunner.java:20-43 | an exception from `findAllKafkaTrigger` touches no listener; otherwise the registry gains exactly the keys the listed ids lead to and keeps every earlier listener |
| RepositoryKafkaTriggerStartupRunner.Runner.StartMatched | src/main/java/jetmock/service/kafka/KafkaTriggerStartupRunner.java:34-39 | a stored flow's listener is started when its trigger resolves; a failure is swallowed |
| MockFlowRepository.FlowKey | src/main/java/jetmock/repository/MockFlowRepository.java:130-133 | a flow key starts `flow:` |
| MockFlowRepository.MethodKey | src/main/java/jetmock/repository/MockFlowRepository.java:139-141 | a method-level key starts `match:` |
| MockFlowRepository.MatchKey | src/main/java/jetmock/repository/MockFlowRepository.java:135-137 | the exact key extends the method-level key of the same group and method |
| MockFlowRepository.KafkaTriggerKey | src/main/java/jetmock/repository/MockFlowRepository.java:143-145 | a Kafka list key starts `kafka:` |
| MockFlowRepository.ElementAttr | src/main/java/jetmock/repository/MockFlowRepository.java:122-128 | the attribute of the first element of that name, null without one; a selected null value throws NullPointer |
| MockFlowRepository.ApiMatch | src/main/java/jetmock/repository/MockFlowRepository.java:97-112 | method and path of the first API_TRIGGER_REQUEST, expression of the first CONDITION, each null without one |
| MockFlowRepository.KafkaTriggerOf | src/main/java/jetmock/repository/MockFlowRepository.java:114-119 | broker and topic of the first KAFKA_TRIGGER element, if there is one |
| MockFlowRepository.FlowAt | src/main/java/jetmock/repository/MockFlowRepository.java:70-72 | the read of the flow key |
| MockFlowRepository.SaveOutcome | src/main/java/jetmock/repository/MockFlowRepository.java:27-45 | `save` fails exactly when a trigger attribute it reads holds null |
| MockFlowRepository.DeleteOutcome | src/main/java/jetmock/repository/MockFlowRepository.java:75-94 | `delete` fails, with a NullPointer, exactly when the stored flow has a trigger attribute holding null |
| MockFlowRepository.ListedFlows | src/main/java/jetmock/repository/MockFlowRepository.java:47-57 | the stored flows of the listed ids, ids without a flow dropped |
| MockFlowRepository.FlowRepository.constructor | src/main/java/jetmock/repository/MockFlowRepository.java:19 | the repository holds the given common repository |
| MockFlowRepository.FlowRepository.Save | src/main/java/jetmock/repository/MockFlowRepository.java:27-45 | writes the flow, the exact API row, the method row for a templated path and the Kafka list entry, failing as `SaveOutcome` says |
| MockFlowRepository.FlowRepository.FindByKafkaTrigger | src/main/java/jetmock/repository/MockFlowRepository.java:47-57 | the stored flows listed under the broker and topic |
| MockFlowRepository.FlowRepository.FindMatchingByMethodAndPath | src/main/java/jetmock/repository/MockFlowRepository.java:59-63 | the read of the exact key |
| MockFlowRepository.FlowRepository.FindMatchingByMethod | src/main/java/jetmock/repository/MockFlowRepository.java:65-68 | the read of the method-level key |
| MockFlowRepository.FlowRepository.FindById | src/main/java/jetmock/repository/MockFlowRepository.java:70-72 | the read of the flow key, a null id reading `flow:null` |
| MockFlowRepository.FlowRepository.Delete | src/main/java/jetmock/repository/MockFlowRepository.java:75-94 | as written: removes the flow key, `key:` deletes for the API rows and the Kafka list entry |
| MockFlowRepository.KeyFamiliesDistinct | src/main/java/jetmock/repository/MockFlowRepository.java:22-25 | projection keys never equal a flow key, and the Kafka list key equals neither |
| MockFlowRepository.SaveThenFindById | src/main/java/jetmock/repository/MockFlowRepository.java:27-72 | a saved flow reads back by its id |
| MockFlowRepository.SaveWritesApiIndex | src/main/java/jetmock/repository/MockFlowRepository.java:30-36 | a save with a trigger path leaves its projection at the exact key, and at the method key for a templated path |
| MockFlowRepository.ApiIndexedElsewhere | src/main/java/jetmock/repository/MockFlowRepository.java:30-36 | the API index writes leave every other key alone |
| MockFlowRepository.KafkaListedElsewhere | src/main/java/jetmock/repository/MockFlowRepository.java:38-42 | listing under the Kafka key leaves every other key alone |
| MockFlowRepository.SaveListsKafkaTriggerOnce | src/main/java/jetmock/repository/MockFlowRepository.java:38-42 | after a save into a list without the id, the Kafka list holds the id once, last |
| MockFlowRepository.LaterSaveWinsMethodKey | src/main/java/jetmock/repository/MockFlowRepository.java:33-35 | two templated saves for the same group and method leave the later one at the method key |
| MockFlowRepository.DeleteAbsentIsNoOp | src/main/java/jetmock/repository/MockFlowRepository.java:75-76 | deleting an id without a stored flow changes nothing |
| MockFlowRepository.DeleteKeepsExactRow | src/main/java/jetmock/repository/MockFlowRepository.java:81-84 | as written: `delete(key, "")` aims at `key:`, so the exact API row stays |
| MockFlowRepository.ApiUnindexedElsewhere | src/main/java/jetmock/repository/MockFlowRepository.java:79-86 | dropping the API rows leaves every other key alone |
| MockFlowRepository.KafkaUnlistedElsewhere | src/main/java/jetmock/repository/MockFlowRepository.java:88-92 | unlisting from the Kafka key leaves every other key alone |
| MockFlowRepository.SaveThenDeleteLeavesExactRow | src/main/java/jetmock/repository/MockFlowRepository.java:27-94 | as written: a save then a delete of the same id leaves the exact API row |
| MockFlowRepository.ListedFlowsSkipsMissing | src/main/java/jetmock/repository/MockFlowRepository.java:53-56 | listed ids without a stored flow add nothing |
| MockFlowRepository.ExactDeleteRemovesRows | src/main/java/jetmock/repository/MockFlowRepository.java:75-94 | corrected delete: neither the flow nor its exact row, nor for a templated path its method row, can be found |
| MockFlowStorage.FlowKey | src/main/java/jetmock/storage/MockFlowStorage.java:249-251 | a flow key starts `flow:` |
| MockFlowStorage.GroupFlowsKey | src/main/java/jetmock/storage/MockFlowStorage.java:253-255 | a group flow set key starts `group:` |
| MockFlowStorage.MethodKey | src/main/java/jetmock/storage/MockFlowStorage.java:261-263 | a method key starts `match:` |
| MockFlowStorage.MatchKey | src/main/java/jetmock/storage/MockFlowStorage.java:257-259 | the exact key extends the method key, so the two never coincide |
| MockFlowStorage.KafkaTriggerKey | src/main/java/jetmock/storage/MockFlowStorage.java:265-267 | a Kafka set key starts `kafka:` |
| MockFlowStorage.AddToSet | src/main/java/jetmock/storage/MockFlowStorage.java:224-228 | reads the set (empty when absent), adds the id, writes it back |
| MockFlowStorage.RemoveFromSet | src/main/java/jetmock/storage/MockFlowStorage.java:230-235 | writes the set back only when the id was in it |
| MockFlowStorage.SetUpdatesReadBack | src/main/java/jetmock/storage/MockFlowStorage.java:224-235 | after an add the id is a member; after a remove it is not |
| MockFlowStorage.FlowAt | src/main/java/jetmock/storage/MockFlowStorage.java:212-222 | empty for an absent key, IllegalState for a value that is no flow, else the flow |
| MockFlowStorage.FlowsFor | src/main/java/jetmock/storage/MockFlowStorage.java:106-109 | the stored flows of the ids, missing ones dropped, one unreadable flow failing the lot |
| MockFlowStorage.GroupFlows | src/main/java/jetmock/storage/MockFlowStorage.java:104-110 | the group's flow set resolved, its failure escaping |
| MockFlowStorage.AllFlowsAdd | src/main/java/jetmock/storage/MockFlowStorage.java:116-118 | one more group adds exactly its flows to the union |
| MockFlowStorage.MatchStep | src/main/java/jetmock/storage/MockFlowStorage.java:168-176 | a trigger element overwrites path and method, a condition the expression |
| MockFlowStorage.MatchScan | src/main/java/jetmock/storage/MockFlowStorage.java:168-176 | the loop's locals after the first n elements |
| MockFlowStorage.MatchOf | src/main/java/jetmock/storage/MockFlowStorage.java:163-184 | the projection the loop builds |
| MockFlowStorage.LastIndex | src/main/java/jetmock/storage/MockFlowStorage.java:168-176 | the last index below n holding an element of that name |
| MockFlowStorage.MatchScanTakesLast | src/main/java/jetmock/storage/MockFlowStorage.java:163-184 | the loop fails exactly when a trigger or condition attribute it reads holds null, else takes the LAST trigger and LAST condition |
| MockFlowStorage.MatchScanFailureSticks | src/main/java/jetmock/storage/MockFlowStorage.java:168-176 | a failed loop stays failed |
| MockFlowStorage.SubscriptionFrom | src/main/java/jetmock/storage/MockFlowStorage.java:186-198 | the first KAFKA_TRIGGER from a position with both topic and broker |
| MockFlowStorage.SubscriptionSkipsIncomplete | src/main/java/jetmock/storage/MockFlowStorage.java:186-198 | a trigger missing topic or broker is passed over for a later complete one |
| MockFlowStorage.Wrapped | src/main/java/jetmock/storage/MockFlowStorage.java:63-65 | every failure inside `save` and `delete` becomes an IllegalState |
| MockFlowStorage.FlowStorage.constructor | src/main/java/jetmock/storage/MockFlowStorage.java:23-24 | the storage holds the given database and id source |
| MockFlowStorage.FlowStorage.Save | src/main/java/jetmock/storage/MockFlowStorage.java:33-66 | an id is drawn only when missing; the flow, its group set entry, its request rows and its Kafka set entry are written |
| MockFlowStorage.FlowStorage.CountByGroupId | src/main/java/jetmock/storage/MockFlowStorage.java:68-74 | the size of the group's flow set, or an IllegalState |
| MockFlowStorage.FlowStorage.FindByKafkaTrigger | src/main/java/jetmock/storage/MockFlowStorage.java:76-86 | the stored flows of the Kafka set, or an IllegalState |
| MockFlowStorage.FlowStorage.FindMatchingByMethodAndPath | src/main/java/jetmock/storage/MockFlowStorage.java:88-92 | the read of the exact key |
| MockFlowStorage.FlowStorage.FindMatchingByMethod | src/main/java/jetmock/storage/MockFlowStorage.java:94-98 | the read of the method key |
| MockFlowStorage.FlowStorage.FindById | src/main/java/jetmock/storage/MockFlowStorage.java:100-102 | the read of the flow key |
| MockFlowStorage.FlowStorage.FindByGroupId | src/main/java/jetmock/storage/MockFlowStorage.java:104-110 | the group's flows |
| MockFlowStorage.FlowStorage.FindAll | src/main/java/jetmock/storage/MockFlowStorage.java:112-120 | the union of the flows of every listed group |
| MockFlowStorage.FlowStorage.Delete | src/main/java/jetmock/storage/MockFlowStorage.java:122-159 | a stored flow's key, group set entry, request rows and Kafka set entry are removed |
| MockFlowStorage.FlowStorage.BuildMatch | src/main/java/jetmock/storage/MockFlowStorage.java:163-184 | the loop gives `MatchOf` |
| MockFlowStorage.FlowStorage.BuildKafkaTrigger | src/main/java/jetmock/storage/MockFlowStorage.java:186-198 | the loop gives the first complete trigger |
| MockFlowStorage.FlowStorage.AddToSetIn | src/main/java/jetmock/storage/MockFlowStorage.java:224-228 | the store after `AddToSet` |
| MockFlowStorage.FlowStorage.RemoveFromSetIn | src/main/java/jetmock/storage/MockFlowStorage.java:230-235 | the store after `RemoveFromSet` |
| MockFlowStorage.MatchAt | src/main/java/jetmock/storage/MockFlowStorage.java:88-98 | empty for an absent key, IllegalState for a value that is no projection |
| MockFlowStorage.KeyFamiliesDistinct | src/main/java/jetmock/storage/MockFlowStorage.java:26-31 | flow, group set, request row and Kafka keys never collide across families |
| MockFlowStorage.SaveIsReadable | src/main/java/jetmock/storage/MockFlowStorage.java:33-41 | a saved flow reads back by id and its id is in its group's set |
| MockFlowStorage.SaveCountsInGroup | src/main/java/jetmock/storage/MockFlowStorage.java:40-74 | after a save the group count includes the flow and grows by at most one |
| MockFlowStorage.SaveWritesMatchRows | src/main/java/jetmock/storage/MockFlowStorage.java:43-48 | a save writes the method row for a projection with a method, and the exact row when it has a path too |
| MockFlowStorage.DeleteAbsentIsNoOp | src/main/java/jetmock/storage/MockFlowStorage.java:124-127 | deleting an absent id changes nothing |
| MockFlowStorage.DeleteRemovesAllRows | src/main/java/jetmock/storage/MockFlowStorage.java:122-159 | a delete removes the flow, its group set entry, both request rows and its Kafka set entry |
| MockFlowStorage.RemovedElsewhere | src/main/java/jetmock/storage/MockFlowStorage.java:230-235 | removing from one set leaves every other key alone |
| MockFlowStorage.MatchRowsGone | src/main/java/jetmock/storage/MockFlowStorage.java:135-140 | dropping the request rows removes exactly them |
| MockFlowService.AppliedByStore | src/main/java/jetmock/service/MockFlowService.java:38-56 | a successful conversion followed by the store is what `upsert` does past validation |
| MockFlowService.NewEffect | src/main/java/jetmock/service/MockFlowService.java:55-56 | storing a new flow saves and starts it |
| MockFlowService.ReplaceEffect | src/main/java/jetmock/service/MockFlowService.java:51-56 | storing a stored flow stops and deletes it, then, if that did not throw, saves and starts it |
| MockFlowService.UpsertThenFind | src/main/java/jetmock/service/MockFlowService.java:35-59 | a flow `upsert` saved reads back under its id |
| MockFlowService.UpdateKeepsOldListener | src/main/java/jetmock/service/MockFlowService.java:45-56 | as written: the stop reads the new steps, so an old trigger's listener keeps running after the update |
| MockFlowService.IntendedStoppedKeys | src/main/java/jetmock/service/MockFlowService.java:51-53 | corrected: the keys of the stored version's trigger, at most one |
| MockFlowService.UpdateStopsStoredListener | src/main/java/jetmock/service/MockFlowService.java:51-56 | with the corrected stop, the stored trigger's listener is gone unless restarted, every other listener kept |
| MockFlowService.Service.constructor | src/main/java/jetmock/service/MockFlowService.java:31-33 | the service holds the given repository, lifecycle service and id source |
| MockFlowService.Service.Upsert | src/main/java/jetmock/service/MockFlowService.java:35-59 | a failing validation or conversion stores and stops nothing; otherwise the stored or new flow with the converted steps is stored and started |
| MockFlowService.Service.Apply | src/main/java/jetmock/service/MockFlowService.java:38-56 | looks the flow up, converts the steps, stores |
| MockFlowService.Service.Store | src/main/java/jetmock/service/MockFlowService.java:51-56 | deletes a stored version, then saves and starts |
| MockFlowService.Service.DeleteFlow | src/main/java/jetmock/service/MockFlowService.java:123-129 | a failing trigger throws before anything is deleted; otherwise the listener is stopped and the id deleted |
| MockFlowService.Service.SaveAndStart | src/main/java/jetmock/service/MockFlowService.java:55-56 | saves, then starts; a failed save starts nothing |
| MockFlowService.Service.GetByMockId | src/main/java/jetmock/service/MockFlowService.java:95-113 | 404 `MOCK_NOT_FOUND` for an unknown id, else the detail steps |
| MockFlowService.Service.Delete | src/main/java/jetmock/service/MockFlowService.java:115-121 | 404 for an unknown id with nothing stopped or deleted; otherwise stop and delete |
| MockService.ToMap | src/main/java/jetmock/util/ParserUtil.java:37-47 | null stays null and so does the JSON literal `null`; an object reads as its map; anything else is a RuntimeException |
| MockService.StringEntries | src/main/java/jetmock/util/ParserUtil.java:49-59 | each member kept under its name with its scalar text |
| MockService.ToStringMap | src/main/java/jetmock/util/ParserUtil.java:49-59 | as `toMap`, and a member that is an object or array is a RuntimeException too |
| MockService.MethodCandidate | src/main/java/jetmock/service/MockService.java:185-191 | the group's method-level row, kept exactly when its template matches the request path segment for segment |
| MockService.ConditionEligible | src/main/java/jetmock/service/MockService.java:154-183 | a null or blank condition, or one the blacklist expression matches as written (a `;` or a backslash and no line terminator), is not eligible and is not evaluated; any other is eligible exactly when it evaluates to true |
| MockService.FoundMatch | src/main/java/jetmock/service/MockService.java:129-152 | the exact row wins; without one the matching method-level row answers; otherwise 404 `MOCK_NOT_FOUND` |
| MockService.FoundFlow | src/main/java/jetmock/service/MockService.java:122-127 | the flow stored under the match's id, or 404 `MOCK_NOT_FOUND` |
| MockService.TriggerPayload | src/main/java/jetmock/service/MockService.java:56-67 | the payload carries the headers, the path variables and the body |
| MockService.Prepared | src/main/java/jetmock/service/MockService.java:53-67 | the body read, the group cut off the path, the mock found and the path variables bound, or the first failure |
| MockService.RequestOrder | src/main/java/jetmock/service/MockService.java:82-88 | the order number of a request step, or a NoSuchElement when there is none |
| MockService.BeforeResponseMeaning | src/main/java/jetmock/service/MockService.java:201-211 | the steps run before the response hold no response step, are in order, and end just before the first response step |
| MockService.WindowOf | src/main/java/jetmock/service/MockService.java:205-210 | the run is the stretch of sorted steps after the request step up to the first response step |
| MockService.ResponseHeaders | src/main/java/jetmock/service/MockService.java:105-111 | Content-Type application/json, then the members of the header object in order |
| MockService.Answered | src/main/java/jetmock/service/MockService.java:93-120 | the first response step's status, latency slept, headers and resolved body; the payload stored at its order |
| MockService.Serve | src/main/java/jetmock/service/MockService.java:69-73 | the payload goes into the context, the steps before the response run, and the response is rendered over the context they left |
| MockService.Service.constructor | src/main/java/jetmock/service/MockService.java:43-47 | the service holds the given collaborators |
| MockService.Service.GetMockResponse | src/main/java/jetmock/service/MockService.java:49-80 | a request that finds no flow changes nothing; a failing synchronous part stops there; otherwise the response is `Serve`'s and the steps after the response run |
| MockService.Service.Prepare | src/main/java/jetmock/service/MockService.java:56-67 | the result is `Prepared` |
| MockService.Service.Respond | src/main/java/jetmock/service/MockService.java:69-73 | the response and context are `Serve`'s |
| MockService.Service.SetTriggerContext | src/main/java/jetmock/service/MockService.java:82-91 | the payload is put at the request step's order number |
| MockService.Service.RunElementsBeforeResponse | src/main/java/jetmock/service/MockService.java:201-211 | the steps strictly between the request and response steps run in order |
| MockService.Service.ReturnResponse | src/main/java/jetmock/service/MockService.java:93-120 | the response is `Answered` |
| MockService.Service.FindMock | src/main/java/jetmock/service/MockService.java:122-127 | the flow is `FoundFlow` of the match |
| MockService.Service.FindMockFlow | src/main/java/jetmock/service/MockService.java:129-152 | the match is `FoundMatch` |
| MockService.Service.FindMatchingMockFlow | src/main/java/jetmock/service/MockService.java:185-191 | the candidates are `MethodCandidate`'s |
| MockService.StepsAfterRequestPartitioned | src/main/java/jetmock/service/MockService.java:71-78 | every step after the request step runs exactly once: those before the response synchronously, the rest afterwards |
| MockService.BeforeResponseIs | src/main/java/jetmock/service/MockService.java:201-211 | proof helper, unfolding one definition: the synchronous run is the slice between the two trigger indexes |
| MockService.InertWindowAnswersOverTrigger | src/main/java/jetmock/service/MockService.java:69-73 | when no step in the window acts, the response is rendered over the trigger payload alone |
| MockService.StoredResponseKeepsTemplate | src/main/java/jetmock/service/MockService.java:113-114 | proof helper, unfolding one definition: the payload stored at the response's order keeps its body as written |
| PlaceholderService.CloseFrom | src/main/java/jetmock/service/PlaceholderService.java:23 | the lazy group's close: the first `}}` at least one character past the braces with no line terminator before it |
| PlaceholderService.CloseFromMeaning | src/main/java/jetmock/service/PlaceholderService.java:23 | the close found is the first `}}` past the first group character with no line terminator before it; none found means none qualifies |
| PlaceholderService.FindFrom | src/main/java/jetmock/service/PlaceholderService.java:23-36 | `find` from a position |
| PlaceholderService.FindFromIsLeftmost | src/main/java/jetmock/service/PlaceholderService.java:36 | the match found is the leftmost one; none at all when nothing is found |
| PlaceholderService.RegionIsShortest | src/main/java/jetmock/service/PlaceholderService.java:23 | a region's content is the shortest non-empty run before a `}}` without a line terminator |
| PlaceholderService.Navigate | src/main/java/jetmock/service/DslPropertyAccessor.java:20-24 | each property read `get`s through the value; a missing link is null from then on |
| PlaceholderService.Regions | src/main/java/jetmock/service/PlaceholderService.java:36-40 | the successive matches, each search resuming after the previous match |
| PlaceholderService.Service.constructor | src/main/java/jetmock/service/PlaceholderService.java:25 | the service holds the given repository, UUID source and expression oracle |
| PlaceholderService.Service.ResolvePlaceholders | src/main/java/jetmock/service/PlaceholderService.java:28-44 | null stays null; otherwise the template rendered with each region replaced by its resolution |
| PlaceholderService.Service.ReplaceFrom | src/main/java/jetmock/service/PlaceholderService.java:36-43 | the `find`/`appendReplacement` loop then `appendTail` render the template from a position |
| PlaceholderService.Service.ResolveIn | src/main/java/jetmock/service/PlaceholderService.java:46-111 | one region's resolution: `random.uuid`, `global.`, then the DSL |
| PlaceholderService.StepIs | src/main/java/jetmock/service/PlaceholderService.java:37-39 | proof helper, unfolding one definition: one step resolves the trimmed content and advances past the UUIDs it took |
| PlaceholderService.RenderAdvance | src/main/java/jetmock/service/PlaceholderService.java:36-40 | one `appendReplacement` copies the text, appends the resolution, and resumes after the `}}` |
| PlaceholderService.AppendReplacement | src/main/java/jetmock/service/PlaceholderService.java:39 | the text so far plus the rest of the rendering still give the whole |
| PlaceholderService.NoOpeningUnchanged | src/main/java/jetmock/service/PlaceholderService.java:28-44 | a template with no `{{` opening is returned unchanged and draws no UUID |
| PlaceholderService.FindFromNoOpening | src/main/java/jetmock/service/PlaceholderService.java:36 | with no `{{` from the position on, nothing is found |
| PlaceholderService.RenderStep | src/main/java/jetmock/service/PlaceholderService.java:36-40 | text up to a region is copied, its resolution follows verbatim, rendering resumes after the `}}` |
| PlaceholderService.RegionsStep | src/main/java/jetmock/service/PlaceholderService.java:36 | proof helper, unfolding one definition: after a match the remaining matches are those found from its end |
| PlaceholderService.SpliceStep | src/main/java/jetmock/service/PlaceholderService.java:36-40 | one more match extends the rendering by the copied text and its resolution |
| PlaceholderService.RenderTail | src/main/java/jetmock/service/PlaceholderService.java:42 | past the last region the rest of the text is copied and no UUID drawn |
| PlaceholderService.RandomUuidAnyCase | src/main/java/jetmock/service/PlaceholderService.java:47-49 | `random.uuid` in any case takes the next UUID before the other branches |
| PlaceholderService.RandomUuidIsEqualsIgnoreCase | src/main/java/jetmock/service/PlaceholderService.java:47 | the lower-case test agrees with `equalsIgnoreCase` both ways |
| PlaceholderService.EmptyGlobalKey | src/main/java/jetmock/service/PlaceholderService.java:94-100 | `global.` followed only by blanks resolves to the empty string |
| PlaceholderService.GlobalBlindToSave | src/main/java/jetmock/service/PlaceholderService.java:102-105 | saving a variable never changes what `global.<key>` resolves to, since save and lookup use different keys |
| PlaceholderService.DslEdgeCases | src/main/java/jetmock/service/PlaceholderService.java:62-73 | no dot, a non-integer order or no context entry at the order resolves to the empty string |
| PlaceholderService.MissingLinkIsEmpty | src/main/java/jetmock/service/PlaceholderService.java:82-86 | a property path through a missing link prints as the empty string |
| PlaceholderService.WholeTemplateRegion | src/main/java/jetmock/service/PlaceholderService.java:28-44 | a template that is one region renders as exactly the resolution of its trimmed group |
| PlaceholderService.PropertyPathResolves | src/main/java/jetmock/service/PlaceholderService.java:62-86 | `<order>.<path>` reads the path through the context entry at that order |
| PlaceholderService.CloseSkips | src/main/java/jetmock/service/PlaceholderService.java:23 | the close scan passes over characters that neither end nor break the group |
| PlaceholderService.FindSkips | src/main/java/jetmock/service/PlaceholderService.java:36 | the search passes over positions where no match opens |
| ValidationService.TypeError | src/main/java/jetmock/service/ValidationService.java:91-104 | null when the value has the rule's type, else the message naming the type |
| ValidationService.FieldCheck | src/main/java/jetmock/service/ValidationService.java:67-89 | at most one check: notNull first, then notBlank, then the type of a non-null value |
| ValidationService.StepChecks | src/main/java/jetmock/service/ValidationService.java:37-65 | the checks one step adds, or the exception `valueOf` throws |
| ValidationService.OrderCheck | src/main/java/jetmock/service/ValidationService.java:44-47 | a missing order number adds one check and checking goes on |
| ValidationService.ErrorPersists | src/main/java/jetmock/service/ValidationService.java:28-30 | once a prefix of the steps throws, every longer run throws the same exception |
| ValidationService.Validate | src/main/java/jetmock/service/ValidationService.java:25-35 | a 400 `VALIDATION_EXCEPTION` carrying every check when there is one, the exception of a step naming no schema, otherwise success |
| ValidationService.ValidateSteps | src/main/java/jetmock/service/ValidationService.java:37-65 | appends the step's checks, or throws |
| ValidationService.ValidateRules | src/main/java/jetmock/service/ValidationService.java:52-54 | appends each rule's check in order |
| ValidationService.ValidateKeys | src/main/java/jetmock/service/ValidationService.java:56-64 | appends one check per key that is neither bookkeeping nor a field |
| ValidationService.ValidateFields | src/main/java/jetmock/service/ValidationService.java:67-89 | appends the rule's check, at most one |
| ValidationService.MissingNameOneCheck | src/main/java/jetmock/service/ValidationService.java:38-42 | a step without `elementName` adds exactly one check |
| ValidationService.StepChecksOfKind | src/main/java/jetmock/service/ValidationService.java:43-65 | a known kind gets the order check, the rule checks and the key checks |
| ValidationService.MissingOrderAddsOne | src/main/java/jetmock/service/ValidationService.java:44-47 | a missing order number adds one check in front of what the same step with one gets |
| ValidationService.OrderCheckInFront | src/main/java/jetmock/service/ValidationService.java:44-65 | for rules without an order-number field the order check goes in front of the same checks |
| ValidationService.NoFieldIsOrderNumber | src/main/java/jetmock/service/ValidationService.java:52 | no schema has an `orderNumber` field |
| ValidationService.PutOtherFieldSameChecks | src/main/java/jetmock/service/ValidationService.java:52-54 | putting an order number changes no rule check |
| ValidationService.PutOrderSameKeyChecks | src/main/java/jetmock/service/ValidationService.java:56-64 | putting an order number changes no key check |
| ValidationService.SameLookupsSameChecks | src/main/java/jetmock/service/ValidationService.java:52-89 | steps that agree on the fields get the same rule checks |
| ValidationService.ExtraKeyChecksMeaning | src/main/java/jetmock/service/ValidationService.java:56-64 | the key loop reports exactly the keys that are neither bookkeeping keys nor fields, each by name |
| ValidationService.RuleChecksEmpty | src/main/java/jetmock/service/ValidationService.java:52-54 | the rules loop adds nothing exactly when every field obeys its rule |
| ValidationService.NoChecksEveryRulePasses | src/main/java/jetmock/service/ValidationService.java:52-54 | no rule checks means every rule passes |
| ValidationService.EveryRulePassesNoChecks | src/main/java/jetmock/service/ValidationService.java:52-54 | every rule passing means no rule checks |
| ValidationService.StepPassesIffConforms | src/main/java/jetmock/service/ValidationService.java:37-65 | a step passes without a check exactly when it conforms to its schema |
| ValidationService.ChecksConcatenate | src/main/java/jetmock/service/ValidationService.java:28-30 | the checks of separate runs of steps are reported together in order |
| ValidationService.CollectConcatenate | src/main/java/jetmock/service/ValidationService.java:28-30 | collecting two runs gives the concatenation of their checks |
| ValidationService.ThrowsIffUnknownKind | src/main/java/jetmock/service/ValidationService.java:25-49 | `validate` throws `valueOf`'s IllegalArgument exactly when a step names no schema |
| ValidationService.CollectThrowsIffSomeStep | src/main/java/jetmock/service/ValidationService.java:28-30 | a run throws exactly when one step does, with the first such step's exception |
| ValidationService.PassesIffAllConform | src/main/java/jetmock/service/ValidationService.java:25-35 | a request passes exactly when every step conforms to its kind's schema |
| ValidationService.CollectEmptyIffEachEmpty | src/main/java/jetmock/service/ValidationService.java:28-30 | a run yields no check and no exception exactly when each step does |
| ValidationService.UnknownKindThrows | src/main/java/jetmock/service/ValidationService.java:49 | a step naming a schema constant never makes `valueOf` throw |

## Left out

- The Jackson serialisation of every record is taken as the identity, and the byte encoding of keys as their code points; what the mapper does with a record of one type read at another is reduced to "does not read".
- The SpEL evaluator is the oracle parameter `eval` (conditions) and `spel` (placeholder expressions), and the JSON parser is the oracle `parse`; neither language is modelled.
- The RocksDB engine and RocksDbConfig are not modelled beyond point get, put, delete, the seek-and-walk iterator and a batch of deletes.
- The HTTP exchange of CallbackService (RestTemplate), the Kafka send of both KafkaPublishService copies, KafkaMessageHandler and DynamicKafkaConsumerFactory are not modelled: a callback or publish step ends in its payload and the exceptions it can raise, a listener container is the configuration it was built with.
- The controllers, the mappers, BaseExceptionHandler and the HTTP status mapping are not modelled; a `BaseException` is its error code.
- ThreadUtil's sleep and the other waits are modelled only by the exceptions they raise (a null latency, a negative one); time itself is not modelled.
- `@Async` work (the steps after a response, the steps after a Kafka trigger) runs to completion inside the call that hands it over; concurrency, and the check-then-act race on the listener registry's ConcurrentHashMap, are not modelled.
- Random UUIDs come from `JavaLang.IdSource`, which hands out the entries of a supply given as a parameter; that they are random or distinct is not modelled.
- The DTO and entity sources CallbackApiPayload, KafkaPublisherPayload, GlobalVariablePayload, ApiResponsePayload, MockGroup, KafkaBroker, KafkaBrokerRequest, KafkaBrokerResponse, GroupRequest, UpdateGroupStatusRequest and GlobalVariableEntity are not part of this model: their fields are assumed to be the schema's fields with the schema's types (`ElementService.CALLBACK_PAYLOAD`, `PUBLISHER_PAYLOAD`, `VARIABLE_PAYLOAD`, `MockService.RESPONSE_PAYLOAD`), a group's id, name and nullable Boolean active flag, a broker's id and url, a request's name or nullable Boolean flag, and Lombok's `toString` layout for `PlaceholderService.EntityText`.
- GroupService.Response: GroupResponse's `createdAt` is dropped, since no stored group carries a creation time.
- ElementService.ConvertValue: no Double-typed payload field is declared, so the Double branch of `convertValue` is not modelled.
- DslObject `raw`, `upperCase` and `lowerCase` are not modelled, since they depend on Unicode case mapping.
- DslObject.NumText: stops at the text handed to `new BigDecimal`; BigDecimal parsing and arithmetic are not modelled.
- JavaLang.LowerCase, JavaLang.EqualsIgnoreCase: case folding covers the ASCII letters only, so `"Ä"` and `"ä"` count as different where Java folds them.
- Values.Value: an `Int` holds any mathematical integer where a java.lang.Integer is 32-bit; the range is not enforced on order numbers or on integers in a payload from the oracle `parse`, and only `JavaLang.ParseInt` bounds its result to it.
- JavaLang.ParseInt: only ASCII digits are accepted, where `Integer.parseInt` also takes other Unicode decimal digits.
- JavaLang.HexValue: only ASCII hex digits are accepted by the UUID parser.
- KafkaSelection: `UUID.compareTo` (a signed comparison of the two 64-bit halves) is the parameter `uuidLe` rather than a definition; the lemmas about the chosen flow require it to be a total order, and antisymmetric where they state that the choice is unique.
- GroupService.Service.GetAll, SettingsService.Service.GetAll, and the `findAll` of GroupStorage, KafkaBrokerStorage and MockFlowStorage: a HashSet's iteration order is unspecified, so these state the listed records as the set's members in some order rather than in one order.
- ElementSchema: `Map.of` promises no iteration order; the model fixes the declared order of the kinds and of each kind's fields.
- RequestUrlService.ExtractPathVariables and FlowStepMapping.DetailSteps: a HashMap's iteration order is unspecified; the model's maps keep insertion order.
- MockFlowService.Service.Upsert: requires the flow already stored at the mock id to carry an id, since a stored flow without one cannot have been written by `save`.
- GroupService.Service.DeleteGroup: requires the stored group to carry an id, for the same reason.
- GroupStorage.Storage.Save: a group's name is never null (it is a `string`), so the NullPointerException of `toLowerCase` on a null name at GroupStorage.java:131 is not modelled.
- MockFlowService and CreateMockService pass the flow id as a String where `findById` declares a UUID; the model reads the id's text.
- CollectionService.Service.GetFullTree: the response objects shared between the index and the children lists are named by their ids; the tree is the index, the root ids and each node's child ids.
- RepositoryKafkaTriggerStartupRunner: `findAllKafkaTrigger` is declared nowhere in the repository, so its outcome is a parameter.
- MockService.Service.FindMockFlow: the repository returns at most one candidate, so the loop over candidate conditions runs at most once; it is modelled on an `Option` and its eligibility rule by `MockService.ConditionEligible`.
- DslObject.JsonIdempotent: stated only for a `json()` result that is a map, since `json()` of text holding JSON `null` is null and `json()` of null is the empty map (DslObject.JsonOfNullText).
- The services keep the behaviour of the code as written (see Findings): the corrected MockFlowRepository delete, GroupStorage rename, GlobalEnvironmentStorage upsert, MockFlowService stop, template key (`CheckedTemplateKey`) and condition guard (`IsForbiddenCondition`) are proved beside the as-written ones and used by no operation of the model.

## Findings

| source | as written | input that shows it | evidently intended | confidence | as-written member | corrected member |
|---|---|---|---|---|---|---|
| src/main/java/jetmock/service/MockFlowService.java:46-53 | the stored flow object gets the new steps before `delete` stops its listener, so the listener stopped is the one of the new trigger | a stored flow listening on broker b1, topic t1, updated to listen on b2, t2: the listener for t1 stays running | stop the listener of the steps that were stored | not executed, high | MockFlowService.UpdateKeepsOldListener | MockFlowService.UpdateStopsStoredListener |
| src/main/java/jetmock/repository/MockFlowRepository.java:81-84 | `delete(key, "")` deletes the key `key:`, not the match row `save` wrote at `key` | save then delete of a flow with an API_TRIGGER_REQUEST trigger: the row `match:group:<g>:method:<m>:path:<p>` remains | delete the match rows at their own keys | not executed, high | MockFlowRepository.SaveThenDeleteLeavesExactRow | MockFlowRepository.ExactDeleteRemovesRows |
| src/main/java/jetmock/storage/GlobalEnvironmentStorage.java:41-75 | `upsert` replaces only entries whose key is equal, while `getValueByKey` finds the first key equal ignoring case | upsert `Token`=1, then upsert `TOKEN`=2: `getValueByKey("TOKEN")` answers 1 | an upsert is seen by the next lookup of its key | not executed, medium | GlobalEnvironmentStorage.CaseVariantShadowsUpsert | GlobalEnvironmentStorage.FoldedUpsertThenLookup |
| src/main/java/jetmock/storage/GroupStorage.java:32-42 | saving a group under a new name writes the new name entry and leaves the old one | save group g as `a`, then as `b`: `group:name:a` still holds g's id | the name index holds only current names | not executed, medium | GroupStorage.RenameKeepsOldName | GroupStorage.RenameDropsOldName |
| src/main/java/jetmock/service/DynamicKafkaTemplateFactory.java:17-21 | `isBlank` admits a control character that `trim` then removes | bootstrap servers `"\u0000"`: passes the guard and is cached under `""` | refuse a server string that trims to nothing | not executed, high | DynamicKafkaTemplateFactory.ControlCharacterPassesGuard | DynamicKafkaTemplateFactory.CheckedTemplateKey |
| src/main/java/jetmock/constant/Constant.java:32-33 | without DOTALL, `.` does not match a line terminator, so `matches` misses a semicolon after a newline | condition `"1\n;2"` is not blacklisted | reject every condition containing `;` or `\` | not executed, high | Constant.NewlineSemicolonPassesGuard | Constant.ForbiddenIsDotAllLanguage |
