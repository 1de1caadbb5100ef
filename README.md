# Osmosis PBF blob decoding and replication file naming, in Dafny

This project models two parts of the Osmosis OpenStreetMap toolkit and proves properties about them.

**The PBF blob decoder (`PbfBlobDecoder`).** It turns one raw blob of an OSM PBF file into the
entity containers it holds: nodes, ways and relations. It then reports them, or a failure, to
its listener.

- A primitive block holds primitive groups. Each group holds dense nodes, plain nodes, ways and
  relations, as parallel integer lists that index the block's string table.
- The decoder walks those lists with running accumulators:
  - node ids, coordinates, uid, user string, timestamp and changeset of dense nodes are delta
    coded;
  - way refs are delta coded, and so are relation member ids.
- Dense nodes share one key/value stream. A 0 key ends each node's tags.
- Missing metadata gets fixed defaults: version -1, timestamp 0, no user, changeset -1.
- Every decoded entity is appended to the decoder's `decodedEntities` list.

The model is a `PbfBlobDecoder` class with that list as a field. Its methods keep the source's
loops and accumulators. Each method is proved equal to a decoding function in module `PbfSpec`,
and lemmas about those functions state what the decoded entities are.

**Replication file naming (`ReplicationFileSequenceFormatter`).** It turns a replication sequence
number into a file under a working directory.

- The number is zero padded to a minimum length. A '/' is inserted every grouping-length digits,
  counting from the right, and the suffix is appended.
- The name is then split at '/'. Every part but the last names a directory, which is created
  when it does not exist. The last part names the file.

In the model:

- A path is a list of components.
- The file system is the set of existing directories.
- Whether `mkdir` succeeds is a function the caller supplies.
- The walk is a method whose result equals the function `Walk`.
- The formatting of the number is the pure function `SequenceFormat.FormattedName`.

Modules:

- `Wrappers`: `Option`.
- `OsmDomain`: the Osmosis entity records. `NoUser` is `OsmUser.NONE`, with id -1 and name "".
- `Osmformat`: the protobuf messages, as datatypes over `seq<int>`.
- `PbfSpec`: the decoding functions and the lemmas about them.
- `PbfBlobDecoding`: the decoder class and its helpers.
- `SequenceFormat`: sequence-number formatting.
- `ReplicationFiles`: the formatter class and the directory walk.

Where the source throws, the model returns an error value:

- PBF steps return `Result` or `Outcome` with a `DecodeError`.
- The walk returns `UnableToCreateDirectory(dir)`.

The source's `run` turns any such error into one `listener.error()` call, and the model's `Run`
does the same.

Some steps of long source methods are separate methods in the model, each with its own contract:
`BuildData`, `ReadDenseTags`, `BuildDenseEntityData`, `BuildWayNodes` and `ProcessGroup`.

## Model

| member | source | states |
|---|---|---|
| PbfBlobDecoding.BuildTags | osmosis-pbf2/src/main/java/org/openstreetmap/osmosis/pbf2/v0_6/impl/PbfBlobDecoder.java:59-77 | The loop's result equals `Tags`: an error when the key and value lists differ in length, otherwise one tag per index pair, in list order (see `PbfSpec.TagsDecoded`). |
| PbfSpec.TagsFromDecoded | osmosis-pbf2/src/main/java/org/openstreetmap/osmosis/pbf2/v0_6/impl/PbfBlobDecoder.java:69-76 | From position i on, decoding succeeds iff every remaining key and value index is in the string table. Then there is one tag per remaining pair, and tag j-i is (strings[keys[j]], strings[vals[j]]). |
| PbfSpec.TagsDecoded | osmosis-pbf2/src/main/java/org/openstreetmap/osmosis/pbf2/v0_6/impl/PbfBlobDecoder.java:63-76 | Unequal list sizes give TagCountMismatch. Success holds iff all indexes are valid. On success there are exactly as many tags as keys, tag j built from key j and value j. |
| PbfBlobDecoding.BuildCommonEntityDataWithInfo | osmosis-pbf2/src/main/java/org/openstreetmap/osmosis/pbf2/v0_6/impl/PbfBlobDecoder.java:79-105 | The result equals `CommonDataWithInfo`: a user only when the uid is present and not negative and a user string is present, then the info's version, timestamp and changeset, then the tags. |
| PbfBlobDecoding.BuildCommonEntityData | osmosis-pbf2/src/main/java/org/openstreetmap/osmosis/pbf2/v0_6/impl/PbfBlobDecoder.java:107-116 | The result equals `CommonDataWithoutInfo`: the empty version, timestamp, user and changeset, plus the tags. |
| PbfBlobDecoding.BuildData | osmosis-pbf2/src/main/java/org/openstreetmap/osmosis/pbf2/v0_6/impl/PbfBlobDecoder.java:123-129 | Picks the overload by whether the message has info. The result equals `CommonData`. |
| PbfSpec.EntityDataMetadata | osmosis-pbf2/src/main/java/org/openstreetmap/osmosis/pbf2/v0_6/impl/PbfBlobDecoder.java:34-36 | Success holds iff the tag indexes are valid and, for a named user, the user string index is valid. Without info: version -1, timestamp 0, no user, changeset -1 (constants at lines 34-36). With info: its version, timestamp and changeset. The user is named exactly when uid is present and >= 0 and a user string is present (lines 88-93), otherwise NONE. The id and the tags are as given. |
| PbfBlobDecoding.PbfBlobDecoder.constructor | osmosis-pbf2/src/main/java/org/openstreetmap/osmosis/pbf2/v0_6/impl/PbfBlobDecoder.java:44-57 | The decoder keeps the raw blob and the listener it is given, and starts with no decoded entities. The blob-to-block mapper, which the source creates itself, is a parameter here. |
| PbfBlobDecoding.PbfBlobDecoder.ProcessNodes | osmosis-pbf2/src/main/java/org/openstreetmap/osmosis/pbf2/v0_6/impl/PbfBlobDecoder.java:118-139 | `decodedEntities` becomes its old value followed by `PlainNodes(nodes)`, or the first error is reported. |
| PbfSpec.PlainNodesDecoded | osmosis-pbf2/src/main/java/org/openstreetmap/osmosis/pbf2/v0_6/impl/PbfBlobDecoder.java:118-139 | Plain nodes decode iff every node's common data decodes. Then there is one node per message, in order, each with its own data and its coordinates taken as they are. |
| PbfSpec.PlainNodeIds | osmosis-pbf2/src/main/java/org/openstreetmap/osmosis/pbf2/v0_6/impl/PbfBlobDecoder.java:118-137 | Decoded plain node j is a node container with the id of message j. |
| PbfSpec.CollectFromDecoded | osmosis-pbf2/src/main/java/org/openstreetmap/osmosis/pbf2/v0_6/impl/PbfBlobDecoder.java:119-138 | Collecting per-message results from position i succeeds iff every remaining result is Ok. Then element j-i is result j's value, with one element per remaining message. |
| PbfBlobDecoding.ReadDenseTags | osmosis-pbf2/src/main/java/org/openstreetmap/osmosis/pbf2/v0_6/impl/PbfBlobDecoder.java:199-216 | The loop over the shared stream equals `DenseTagsAt`: it reads pairs until a 0 key, which is consumed, or the end of the stream. A key without a value is KeyWithoutValue. |
| PbfSpec.DenseTagRunShape | osmosis-pbf2/src/main/java/org/openstreetmap/osmosis/pbf2/v0_6/impl/PbfBlobDecoder.java:199-216 | One node's tag run takes 2·n stream positions for n tags, each tag from a non-zero key and the value after it. The run ends at the end of the stream or just past a 0 key. |
| PbfSpec.DenseTagRunUnpairedKey | osmosis-pbf2/src/main/java/org/openstreetmap/osmosis/pbf2/v0_6/impl/PbfBlobDecoder.java:208-211 | A run with an odd number of entries and no 0 key at a key position is an error. |
| PbfSpec.DenseExhaustedStreamNoTags | osmosis-pbf2/src/main/java/org/openstreetmap/osmosis/pbf2/v0_6/impl/PbfBlobDecoder.java:202-216 | Once the stream is exhausted, every remaining dense node gets no tags. |
| PbfBlobDecoding.BuildDenseEntityData | osmosis-pbf2/src/main/java/org/openstreetmap/osmosis/pbf2/v0_6/impl/PbfBlobDecoder.java:177-197 | The dense node's data equals `DenseData`. On success the four dense-info accumulators become the prefix sums up to and including node i. |
| PbfBlobDecoding.PbfBlobDecoder.ProcessDenseNodes | osmosis-pbf2/src/main/java/org/openstreetmap/osmosis/pbf2/v0_6/impl/PbfBlobDecoder.java:141-224 | The delta accumulators are prefix sums (loop invariants, lines 161-183). `decodedEntities` becomes its old value followed by `DenseNodesOf(nodes)`, or the first error is reported. |
| PbfSpec.DenseNodesDecoded | osmosis-pbf2/src/main/java/org/openstreetmap/osmosis/pbf2/v0_6/impl/PbfBlobDecoder.java:141-223 | Id, lat and lon lists of unequal length give DenseCountMismatch. Dense decoding succeeds iff the lists match, every node's data decodes (with dense info: every dense info list reaches the node, and the user string index is valid whenever the uid sum is >= 0), and one tag run per node is read from the shared stream without error. On success there is exactly one node per id. Node k carries: id, raw latitude and longitude as sums of deltas 0..k; with dense info, timestamp and changeset as prefix sums, the version as is, and a user exactly when the uid sum is >= 0; otherwise the defaults. Its tags are the k-th run of the stream, which starts where node k-1's run ended. |
| PbfSpec.TagRunNext | osmosis-pbf2/src/main/java/org/openstreetmap/osmosis/pbf2/v0_6/impl/PbfBlobDecoder.java:199-216 | The tag runs of consecutive dense nodes follow one another in the one stream: run k+1 starts exactly where run k ended, and none starts once a run has failed. |
| PbfSpec.DenseDataOk | osmosis-pbf2/src/main/java/org/openstreetmap/osmosis/pbf2/v0_6/impl/PbfBlobDecoder.java:177-197 | Dense node k's common data decodes iff, with dense info, all five dense info lists reach index k and, when the uid sum is >= 0, the user-string sum is a valid string index. |
| PbfSpec.DenseFromOk | osmosis-pbf2/src/main/java/org/openstreetmap/osmosis/pbf2/v0_6/impl/PbfBlobDecoder.java:168-223 | Decoding the dense nodes from node i, with the stream at pos, succeeds iff every remaining node's data decodes and one tag run per remaining node is read without error. |
| PbfSpec.DenseFromTags | osmosis-pbf2/src/main/java/org/openstreetmap/osmosis/pbf2/v0_6/impl/PbfBlobDecoder.java:199-216 | Node j, decoded from node i on with the stream at pos, carries exactly the tags of the (j-i)-th run after pos. |
| PbfSpec.DenseFromAt | osmosis-pbf2/src/main/java/org/openstreetmap/osmosis/pbf2/v0_6/impl/PbfBlobDecoder.java:168-223 | Every node decoded from position i on has the fields of its own index j. |
| PbfSpec.DenseNodeIds | osmosis-pbf2/src/main/java/org/openstreetmap/osmosis/pbf2/v0_6/impl/PbfBlobDecoder.java:161-175 | Decoded dense node j is a node whose id is the sum of id deltas 0..j. |
| PbfBlobDecoding.BuildWayNodes | osmosis-pbf2/src/main/java/org/openstreetmap/osmosis/pbf2/v0_6/impl/PbfBlobDecoder.java:244-260 | The loop's accumulators are prefix sums of the ref, lat and lon lists, and the result equals `WayNodes`. |
| PbfBlobDecoding.PbfBlobDecoder.ProcessWays | osmosis-pbf2/src/main/java/org/openstreetmap/osmosis/pbf2/v0_6/impl/PbfBlobDecoder.java:226-264 | `decodedEntities` becomes its old value followed by `Ways(ways)`, or the first error is reported. |
| PbfSpec.WaysDecoded | osmosis-pbf2/src/main/java/org/openstreetmap/osmosis/pbf2/v0_6/impl/PbfBlobDecoder.java:226-264 | Ways decode iff each way's common data decodes. There is one way per message, in order. Way j's nodes come from its own lists alone, so the sums restart at 0 for each way, and there are exactly as many way nodes as refs. |
| PbfSpec.WayIds | osmosis-pbf2/src/main/java/org/openstreetmap/osmosis/pbf2/v0_6/impl/PbfBlobDecoder.java:226-262 | Decoded way j is a way container with the id of message j. |
| PbfBlobDecoding.BuildRelationMembers | osmosis-pbf2/src/main/java/org/openstreetmap/osmosis/pbf2/v0_6/impl/PbfBlobDecoder.java:266-309 | The member-id accumulator is the prefix sum of the id deltas, and the result equals `Members`. |
| PbfSpec.MembersFromDecoded | osmosis-pbf2/src/main/java/org/openstreetmap/osmosis/pbf2/v0_6/impl/PbfBlobDecoder.java:288-308 | From position i on, decoding succeeds iff each remaining type is NODE, WAY or RELATION and each role index is valid. Then member k has id sum 0..i+k, its role string, and its type mapped NODE→Node, WAY→Way, RELATION→Relation. |
| PbfSpec.MembersDecoded | osmosis-pbf2/src/main/java/org/openstreetmap/osmosis/pbf2/v0_6/impl/PbfBlobDecoder.java:275-308 | Unequal id/role/type list sizes give MemberCountMismatch. Success holds iff the sizes match and every type is known and every role valid. Then there is exactly one member per id, in order, each decoded as above. |
| PbfBlobDecoding.PbfBlobDecoder.ProcessRelations | osmosis-pbf2/src/main/java/org/openstreetmap/osmosis/pbf2/v0_6/impl/PbfBlobDecoder.java:311-341 | `decodedEntities` becomes its old value followed by `Relations(relations)`, or the first error is reported. |
| PbfSpec.RelationsDecoded | osmosis-pbf2/src/main/java/org/openstreetmap/osmosis/pbf2/v0_6/impl/PbfBlobDecoder.java:311-341 | Relations decode iff each relation's common data and members decode. Then there is one relation per message, in order, with one member per member id. |
| PbfSpec.RelationIds | osmosis-pbf2/src/main/java/org/openstreetmap/osmosis/pbf2/v0_6/impl/PbfBlobDecoder.java:311-339 | Decoded relation j is a relation container with the id of message j. |
| PbfBlobDecoding.PbfBlobDecoder.ProcessGroup | osmosis-pbf2/src/main/java/org/openstreetmap/osmosis/pbf2/v0_6/impl/PbfBlobDecoder.java:347-351 | Decoding group i appends exactly that group's entities, or reports its first error. |
| PbfSpec.ConcatFour | osmosis-pbf2/src/main/java/org/openstreetmap/osmosis/pbf2/v0_6/impl/PbfBlobDecoder.java:348-351 | Four decoding steps in a row: the first error wins, otherwise the results are concatenated in order. |
| PbfSpec.GroupOfParts | osmosis-pbf2/src/main/java/org/openstreetmap/osmosis/pbf2/v0_6/impl/PbfBlobDecoder.java:348-351 | A group's entities are its dense nodes, then its plain nodes, then its ways, then its relations. The first failing part's error is the group's error. |
| PbfSpec.GroupCount | osmosis-pbf2/src/main/java/org/openstreetmap/osmosis/pbf2/v0_6/impl/PbfBlobDecoder.java:346-352 | A decoded group yields exactly as many entities as it has dense ids, nodes, ways and relations together. |
| PbfSpec.ConcatStep | osmosis-pbf2/src/main/java/org/openstreetmap/osmosis/pbf2/v0_6/impl/PbfBlobDecoder.java:346-352 | One group step that reports as its result says either fails the whole block with that error, or extends the decoded prefix by exactly that group's entities. |
| PbfSpec.ConcatFromOk | osmosis-pbf2/src/main/java/org/openstreetmap/osmosis/pbf2/v0_6/impl/PbfBlobDecoder.java:346-352 | Concatenating group results from i on succeeds iff every remaining group result is Ok. |
| PbfSpec.ConcatFromInOrder | osmosis-pbf2/src/main/java/org/openstreetmap/osmosis/pbf2/v0_6/impl/PbfBlobDecoder.java:346-352 | On success, group j's entities sit in the concatenation right after the entities of the groups before it. |
| PbfBlobDecoding.PbfBlobDecoder.ProcessOsmPrimitives | osmosis-pbf2/src/main/java/org/openstreetmap/osmosis/pbf2/v0_6/impl/PbfBlobDecoder.java:343-353 | `decodedEntities` becomes its old value followed by `PrimitivesOf(block)`, or the first group error is reported. |
| PbfSpec.PrimitivesDecoded | osmosis-pbf2/src/main/java/org/openstreetmap/osmosis/pbf2/v0_6/impl/PbfBlobDecoder.java:343-353 | A block decodes iff every group decodes. Its entities are then the groups' entities in group order, group j occupying the slice after the counts of the groups before it. |
| PbfSpec.BlobDecoded | osmosis-pbf2/src/main/java/org/openstreetmap/osmosis/pbf2/v0_6/impl/PbfBlobDecoder.java:355-367 | A blob decodes iff it was parsed, carries no header block, and every group of its primitive block (if any) decodes. A blob without a primitive block yields no entities. Otherwise it yields the sum of its groups' entity counts, group j's entities in the slice after those of the groups before it. |
| PbfBlobDecoding.PbfBlobDecoder.RunAndValidate | osmosis-pbf2/src/main/java/org/openstreetmap/osmosis/pbf2/v0_6/impl/PbfBlobDecoder.java:355-367 | `decodedEntities` is reset, then holds exactly `DecodeBlob` of the parsed blob on success, or the error is reported. |
| PbfBlobDecoding.PbfBlobDecoder.Run | osmosis-pbf2/src/main/java/org/openstreetmap/osmosis/pbf2/v0_6/impl/PbfBlobDecoder.java:369-379 | The listener receives exactly one report: `Completed` with the decoded entities when decoding succeeds, `Errored` otherwise. |
| ReplicationFiles.ReplicationFileSequenceFormatter.constructor | osmosis-replication/src/main/java/org/openstreetmap/osmosis/replication/common/ReplicationFileSequenceFormatter.java:16-25 | The one-argument formatter uses minimum length 9 and grouping length 3. |
| ReplicationFiles.ReplicationFileSequenceFormatter.WithLengths | osmosis-replication/src/main/java/org/openstreetmap/osmosis/replication/common/ReplicationFileSequenceFormatter.java:27-43 | The formatter keeps the given working directory, minimum length and grouping length. |
| ReplicationFiles.ReplicationFileSequenceFormatter.GetFormattedName | osmosis-replication/src/main/java/org/openstreetmap/osmosis/replication/common/ReplicationFileSequenceFormatter.java:55-79 | The tokenizer loop's result and final directory set equal `Walk` from the working directory along the tokens of the formatted name. |
| SequenceFormat.PaddedWidth | osmosis-replication/src/main/java/org/openstreetmap/osmosis/replication/common/ReplicationFileSequenceFormatter.java:30-32 | The padded number has at least the minimum length. It has exactly that length iff the number fits in that many digits, so length 2 gives "00" to "99". Wider numbers are not padded. |
| SequenceFormat.PaddedValue | osmosis-replication/src/main/java/org/openstreetmap/osmosis/replication/common/ReplicationFileSequenceFormatter.java:30-32 | Padding keeps the digits' value. |
| SequenceFormat.ParseFormatRoundTrip | osmosis-apidb/src/test/java/org/openstreetmap/osmosis/apidb/v0_6/impl/ReplicationSequenceFormatterTest.java:16-71 | Removing the suffix and the '/' separators from a formatted name and reading the digits gives back the sequence number. |
| SequenceFormat.FormattedNameInjective | osmosis-apidb/src/test/java/org/openstreetmap/osmosis/apidb/v0_6/impl/ReplicationSequenceFormatterTest.java:16-71 | Distinct sequence numbers get distinct names under the same lengths and suffix. |
| SequenceFormat.DecimalRoundTrip | osmosis-apidb/src/test/java/org/openstreetmap/osmosis/apidb/v0_6/impl/ReplicationSequenceFormatterTest.java:16-26 | The decimal digits of n read back as n. |
| SequenceFormat.UnslashGroup | osmosis-apidb/src/test/java/org/openstreetmap/osmosis/apidb/v0_6/impl/ReplicationSequenceFormatterTest.java:46-71 | Grouping only inserts separators: removing the '/' characters gives back the digits. |
| SequenceFormat.ChunksShape | osmosis-apidb/src/test/java/org/openstreetmap/osmosis/apidb/v0_6/impl/ReplicationSequenceFormatterTest.java:46-71 | Groups are counted from the right: concatenated they give the digits, the first group has 1 to g digits and every later group exactly g. |
| SequenceFormat.FormatterTestVectorsFlat | osmosis-apidb/src/test/java/org/openstreetmap/osmosis/apidb/v0_6/impl/ReplicationSequenceFormatterTest.java:16-41 | (100, 0, 0) gives "100.osc.gz" and (100, 9, 0) gives "000000100.osc.gz". |
| SequenceFormat.FormatterTestVectorsGrouped | osmosis-apidb/src/test/java/org/openstreetmap/osmosis/apidb/v0_6/impl/ReplicationSequenceFormatterTest.java:46-71 | (1000, 0, 3) gives "1/000.osc.gz" and (100, 9, 3) gives "000/000/100.osc.gz". |
| ReplicationFiles.SegmentsOfJoin | osmosis-replication/src/main/java/org/openstreetmap/osmosis/replication/common/ReplicationFileSequenceFormatter.java:62 | Splitting slash-free chunks joined by '/' gives back the chunks. |
| ReplicationFiles.TokensOfJoin | osmosis-replication/src/main/java/org/openstreetmap/osmosis/replication/common/ReplicationFileSequenceFormatter.java:62-67 | The tokens of non-empty, slash-free chunks joined by '/' and followed by a slash-free suffix are those chunks, with the suffix on the last. |
| ReplicationFiles.FormattedNameTokens | osmosis-replication/src/main/java/org/openstreetmap/osmosis/replication/common/ReplicationFileSequenceFormatter.java:60-67 | With grouping and a suffix without '/', the path components are the digit groups of the padded number, the last one carrying the suffix. |
| ReplicationFiles.WalkSucceeds | osmosis-replication/src/main/java/org/openstreetmap/osmosis/replication/common/ReplicationFileSequenceFormatter.java:64-78 | The walk yields a file iff every directory on the way exists or can be created. Then the file is the start path followed by all tokens, in order, and the directories added are exactly those on the way, never the file itself. |
| ReplicationFiles.WalkFails | osmosis-replication/src/main/java/org/openstreetmap/osmosis/replication/common/ReplicationFileSequenceFormatter.java:71-74 | A failure names the first directory on the way that neither exists nor can be created. Every directory before it exists afterwards. |
| ReplicationFiles.WalkGrows | osmosis-replication/src/main/java/org/openstreetmap/osmosis/replication/common/ReplicationFileSequenceFormatter.java:72 | Existing directories stay. The walk never removes one. |
| ReplicationFiles.WalkExisting | osmosis-replication/src/main/java/org/openstreetmap/osmosis/replication/common/ReplicationFileSequenceFormatter.java:72 | When every directory on the way exists, the walk yields the file and creates nothing, whatever mkdir would do. |
| ReplicationFiles.WalkRepeat | osmosis-replication/src/main/java/org/openstreetmap/osmosis/replication/common/ReplicationFileSequenceFormatter.java:72 | Repeating a successful walk on the directories it left creates nothing new and returns the same file. |
| ReplicationFiles.UngroupedWalk | osmosis-replication/src/main/java/org/openstreetmap/osmosis/replication/common/ReplicationFileSequenceFormatter.java:64-77 | With grouping length 0 and a suffix without '/', the name is one component: no directory is created and the file is the working directory plus the name. |
| ReplicationFiles.DefaultLayout | osmosis-replication/src/main/java/org/openstreetmap/osmosis/replication/common/ReplicationFileSequenceFormatter.java:16-25 | With the defaults 9 and 3 and a suffix without '/', a number below 10^9 gives three components of 3 digits each, the last carrying the suffix. |

## Left out

- Concurrency: the decoder is a `Runnable` run on worker threads. Scheduling and the pool around it are not modelled. One `Run` is a sequential call.
- Blob decompression and protobuf parsing are foreign code. The blob-to-block mapper is a constructor parameter that yields `None` when parsing fails, and that case is reported as an error.
- `PbfFieldDecoder` is not part of this model:
  - String lookup is indexing into the block's string table, and an index outside it is an error.
  - Timestamps, latitudes and longitudes are kept as the raw accumulated integers. Granularity, offsets and the floating-point scaling are not modelled.
  - The empty timestamp (epoch 0) is the raw value 0.
- Protobuf's optional `denseinfo` lists may be shorter than the id list. The source's indexed `get` then throws, and the model reports `DenseInfoIndexOutOfRange`.
- Java `long` and `int` accumulators can overflow and wrap around. The model's accumulators are unbounded integers, so wrap-around on very large delta sums is not captured.
- `HeaderBoundReader` and `PbfDecoder` are not part of this model. They are floating-point header handling and thread coordination.
- The exception messages of the source are not modelled. Each error is a `DecodeError` value naming the failing check and the sizes or index involved.
- `ReplicationSequenceFormatter` is not part of this model. Its behaviour is modelled from its test vectors and the formatter's constructor documentation: decimal digits, zero padding to the minimum length, a '/' every grouping-length digits from the right, then the suffix.
- Negative sequence numbers are not modelled: the sequence number is a `nat`.
- The file system is the set of existing directories. `File.exists()` on a regular file of the same name, permissions and races with other processes are not modelled. `mkdir` success is a caller-supplied function.
- The replication engine, database access, pipeline wiring and test utilities of the repository are outside this model.
