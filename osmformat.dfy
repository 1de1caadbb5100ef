/**
 * The messages of the OSM PBF format (osmformat.proto) that the blob decoder reads, after
 * protobuf parsing. Repeated fields are sequences of integers; optional sub-messages are
 * `Option`s. Scalar fields of `Info` hold the value the protobuf parser reports, which is the
 * field's default when the field is absent (version defaults to -1).
 */
module Osmformat {
  import opened Wrappers

  datatype Info = Info(
    version: int,
    timestamp: int,
    changeset: int,
    uid: Option<int>,
    userSid: Option<int>)

  datatype Node = Node(
    id: int,
    keys: seq<int>,
    vals: seq<int>,
    info: Option<Info>,
    lat: int,
    lon: int)

  /** Parallel per-node metadata lists; all but `version` are delta coded. */
  datatype DenseInfo = DenseInfo(
    version: seq<int>,
    timestamp: seq<int>,
    changeset: seq<int>,
    uid: seq<int>,
    userSid: seq<int>)

  /**
   * Nodes stored column-wise: ids, latitudes and longitudes are delta coded; `keysVals` holds
   * every node's tags as key/value string indexes, each node's run ended by a 0.
   */
  datatype DenseNodes = DenseNodes(
    id: seq<int>,
    denseinfo: Option<DenseInfo>,
    lat: seq<int>,
    lon: seq<int>,
    keysVals: seq<int>)

  /** `refs`, and the optional `lat`/`lon` location lists, are delta coded. */
  datatype Way = Way(
    id: int,
    keys: seq<int>,
    vals: seq<int>,
    info: Option<Info>,
    refs: seq<int>,
    lat: seq<int>,
    lon: seq<int>)

  /** Member type codes of the enum Relation.MemberType. */
  const NODE: int := 0
  const WAY: int := 1
  const RELATION: int := 2

  /** `memids` is delta coded; `types` holds raw member type codes. */
  datatype Relation = Relation(
    id: int,
    keys: seq<int>,
    vals: seq<int>,
    info: Option<Info>,
    rolesSid: seq<int>,
    memids: seq<int>,
    types: seq<int>)

  /** A group with no dense nodes carries the empty `DenseNodes` message. */
  datatype PrimitiveGroup = PrimitiveGroup(
    nodes: seq<Node>,
    dense: DenseNodes,
    ways: seq<Way>,
    relations: seq<Relation>)

  datatype PrimitiveBlock = PrimitiveBlock(
    stringtable: seq<string>,
    primitivegroup: seq<PrimitiveGroup>)

  /** The file header; the blob decoder only checks for its presence. */
  datatype HeaderBlock = HeaderBlock(requiredFeatures: seq<string>)

  /** One parsed blob: a header block, a primitive block, or neither. */
  datatype PbfBlock = PbfBlock(
    headerBlock: Option<HeaderBlock>,
    primitiveBlock: Option<PrimitiveBlock>)

  /** A blob as cut from the PBF stream, still compressed and unparsed. */
  datatype RawBlob = RawBlob(blobType: string, data: seq<bv8>)
}
