/**
 * The Osmosis entity model produced by the PBF decoder: users, tags, the common entity
 * metadata and the node, way and relation entities, wrapped in entity containers.
 *
 * Coordinates and timestamps are kept as the raw integers of the PBF block (before the
 * block's granularity and offsets are applied), so the values the decoder accumulates stay
 * observable.
 */
module OsmDomain {
  import opened Wrappers

  /** An OSM user; `NoUser` stands for an entity without a known author. */
  datatype User = User(id: int, name: string)

  /** The "no user" instance: id -1 and an empty name. */
  const NoUser: User := User(-1, "")

  datatype Tag = Tag(key: string, value: string)

  /**
   * The data common to every entity. `timestamp` is the raw timestamp in the block's date
   * granularity; 0 is the epoch.
   */
  datatype EntityData = EntityData(
    id: int,
    version: int,
    timestamp: int,
    user: User,
    changesetId: int,
    tags: seq<Tag>)

  /** Raw latitude and longitude of a way node whose location is carried by the way. */
  datatype Location = Location(latitude: int, longitude: int)

  datatype WayNode = WayNode(nodeId: int, location: Option<Location>)

  datatype EntityType = NodeType | WayType | RelationType

  datatype RelationMember = RelationMember(memberId: int, memberType: EntityType, role: string)

  datatype Node = Node(data: EntityData, latitude: int, longitude: int)

  datatype Way = Way(data: EntityData, wayNodes: seq<WayNode>)

  datatype Relation = Relation(data: EntityData, members: seq<RelationMember>)

  /** What the decoder hands downstream, one container per entity. */
  datatype EntityContainer =
    | NodeContainer(node: Node)
    | WayContainer(way: Way)
    | RelationContainer(relation: Relation)
  {
    function Data(): EntityData {
      match this
      case NodeContainer(n) => n.data
      case WayContainer(w) => w.data
      case RelationContainer(r) => r.data
    }
  }
}
