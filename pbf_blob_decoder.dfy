/**
 * The PBF blob decoder: turns one raw blob into the entities it holds and reports them, or a
 * failure, to its listener. The decoding steps walk the protobuf lists with running delta
 * accumulators, as Osmosis's PbfBlobDecoder does, and append every decoded entity to the
 * decoder's `decodedEntities` list. Each step is proved against the matching function of
 * `PbfSpec`.
 */
module PbfBlobDecoding {
  import opened Wrappers
  import opened OsmDomain
  import opened PbfSpec
  import Osmformat

  /** The tags of parallel key and value index lists; unequal list sizes are an error. */
  method BuildTags(keys: seq<int>, vals: seq<int>, strings: seq<string>) returns (r: Result<seq<Tag>>)
    ensures r == Tags(keys, vals, strings)
  {
    if |keys| != |vals| {
      return Err(TagCountMismatch(|keys|, |vals|));
    }
    var tags: seq<Tag> := [];
    var i := 0;
    PrependUnit(tags, Tags(keys, vals, strings));
    while i < |keys|
      invariant 0 <= i <= |keys|
      invariant Tags(keys, vals, strings) == Prepend(tags, TagsFrom(keys, vals, strings, i))
    {
      var key :- DecodeString(strings, keys[i]);
      var value :- DecodeString(strings, vals[i]);
      PrependAssoc(tags, [Tag(key, value)], TagsFrom(keys, vals, strings, i + 1));
      tags := tags + [Tag(key, value)];
      i := i + 1;
    }
    PrependUnit(tags, Ok([]));
    return Ok(tags);
  }

  /** Common data from an info message: the user (when it has one), the metadata, the tags. */
  method BuildCommonEntityDataWithInfo(
    entityId: int, keys: seq<int>, vals: seq<int>, info: Osmformat.Info, strings: seq<string>)
    returns (r: Result<EntityData>)
    ensures r == CommonDataWithInfo(entityId, keys, vals, info, strings)
  {
    var user: User;
    if info.uid.Some? && info.uid.value >= 0 && info.userSid.Some? {
      var name :- DecodeString(strings, info.userSid.value);
      user := User(info.uid.value, name);
    } else {
      user := NoUser;
    }
    var tags :- BuildTags(keys, vals, strings);
    return Ok(EntityData(entityId, info.version, info.timestamp, user, info.changeset, tags));
  }

  /** Common data without an info message: the empty version, timestamp, user and changeset. */
  method BuildCommonEntityData(entityId: int, keys: seq<int>, vals: seq<int>, strings: seq<string>)
    returns (r: Result<EntityData>)
    ensures r == CommonDataWithoutInfo(entityId, keys, vals, strings)
  {
    var tags :- BuildTags(keys, vals, strings);
    return Ok(EntityData(entityId, EmptyVersion, EmptyTimestamp, NoUser, EmptyChangeset, tags));
  }

  /** Picks the overload by whether the message carries an info message. */
  method BuildData(entityId: int, keys: seq<int>, vals: seq<int>, info: Option<Osmformat.Info>, strings: seq<string>)
    returns (r: Result<EntityData>)
    ensures r == CommonData(entityId, keys, vals, info, strings)
  {
    if info.Some? {
      r := BuildCommonEntityDataWithInfo(entityId, keys, vals, info.value, strings);
    } else {
      r := BuildCommonEntityData(entityId, keys, vals, strings);
    }
  }

  /**
   * Reads one dense node's tags from the shared key/value stream starting at `pos`: pairs up to
   * a 0 key, which is consumed, or to the end of the stream.
   */
  method ReadDenseTags(kv: seq<int>, pos: nat, strings: seq<string>) returns (r: Result<(seq<Tag>, nat)>)
    ensures r == DenseTagsAt(kv, pos, strings)
  {
    var tags: seq<Tag> := [];
    var p := pos;
    PrependTagsUnit(tags, DenseTagsAt(kv, pos, strings), p);
    while p < |kv|
      invariant pos <= p
      invariant DenseTagsAt(kv, pos, strings) == PrependTags(tags, DenseTagsAt(kv, p, strings))
      decreases |kv| - p
    {
      var keyIndex := kv[p];
      if keyIndex == 0 {
        PrependTagsUnit(tags, DenseTagsAt(kv, p, strings), p + 1);
        return Ok((tags, p + 1));
      }
      if p + 1 == |kv| {
        return Err(KeyWithoutValue);
      }
      var valueIndex := kv[p + 1];
      var key :- DecodeString(strings, keyIndex);
      var value :- DecodeString(strings, valueIndex);
      var later := DenseTagsAt(kv, p + 2, strings);
      if later.Ok? {
        AppendAssoc(tags, [Tag(key, value)], later.value.0);
      }
      tags := tags + [Tag(key, value)];
      p := p + 2;
    }
    PrependTagsUnit(tags, DenseTagsAt(kv, p, strings), p);
    return Ok((tags, p));
  }

  /**
   * The dense info accumulators hold the sums of the uid, user string, timestamp and changeset
   * deltas before node `n`, for each list that reaches that far.
   */
  ghost predicate DenseInfoTotals(
    nodes: Osmformat.DenseNodes, n: nat, userId: int, userSid: int, timestamp: int, changesetId: int)
  {
    nodes.denseinfo.Some? ==>
      var d := nodes.denseinfo.value;
      (n <= |d.uid| ==> userId == RunningSum(d.uid, n)) &&
      (n <= |d.userSid| ==> userSid == RunningSum(d.userSid, n)) &&
      (n <= |d.timestamp| ==> timestamp == RunningSum(d.timestamp, n)) &&
      (n <= |d.changeset| ==> changesetId == RunningSum(d.changeset, n))
  }

  /**
   * The common data of dense node `i`, tags aside, together with the dense info accumulators
   * advanced past it: the node id is given already decoded; with dense info, the uid, user
   * string, timestamp and changeset deltas are added (each list must reach index `i`), a user
   * is built when the decoded uid is not negative, and the version is read as it is.
   */
  method BuildDenseEntityData(
    nodes: Osmformat.DenseNodes, strings: seq<string>, i: nat,
    nodeId: int, userId: int, userSid: int, timestamp: int, changesetId: int)
    returns (r: Result<EntityData>, nextUserId: int, nextUserSid: int, nextTimestamp: int, nextChangesetId: int)
    requires i < |nodes.id| && nodeId == RunningSum(nodes.id, i + 1)
    requires DenseInfoTotals(nodes, i, userId, userSid, timestamp, changesetId)
    ensures r == DenseData(nodes, strings, i)
    ensures r.Ok? ==> DenseInfoTotals(nodes, i + 1, nextUserId, nextUserSid, nextTimestamp, nextChangesetId)
  {
    nextUserId, nextUserSid, nextTimestamp, nextChangesetId := userId, userSid, timestamp, changesetId;
    if nodes.denseinfo.None? {
      return Ok(EntityData(nodeId, EmptyVersion, EmptyTimestamp, NoUser, EmptyChangeset, [])),
        nextUserId, nextUserSid, nextTimestamp, nextChangesetId;
    }
    var d := nodes.denseinfo.value;
    if i >= |d.uid| {
      return Err(DenseInfoIndexOutOfRange(i)), nextUserId, nextUserSid, nextTimestamp, nextChangesetId;
    }
    nextUserId := userId + d.uid[i];
    if i >= |d.userSid| {
      return Err(DenseInfoIndexOutOfRange(i)), nextUserId, nextUserSid, nextTimestamp, nextChangesetId;
    }
    nextUserSid := userSid + d.userSid[i];
    if i >= |d.timestamp| {
      return Err(DenseInfoIndexOutOfRange(i)), nextUserId, nextUserSid, nextTimestamp, nextChangesetId;
    }
    nextTimestamp := timestamp + d.timestamp[i];
    if i >= |d.changeset| {
      return Err(DenseInfoIndexOutOfRange(i)), nextUserId, nextUserSid, nextTimestamp, nextChangesetId;
    }
    nextChangesetId := changesetId + d.changeset[i];

    var user: User;
    if nextUserId >= 0 {
      if !ValidString(strings, nextUserSid) {
        return Err(StringIndexOutOfRange(nextUserSid)), nextUserId, nextUserSid, nextTimestamp, nextChangesetId;
      }
      user := User(nextUserId, strings[nextUserSid]);
    } else {
      user := NoUser;
    }
    if i >= |d.version| {
      return Err(DenseInfoIndexOutOfRange(i)), nextUserId, nextUserSid, nextTimestamp, nextChangesetId;
    }
    r := Ok(EntityData(nodeId, d.version[i], nextTimestamp, user, nextChangesetId, []));
  }

  /**
   * The way nodes of one way: node ids accumulate the ref deltas; the location deltas
   * accumulate, and give the node a location, only while both location lists still have an
   * entry at that index.
   */
  method BuildWayNodes(refs: seq<int>, lats: seq<int>, lons: seq<int>) returns (wayNodes: seq<WayNode>)
    ensures wayNodes == WayNodes(refs, lats, lons)
  {
    var nodeId := 0;
    var latitude := 0;
    var longitude := 0;
    wayNodes := [];
    var i := 0;
    while i < |refs|
      invariant 0 <= i <= |refs|
      invariant nodeId == RunningSum(refs, i)
      invariant i <= |lats| && i <= |lons| ==> latitude == RunningSum(lats, i) && longitude == RunningSum(lons, i)
      invariant wayNodes == WayNodes(refs, lats, lons)[..i]
    {
      nodeId := nodeId + refs[i];
      if i < |lats| && i < |lons| {
        latitude := latitude + lats[i];
        longitude := longitude + lons[i];
        wayNodes := wayNodes + [WayNode(nodeId, Some(Location(latitude, longitude)))];
      } else {
        wayNodes := wayNodes + [WayNode(nodeId, None)];
      }
      assert WayNodes(refs, lats, lons)[..i + 1] == WayNodes(refs, lats, lons)[..i] + [WayNodes(refs, lats, lons)[i]];
      i := i + 1;
    }
    assert WayNodes(refs, lats, lons)[..i] == WayNodes(refs, lats, lons);
  }

  /**
   * The members of a relation from parallel id, role and type lists: the lists must have one
   * size, ids accumulate their deltas, and a type code outside NODE, WAY and RELATION is an
   * error raised before the member's role is looked up.
   */
  method BuildRelationMembers(ids: seq<int>, roles: seq<int>, types: seq<int>, strings: seq<string>)
    returns (r: Result<seq<RelationMember>>)
    ensures r == Members(ids, roles, types, strings)
  {
    if |ids| != |roles| || |ids| != |types| {
      return Err(MemberCountMismatch(|ids|, |roles|, |types|));
    }
    var members: seq<RelationMember> := [];
    var memberId := 0;
    var i := 0;
    PrependUnit(members, Members(ids, roles, types, strings));
    while i < |ids|
      invariant 0 <= i <= |ids|
      invariant memberId == RunningSum(ids, i)
      invariant Members(ids, roles, types, strings) == Prepend(members, MembersFrom(ids, roles, types, strings, i))
    {
      var memberType := types[i];
      memberId := memberId + ids[i];
      var entityType: EntityType;
      if memberType == Osmformat.NODE {
        entityType := NodeType;
      } else if memberType == Osmformat.WAY {
        entityType := WayType;
      } else if memberType == Osmformat.RELATION {
        entityType := RelationType;
      } else {
        return Err(UnsupportedMemberType(memberType));
      }
      var role :- DecodeString(strings, roles[i]);
      var member := RelationMember(memberId, entityType, role);
      PrependAssoc(members, [member], MembersFrom(ids, roles, types, strings, i + 1));
      members := members + [member];
      i := i + 1;
    }
    PrependUnit(members, Ok([]));
    return Ok(members);
  }

  /** What the decoder reports when it has finished a blob. */
  datatype ListenerEvent = Completed(entities: seq<EntityContainer>) | Errored

  /** A listener that records, in order, every report it receives. */
  class PbfBlobDecoderListener {
    var events: seq<ListenerEvent>

    constructor()
      ensures events == []
    {
      events := [];
    }

    method Complete(decodedEntities: seq<EntityContainer>)
      modifies this
      ensures events == old(events) + [Completed(decodedEntities)]
    {
      events := events + [Completed(decodedEntities)];
    }

    method Error()
      modifies this
      ensures events == old(events) + [Errored]
    {
      events := events + [Errored];
    }
  }

  /**
   * Decodes one raw blob. The blob parser is given as `blobToBlockMapper`, which yields `None`
   * when the blob cannot be parsed.
   */
  class PbfBlobDecoder {
    const rawBlob: Osmformat.RawBlob
    const listener: PbfBlobDecoderListener
    const blobToBlockMapper: Osmformat.RawBlob -> Option<Osmformat.PbfBlock>
    var decodedEntities: seq<EntityContainer>

    constructor(
      rawBlob: Osmformat.RawBlob,
      listener: PbfBlobDecoderListener,
      blobToBlockMapper: Osmformat.RawBlob -> Option<Osmformat.PbfBlock>)
      ensures this.rawBlob == rawBlob && this.listener == listener
      ensures this.blobToBlockMapper == blobToBlockMapper
      ensures decodedEntities == []
    {
      this.rawBlob := rawBlob;
      this.listener := listener;
      this.blobToBlockMapper := blobToBlockMapper;
      decodedEntities := [];
    }

    /** Appends one node per node message, in order. */
    method ProcessNodes(nodes: seq<Osmformat.Node>, strings: seq<string>) returns (st: Outcome)
      modifies this
      ensures Reports(PlainNodes(nodes, strings), old(decodedEntities), decodedEntities, st)
    {
      ghost var done: seq<EntityContainer> := [];
      var i := 0;
      ghost var rs := PlainNodeResults(nodes, strings);
      PrependUnit(done, PlainNodes(nodes, strings));
      while i < |nodes|
        invariant 0 <= i <= |nodes|
        invariant decodedEntities == old(decodedEntities) + done
        invariant PlainNodes(nodes, strings) == Prepend(done, CollectFrom(rs, i))
      {
        var node := nodes[i];
        var data := BuildData(node.id, node.keys, node.vals, node.info, strings);
        if data.Err? {
          return Fail(data.error);
        }
        var c := NodeContainer(Node(data.value, node.lat, node.lon));
        PrependAssoc(done, [c], CollectFrom(rs, i + 1));
        AppendAssoc(old(decodedEntities), done, [c]);
        decodedEntities := decodedEntities + [c];
        done := done + [c];
        i := i + 1;
      }
      PrependUnit(done, Ok([]));
      return Pass;
    }

    /**
     * Appends one node per dense node: ids, coordinates and the dense info fields accumulate
     * their deltas, and every node's tags are read from the shared key/value stream.
     */
    method ProcessDenseNodes(nodes: Osmformat.DenseNodes, strings: seq<string>) returns (st: Outcome)
      modifies this
      ensures Reports(DenseNodesOf(nodes, strings), old(decodedEntities), decodedEntities, st)
    {
      if |nodes.id| != |nodes.lat| || |nodes.id| != |nodes.lon| {
        return Fail(DenseCountMismatch(|nodes.id|, |nodes.lat|, |nodes.lon|));
      }
      var pos: nat := 0;
      var nodeId := 0;
      var latitude := 0;
      var longitude := 0;
      var userId := 0;
      var userSid := 0;
      var timestamp := 0;
      var changesetId := 0;
      ghost var done: seq<EntityContainer> := [];
      var i := 0;
      PrependUnit(done, DenseNodesOf(nodes, strings));
      while i < |nodes.id|
        invariant 0 <= i <= |nodes.id|
        invariant nodeId == RunningSum(nodes.id, i)
        invariant latitude == RunningSum(nodes.lat, i) && longitude == RunningSum(nodes.lon, i)
        invariant DenseInfoTotals(nodes, i, userId, userSid, timestamp, changesetId)
        invariant decodedEntities == old(decodedEntities) + done
        invariant DenseNodesOf(nodes, strings) == Prepend(done, DenseFrom(nodes, strings, i, pos))
      {
        nodeId := nodeId + nodes.id[i];
        latitude := latitude + nodes.lat[i];
        longitude := longitude + nodes.lon[i];

        var data;
        data, userId, userSid, timestamp, changesetId :=
          BuildDenseEntityData(nodes, strings, i, nodeId, userId, userSid, timestamp, changesetId);
        if data.Err? {
          DenseFromDataFails(nodes, strings, i, pos);
          return Fail(data.error);
        }

        var tags := ReadDenseTags(nodes.keysVals, pos, strings);
        if tags.Err? {
          DenseFromTagsFail(nodes, strings, i, pos);
          return Fail(tags.error);
        }
        var c := NodeContainer(Node(data.value.(tags := tags.value.0), latitude, longitude));
        DenseFromStep(nodes, strings, i, pos);
        PrependAssoc(done, [c], DenseFrom(nodes, strings, i + 1, tags.value.1));
        pos := tags.value.1;
        AppendAssoc(old(decodedEntities), done, [c]);
        decodedEntities := decodedEntities + [c];
        done := done + [c];
        i := i + 1;
      }
      PrependUnit(done, Ok([]));
      return Pass;
    }

    /** Appends one way per way message, in order, each with its own way nodes. */
    method ProcessWays(ways: seq<Osmformat.Way>, strings: seq<string>) returns (st: Outcome)
      modifies this
      ensures Reports(Ways(ways, strings), old(decodedEntities), decodedEntities, st)
    {
      ghost var done: seq<EntityContainer> := [];
      var i := 0;
      ghost var rs := WayResults(ways, strings);
      PrependUnit(done, Ways(ways, strings));
      while i < |ways|
        invariant 0 <= i <= |ways|
        invariant decodedEntities == old(decodedEntities) + done
        invariant Ways(ways, strings) == Prepend(done, CollectFrom(rs, i))
      {
        var way := ways[i];
        var data := BuildData(way.id, way.keys, way.vals, way.info, strings);
        if data.Err? {
          return Fail(data.error);
        }
        var wayNodes := BuildWayNodes(way.refs, way.lat, way.lon);
        var c := WayContainer(Way(data.value, wayNodes));
        PrependAssoc(done, [c], CollectFrom(rs, i + 1));
        AppendAssoc(old(decodedEntities), done, [c]);
        decodedEntities := decodedEntities + [c];
        done := done + [c];
        i := i + 1;
      }
      PrependUnit(done, Ok([]));
      return Pass;
    }

    /** Appends one relation per relation message, in order, each with its own members. */
    method ProcessRelations(relations: seq<Osmformat.Relation>, strings: seq<string>) returns (st: Outcome)
      modifies this
      ensures Reports(Relations(relations, strings), old(decodedEntities), decodedEntities, st)
    {
      ghost var done: seq<EntityContainer> := [];
      var i := 0;
      ghost var rs := RelationResults(relations, strings);
      PrependUnit(done, Relations(relations, strings));
      while i < |relations|
        invariant 0 <= i <= |relations|
        invariant decodedEntities == old(decodedEntities) + done
        invariant Relations(relations, strings) == Prepend(done, CollectFrom(rs, i))
      {
        var relation := relations[i];
        var data := BuildData(relation.id, relation.keys, relation.vals, relation.info, strings);
        if data.Err? {
          return Fail(data.error);
        }
        var members := BuildRelationMembers(relation.memids, relation.rolesSid, relation.types, strings);
        if members.Err? {
          return Fail(members.error);
        }
        var c := RelationContainer(Relation(data.value, members.value));
        PrependAssoc(done, [c], CollectFrom(rs, i + 1));
        AppendAssoc(old(decodedEntities), done, [c]);
        decodedEntities := decodedEntities + [c];
        done := done + [c];
        i := i + 1;
      }
      PrependUnit(done, Ok([]));
      return Pass;
    }

    /** Decodes group `i` of a block: its dense nodes, its nodes, its ways, then its relations. */
    method ProcessGroup(groups: seq<Osmformat.PrimitiveGroup>, i: nat, strings: seq<string>) returns (st: Outcome)
      requires i < |groups|
      modifies this
      ensures Reports(GroupResults(groups, strings)[i], old(decodedEntities), decodedEntities, st)
    {
      var group := groups[i];
      GroupOfParts(group, strings);
      st := ProcessDenseNodes(group.dense, strings);
      if st.Fail? {
        return;
      }
      ghost var afterDense := decodedEntities;
      st := ProcessNodes(group.nodes, strings);
      if st.Fail? {
        return;
      }
      ghost var afterNodes := decodedEntities;
      st := ProcessWays(group.ways, strings);
      if st.Fail? {
        return;
      }
      ghost var afterWays := decodedEntities;
      st := ProcessRelations(group.relations, strings);
      if st.Fail? {
        return;
      }
      ghost var dense, nodes, ways := DenseNodesOf(group.dense, strings).value,
        PlainNodes(group.nodes, strings).value, Ways(group.ways, strings).value;
      ghost var relations := Relations(group.relations, strings).value;
      AppendAssoc(old(decodedEntities), dense, nodes);
      AppendAssoc(old(decodedEntities), dense + nodes, ways);
      AppendAssoc(old(decodedEntities), dense + nodes + ways, relations);
    }

    /** Decodes every group of a block in order, looking strings up in the block's table. */
    method ProcessOsmPrimitives(block: Osmformat.PrimitiveBlock) returns (st: Outcome)
      modifies this
      ensures Reports(PrimitivesOf(block), old(decodedEntities), decodedEntities, st)
    {
      var groups := block.primitivegroup;
      var strings := block.stringtable;
      ghost var rs := GroupResults(groups, strings);
      ghost var done: seq<EntityContainer> := [];
      var i := 0;
      PrependUnit(done, PrimitivesOf(block));
      while i < |groups|
        invariant 0 <= i <= |groups|
        invariant decodedEntities == old(decodedEntities) + done
        invariant PrimitivesOf(block) == Prepend(done, ConcatFrom(rs, i))
      {
        ghost var before := decodedEntities;
        st := ProcessGroup(groups, i, strings);
        ConcatStep(rs, i, done, before, decodedEntities, st);
        if st.Fail? {
          return;
        }
        AppendAssoc(old(decodedEntities), done, rs[i].value);
        done := done + rs[i].value;
        i := i + 1;
      }
      PrependUnit(done, Ok([]));
      return Pass;
    }

    /** Parses the blob and decodes its primitive block; a header block here is an error. */
    method RunAndValidate() returns (st: Outcome)
      modifies this
      ensures Reports(DecodeBlob(blobToBlockMapper(rawBlob)), [], decodedEntities, st)
    {
      decodedEntities := [];
      var pbfBlock := blobToBlockMapper(rawBlob);
      if pbfBlock.None? {
        return Fail(UnreadableBlob);
      }
      if pbfBlock.value.headerBlock.Some? {
        return Fail(RepeatedHeaderBlock);
      }
      if pbfBlock.value.primitiveBlock.Some? {
        st := ProcessOsmPrimitives(pbfBlock.value.primitiveBlock.value);
      } else {
        st := Pass;
      }
    }

    /**
     * Decodes the blob and reports exactly once: the decoded entities when decoding succeeded,
     * an error otherwise.
     */
    method Run()
      modifies this, listener
      ensures
        var outcome := DecodeBlob(blobToBlockMapper(rawBlob));
        listener.events == old(listener.events) + [if outcome.Ok? then Completed(outcome.value) else Errored]
    {
      var st := RunAndValidate();
      ghost var outcome := DecodeBlob(blobToBlockMapper(rawBlob));
      if outcome.Ok? {
        assert [] + outcome.value == outcome.value;
      }
      if st.Pass? {
        listener.Complete(decodedEntities);
      } else {
        listener.Error();
      }
    }
  }
}
