/** The in-memory community store of src/services/api/communityService.js: the most
    popular communities, lookup by identifier and by name, membership by `join` and
    `leave`, and `create`. */
module Communities {
  import opened Wrappers
  import opened Text
  import opened Seqs
  import Ids

  /** A community record; `createdAt` is a timestamp in milliseconds. */
  datatype Community = Community(
    id: int,
    name: string,
    description: string,
    memberCount: int,
    isJoined: bool,
    createdAt: int,
    rules: seq<string>)

  /** The fields a caller hands to `create`; an `id` present here overrides the fresh one. */
  datatype CommunityData = CommunityData(id: Option<int>, name: string, description: string)

  const CommunityNotFound := "Community not found"

  function MemberCount(c: Community): int { c.memberCount }

  /** `getPopular(limit)`: at most `limit` communities, most members first, drawn from the
      store, with no community left out that has more members than one returned. */
  function Popular(communities: seq<Community>, limit: int): (r: seq<Community>)
    ensures limit >= 0 ==> |r| == Min(limit, |communities|)
    ensures forall i, j :: 0 <= i < j < |r| ==> r[i].memberCount >= r[j].memberCount
    ensures multiset(r) <= multiset(communities)
    ensures forall x, y :: x in multiset(communities) - multiset(r) && y in r ==> y.memberCount >= x.memberCount
  {
    TopByKey(communities, MemberCount, limit)
  }

  /** `findIndex(c => c.Id === id)` */
  function IndexById(communities: seq<Community>, id: int): (r: Option<nat>)
    ensures r.Some? ==> r.value < |communities| && communities[r.value].id == id
    ensures r.Some? ==> forall j :: 0 <= j < r.value ==> communities[j].id != id
    ensures r.None? ==> forall j :: 0 <= j < |communities| ==> communities[j].id != id
  {
    FindFirst(communities, (c: Community) => c.id == id)
  }

  /** `getById(id)`: the first community with the identifier, or "Community not found". */
  function FindById(communities: seq<Community>, id: int): (r: Result<Community>)
    ensures r.Ok? <==> exists i :: 0 <= i < |communities| && communities[i].id == id
    ensures r.Ok? ==> r.value.id == id && r.value in communities
    ensures r.Ok? ==> exists i :: (0 <= i < |communities| && r.value == communities[i]
                                   && forall j :: 0 <= j < i ==> communities[j].id != id)
    ensures r.Err? ==> r.message == CommunityNotFound
  {
    match IndexById(communities, id)
    case None => Err(CommunityNotFound)
    case Some(i) => Ok(communities[i])
  }

  /** `getByName(name)`: the first community whose name equals `name` ignoring case. */
  function FindByName(communities: seq<Community>, name: string): (r: Result<Community>)
    ensures r.Ok? <==> exists i :: 0 <= i < |communities| && Lower(communities[i].name) == Lower(name)
    ensures r.Ok? ==> Lower(r.value.name) == Lower(name)
    ensures r.Ok? ==> exists i :: (0 <= i < |communities| && r.value == communities[i]
                                   && forall j :: 0 <= j < i ==> Lower(communities[j].name) != Lower(name))
    ensures r.Err? ==> r.message == CommunityNotFound
  {
    match FindFirst(communities, (c: Community) => Lower(c.name) == Lower(name))
    case None => Err(CommunityNotFound)
    case Some(i) => Ok(communities[i])
  }

  /** The record after `join`: one more member and joined, unless already joined. */
  function JoinRecord(c: Community): (j: Community)
    ensures j.isJoined
    ensures j.memberCount == c.memberCount + (if c.isJoined then 0 else 1)
    ensures j.(memberCount := c.memberCount, isJoined := c.isJoined) == c
  {
    if c.isJoined then c else c.(memberCount := c.memberCount + 1, isJoined := true)
  }

  /** The record after `leave`: one member fewer and not joined, unless not joined. */
  function LeaveRecord(c: Community): (l: Community)
    ensures !l.isJoined
    ensures l.memberCount == c.memberCount - (if c.isJoined then 1 else 0)
    ensures l.(memberCount := c.memberCount, isJoined := c.isJoined) == c
  {
    if c.isJoined then c.(memberCount := c.memberCount - 1, isJoined := false) else c
  }

  /** Joining twice is joining once. */
  lemma JoinIdempotent(c: Community)
    ensures JoinRecord(JoinRecord(c)) == JoinRecord(c)
  {
  }

  /** Joining a community one has not joined and then leaving it restores the record. */
  lemma JoinThenLeaveRestores(c: Community)
    requires !c.isJoined
    ensures LeaveRecord(JoinRecord(c)) == c
  {
  }

  /** Leaving a community one has joined and then joining it restores the record. */
  lemma LeaveThenJoinRestores(c: Community)
    requires c.isJoined
    ensures JoinRecord(LeaveRecord(c)) == c
  {
  }

  function IdsOf(communities: seq<Community>): (ids: seq<int>)
    ensures |ids| == |communities| && forall i :: 0 <= i < |communities| ==> ids[i] == communities[i].id
  {
    seq(|communities|, i requires 0 <= i < |communities| => communities[i].id)
  }

  /** The community `create` builds: the caller's fields, then the forced ones. */
  function NewCommunity(data: CommunityData, freshId: int, now: int): (c: Community)
    ensures c.id == (if data.id.Some? then data.id.value else freshId)
    ensures c.name == data.name && c.description == data.description
    ensures c.memberCount == 1 && c.isJoined && c.createdAt == now && c.rules == []
  {
    Community(if data.id.Some? then data.id.value else freshId,
              data.name, data.description, 1, true, now, [])
  }

  /** The service object; `communities` is its array, in store order. */
  class CommunityService {
    var communities: seq<Community>

    constructor (initial: seq<Community>)
      ensures communities == initial
    {
      communities := initial;
    }

    /** `join(id)` */
    method Join(id: int) returns (r: Result<Community>)
      modifies this
      ensures IndexById(old(communities), id).None? ==>
        r == Err(CommunityNotFound) && communities == old(communities)
      ensures IndexById(old(communities), id).Some? ==>
        var i := IndexById(old(communities), id).value;
        communities == old(communities)[i := JoinRecord(old(communities)[i])] && r == Ok(communities[i])
    {
      var found := IndexById(communities, id);
      if found.None? {
        return Err(CommunityNotFound);
      }
      var i := found.value;
      var community := communities[i];
      if !community.isJoined {
        community := community.(memberCount := community.memberCount + 1);
        community := community.(isJoined := true);
      }
      communities := communities[i := community];
      r := Ok(community);
    }

    /** `leave(id)` */
    method Leave(id: int) returns (r: Result<Community>)
      modifies this
      ensures IndexById(old(communities), id).None? ==>
        r == Err(CommunityNotFound) && communities == old(communities)
      ensures IndexById(old(communities), id).Some? ==>
        var i := IndexById(old(communities), id).value;
        communities == old(communities)[i := LeaveRecord(old(communities)[i])] && r == Ok(communities[i])
    {
      var found := IndexById(communities, id);
      if found.None? {
        return Err(CommunityNotFound);
      }
      var i := found.value;
      var community := communities[i];
      if community.isJoined {
        community := community.(memberCount := community.memberCount - 1);
        community := community.(isJoined := false);
      }
      communities := communities[i := community];
      r := Ok(community);
    }

    /** `create(communityData)` at time `now`: the new community goes to the end. */
    method Create(data: CommunityData, now: int) returns (r: Community)
      modifies this
      ensures r == NewCommunity(data, Ids.NextId(IdsOf(old(communities))), now)
      ensures communities == old(communities) + [r]
    {
      var freshId := Ids.NextId(IdsOf(communities));
      r := NewCommunity(data, freshId, now);
      communities := communities + [r];
    }
  }
}
