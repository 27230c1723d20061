/** The community hook of src/hooks/useCommunities.js: the popular-community list it keeps,
    the community it looks up by name, and the join toggle, which asks the store to join
    or leave and then flips its own copy of the community. */
module CommunitiesHook {
  import opened Wrappers
  import opened Communities
  import opened Toasts

  /** How many communities the hook asks for. */
  const PopularLimit := 10

  /** The flip the hook applies to its copy: membership toggled, member count moved by one. */
  function Flipped(c: Community): (f: Community)
    ensures f.isJoined == !c.isJoined
    ensures f.memberCount == (if c.isJoined then c.memberCount - 1 else c.memberCount + 1)
    ensures f.(isJoined := c.isJoined, memberCount := c.memberCount) == c
  {
    c.(isJoined := !c.isJoined, memberCount := if c.isJoined then c.memberCount - 1 else c.memberCount + 1)
  }

  /** The flip is the store's `leave` on a joined community and its `join` otherwise. */
  lemma FlippedIsStoreRule(c: Community)
    ensures Flipped(c) == (if c.isJoined then LeaveRecord(c) else JoinRecord(c))
  {
  }

  /** The list updater: every community of the list with the identifier is flipped, and
      no other changes. */
  function FlipJoin(list: seq<Community>, id: int): (r: seq<Community>)
    ensures |r| == |list| && IdsOf(r) == IdsOf(list)
    ensures forall k :: 0 <= k < |list| ==> r[k] == (if list[k].id == id then Flipped(list[k]) else list[k])
  {
    seq(|list|, k requires 0 <= k < |list| => if list[k].id == id then Flipped(list[k]) else list[k])
  }

  /** Two toggles restore every community: membership and member count included. */
  lemma {:induction false} FlipJoinTwice(list: seq<Community>, id: int)
    ensures FlipJoin(FlipJoin(list, id), id) == list
  {
    var once := FlipJoin(list, id);
    var twice := FlipJoin(once, id);
    forall k | 0 <= k < |list| ensures twice[k] == list[k] {
      if list[k].id == id {
        assert once[k] == Flipped(list[k]);
        assert twice[k] == Flipped(Flipped(list[k]));
      }
    }
  }

  /** Whether the toggle leaves: the hook's first community with the identifier is joined.
      A community missing from the hook's list counts as not joined. */
  predicate Leaving(list: seq<Community>, id: int) {
    match IndexById(list, id)
    case Some(i) => list[i].isJoined
    case None => false
  }

  /** Every community of the list is the store's current record for its identifier. */
  predicate Mirrors(list: seq<Community>, store: seq<Community>) {
    forall k :: 0 <= k < |list| ==> FindById(store, list[k].id) == Ok(list[k])
  }

  /** The lookup by identifier depends only on the identifiers. */
  lemma IndexSameIds(a: seq<Community>, b: seq<Community>, id: int)
    requires IdsOf(a) == IdsOf(b)
    ensures IndexById(a, id) == IndexById(b, id)
  {
    assert |a| == |b|;
    assert forall j :: 0 <= j < |a| ==> a[j].id == b[j].id by {
      forall j | 0 <= j < |a| ensures a[j].id == b[j].id {
        assert IdsOf(a)[j] == IdsOf(b)[j];
      }
    }
  }

  /** When the hook's list is in step with the store, the hook leaves exactly when the
      store's record is joined. */
  lemma MirroredDecision(list: seq<Community>, store: seq<Community>, id: int)
    requires Mirrors(list, store) && IndexById(list, id).Some?
    ensures Leaving(list, id) == store[IndexById(store, id).value].isJoined
  {
    var i := IndexById(list, id).value;
    assert FindById(store, list[i].id) == Ok(list[i]);
  }

  /** When the hook's list is in step with the store, the flip it applies after the
      store's `join` or `leave` keeps it in step. */
  lemma {:induction false} FlipKeepsMirror(list: seq<Community>, store: seq<Community>, id: int)
    requires Mirrors(list, store) && IndexById(store, id).Some?
    ensures var i := IndexById(store, id).value;
      var after := store[i := if Leaving(list, id) then LeaveRecord(store[i]) else JoinRecord(store[i])];
      Mirrors(FlipJoin(list, id), after)
  {
    var i := IndexById(store, id).value;
    var leaving := Leaving(list, id);
    var after := store[i := if leaving then LeaveRecord(store[i]) else JoinRecord(store[i])];
    var r := FlipJoin(list, id);
    assert IdsOf(after) == IdsOf(store);
    forall k | 0 <= k < |r| ensures FindById(after, r[k].id) == Ok(r[k]) {
      IndexSameIds(after, store, list[k].id);
      var j := IndexById(store, list[k].id).value;
      assert store[j] == list[k];
      if list[k].id == id {
        MirroredDecision(list, store, id);
        assert j == i;
        assert after[i] == Flipped(store[i]);
      } else {
        assert j != i;
      }
    }
  }

  /** The hook instance. `current` is the community found by name, `None` for null. */
  class CommunitiesView {
    var popular: seq<Community>
    var current: Option<Community>
    var loading: bool
    var error: string

    constructor ()
      ensures popular == [] && current == None && loading && error == ""
    {
      popular := [];
      current := None;
      loading := true;
      error := "";
    }

    /** `fetchCommunity(communityName)`: the store's `getByName`, or its message. */
    method FetchCommunity(service: CommunityService, name: string)
      modifies this
      ensures popular == old(popular) && !loading
      ensures FindByName(service.communities, name).Ok? ==>
        current == Some(FindByName(service.communities, name).value) && error == ""
      ensures FindByName(service.communities, name).Err? ==>
        current == old(current) && error == CommunityNotFound
    {
      loading := true;
      error := "";
      var response := FindByName(service.communities, name);
      if response.Err? {
        error := if response.message == "" then "Failed to fetch community" else response.message;
      } else {
        current := Some(response.value);
      }
      loading := false;
    }

    /** `fetchPopularCommunities()`; `failure` is the message of a rejected request, if
        the request is rejected. */
    method FetchPopular(service: CommunityService, failure: Option<string>)
      modifies this
      ensures current == old(current) && !loading
      ensures failure.None? ==> popular == Popular(service.communities, PopularLimit) && error == ""
      ensures failure.Some? ==>
        && popular == old(popular)
        && error == (if failure.value == "" then "Failed to fetch communities" else failure.value)
    {
      loading := true;
      error := "";
      if failure.Some? {
        error := if failure.value == "" then "Failed to fetch communities" else failure.value;
      } else {
        popular := Popular(service.communities, PopularLimit);
      }
      loading := false;
    }

    /** `handleJoinCommunity(communityId)`: `leave` when the hook's copy is joined and
        `join` otherwise; on success the notification and the flip of the hook's copy, on
        the store's refusal only the failure notification. */
    method HandleJoin(service: CommunityService, id: int) returns (toast: Toast)
      modifies this, service
      ensures current == old(current) && loading == old(loading) && error == old(error)
      ensures IndexById(old(service.communities), id).None? ==>
        && toast == Failure("Failed to update community membership")
        && popular == old(popular) && service.communities == old(service.communities)
      ensures IndexById(old(service.communities), id).Some? ==>
        var i := IndexById(old(service.communities), id).value;
        var c := old(service.communities)[i];
        && popular == FlipJoin(old(popular), id)
        && (Leaving(old(popular), id) ==>
              toast == Success("Left community") && service.communities == old(service.communities)[i := LeaveRecord(c)])
        && (!Leaving(old(popular), id) ==>
              toast == Success("Joined community!") && service.communities == old(service.communities)[i := JoinRecord(c)])
      ensures Mirrors(old(popular), old(service.communities)) ==> Mirrors(popular, service.communities)
    {
      if IndexById(service.communities, id).Some? && Mirrors(popular, service.communities) {
        FlipKeepsMirror(popular, service.communities, id);
      }
      var r: Result<Community>;
      var leaving := Leaving(popular, id);
      if leaving {
        r := service.Leave(id);
      } else {
        r := service.Join(id);
      }
      if r.Err? {
        toast := Failure("Failed to update community membership");
        return;
      }
      toast := Success(if leaving then "Left community" else "Joined community!");
      popular := FlipJoin(popular, id);
    }
  }
}
