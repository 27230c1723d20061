/** The read-only trending-topic store of src/services/api/topicService.js. No operation
    writes the store: each works on a copy, so here each is a function of the stored
    sequence. `getAll` returns a copy of the whole store, which in this model is the
    stored sequence itself. */
module Topics {
  import opened Wrappers
  import opened Text
  import opened Seqs

  datatype Topic = Topic(id: int, name: string, postCount: int)

  function PostCount(t: Topic): int { t.postCount }

  /** `getTrending(limit)`: at most `limit` topics, most posts first, with no topic left
      out that has more posts than one returned. */
  function Trending(topics: seq<Topic>, limit: int): (r: seq<Topic>)
    ensures limit >= 0 ==> |r| == Min(limit, |topics|)
    ensures forall i, j :: 0 <= i < j < |r| ==> r[i].postCount >= r[j].postCount
    ensures multiset(r) <= multiset(topics)
    ensures forall x, y :: x in multiset(topics) - multiset(r) && y in r ==> y.postCount >= x.postCount
  {
    TopByKey(topics, PostCount, limit)
  }

  /** `topic.name.toLowerCase().includes(query.toLowerCase())` */
  predicate NameMatches(t: Topic, query: string) {
    Contains(Lower(t.name), Lower(query))
  }

  /** `search(query)`: exactly the topics whose name contains the query, ignoring case,
      in store order. */
  function SearchTopics(topics: seq<Topic>, query: string): (r: seq<Topic>)
    ensures forall i :: 0 <= i < |r| ==> r[i] in topics && NameMatches(r[i], query)
    ensures forall i :: 0 <= i < |topics| && NameMatches(topics[i], query) ==> topics[i] in r
  {
    var keep := (t: Topic) => NameMatches(t, query);
    FilterMembers(topics, keep);
    Filter(topics, keep)
  }

  /** The search keeps store order and multiplicity: searching two stretches of the
      store gives the results of the first followed by those of the second, one topic is
      returned exactly when its name matches, and no topic comes back more often than
      the store holds it. */
  lemma SearchInStoreOrder(a: seq<Topic>, b: seq<Topic>, query: string)
    ensures SearchTopics(a + b, query) == SearchTopics(a, query) + SearchTopics(b, query)
    ensures forall x :: SearchTopics([x], query) == if NameMatches(x, query) then [x] else []
    ensures multiset(SearchTopics(a, query)) <= multiset(a)
  {
    var keep := (t: Topic) => NameMatches(t, query);
    FilterAppend(a, b, keep);
    FilterMembers(a, keep);
    forall x ensures SearchTopics([x], query) == if NameMatches(x, query) then [x] else [] {
      FilterOne(x, keep);
    }
  }

  /** The empty query matches every topic, so searching for it returns the whole store. */
  lemma {:induction false} EmptyQueryMatchesAll(topics: seq<Topic>)
    ensures SearchTopics(topics, "") == topics
  {
    if topics != [] {
      assert OccursAt(Lower(topics[0].name), Lower(""), 0);
      EmptyQueryMatchesAll(topics[1..]);
      assert topics == [topics[0]] + topics[1..];
    }
  }
}
