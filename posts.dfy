/** Posts as the search endpoint returns them, and the scan order over
    their tags that the home view uses to build its tag options. */
module Posts {

  /** One post of a search response. The view shows `title`, `body` and
      `tags`; only `tags` takes part in its logic. */
  datatype Post = Post(id: int, title: string, body: string, tags: seq<string>)

  /** True iff no element of `s` appears twice. */
  predicate NoDuplicates(s: seq<string>)
  {
    forall i, j :: 0 <= i < j < |s| ==> s[i] != s[j]
  }

  /** True iff tag `t` is among the tags of some post in `posts`. */
  predicate Occurs(t: string, posts: seq<Post>)
  {
    exists i :: 0 <= i < |posts| && t in posts[i].tags
  }

  /** Every tag of every post, in the order the tag-universe fold visits them:
      posts in order and, within a post, its tags in order. */
  function Flatten(posts: seq<Post>): seq<string>
  {
    if |posts| == 0 then [] else Flatten(posts[..|posts| - 1]) + posts[|posts| - 1].tags
  }

  /** A tag is in the flattened scan exactly when some post carries it. */
  lemma {:induction false} FlattenOccurs(posts: seq<Post>, t: string)
    ensures t in Flatten(posts) <==> Occurs(t, posts)
  {
    if |posts| > 0 {
      var init := posts[..|posts| - 1];
      var last := posts[|posts| - 1];
      FlattenOccurs(init, t);
      if t in Flatten(init) {
        var i :| 0 <= i < |init| && t in init[i].tags;
        assert posts[i] == init[i];
      } else if t in last.tags {
        assert t in posts[|posts| - 1].tags;
      }
      if Occurs(t, posts) {
        var i :| 0 <= i < |posts| && t in posts[i].tags;
        if i < |init| {
          assert init[i] == posts[i];
        }
      }
    }
  }
}
