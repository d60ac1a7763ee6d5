/** The list the home view displays: the loaded posts narrowed by the
    selected tags, where a post stays only if it carries every selected tag.
    Filtering is local and never issues a request. */
module TagFilter {
  import opened Posts

  /** `every` selected tag is `included` in the post's tags. */
  predicate HasEveryTag(p: Post, selected: seq<string>)
  {
    forall t :: t in selected ==> t in p.tags
  }

  /** Carrying every selected tag is the selection being a subset of the post's tags. */
  lemma HasEveryTagIsSubset(p: Post, selected: seq<string>)
    ensures HasEveryTag(p, selected) <==> (set t | t in selected) <= (set t | t in p.tags)
  {
    var want, have := set t | t in selected, set t | t in p.tags;
    if want <= have {
      forall t | t in selected ensures t in p.tags {
        assert t in want;
      }
    }
  }

  /** `posts.filter(...)`: the posts carrying every selected tag, in their order. */
  function KeepTagged(posts: seq<Post>, selected: seq<string>): (r: seq<Post>)
    ensures |r| <= |posts|
    ensures forall p :: p in r <==> p in posts && HasEveryTag(p, selected)
  {
    if |posts| == 0 then []
    else
      assert posts == [posts[0]] + posts[1..];
      (if HasEveryTag(posts[0], selected) then [posts[0]] else []) + KeepTagged(posts[1..], selected)
  }

  /** The displayed list: the posts themselves when no tag is selected, the
      filtered posts otherwise. */
  function FilteredPosts(posts: seq<Post>, selected: seq<string>): (r: seq<Post>)
    ensures |selected| == 0 ==> r == posts
    ensures |selected| > 0 ==> forall p :: p in r <==> p in posts && HasEveryTag(p, selected)
  {
    if |selected| > 0 then KeepTagged(posts, selected) else posts
  }

  /** `r` is `s` with some elements dropped and the rest in their order. */
  predicate IsSubsequence(r: seq<Post>, s: seq<Post>)
    decreases |s|
  {
    if |r| == 0 then true
    else if |s| == 0 then false
    else (r[0] == s[0] && IsSubsequence(r[1..], s[1..])) || IsSubsequence(r, s[1..])
  }

  /** Filtering distributes over concatenation: it keeps the order of the posts. */
  lemma {:induction false} KeepTaggedAppend(a: seq<Post>, b: seq<Post>, selected: seq<string>)
    ensures KeepTagged(a + b, selected) == KeepTagged(a, selected) + KeepTagged(b, selected)
    decreases |a|
  {
    if |a| > 0 {
      assert (a + b)[0] == a[0];
      assert (a + b)[1..] == a[1..] + b;
      KeepTaggedAppend(a[1..], b, selected);
    } else {
      assert a + b == b;
    }
  }

  /** A single post is kept exactly when it carries every selected tag. */
  lemma KeepTaggedSingle(p: Post, selected: seq<string>)
    ensures KeepTagged([p], selected) == if HasEveryTag(p, selected) then [p] else []
  {
  }

  /** The filtered list is an order-preserving subsequence of the posts. */
  lemma {:induction false} KeepTaggedIsSubsequence(posts: seq<Post>, selected: seq<string>)
    ensures IsSubsequence(KeepTagged(posts, selected), posts)
    decreases |posts|
  {
    if |posts| > 0 {
      var rest := KeepTagged(posts[1..], selected);
      KeepTaggedIsSubsequence(posts[1..], selected);
      if HasEveryTag(posts[0], selected) {
        assert ([posts[0]] + rest)[1..] == rest;
      } else {
        SubsequenceOfTail(rest, posts[1..], posts[0]);
        assert [posts[0]] + posts[1..] == posts;
        assert KeepTagged(posts, selected) == rest;
      }
    }
  }

  /** Every post carrying all selected tags keeps all of its copies; every other post is gone. */
  lemma {:induction false} KeepTaggedCounts(posts: seq<Post>, selected: seq<string>, p: Post)
    ensures multiset(KeepTagged(posts, selected))[p] ==
            if HasEveryTag(p, selected) then multiset(posts)[p] else 0
    decreases |posts|
  {
    if |posts| > 0 {
      KeepTaggedCounts(posts[1..], selected, p);
      assert posts == [posts[0]] + posts[1..];
    }
  }

  /** With no selected tag `every` holds of each post, so filtering alone would also
      return the posts unchanged: the empty-selection branch only saves work. */
  lemma {:induction false} KeepTaggedNoSelection(posts: seq<Post>)
    ensures KeepTagged(posts, []) == posts
    decreases |posts|
  {
    if |posts| > 0 {
      KeepTaggedNoSelection(posts[1..]);
      assert posts == [posts[0]] + posts[1..];
    }
  }

  /** The displayed list is always the plain filter, whatever the selection. */
  lemma FilteredIsKeepTagged(posts: seq<Post>, selected: seq<string>)
    ensures FilteredPosts(posts, selected) == KeepTagged(posts, selected)
  {
  }

  /** Selecting more tags never shows more posts. */
  lemma {:induction false} MoreTagsFewerPosts(posts: seq<Post>, selected: seq<string>, extra: seq<string>)
    ensures IsSubsequence(KeepTagged(posts, selected + extra), KeepTagged(posts, selected))
    decreases |posts|
  {
    if |posts| > 0 {
      var p := posts[0];
      var smaller := KeepTagged(posts[1..], selected + extra);
      var larger := KeepTagged(posts[1..], selected);
      MoreTagsFewerPosts(posts[1..], selected, extra);
      if HasEveryTag(p, selected + extra) {
        assert HasEveryTag(p, selected);
        assert ([p] + smaller)[1..] == smaller;
        assert ([p] + larger)[1..] == larger;
      } else if HasEveryTag(p, selected) {
        SubsequenceOfTail(smaller, larger, p);
        assert KeepTagged(posts, selected) == [p] + larger;
        assert KeepTagged(posts, selected + extra) == smaller;
      } else {
        assert !HasEveryTag(p, selected + extra);
        assert KeepTagged(posts, selected) == larger;
        assert KeepTagged(posts, selected + extra) == smaller;
      }
    }
  }

  /** A subsequence of `s` is also one of `s` with an element put in front. */
  lemma SubsequenceOfTail(r: seq<Post>, s: seq<Post>, p: Post)
    requires IsSubsequence(r, s)
    ensures IsSubsequence(r, [p] + s)
  {
  }

  /** The filter only depends on which tags are selected, not on their order or repetition. */
  lemma {:induction false} KeepTaggedSameSelection(posts: seq<Post>, a: seq<string>, b: seq<string>)
    requires forall t :: t in a <==> t in b
    ensures KeepTagged(posts, a) == KeepTagged(posts, b)
    decreases |posts|
  {
    if |posts| > 0 {
      KeepTaggedSameSelection(posts[1..], a, b);
      assert HasEveryTag(posts[0], a) == HasEveryTag(posts[0], b);
    }
  }

  /** The worked case: a post tagged "x" and "y" survives selecting "x" and is
      dropped when "z" is selected. */
  lemma SelectingOneTag()
    ensures var posts := [Post(1, "A", "b", ["x", "y"])];
            FilteredPosts(posts, ["x"]) == posts && FilteredPosts(posts, ["z"]) == []
  {
    var p := Post(1, "A", "b", ["x", "y"]);
    KeepTaggedSingle(p, ["x"]);
    KeepTaggedSingle(p, ["z"]);
    assert "z" in ["z"] && "z" !in p.tags;
  }
}
