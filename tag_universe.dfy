/** The tag universe: the list of distinct tags of the loaded posts, in
    first-occurrence order, that the home view offers as filter options.
    The fold in the source pushes a tag onto an accumulator unless the
    accumulator already holds it. */
module Tags {
  import opened Posts

  /** One step of the fold: push `t` unless it is already present. */
  function AddTag(acc: seq<string>, t: string): (r: seq<string>)
    ensures acc <= r && t in r
    ensures forall x :: x in r <==> x in acc || x == t
    ensures NoDuplicates(acc) ==> NoDuplicates(r)
  {
    if t in acc then acc else acc + [t]
  }

  /** The inner `forEach` over one post's tags, starting from `acc`. */
  function AddTags(acc: seq<string>, tags: seq<string>): (r: seq<string>)
    ensures acc <= r
    ensures forall x :: x in r <==> x in acc || x in tags
    ensures NoDuplicates(acc) ==> NoDuplicates(r)
    decreases |tags|
  {
    if |tags| == 0 then acc
    else
      var init := tags[..|tags| - 1];
      assert tags == init + [tags[|tags| - 1]];
      AddTag(AddTags(acc, init), tags[|tags| - 1])
  }

  /** The whole fold over the posts, starting from the empty list: a
      duplicate-free list of exactly the tags the scan meets. */
  function TagUniverse(posts: seq<Post>): (r: seq<string>)
    ensures NoDuplicates(r)
    ensures forall t :: t in r <==> t in Flatten(posts)
  {
    if |posts| == 0 then [] else AddTags(TagUniverse(posts[..|posts| - 1]), posts[|posts| - 1].tags)
  }

  /** The index of the first occurrence of `x` in `s`. */
  function FirstIndex(s: seq<string>, x: string): (k: nat)
    requires x in s
    ensures k < |s| && s[k] == x && x !in s[..k]
  {
    if s[0] == x then 0
    else
      var k := 1 + FirstIndex(s[1..], x);
      assert s[..k] == [s[0]] + s[1..][..k - 1];
      k
  }

  /** `r` lists elements of `s`, ordered by where each first occurs in `s`. */
  predicate FirstOccurrenceOrder(r: seq<string>, s: seq<string>)
  {
    (forall k :: 0 <= k < |r| ==> r[k] in s) &&
    forall i, j :: 0 <= i < j < |r| ==> FirstIndex(s, r[i]) < FirstIndex(s, r[j])
  }

  /** Folding over two pieces one after the other is folding over their concatenation. */
  lemma {:induction false} AddTagsAppend(acc: seq<string>, a: seq<string>, b: seq<string>)
    ensures AddTags(AddTags(acc, a), b) == AddTags(acc, a + b)
    decreases |b|
  {
    if |b| == 0 {
      assert a + b == a;
    } else {
      var init := b[..|b| - 1];
      AddTagsAppend(acc, a, init);
      assert (a + b)[..|a + b| - 1] == a + init;
      assert (a + b)[|a + b| - 1] == b[|b| - 1];
    }
  }

  /** The fold over posts equals de-duplicating the flattened tag scan. */
  lemma {:induction false} UniverseIsDedup(posts: seq<Post>)
    ensures TagUniverse(posts) == AddTags([], Flatten(posts))
  {
    if |posts| > 0 {
      var init := posts[..|posts| - 1];
      UniverseIsDedup(init);
      AddTagsAppend([], Flatten(init), posts[|posts| - 1].tags);
    }
  }

  /** `FirstIndex` is the only index whose element is `x` with no `x` before it. */
  lemma FirstIndexUnique(s: seq<string>, x: string, i: nat)
    requires i < |s| && s[i] == x && x !in s[..i]
    ensures FirstIndex(s, x) == i
  {
  }

  /** Extending a sequence does not move the first occurrence of an element it already has. */
  lemma FirstIndexPrefix(s: seq<string>, n: nat, x: string)
    requires n <= |s| && x in s[..n]
    ensures FirstIndex(s, x) == FirstIndex(s[..n], x)
  {
  }

  /** De-duplicating keeps elements in the order of their first occurrences. */
  lemma {:induction false} DedupOrder(s: seq<string>)
    ensures FirstOccurrenceOrder(AddTags([], s), s)
    decreases |s|
  {
    if |s| > 0 {
      var n := |s| - 1;
      var init := s[..n];
      var x := s[n];
      var prev := AddTags([], init);
      var r := AddTags([], s);
      DedupOrder(init);
      assert r == AddTag(prev, x);
      forall k | 0 <= k < |prev|
        ensures prev[k] in s && FirstIndex(s, prev[k]) == FirstIndex(init, prev[k])
      {
        FirstIndexPrefix(s, n, prev[k]);
      }
      if x !in prev {
        assert x !in s[..n];
        FirstIndexUnique(s, x, n);
        assert r == prev + [x];
        forall i, j | 0 <= i < j < |r|
          ensures FirstIndex(s, r[i]) < FirstIndex(s, r[j])
        {
          if j == |prev| {
            assert r[i] == prev[i];
          } else {
            assert r[i] == prev[i] && r[j] == prev[j];
          }
        }
      }
    }
  }

  /** The tag universe holds exactly the tags that some post carries. */
  lemma {:induction false} UniverseMembers(posts: seq<Post>, t: string)
    ensures t in TagUniverse(posts) <==> Occurs(t, posts)
  {
    FlattenOccurs(posts, t);
  }

  /** Each tag stands where it first occurs in the scan over posts and their tags. */
  lemma UniverseOrder(posts: seq<Post>)
    ensures FirstOccurrenceOrder(TagUniverse(posts), Flatten(posts))
  {
    UniverseIsDedup(posts);
    DedupOrder(Flatten(posts));
  }

  /** The three properties pin the list down: any duplicate-free list of exactly the
      scanned tags, in first-occurrence order, is the tag universe. */
  lemma {:induction false} UniverseDeterminedByOrder(posts: seq<Post>, r: seq<string>)
    requires NoDuplicates(r)
    requires forall t :: t in r <==> Occurs(t, posts)
    requires FirstOccurrenceOrder(r, Flatten(posts))
    ensures r == TagUniverse(posts)
  {
    var u := TagUniverse(posts);
    var s := Flatten(posts);
    UniverseOrder(posts);
    forall t ensures t in r <==> t in u {
      UniverseMembers(posts, t);
    }
    OrderedUnique(r, u, s);
  }

  /** Dropping the head keeps first-occurrence order. */
  lemma OrderedTail(r: seq<string>, s: seq<string>)
    requires |r| > 0 && FirstOccurrenceOrder(r, s)
    ensures FirstOccurrenceOrder(r[1..], s)
  {
  }

  /** In first-occurrence order the head occurs before every other element. */
  lemma HeadFirst(r: seq<string>, s: seq<string>, t: string)
    requires |r| > 0 && FirstOccurrenceOrder(r, s)
    requires t in r && t != r[0]
    ensures t in s && FirstIndex(s, r[0]) < FirstIndex(s, t)
  {
  }

  /** Without duplicates, the tail holds every element but the head. */
  lemma TailMembers(r: seq<string>, t: string)
    requires |r| > 0 && NoDuplicates(r)
    ensures t in r[1..] <==> t in r && t != r[0]
  {
  }

  /** Two duplicate-free lists with the same elements, both in first-occurrence order
      with respect to `s`, are equal. */
  lemma {:induction false} OrderedUnique(r: seq<string>, u: seq<string>, s: seq<string>)
    requires NoDuplicates(r) && NoDuplicates(u)
    requires forall t :: t in r <==> t in u
    requires FirstOccurrenceOrder(r, s) && FirstOccurrenceOrder(u, s)
    ensures r == u
    decreases |r|
  {
    assert |r| > 0 ==> r[0] in r && r[0] in u;
    assert |u| > 0 ==> u[0] in u && u[0] in r;
    if |r| > 0 {
      if r[0] != u[0] {
        HeadFirst(u, s, r[0]);
        HeadFirst(r, s, u[0]);
        assert false;
      }
      forall t ensures t in r[1..] <==> t in u[1..] {
        TailMembers(r, t);
        TailMembers(u, t);
      }
      OrderedTail(r, s);
      OrderedTail(u, s);
      OrderedUnique(r[1..], u[1..], s);
      assert r == [r[0]] + r[1..] && u == [u[0]] + u[1..];
    }
  }

  /** The reduce of the source: nested loops push each tag not yet in the
      accumulator; the result is the tag universe, with its three properties. */
  method CollectTags(posts: seq<Post>) returns (acc: seq<string>)
    ensures acc == TagUniverse(posts)
    ensures NoDuplicates(acc)
    ensures forall t :: t in acc <==> Occurs(t, posts)
    ensures FirstOccurrenceOrder(acc, Flatten(posts))
  {
    acc := [];
    var i := 0;
    while i < |posts|
      invariant 0 <= i <= |posts|
      invariant acc == TagUniverse(posts[..i])
    {
      var tags := posts[i].tags;
      ghost var start := acc;
      var j := 0;
      while j < |tags|
        invariant 0 <= j <= |tags|
        invariant acc == AddTags(start, tags[..j])
      {
        assert tags[..j + 1][..j] == tags[..j];
        if tags[j] !in acc {
          acc := acc + [tags[j]];
        }
        j := j + 1;
      }
      assert tags[..j] == tags;
      assert posts[..i + 1][..i] == posts[..i];
      i := i + 1;
    }
    assert posts[..i] == posts;
    forall t ensures t in acc <==> Occurs(t, posts) {
      UniverseMembers(posts, t);
    }
    UniverseOrder(posts);
  }
}
