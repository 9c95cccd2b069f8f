/**
 * client/src/components/UserProfile.jsx: the fallback that keeps `posts` an
 * array, and `totalReactions`, the sum over the posts of their `supports` and
 * `inspirations` array lengths.
 */
module UserProfile {
  import opened Js
  import IdeaModel

  /** `Array.isArray(userIdeas) ? userIdeas : []` */
  function Posts(userIdeas: Val): (r: seq<Val>)
    ensures userIdeas.Arr? ==> r == userIdeas.items
    ensures !userIdeas.Arr? ==> r == []
  {
    if userIdeas.Arr? then userIdeas.items else []
  }

  /** `Array.isArray(post[key]) ? post[key].length : 0` */
  function ArrayLength(post: Val, key: string): nat {
    if post.Obj? && Get(post.fields, key).Arr? then |Get(post.fields, key).items| else 0
  }

  /** One post's share of the total. */
  function Reactions(post: Val): nat {
    ArrayLength(post, "supports") + ArrayLength(post, "inspirations")
  }

  /** Reading `post.supports` throws on `null` and `undefined`; every other value can be read. */
  predicate Readable(posts: seq<Val>) {
    forall i :: 0 <= i < |posts| ==> posts[i] != Null && posts[i] != Undefined
  }

  /** `posts.reduce((sum, post) => sum + supports + inspirations, 0)`, folding from the left. */
  function TotalReactions(posts: seq<Val>): (n: nat)
    requires Readable(posts)
    ensures posts == [] ==> n == 0
  {
    if posts == [] then 0 else TotalReactions(posts[..|posts| - 1]) + Reactions(posts[|posts| - 1])
  }

  /** The total over two runs of posts is the sum of their totals. */
  lemma {:induction false} TotalConcat(front: seq<Val>, back: seq<Val>)
    requires Readable(front) && Readable(back)
    ensures Readable(front + back)
    ensures TotalReactions(front + back) == TotalReactions(front) + TotalReactions(back)
  {
    if back != [] {
      var all := front + back;
      assert all[..|all| - 1] == front + back[..|back| - 1];
      TotalConcat(front, back[..|back| - 1]);
    } else {
      assert front + back == front;
    }
  }

  /** Posts that each add nothing leave the total at 0. */
  lemma {:induction false} NoArraysNoReactions(posts: seq<Val>)
    requires Readable(posts)
    requires forall i :: 0 <= i < |posts| ==> Reactions(posts[i]) == 0
    ensures TotalReactions(posts) == 0
  {
    if posts != [] {
      NoArraysNoReactions(posts[..|posts| - 1]);
    }
  }

  /**
   * The server's ideas carry `likes`, not `supports` or `inspirations`, so a
   * profile listing them always shows 0 reactions, however many likes there are.
   */
  lemma ServerIdeasShowNoReactions(ideas: seq<(Id, IdeaModel.Idea)>)
    ensures var posts := seq(|ideas|, k requires 0 <= k < |ideas| => IdeaModel.ToVal(ideas[k].0, ideas[k].1));
            Readable(posts) && TotalReactions(posts) == 0
  {
    var posts := seq(|ideas|, k requires 0 <= k < |ideas| => IdeaModel.ToVal(ideas[k].0, ideas[k].1));
    NoArraysNoReactions(posts);
  }
}
