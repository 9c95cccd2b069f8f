/**
 * The reaction toggle shared by ideas and comments: `likes.includes(userId)`,
 * then Mongoose's `likes.pull(userId)` (remove every occurrence) or
 * `likes.push(userId)` (append once).
 */
module Likes {
  import opened Js

  /** No user appears twice in `s`. */
  predicate NoDuplicates(s: seq<Id>) {
    forall i, j :: 0 <= i < j < |s| ==> s[i] != s[j]
  }

  /** Mongoose `pull`: every occurrence of `u` removed, everything else kept in order. */
  function Pull(s: seq<Id>, u: Id): (r: seq<Id>)
    ensures u !in r
    ensures forall x :: x in r <==> x in s && x != u
    ensures |r| <= |s|
    ensures u in s ==> |r| < |s|
    ensures u !in s ==> r == s
    ensures NoDuplicates(s) ==> NoDuplicates(r)
  {
    if s == [] then []
    else if s[0] == u then Pull(s[1..], u)
    else
      var rest := Pull(s[1..], u);
      assert forall x :: x in rest ==> x in s[1..];
      assert NoDuplicates(s) ==> s[0] !in s[1..] && NoDuplicates(s[1..]);
      assert NoDuplicates(s) ==> NoDuplicates([s[0]] + rest) by {
        if NoDuplicates(s) {
          var r := [s[0]] + rest;
          forall i, j | 0 <= i < j < |r| ensures r[i] != r[j] {
            if i == 0 { assert r[j] in rest; }
          }
        }
      }
      [s[0]] + rest
  }

  /**
   * `includes ? pull : push`, the toggle both controllers apply: the caller is in
   * the result exactly when it was not in the list, and a newcomer goes last.
   */
  function Toggle(s: seq<Id>, u: Id): (r: seq<Id>)
    ensures u in r <==> u !in s
    ensures u !in s ==> r == s + [u]
    ensures u in s ==> |r| < |s|
  {
    if u in s then Pull(s, u) else s + [u]
  }

  /**
   * After a toggle, the caller is a liker exactly when it was not one before,
   * and every other user's membership is unchanged.
   */
  lemma ToggleMembership(s: seq<Id>, u: Id, x: Id)
    ensures x in Toggle(s, u) <==> (if x == u then u !in s else x in s)
  {
  }

  /** A toggle keeps "no user appears twice". */
  lemma ToggleKeepsNoDuplicates(s: seq<Id>, u: Id)
    requires NoDuplicates(s)
    ensures NoDuplicates(Toggle(s, u))
  {
  }

  /** On a list without duplicates a toggle adds or removes exactly one entry. */
  lemma {:induction false} ToggleLength(s: seq<Id>, u: Id)
    requires NoDuplicates(s)
    ensures |Toggle(s, u)| == if u in s then |s| - 1 else |s| + 1
  {
    if u in s {
      PullOnce(s, u);
    }
  }

  /** Pulling a user that occurs exactly once shortens the list by one. */
  lemma {:induction false} PullOnce(s: seq<Id>, u: Id)
    requires NoDuplicates(s) && u in s
    ensures |Pull(s, u)| == |s| - 1
  {
    if s[0] == u {
      assert u !in s[1..];
    } else {
      PullOnce(s[1..], u);
    }
  }

  /**
   * Toggling twice: a user who was absent leaves the list exactly as it was;
   * a user who was present is pulled and then pushed, so it ends up last.
   * Either way the set of likers is restored.
   */
  lemma ToggleTwice(s: seq<Id>, u: Id)
    ensures u !in s ==> Toggle(Toggle(s, u), u) == s
    ensures u in s ==> Toggle(Toggle(s, u), u) == Pull(s, u) + [u]
    ensures forall x :: x in Toggle(Toggle(s, u), u) <==> x in s
  {
    if u !in s {
      PullAppended(s, u);
    }
  }

  /** Pulling the user just pushed onto a list without it gives the list back. */
  lemma {:induction false} PullAppended(s: seq<Id>, u: Id)
    requires u !in s
    ensures Pull(s + [u], u) == s
  {
    if s == [] {
      assert [u][1..] == [];
    } else {
      assert (s + [u])[1..] == s[1..] + [u];
      PullAppended(s[1..], u);
    }
  }
}
