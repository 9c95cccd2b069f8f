/**
 * The list transforms the client applies to documents it holds: keep every entry
 * but those with a given `_id` (`filter`), and replace the entries with a given
 * `_id` (`map`). Used by client/src/context/NotificationContext.jsx and
 * client/src/components/CommentSection.jsx.
 */
module ClientLists {
  import opened Js

  /** A JSON document on the client: its `_id` and its other properties. */
  datatype Doc = Doc(id: Val, fields: map<string, Val>)

  /**
   * `list.filter(d => d._id !== id)`: exactly the entries with another `_id` are
   * kept, and a list without the id is returned whole.
   */
  function Without(list: seq<Doc>, id: Val): (r: seq<Doc>)
    ensures |r| <= |list|
    ensures forall d :: d in r <==> d in list && d.id != id
    ensures (forall i :: 0 <= i < |list| ==> list[i].id != id) ==> r == list
  {
    if list == [] then []
    else
      assert list == [list[0]] + list[1..];
      var rest := Without(list[1..], id);
      if list[0].id != id then [list[0]] + rest else rest
  }

  /** `list.map(d => d._id === id ? x : d)`: same length and order; matching entries become `x`. */
  function Replace(list: seq<Doc>, id: Val, x: Doc): (r: seq<Doc>)
    ensures |r| == |list|
    ensures forall i :: 0 <= i < |list| ==> r[i] == (if list[i].id == id then x else list[i])
  {
    seq(|list|, i requires 0 <= i < |list| => if list[i].id == id then x else list[i])
  }

  /**
   * Removing distributes over concatenation: what is kept from the front of a list
   * stays in front of what is kept from its back, so the relative order survives.
   */
  lemma {:induction false} WithoutConcat(front: seq<Doc>, back: seq<Doc>, id: Val)
    ensures Without(front + back, id) == Without(front, id) + Without(back, id)
  {
    if front != [] {
      assert (front + back)[0] == front[0] && (front + back)[1..] == front[1..] + back;
      WithoutConcat(front[1..], back, id);
    } else {
      assert front + back == back;
    }
  }

  /** Removing twice is removing once. */
  lemma {:induction false} WithoutIdempotent(list: seq<Doc>, id: Val)
    ensures Without(Without(list, id), id) == Without(list, id)
  {
    var once := Without(list, id);
    assert forall i :: 0 <= i < |once| ==> once[i] in once;
  }
}
