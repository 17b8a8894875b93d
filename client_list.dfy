/** The list operations the client reducers use on arrays of JSON documents:
    `findIndex` by `_id`, replacing the first match in place, and `filter`
    out an `_id`. */
module ClientList {

  /** A document as the client holds it: its `_id` and the rest. */
  datatype Doc<T> = Doc(id: string, body: T)

  /** Number of documents with the id. */
  function CountId<T>(s: seq<Doc<T>>, id: string): (n: nat)
    ensures n <= |s|
    ensures n == 0 <==> forall j :: 0 <= j < |s| ==> s[j].id != id
  {
    if s == [] then 0 else (if s[0].id == id then 1 else 0) + CountId(s[1..], id)
  }

  /** `findIndex(d => d._id === id)`: the first position holding the id, or
      -1 when none does. */
  function FirstIndexOf<T>(s: seq<Doc<T>>, id: string): (i: int)
    ensures -1 <= i < |s|
    ensures i == -1 <==> forall j :: 0 <= j < |s| ==> s[j].id != id
    ensures i >= 0 ==> s[i].id == id && forall j :: 0 <= j < i ==> s[j].id != id
  {
    if s == [] then -1
    else if s[0].id == id then 0
    else
      var i := FirstIndexOf(s[1..], id);
      if i == -1 then -1 else i + 1
  }

  /** The list after `index = findIndex(...)` and `list[index] = d` when an
      index was found: the first document with the same id is replaced, the
      rest stay where they are. */
  function ReplaceFirst<T>(s: seq<Doc<T>>, d: Doc<T>): (r: seq<Doc<T>>)
    ensures |r| == |s|
    ensures (forall j :: 0 <= j < |s| ==> s[j].id != d.id) ==> r == s
    ensures forall j :: 0 <= j < |s| ==> r[j] == (if j == FirstIndexOf(s, d.id) then d else s[j])
  {
    var i := FirstIndexOf(s, d.id);
    if i == -1 then s else s[i := d]
  }

  /** Replacing keeps every position's id: the list still names the same
      documents in the same order. */
  lemma ReplaceKeepsIds<T>(s: seq<Doc<T>>, d: Doc<T>)
    ensures forall j :: 0 <= j < |s| ==> ReplaceFirst(s, d)[j].id == s[j].id
  {
  }

  /** With the id present, the replacement is in the list and every later
      duplicate of the id is left alone. */
  lemma ReplaceOnlyFirst<T>(s: seq<Doc<T>>, d: Doc<T>)
    requires exists j :: 0 <= j < |s| && s[j].id == d.id
    ensures d in ReplaceFirst(s, d)
    ensures forall j :: FirstIndexOf(s, d.id) < j < |s| ==> ReplaceFirst(s, d)[j] == s[j]
  {
    var i := FirstIndexOf(s, d.id);
    assert ReplaceFirst(s, d)[i] == d;
  }

  /** `filter(d => d._id !== id)`: the documents with other ids, in order. */
  function WithoutId<T>(s: seq<Doc<T>>, id: string): (r: seq<Doc<T>>)
    ensures forall j :: 0 <= j < |r| ==> r[j].id != id
    ensures |r| <= |s|
  {
    if s == [] then []
    else if s[0].id == id then WithoutId(s[1..], id)
    else [s[0]] + WithoutId(s[1..], id)
  }

  /** Filtering drops exactly the documents with the id. */
  lemma {:induction false} WithoutIdLength<T>(s: seq<Doc<T>>, id: string)
    ensures |WithoutId(s, id)| == |s| - CountId(s, id)
  {
    if s != [] {
      WithoutIdLength(s[1..], id);
    }
  }

  /** Filtering keeps exactly the documents with other ids. */
  lemma {:induction false} WithoutIdKeeps<T>(s: seq<Doc<T>>, id: string)
    ensures forall j :: 0 <= j < |WithoutId(s, id)| ==> WithoutId(s, id)[j] in s
    ensures forall j :: 0 <= j < |s| && s[j].id != id ==> s[j] in WithoutId(s, id)
  {
    if s != [] {
      WithoutIdKeeps(s[1..], id);
      forall j | 0 <= j < |s| && s[j].id != id ensures s[j] in WithoutId(s, id) {
        if j > 0 {
          assert s[j] == s[1..][j - 1];
        }
      }
    }
  }

  /** Filtering keeps relative order: it distributes over concatenation. */
  lemma {:induction false} WithoutIdAppend<T>(a: seq<Doc<T>>, b: seq<Doc<T>>, id: string)
    ensures WithoutId(a + b, id) == WithoutId(a, id) + WithoutId(b, id)
  {
    if a == [] {
      assert a + b == b;
    } else {
      var t := a[1..];
      assert a + b == [a[0]] + (t + b);
      assert (a + b)[0] == a[0] && (a + b)[1..] == t + b;
      WithoutIdAppend(t, b, id);
      if a[0].id != id {
        assert [a[0]] + (WithoutId(t, id) + WithoutId(b, id))
               == ([a[0]] + WithoutId(t, id)) + WithoutId(b, id);
      }
    }
  }

  /** Filtering out an id the list does not hold changes nothing. */
  lemma {:induction false} WithoutAbsentId<T>(s: seq<Doc<T>>, id: string)
    requires forall j :: 0 <= j < |s| ==> s[j].id != id
    ensures WithoutId(s, id) == s
  {
    if s != [] {
      WithoutAbsentId(s[1..], id);
    }
  }

  /** Appending a document and then filtering out its id gives the filtered
      original list: a create undone by a delete. */
  lemma AppendThenRemove<T>(s: seq<Doc<T>>, d: Doc<T>)
    ensures WithoutId(s + [d], d.id) == WithoutId(s, d.id)
  {
    WithoutIdAppend(s, [d], d.id);
    assert WithoutId([d], d.id) == [];
  }
}
