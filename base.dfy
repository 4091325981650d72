/** Shared vocabulary of the server: identifiers, optional values and the
    `Result<T, String>` every model operation of the server returns. */
module Base {

  /** A MongoDB ObjectId is twelve bytes; it is modelled by its numeric value. */
  const ObjectIdLimit: nat := 0x1_0000_0000_0000_0000_0000_0000

  type ObjectId = x: nat | x < ObjectIdLimit

  /** Milliseconds since the Unix epoch (the source's `DateTime` / `timestamp_millis`). */
  type Millis = int

  datatype Option<+T> = None | Some(value: T)

  /** An operation result: `Err` carries the upper-case error code the source returns. */
  datatype Result<+T> = Ok(value: T) | Err(error: string)

  /** An HTTP reply: status code and body text. */
  datatype Response = Response(status: nat, body: string)

  /** The first element of a history kept newest-first, if any. */
  function Latest<T>(history: seq<T>): (r: Option<T>)
    ensures r.None? <==> |history| == 0
    ensures r.Some? ==> r.value == history[0]
  {
    if |history| == 0 then None else Some(history[0])
  }

  /** Sum of a sequence of reals, folded from the left as the source's loops do. */
  function Sum(xs: seq<real>): real
  {
    if |xs| == 0 then 0.0 else Sum(xs[..|xs| - 1]) + xs[|xs| - 1]
  }

  lemma {:induction false} SumAppend(xs: seq<real>, ys: seq<real>)
    ensures Sum(xs + ys) == Sum(xs) + Sum(ys)
    decreases |ys|
  {
    if |ys| == 0 {
      assert xs + ys == xs;
    } else {
      assert (xs + ys)[..|xs + ys| - 1] == xs + ys[..|ys| - 1];
      SumAppend(xs, ys[..|ys| - 1]);
    }
  }

  // ---------------------------------------------------------------- collections
  // A MongoDB collection is a sequence in natural order; `find_one` by `_id`
  // returns the first document carrying that id.

  /** The position of the first element whose key is `id`. */
  function IndexOf<T>(xs: seq<T>, key: T -> ObjectId, id: ObjectId): (r: Option<nat>)
    ensures r.Some? ==> r.value < |xs| && key(xs[r.value]) == id
    ensures r.Some? ==> forall j :: 0 <= j < r.value ==> key(xs[j]) != id
    ensures r.None? <==> forall j :: 0 <= j < |xs| ==> key(xs[j]) != id
  {
    if |xs| == 0 then None
    else if key(xs[0]) == id then Some(0)
    else match IndexOf(xs[1..], key, id)
      case Some(k) => Some(k + 1)
      case None => None
  }

  /** The first position carrying a key is the one `IndexOf` finds. */
  lemma IndexOfFirst<T>(xs: seq<T>, key: T -> ObjectId, id: ObjectId, k: nat)
    requires k < |xs| && key(xs[k]) == id
    requires forall j :: 0 <= j < k ==> key(xs[j]) != id
    ensures IndexOf(xs, key, id) == Some(k)
  {
    assert IndexOf(xs, key, id).Some?;
  }

  /** `find_one({ _id })`: the first element whose key is `id`. */
  function Find<T>(xs: seq<T>, key: T -> ObjectId, id: ObjectId): (r: Option<T>)
    ensures r.Some? ==> r.value in xs && key(r.value) == id
    ensures r.None? <==> forall j :: 0 <= j < |xs| ==> key(xs[j]) != id
  {
    match IndexOf(xs, key, id)
    case Some(k) => Some(xs[k])
    case None => None
  }

  /** `update_one({ _id }, { $set })`: the first element with the same key is
      overwritten; without one nothing changes (no upsert). */
  function Replace<T>(xs: seq<T>, key: T -> ObjectId, x: T): (r: seq<T>)
    ensures |r| == |xs|
    ensures Find(xs, key, key(x)).Some? ==> Find(r, key, key(x)) == Some(x)
    ensures Find(xs, key, key(x)).None? ==> r == xs
    ensures forall j :: 0 <= j < |xs| && key(xs[j]) != key(x) ==> r[j] == xs[j]
    ensures forall j :: 0 <= j < |r| ==> r[j] == xs[j] || r[j] == x
    ensures IndexOf(xs, key, key(x)).Some? ==> r == xs[IndexOf(xs, key, key(x)).value := x]
  {
    match IndexOf(xs, key, key(x))
    case Some(k) =>
      var r := xs[k := x];
      IndexOfFirst(r, key, key(x), k);
      r
    case None => xs
  }

  /** Overwriting one document leaves the lookup of every other id alone. */
  lemma FindAfterReplace<T>(xs: seq<T>, key: T -> ObjectId, x: T, id: ObjectId)
    requires id != key(x)
    ensures Find(Replace(xs, key, x), key, id) == Find(xs, key, id)
  {
    var r := Replace(xs, key, x);
    match IndexOf(xs, key, id)
    case Some(m) =>
      IndexOfFirst(r, key, id, m);
    case None =>
  }

  /** Appending documents does not change what an id already found resolves to. */
  lemma FindPrefix<T>(xs: seq<T>, ys: seq<T>, key: T -> ObjectId, id: ObjectId)
    requires Find(xs, key, id).Some?
    ensures Find(xs + ys, key, id) == Find(xs, key, id)
  {
    var k := IndexOf(xs, key, id).value;
    IndexOfFirst(xs + ys, key, id, k);
  }

  /** Writing back the document an id already resolves to changes nothing. */
  lemma ReplaceSame<T>(xs: seq<T>, key: T -> ObjectId, x: T)
    requires Find(xs, key, key(x)) == Some(x)
    ensures Replace(xs, key, x) == xs
  {
  }

  /** Overwriting a document appended with an id the prefix does not hold
      overwrites that last document. */
  lemma ReplaceLast<T>(xs: seq<T>, key: T -> ObjectId, x: T, y: T)
    requires Find(xs, key, key(x)).None? && key(y) == key(x)
    ensures Replace(xs + [x], key, y) == xs + [y]
  {
    IndexOfFirst(xs + [x], key, key(x), |xs|);
  }

  /** Deleting the id of a document whose id the documents before it do not
      hold removes exactly that document. */
  lemma RemoveFirstAfter<T>(xs: seq<T>, key: T -> ObjectId, x: T, ys: seq<T>)
    requires Find(xs, key, key(x)).None?
    ensures Remove(xs + [x] + ys, key, key(x)) == xs + ys
  {
    var all := xs + [x] + ys;
    IndexOfFirst(all, key, key(x), |xs|);
    assert all[..|xs|] == xs && all[|xs| + 1..] == ys;
  }

  /** `delete_one({ _id })`: the first element with that key leaves. */
  function Remove<T>(xs: seq<T>, key: T -> ObjectId, id: ObjectId): (r: seq<T>)
    ensures Find(xs, key, id).None? ==> r == xs
    ensures Find(xs, key, id).Some? ==> |r| == |xs| - 1
    ensures forall x :: x in xs && key(x) != id ==> x in r
    ensures forall x :: x in r ==> x in xs
  {
    match IndexOf(xs, key, id)
    case Some(k) =>
      assert xs == xs[..k] + [xs[k]] + xs[k + 1..];
      xs[..k] + xs[k + 1..]
    case None => xs
  }

  /** `insert_one` with a fresh `_id`: a duplicate id is refused as the
      unique `_id` index refuses it. */
  function Insert<T>(xs: seq<T>, key: T -> ObjectId, x: T): (r: Result<seq<T>>)
    ensures r.Ok? <==> Find(xs, key, key(x)).None?
    ensures r.Ok? ==> r.value == xs + [x] && Find(r.value, key, key(x)) == Some(x)
    ensures r.Err? ==> r.error == "INSERTING_FAILED"
  {
    if Find(xs, key, key(x)).Some? then Err("INSERTING_FAILED")
    else
      IndexOfFirst(xs + [x], key, key(x), |xs|);
      Ok(xs + [x])
  }
}
