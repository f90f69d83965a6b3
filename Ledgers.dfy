/**
 * The two date-keyed ledgers of the store (`purchases` and `sales`): an object
 * from `YYYY-MM-DD` keys to the list of rows entered on that day. Object keys
 * that are not integer-like iterate in insertion order, and the spread update
 * `{...prev, [k]: v}` keeps an existing key in place and puts a new one last,
 * so a ledger is modelled as its key order together with its buckets.
 */
module Ledgers {
  import opened JsText

  /**
   * A row record as the draft inputs hold it. A purchase row carries
   * `purchasedFrom`, a sale row `soldTo`; a field the object lacks is `None`.
   * Rows entered through the form never carry a `date`.
   */
  datatype Row = Row(itemName: string, quantity: string, price: string,
                     purchasedFrom: Option<string>, soldTo: Option<string>,
                     date: Option<string>)

  /** The cleared purchase draft `{ itemName: '', quantity: '', price: '', purchasedFrom: '' }`. */
  function EmptyPurchaseDraft(): (r: Row)
    ensures !Complete(r) && r.date.None?
  {
    Row("", "", "", Some(""), None, None)
  }

  /** The cleared sale draft `{ itemName: '', quantity: '', price: '', soldTo: '' }`. */
  function EmptySaleDraft(): (r: Row)
    ensures !Complete(r) && r.date.None?
  {
    Row("", "", "", None, Some(""), None)
  }

  /** The guard of the add handlers: item name, quantity and price are all truthy, that is non-empty. */
  predicate Complete(r: Row) {
    r.itemName != "" && r.quantity != "" && r.price != ""
  }

  /** A ledger: its keys in iteration order and the bucket of rows under each key. */
  datatype Ledger = Ledger(order: seq<string>, buckets: map<string, seq<Row>>)

  /** The key order lists every key of the object exactly once. */
  predicate Valid(l: Ledger) {
    (forall i, j :: 0 <= i < j < |l.order| ==> l.order[i] != l.order[j])
    && (forall k :: k in l.buckets ==> k in l.order)
    && (forall k :: k in l.order ==> k in l.buckets)
  }

  /** The initial ledger `{}`. */
  function Empty(): (l: Ledger)
    ensures Valid(l)
    ensures l.order == [] && forall k :: k !in l.buckets
  {
    Ledger([], map[])
  }

  /** `data[k] || []`: the rows under k, none when the key is absent. */
  function Bucket(l: Ledger, k: string): seq<Row> {
    if k in l.buckets then l.buckets[k] else []
  }

  /**
   * `{...prev, [k]: v}`: the bucket of k becomes v; an existing key keeps its
   * place in the order and a new key goes last; every other key is untouched.
   */
  function Assign(l: Ledger, k: string, v: seq<Row>): (r: Ledger)
    requires Valid(l)
    ensures Valid(r)
    ensures k in r.buckets && Bucket(r, k) == v
    ensures forall j :: j != k ==> (j in r.buckets <==> j in l.buckets) && Bucket(r, j) == Bucket(l, j)
    ensures |l.order| <= |r.order| && r.order[..|l.order|] == l.order
    ensures k in l.buckets ==> r.order == l.order
    ensures k !in l.buckets ==> r.order == l.order + [k]
  {
    var order := if k in l.buckets then l.order else l.order + [k];
    assert order[..|l.order|] == l.order;
    Ledger(order, l.buckets[k := v])
  }

  /** `{...prev, [k]: [...(prev[k] || []), row]}`: the row joins the end of k's bucket. */
  function AppendRow(l: Ledger, k: string, row: Row): (r: Ledger)
    requires Valid(l)
    ensures Valid(r)
    ensures k in r.buckets && Bucket(r, k) == Bucket(l, k) + [row]
    ensures forall j :: j != k ==> (j in r.buckets <==> j in l.buckets) && Bucket(r, j) == Bucket(l, j)
    ensures k in l.buckets ==> r.order == l.order
    ensures k !in l.buckets ==> r.order == l.order + [k]
  {
    Assign(l, k, Bucket(l, k) + [row])
  }

  /** `s.filter((_, i) => i !== index)`: every element whose position is not index. */
  function WithoutIndex<T>(s: seq<T>, index: int): (r: seq<T>)
    ensures |r| == if 0 <= index < |s| then |s| - 1 else |s|
    ensures forall x :: x in r ==> x in s
  {
    if s == [] then []
    else
      var init := WithoutIndex(s[..|s| - 1], index);
      assert forall x :: x in init ==> x in s by {
        forall x | x in init ensures x in s {
          assert x in s[..|s| - 1];
        }
      }
      if |s| - 1 == index then init else init + [s[|s| - 1]]
  }

  /**
   * Filtering out position index removes exactly that element and keeps the
   * rest in order; an index outside the list removes nothing.
   */
  lemma {:induction false} WithoutIndexSlices<T>(s: seq<T>, index: int)
    ensures 0 <= index < |s| ==> WithoutIndex(s, index) == s[..index] + s[index + 1..]
    ensures !(0 <= index < |s|) ==> WithoutIndex(s, index) == s
  {
    if s != [] {
      var init := s[..|s| - 1];
      WithoutIndexSlices(init, index);
      if 0 <= index < |s| - 1 {
        assert init[..index] + init[index + 1..] + [s[|s| - 1]] == s[..index] + s[index + 1..];
      } else if index == |s| - 1 {
        assert init == s[..index] + s[index + 1..];
      } else {
        assert init + [s[|s| - 1]] == s;
      }
    }
  }

  /**
   * `{...prev, [k]: prev[k].filter((_, i) => i !== index)}`; the key must be
   * present, since filtering an absent bucket throws. The key stays even when
   * its bucket becomes empty.
   */
  function DeleteRow(l: Ledger, k: string, index: int): (r: Ledger)
    requires Valid(l) && k in l.buckets
    ensures Valid(r)
    ensures r.order == l.order && k in r.buckets
    ensures 0 <= index < |Bucket(l, k)| ==> Bucket(r, k) == Bucket(l, k)[..index] + Bucket(l, k)[index + 1..]
    ensures !(0 <= index < |Bucket(l, k)|) ==> Bucket(r, k) == Bucket(l, k)
    ensures forall j :: j != k ==> (j in r.buckets <==> j in l.buckets) && Bucket(r, j) == Bucket(l, j)
  {
    WithoutIndexSlices(l.buckets[k], index);
    Assign(l, k, WithoutIndex(l.buckets[k], index))
  }

  /**
   * Deleting the row just added, at the last index of its bucket, gives every
   * key its former bucket back (a key created by the add stays, with `[]`).
   */
  lemma DeleteUndoesAppend(l: Ledger, k: string, row: Row)
    requires Valid(l)
    ensures forall j :: Bucket(DeleteRow(AppendRow(l, k, row), k, |Bucket(l, k)|), j) == Bucket(l, j)
  {
    var b := Bucket(l, k);
    var m := AppendRow(l, k, row);
    var d := DeleteRow(m, k, |b|);
    assert Bucket(m, k) == b + [row];
    assert Bucket(d, k) == Bucket(m, k)[..|b|] + Bucket(m, k)[|b| + 1..];
    assert Bucket(m, k)[..|b|] == b;
    assert Bucket(m, k)[|b| + 1..] == [];
    forall j ensures Bucket(d, j) == Bucket(l, j) {
      if j != k {
        assert Bucket(d, j) == Bucket(m, j);
      }
    }
  }

  /** The buckets of the keys ks, one after another (`[...acc, ...(data[k] || [])]` in turn). */
  function ConcatBuckets(l: Ledger, ks: seq<string>): seq<Row> {
    if ks == [] then [] else ConcatBuckets(l, ks[..|ks| - 1]) + Bucket(l, ks[|ks| - 1])
  }

  /** A row is among the concatenated buckets iff it is in the bucket of one of the keys. */
  lemma {:induction false} ConcatBucketsMember(l: Ledger, ks: seq<string>, row: Row)
    ensures row in ConcatBuckets(l, ks) <==> exists i :: 0 <= i < |ks| && row in Bucket(l, ks[i])
  {
    if ks != [] {
      var init := ks[..|ks| - 1];
      ConcatBucketsMember(l, init, row);
      if row in ConcatBuckets(l, ks) && row !in Bucket(l, ks[|ks| - 1]) {
        var i :| 0 <= i < |init| && row in Bucket(l, init[i]);
        assert ks[i] == init[i];
      }
      if exists i :: 0 <= i < |ks| && row in Bucket(l, ks[i]) {
        var i :| 0 <= i < |ks| && row in Bucket(l, ks[i]);
        if i < |init| {
          assert init[i] == ks[i];
        }
      }
    }
  }

  /** Keys without a bucket contribute nothing. */
  lemma {:induction false} ConcatAbsentBuckets(l: Ledger, ks: seq<string>)
    requires forall i :: 0 <= i < |ks| ==> ks[i] !in l.buckets
    ensures ConcatBuckets(l, ks) == []
  {
    if ks != [] {
      ConcatAbsentBuckets(l, ks[..|ks| - 1]);
    }
  }

  /** Concatenation over a key list split in two is the concatenation of the two parts. */
  lemma {:induction false} ConcatBucketsSplit(l: Ledger, a: seq<string>, b: seq<string>)
    ensures ConcatBuckets(l, a + b) == ConcatBuckets(l, a) + ConcatBuckets(l, b)
    decreases |b|
  {
    if b != [] {
      ConcatBucketsSplit(l, a, b[..|b| - 1]);
      assert (a + b)[..|a + b| - 1] == a + b[..|b| - 1];
    } else {
      assert a + b == a;
    }
  }
}
