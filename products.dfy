/**
 * Products and the reductions the store performs over its basket:
 * the total (`reduce` at AppData.ts:46), the membership test by id
 * (`some` at AppData.ts:62), removal by id (`filter` at AppData.ts:36)
 * and the list of ids (`map` at AppData.ts:66).
 */
module Products {

  import opened Wrappers

  /** A catalog entry. `price` is `None` for a "priceless" item that cannot be bought. */
  datatype Product = Product(
    id: string,
    title: string,
    description: string,
    category: string,
    price: Option<int>,
    image: string)

  /** What one entry adds to the basket total: in JavaScript `sum + null` is `sum`. */
  function PriceOf(p: Product): int
  {
    match p.price
    case Some(n) => n
    case None => 0
  }

  /** The total of a basket, summed from the left as `reduce` does, starting at 0. */
  function Total(s: seq<Product>): (r: int)
    ensures (forall q :: q in s ==> PriceOf(q) >= 0) ==> r >= 0
  {
    if s == [] then 0 else Total(s[..|s| - 1]) + PriceOf(s[|s| - 1])
  }

  /** Whether some entry of `s` carries the id `id`. */
  predicate HasId(s: seq<Product>, id: string): (r: bool)
    ensures r <==> exists q :: q in s && q.id == id
  {
    s != [] && (s[0].id == id || HasId(s[1..], id))
  }

  /** The entries of `s` whose id is not `id`, in their original order. */
  function RemoveId(s: seq<Product>, id: string): (r: seq<Product>)
    ensures forall q :: q in r <==> q in s && q.id != id
    ensures |r| <= |s|
    ensures HasId(s, id) ==> |r| < |s|
  {
    if s == [] then []
    else if s[0].id == id then RemoveId(s[1..], id)
    else [s[0]] + RemoveId(s[1..], id)
  }

  /** The ids of the entries of `s`, position by position. */
  function IdsOf(s: seq<Product>): (r: seq<string>)
    ensures |r| == |s|
    ensures forall i :: 0 <= i < |s| ==> r[i] == s[i].id
  {
    if s == [] then [] else [s[0].id] + IdsOf(s[1..])
  }

  /** No two entries of `s` share an id. */
  ghost predicate DistinctIds(s: seq<Product>)
  {
    forall i, j :: 0 <= i < j < |s| ==> s[i].id != s[j].id
  }

  /** The total of a concatenation is the sum of the totals. */
  lemma {:induction false} TotalConcat(a: seq<Product>, b: seq<Product>)
    ensures Total(a + b) == Total(a) + Total(b)
  {
    if b != [] {
      var n := |b| - 1;
      assert (a + b)[..|a + b| - 1] == a + b[..n];
      TotalConcat(a, b[..n]);
    } else {
      assert a + b == a;
    }
  }

  /** Appending one entry adds exactly its price to the total. */
  lemma TotalAppend(s: seq<Product>, p: Product)
    ensures Total(s + [p]) == Total(s) + PriceOf(p)
  {
    TotalConcat(s, [p]);
  }

  /** Removing by id distributes over concatenation, so the relative order of the kept entries is preserved. */
  lemma {:induction false} RemoveIdConcat(a: seq<Product>, b: seq<Product>, id: string)
    ensures RemoveId(a + b, id) == RemoveId(a, id) + RemoveId(b, id)
  {
    if a == [] {
      assert a + b == b;
    } else {
      assert (a + b)[0] == a[0];
      assert (a + b)[1..] == a[1..] + b;
      RemoveIdConcat(a[1..], b, id);
    }
  }

  /** Removing an id that no entry carries leaves the sequence as it was. */
  lemma {:induction false} RemoveIdAbsent(s: seq<Product>, id: string)
    requires !HasId(s, id)
    ensures RemoveId(s, id) == s
  {
    if s != [] {
      assert s[0] in s;
      RemoveIdAbsent(s[1..], id);
      assert [s[0]] + s[1..] == s;
    }
  }

  /** Removing by id is idempotent. */
  lemma RemoveIdIdempotent(s: seq<Product>, id: string)
    ensures RemoveId(RemoveId(s, id), id) == RemoveId(s, id)
  {
    RemoveIdAbsent(RemoveId(s, id), id);
  }

  /** In a basket without duplicate ids, no other entry carries the id of entry `k`. */
  lemma OnlyEntryWithId(s: seq<Product>, k: nat)
    requires DistinctIds(s) && k < |s|
    ensures !HasId(s[..k], s[k].id) && !HasId(s[k + 1..], s[k].id)
  {
    forall q | q in s[..k] ensures q.id != s[k].id {
      var i :| 0 <= i < k && s[..k][i] == q;
      assert s[i] == q;
    }
    forall q | q in s[k + 1..] ensures q.id != s[k].id {
      var i :| 0 <= i < |s| - k - 1 && s[k + 1..][i] == q;
      assert s[k + 1 + i] == q;
    }
  }

  /** Removing the id of an entry that is the only one with that id deletes exactly that entry. */
  lemma RemoveSingle(before: seq<Product>, x: Product, after: seq<Product>)
    requires !HasId(before, x.id) && !HasId(after, x.id)
    ensures RemoveId(before + [x] + after, x.id) == before + after
  {
    RemoveIdAbsent(before, x.id);
    RemoveIdAbsent(after, x.id);
    var rest := [x] + after;
    assert RemoveId(rest, x.id) == after by {
      assert rest[0] == x && rest[1..] == after;
    }
    assert before + [x] + after == before + rest;
    RemoveIdConcat(before, rest, x.id);
  }

  /** In a basket without duplicate ids, removing the id of entry `k` deletes exactly that entry. */
  lemma RemoveUniqueIsDeletion(s: seq<Product>, k: nat)
    requires DistinctIds(s) && k < |s|
    ensures RemoveId(s, s[k].id) == s[..k] + s[k + 1..]
  {
    var before, x, after := s[..k], s[k], s[k + 1..];
    OnlyEntryWithId(s, k);
    SplitAt(s, k);
    RemoveSingle(before, x, after);
  }

  /** A sequence is the part before position `k`, the entry at `k`, and the part after. */
  lemma SplitAt(s: seq<Product>, k: nat)
    requires k < |s|
    ensures s == s[..k] + [s[k]] + s[k + 1..]
  {
  }

  /** Taking one entry out of the middle lowers the total by its price. */
  lemma TotalWithout(before: seq<Product>, x: Product, after: seq<Product>)
    ensures Total(before + after) == Total(before + [x] + after) - PriceOf(x)
  {
    TotalConcat(before + [x], after);
    TotalConcat(before, [x]);
    TotalConcat(before, after);
    assert Total([x]) == PriceOf(x) by {
      assert [x][..0] == [];
    }
  }

  /** In a basket without duplicate ids, removing entry `k` by id lowers the total by its price. */
  lemma TotalAfterRemove(s: seq<Product>, k: nat)
    requires DistinctIds(s) && k < |s|
    ensures Total(RemoveId(s, s[k].id)) == Total(s) - PriceOf(s[k])
  {
    var before, x, after := s[..k], s[k], s[k + 1..];
    RemoveUniqueIsDeletion(s, k);
    SplitAt(s, k);
    TotalWithout(before, x, after);
  }

  /** Removing by id keeps a duplicate-free basket duplicate-free. */
  lemma {:induction false} RemoveIdKeepsDistinct(s: seq<Product>, id: string)
    requires DistinctIds(s)
    ensures DistinctIds(RemoveId(s, id))
  {
    if s != [] {
      assert DistinctIds(s[1..]) by {
        forall i, j | 0 <= i < j < |s[1..]| ensures s[1..][i].id != s[1..][j].id {
          assert s[1..][i] == s[i + 1] && s[1..][j] == s[j + 1];
        }
      }
      RemoveIdKeepsDistinct(s[1..], id);
      if s[0].id != id {
        var rest := RemoveId(s[1..], id);
        forall q | q in rest ensures q.id != s[0].id {
          var j :| 0 <= j < |s[1..]| && s[1..][j] == q;
          assert s[j + 1] == q;
        }
        var r := [s[0]] + rest;
        forall i, j | 0 <= i < j < |r| ensures r[i].id != r[j].id {
          if i == 0 {
            assert r[j] == rest[j - 1] && r[j] in rest;
          } else {
            assert r[i] == rest[i - 1] && r[j] == rest[j - 1];
          }
        }
      }
    }
  }

  /** Appending a product whose id is not yet present keeps the basket duplicate-free. */
  lemma AppendKeepsDistinct(s: seq<Product>, p: Product)
    requires DistinctIds(s) && !HasId(s, p.id)
    ensures DistinctIds(s + [p])
  {
    forall i, j | 0 <= i < j < |s + [p]| ensures (s + [p])[i].id != (s + [p])[j].id {
      if j == |s| {
        assert s[i] in s;
      }
    }
  }

  /** In a sequence without duplicate ids, an id determines the entry. */
  lemma SameIdSameEntry(c: seq<Product>, p: Product, q: Product)
    requires DistinctIds(c) && p in c && q in c && p.id == q.id
    ensures p == q
  {
    var i :| 0 <= i < |c| && c[i] == p;
    var j :| 0 <= j < |c| && c[j] == q;
    assert i == j;
  }
}
