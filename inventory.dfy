/** The character's inventory, seen only through the two queries the core makes:
    `item_count` and `try_extract_exact_items`. The inventory's own code is not
    part of this model; it is reduced to a count per item kind, and extraction
    takes all `n` items or none. */
module Inventories {
  import opened Common

  datatype Inventory = Inventory(counts: map<ItemKind, nat>)

  function Count(inv: Inventory, kind: ItemKind): nat {
    if kind in inv.counts then inv.counts[kind] else 0
  }

  /** `try_extract_exact_items(kind, n)`: the number of items taken and the
      inventory afterwards. Either exactly `n` items of `kind` are removed and `n`
      is returned, or fewer than `n` is returned and nothing is removed. */
  function TryExtractExact(inv: Inventory, kind: ItemKind, n: nat): (r: (nat, Inventory))
    ensures r.0 == n || (r.0 < n && r.1 == inv)
    ensures r.0 == n <==> Count(inv, kind) >= n
    ensures r.0 == n ==> Count(r.1, kind) == Count(inv, kind) - n
    ensures forall k :: k != kind ==> Count(r.1, k) == Count(inv, k)
  {
    if Count(inv, kind) >= n then
      (n, Inventory(inv.counts[kind := Count(inv, kind) - n]))
    else
      (0, inv)
  }

  /** Extracting twice takes from the same pool: two extractions of `a` and `b`
      items both succeed exactly when `a + b` items are present. */
  lemma {:induction false} ExtractTwice(inv: Inventory, kind: ItemKind, a: nat, b: nat)
    ensures var first := TryExtractExact(inv, kind, a);
            var second := TryExtractExact(first.1, kind, b);
            (first.0 == a && second.0 == b) <==> Count(inv, kind) >= a + b
  {
    var first := TryExtractExact(inv, kind, a);
    if first.0 == a {
      assert Count(first.1, kind) == Count(inv, kind) - a;
    } else {
      assert Count(inv, kind) < a;
    }
  }
}
