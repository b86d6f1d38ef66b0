/** m-of-n multi-signature addresses (client-core/src/service/root_hash_service.rs). */
module RootHash {
  import opened Wrappers
  import opened Sequences
  import opened Merkle

  /** Keys in the order of their serialised form. */
  type PublicKey = nat
  type RawPubkey = nat

  datatype RootHashError = InvalidInput | AddressNotFound | CombineError

  /** Combination of two or more keys; kept abstract. */
  type Combiner = seq<PublicKey> -> Result<RawPubkey, RootHashError>

  datatype MultiSigAddress = MultiSigAddress(m: nat, n: nat, self: PublicKey, tree: MerkleTree<RawPubkey>)

  // ---------- Sorted keys ----------

  predicate Ascending(s: seq<nat>) {
    forall i, j | 0 <= i < j < |s| :: s[i] <= s[j]
  }

  function Lower(): Order<nat> {
    (a: nat, b: nat) => a <= b
  }

  function SortKeys(s: seq<nat>): seq<nat> {
    InsertionSort(Lower(), s)
  }

  lemma SortShape(s: seq<nat>)
    ensures Ascending(SortKeys(s)) && multiset(SortKeys(s)) == multiset(s) && |SortKeys(s)| == |s|
  {
    InsertionSortShape(Lower(), s);
    assert |multiset(SortKeys(s))| == |multiset(s)|;
  }

  lemma {:induction false} AscendingUnique(a: seq<nat>, b: seq<nat>)
    requires Ascending(a) && Ascending(b) && multiset(a) == multiset(b)
    ensures a == b
    decreases |a|
  {
    assert |a| == |multiset(a)| == |multiset(b)| == |b|;
    if a != [] {
      assert a[0] in multiset(b) && b[0] in multiset(a);
      assert a[0] == b[0];
      assert a == [a[0]] + a[1..] && b == [b[0]] + b[1..];
      assert multiset(a[1..]) == multiset(a) - multiset{a[0]};
      assert multiset(b[1..]) == multiset(b) - multiset{b[0]};
      AscendingUnique(a[1..], b[1..]);
    }
  }

  /** Sorting forgets the order and nothing else. */
  lemma SortForgetsOrder(a: seq<nat>, b: seq<nat>)
    ensures SortKeys(a) == SortKeys(b) <==> multiset(a) == multiset(b)
  {
    SortShape(a);
    SortShape(b);
    if multiset(a) == multiset(b) { AscendingUnique(SortKeys(a), SortKeys(b)); }
  }

  // ---------- Combinations ----------

  function PrependAll(k: PublicKey, cs: seq<seq<PublicKey>>): (r: seq<seq<PublicKey>>)
    ensures |r| == |cs|
    ensures forall i | 0 <= i < |cs| :: r[i] == [k] + cs[i]
  {
    seq(|cs|, i requires 0 <= i < |cs| => [k] + cs[i])
  }

  /** Every choice of m positions, in lexicographic order of the positions. */
  function Combos(keys: seq<PublicKey>, m: nat): seq<seq<PublicKey>> {
    if m == 0 then [[]]
    else if keys == [] then []
    else PrependAll(keys[0], Combos(keys[1..], m - 1)) + Combos(keys[1..], m)
  }

  lemma NoKeysChosen(keys: seq<PublicKey>)
    ensures Combos(keys, 0) == [[]]
  {
  }

  lemma CombosCases(keys: seq<PublicKey>, m: nat, c: seq<PublicKey>)
    requires c in Combos(keys, m) && m > 0
    ensures keys != []
    ensures c in Combos(keys[1..], m) || (c != [] && c == [keys[0]] + c[1..] && c[1..] in Combos(keys[1..], m - 1))
  {
    var cs := Combos(keys[1..], m - 1);
    var first := PrependAll(keys[0], cs);
    if c in first {
      var i :| 0 <= i < |first| && first[i] == c;
      assert c[1..] == cs[i];
    }
  }

  lemma {:induction false} CombosSound(keys: seq<PublicKey>, m: nat, c: seq<PublicKey>)
    requires c in Combos(keys, m)
    ensures |c| == m && multiset(c) <= multiset(keys)
    decreases |keys|
  {
    hide Combos;
    if m == 0 {
      NoKeysChosen(keys);
    } else {
      CombosCases(keys, m, c);
      TailCounts(keys);
      if c in Combos(keys[1..], m) {
        CombosSound(keys[1..], m, c);
      } else {
        CombosSound(keys[1..], m - 1, c[1..]);
        ConsCounts(keys[0], c[1..]);
        ConsCounts(keys[0], keys[1..]);
        assert keys == [keys[0]] + keys[1..];
      }
    }
  }

  lemma CombosSplit(keys: seq<PublicKey>, m: nat, c: seq<PublicKey>)
    requires m > 0 && keys != []
    ensures c in Combos(keys[1..], m - 1) ==> [keys[0]] + c in Combos(keys, m)
    ensures c in Combos(keys[1..], m) ==> c in Combos(keys, m)
  {
    var with := Combos(keys[1..], m - 1);
    if c in with {
      var j :| 0 <= j < |with| && with[j] == c;
      assert PrependAll(keys[0], with)[j] == [keys[0]] + c;
    }
  }

  lemma WithoutFirst(keys: seq<PublicKey>, sel: seq<PublicKey>)
    requires keys != [] && multiset(sel) <= multiset(keys) && keys[0] !in sel
    ensures multiset(sel) <= multiset(keys[1..])
  {
    TailCounts(keys);
    assert keys[0] !in multiset(sel);
  }

  lemma WithFirst(keys: seq<PublicKey>, sel: seq<PublicKey>, i: nat)
    requires keys != [] && multiset(sel) <= multiset(keys) && i < |sel| && sel[i] == keys[0]
    ensures multiset(sel[..i] + sel[i + 1..]) <= multiset(keys[1..])
    ensures multiset(sel[..i] + sel[i + 1..]) + multiset{keys[0]} == multiset(sel)
  {
    TailCounts(keys);
    RemoveAt(sel, i);
    assert sel[i] in multiset(sel);
  }

  lemma ConsCounts(k: PublicKey, rest: seq<PublicKey>)
    ensures multiset([k] + rest) == multiset(rest) + multiset{k}
  {
  }

  lemma SelectionNeedsKeys(keys: seq<PublicKey>, sel: seq<PublicKey>)
    requires sel != [] && multiset(sel) <= multiset(keys)
    ensures keys != []
  {
    assert sel[0] in multiset(sel);
    assert sel[0] in multiset(keys);
  }

  /** Every selection of m keys is one of the combinations, up to order. */
  lemma {:induction false} CombosComplete(keys: seq<PublicKey>, m: nat, sel: seq<PublicKey>) returns (c: seq<PublicKey>)
    requires |sel| == m && multiset(sel) <= multiset(keys)
    ensures c in Combos(keys, m) && multiset(c) == multiset(sel)
    decreases |keys|
  {
    hide Combos;
    if m == 0 {
      c := [];
      NoKeysChosen(keys);
      assert sel == [];
    } else {
      SelectionNeedsKeys(keys, sel);
      if keys[0] in sel {
        var i :| 0 <= i < |sel| && sel[i] == keys[0];
        WithFirst(keys, sel, i);
        var rest := CombosComplete(keys[1..], m - 1, sel[..i] + sel[i + 1..]);
        CombosSplit(keys, m, rest);
        c := [keys[0]] + rest;
        ConsCounts(keys[0], rest);
      } else {
        WithoutFirst(keys, sel);
        c := CombosComplete(keys[1..], m, sel);
        CombosSplit(keys, m, c);
      }
    }
  }

  lemma WithFirstKey(keys: seq<PublicKey>, m: nat, i: nat)
    requires m > 0 && keys != [] && i < |Combos(keys, m)|
    ensures var with, without := Combos(keys[1..], m - 1), Combos(keys[1..], m);
            && |Combos(keys, m)| == |with| + |without|
            && Combos(keys, m)[i] == if i < |with| then [keys[0]] + with[i] else without[i - |with|]
  {
  }

  lemma FirstKeyApart(keys: seq<PublicKey>, m: nat, c: seq<PublicKey>)
    requires NoDuplicates(keys) && keys != [] && c in Combos(keys[1..], m)
    ensures multiset(c)[keys[0]] == 0
  {
    CombosSound(keys[1..], m, c);
    assert keys[0] !in keys[1..];
    assert multiset(keys[1..])[keys[0]] == 0;
  }

  /** Of different keys, every selection is listed once. */
  lemma {:induction false} CombosOnce(keys: seq<PublicKey>, m: nat, i: nat, j: nat)
    requires NoDuplicates(keys) && i < j < |Combos(keys, m)|
    ensures multiset(Combos(keys, m)[i]) != multiset(Combos(keys, m)[j])
    decreases |keys|
  {
    hide Combos;
    if m == 0 {
      NoKeysChosen(keys);
    } else {
      NoKeysNone(keys, m);
      var all, with, without := Combos(keys, m), Combos(keys[1..], m - 1), Combos(keys[1..], m);
      WithFirstKey(keys, m, i);
      WithFirstKey(keys, m, j);
      if j < |with| {
        CombosOnce(keys[1..], m - 1, i, j);
        ConsCounts(keys[0], with[i]);
        ConsCounts(keys[0], with[j]);
        assert multiset(with[i]) == multiset(all[i]) - multiset{keys[0]};
        assert multiset(with[j]) == multiset(all[j]) - multiset{keys[0]};
      } else if i < |with| {
        ConsCounts(keys[0], with[i]);
        FirstKeyApart(keys, m, all[j]);
        assert multiset(all[i])[keys[0]] > 0;
      } else {
        CombosOnce(keys[1..], m, i - |with|, j - |with|);
      }
    }
  }

  lemma NoKeysNone(keys: seq<PublicKey>, m: nat)
    requires m > 0
    ensures keys == [] ==> Combos(keys, m) == []
  {
  }

  // ---------- Addresses ----------

  function RawPublicKey(combine: Combiner, keys: seq<PublicKey>): Result<RawPubkey, RootHashError> {
    if |keys| == 1 then Ok(keys[0]) else combine(keys)
  }

  /** The raw key of each sorted combination; the first failure is the answer. */
  function RawAll(combine: Combiner, cs: seq<seq<PublicKey>>): (r: Result<seq<RawPubkey>, RootHashError>)
    ensures r.Ok? ==> |r.value| == |cs|
    ensures r.Ok? ==> forall i | 0 <= i < |cs| :: RawPublicKey(combine, SortKeys(cs[i])) == Ok(r.value[i])
  {
    if cs == [] then Ok([])
    else match RawPublicKey(combine, SortKeys(cs[0]))
      case Err(e) => Err(e)
      case Ok(first) =>
        match RawAll(combine, cs[1..])
        case Err(e) => Err(e)
        case Ok(rest) => Ok([first] + rest)
  }

  function Combinations(combine: Combiner, keys: seq<PublicKey>, m: nat): Result<seq<RawPubkey>, RootHashError> {
    if keys == [] || m > |keys| || m == 0 then Err(InvalidInput)
    else match RawAll(combine, Combos(keys, m))
      case Err(e) => Err(e)
      case Ok(raws) => Ok(SortKeys(raws))
  }

  function NewAddress(combine: Combiner, keys: seq<PublicKey>, self: PublicKey, m: nat, n: nat):
    Result<MultiSigAddress, RootHashError>
  {
    if m > n || keys == [] || |keys| != n || m == 0 || self !in keys then Err(InvalidInput)
    else match Combinations(combine, keys, m)
      case Err(e) => Err(e)
      case Ok(raws) => Ok(MultiSigAddress(m, n, self, BuiltFrom(raws)))
  }

  function ProofFor(combine: Combiner, address: MultiSigAddress, keys: seq<PublicKey>):
    Result<Proof<RawPubkey>, RootHashError>
  {
    if |keys| != address.m then Err(InvalidInput)
    else match RawPublicKey(combine, SortKeys(keys))
      case Err(e) => Err(e)
      case Ok(raw) =>
        match GenerateProof(address.tree, raw)
        case None => Err(InvalidInput)
        case Some(proof) => Ok(proof)
  }

  lemma SortMembers(s: seq<nat>, x: nat)
    ensures x in SortKeys(s) <==> x in s
  {
    SortShape(s);
    assert x in multiset(SortKeys(s)) <==> x in multiset(s);
  }

  /** An address is made exactly for a number of signers from one to all of the keys, the current one
      among them, when every combination of that many keys can be combined. */
  lemma AddressAccepted(combine: Combiner, keys: seq<PublicKey>, self: PublicKey, m: nat, n: nat)
    ensures NewAddress(combine, keys, self, m, n).Ok? <==>
            && 0 < m <= n == |keys| && self in keys
            && forall c | c in Combos(keys, m) :: RawPublicKey(combine, SortKeys(c)).Ok?
    ensures NewAddress(combine, keys, self, m, n).Ok? ==>
              var address := NewAddress(combine, keys, self, m, n).value;
              address.m == m && address.n == n && address.self == self
  {
    hide Combos, SortKeys, RawPublicKey, BuiltFrom;
    RawAllDecides(combine, Combos(keys, m));
  }

  lemma {:induction false} RawAllDecides(combine: Combiner, cs: seq<seq<PublicKey>>)
    ensures RawAll(combine, cs).Ok? <==> forall c | c in cs :: RawPublicKey(combine, SortKeys(c)).Ok?
    decreases |cs|
  {
    hide SortKeys, RawPublicKey;
    if cs != [] {
      RawAllDecides(combine, cs[1..]);
      assert cs == [cs[0]] + cs[1..] && cs[0] in cs;
    }
  }

  /** The leaves of an address are the combined keys of its sorted m-combinations. */
  lemma LeavesOfAddress(combine: Combiner, keys: seq<PublicKey>, self: PublicKey, m: nat, n: nat)
    returns (raws: seq<RawPubkey>)
    requires NewAddress(combine, keys, self, m, n).Ok?
    ensures NewAddress(combine, keys, self, m, n).value == MultiSigAddress(m, n, self, BuiltFrom(SortKeys(raws)))
    ensures RawAll(combine, Combos(keys, m)) == Ok(raws)
  {
    raws := RawAll(combine, Combos(keys, m)).value;
  }

  /** For every selection of m keys of an address, in any order, there is a proof; it verifies against
      the root and carries the combined key of the sorted selection. */
  lemma ProofForEverySelection(
    combine: Combiner, keys: seq<PublicKey>, self: PublicKey, m: nat, n: nat, sel: seq<PublicKey>)
    requires NewAddress(combine, keys, self, m, n).Ok? && |sel| == m && multiset(sel) <= multiset(keys)
    ensures var address := NewAddress(combine, keys, self, m, n).value;
            var r := ProofFor(combine, address, sel);
            && r.Ok? && VerifyProof(r.value, RootOf(address.tree.tree))
            && RawPublicKey(combine, SortKeys(sel)) == Ok(r.value.value)
  {
    var raws := LeavesOfAddress(combine, keys, self, m, n);
    hide NewAddress, Combos, SortKeys, RawPublicKey, VerifyProof, GenerateProof, BuiltFrom, RawAll;
    var c := CombosComplete(keys, m, sel);
    SortForgetsOrder(c, sel);
    var i :| 0 <= i < |Combos(keys, m)| && Combos(keys, m)[i] == c;
    SortMembers(raws, raws[i]);
    ProofsOfMembers(SortKeys(raws), raws[i]);
  }

  /** With one required signer, the leaves are the keys themselves. */
  lemma SingleSigner(combine: Combiner, keys: seq<PublicKey>, self: PublicKey, n: nat, key: PublicKey)
    requires NewAddress(combine, keys, self, 1, n).Ok? && key in keys
    ensures var r := ProofFor(combine, NewAddress(combine, keys, self, 1, n).value, [key]);
            r.Ok? && r.value.value == key
  {
    hide NewAddress, Combos, VerifyProof, GenerateProof, BuiltFrom, RawAll;
    assert multiset([key]) <= multiset(keys);
    ProofForEverySelection(combine, keys, self, 1, n, [key]);
    SortShape([key]);
    AscendingUnique(SortKeys([key]), [key]);
  }

  /** The order of the selected keys does not matter. */
  lemma OrderDoesNotMatter(combine: Combiner, address: MultiSigAddress, a: seq<PublicKey>, b: seq<PublicKey>)
    requires multiset(a) == multiset(b)
    ensures ProofFor(combine, address, a) == ProofFor(combine, address, b)
  {
    SortForgetsOrder(a, b);
    assert |a| == |multiset(a)| == |multiset(b)| == |b|;
    hide SortKeys, RawPublicKey, GenerateProof;
  }

  /** Different sorted choices of m keys have different combined keys. */
  ghost predicate Separates(combine: Combiner, m: nat) {
    forall a: seq<PublicKey>, b: seq<PublicKey> | |a| == m && |b| == m && RawPublicKey(combine, a).Ok? ::
      RawPublicKey(combine, a) == RawPublicKey(combine, b) ==> a == b
  }

  /** When combined keys tell selections apart, exactly the selections of m of the keys have proofs. */
  lemma ProofOnlyForSelections(
    combine: Combiner, keys: seq<PublicKey>, self: PublicKey, m: nat, n: nat, sel: seq<PublicKey>)
    requires NewAddress(combine, keys, self, m, n).Ok? && Separates(combine, m)
    ensures ProofFor(combine, NewAddress(combine, keys, self, m, n).value, sel).Ok? <==>
            |sel| == m && multiset(sel) <= multiset(keys)
  {
    var raws := LeavesOfAddress(combine, keys, self, m, n);
    hide NewAddress, Combos, SortKeys, RawPublicKey, VerifyProof, GenerateProof, BuiltFrom, RawAll;
    var address := NewAddress(combine, keys, self, m, n).value;
    if |sel| == m && multiset(sel) <= multiset(keys) {
      ProofForEverySelection(combine, keys, self, m, n, sel);
    } else if ProofFor(combine, address, sel).Ok? {
      var raw := RawPublicKey(combine, SortKeys(sel)).value;
      ProofsOfMembers(SortKeys(raws), raw);
      SortMembers(raws, raw);
      var i :| 0 <= i < |raws| && raws[i] == raw;
      var c := Combos(keys, m)[i];
      CombosSound(keys, m, c);
      SortShape(c);
      SortShape(sel);
      SortForgetsOrder(c, sel);
    }
  }

  // ---------- The service ----------

  /** The address was made from these keys. */
  predicate MadeFrom(combine: Combiner, keys: seq<PublicKey>, address: MultiSigAddress) {
    NewAddress(combine, keys, address.self, address.m, address.n) == Ok(address)
  }

  ghost predicate Genuine(combine: Combiner, address: MultiSigAddress) {
    exists keys :: MadeFrom(combine, keys, address)
  }

  predicate Selects(sel: seq<PublicKey>, keys: seq<PublicKey>, m: nat) {
    |sel| == m && multiset(sel) <= multiset(keys)
  }

  /** What a proof from an address is worth: it verifies against the root, and it carries the combined
      key of the sorted selection. */
  lemma ProofVerifies(combine: Combiner, address: MultiSigAddress, sel: seq<PublicKey>)
    requires Genuine(combine, address) && ProofFor(combine, address, sel).Ok?
    ensures var proof := ProofFor(combine, address, sel).value;
            && |sel| == address.m && VerifyProof(proof, RootOf(address.tree.tree))
            && RawPublicKey(combine, SortKeys(sel)) == Ok(proof.value)
  {
    var keys :| MadeFrom(combine, keys, address);
    var raws := LeavesOfAddress(combine, keys, address.self, address.m, address.n);
    hide NewAddress, Combos, SortKeys, RawPublicKey, VerifyProof, GenerateProof, BuiltFrom, RawAll;
    ProofsOfMembers(SortKeys(raws), RawPublicKey(combine, SortKeys(sel)).value);
  }

  lemma SelectedProof(combine: Combiner, keys: seq<PublicKey>, address: MultiSigAddress, sel: seq<PublicKey>)
    requires MadeFrom(combine, keys, address)
    ensures Selects(sel, keys, address.m) ==> ProofFor(combine, address, sel).Ok?
    ensures Separates(combine, address.m) && ProofFor(combine, address, sel).Ok? ==> Selects(sel, keys, address.m)
  {
    hide NewAddress, ProofFor, Separates;
    if Selects(sel, keys, address.m) {
      ProofForEverySelection(combine, keys, address.self, address.m, address.n, sel);
    } else if Separates(combine, address.m) {
      ProofOnlyForSelections(combine, keys, address.self, address.m, address.n, sel);
    }
  }

  class RootHashService {
    var storage: map<Digest<RawPubkey>, MultiSigAddress>
    const combine: Combiner

    /** Every stored address was made from some keys and is stored under its own root. */
    ghost predicate Valid()
      reads this
    {
      forall root | root in storage ::
        RootOf(storage[root].tree.tree) == root && Genuine(combine, storage[root])
    }

    constructor (combine: Combiner)
      ensures Valid() && this.combine == combine && storage == map[]
    {
      this.combine := combine;
      storage := map[];
    }

    method NewRootHash(keys: seq<PublicKey>, self: PublicKey, m: nat, n: nat)
      returns (r: Result<Digest<RawPubkey>, RootHashError>)
      requires Valid()
      modifies this
      ensures Valid()
      ensures r.Ok? <==> NewAddress(combine, keys, self, m, n).Ok?
      ensures r.Err? ==> r.error == NewAddress(combine, keys, self, m, n).error && storage == old(storage)
      ensures r.Ok? ==> var address := NewAddress(combine, keys, self, m, n).value;
                        r.value == RootOf(address.tree.tree) && storage == old(storage)[r.value := address]
    {
      hide Combos, SortKeys, RawPublicKey, BuiltFrom, RawAll;
      if m > n || keys == [] || |keys| != n || m == 0 || self !in keys {
        return Err(InvalidInput);
      }
      var raws := Combinations(combine, keys, m);
      if raws.Err? {
        return Err(raws.error);
      }
      var tree := NewMerkleTree(raws.value);
      var root := RootOf(tree.tree);
      assert MadeFrom(combine, keys, MultiSigAddress(m, n, self, tree));
      storage := storage[root := MultiSigAddress(m, n, self, tree)];
      r := Ok(root);
    }

    /** The proof asked for: refused for an unknown root; there is one for every selection of m of the
        keys of the address, and, when combined keys differ, for nothing else; and it verifies against
        the root that was asked for. */
    method GenerateProofOf(root: Digest<RawPubkey>, sel: seq<PublicKey>)
      returns (r: Result<Proof<RawPubkey>, RootHashError>)
      requires Valid()
      ensures root !in storage ==> r == Err(AddressNotFound)
      ensures r.Ok? ==> |sel| == storage[root].m && VerifyProof(r.value, root)
      ensures r.Ok? ==> RawPublicKey(combine, SortKeys(sel)) == Ok(r.value.value)
      ensures root in storage ==> forall keys | MadeFrom(combine, keys, storage[root]) ::
                && (Selects(sel, keys, storage[root].m) ==> r.Ok?)
                && (Separates(combine, storage[root].m) && r.Ok? ==> Selects(sel, keys, storage[root].m))
    {
      hide RawPublicKey, SortKeys, VerifyProof, RootOf, Separates, Selects, MadeFrom, Genuine;
      if root !in storage {
        return Err(AddressNotFound);
      }
      r := ProofFor(combine, storage[root], sel);
      if r.Ok? {
        ProofVerifies(combine, storage[root], sel);
      }
      forall keys | MadeFrom(combine, keys, storage[root])
        ensures Selects(sel, keys, storage[root].m) ==> r.Ok?
        ensures Separates(combine, storage[root].m) && r.Ok? ==> Selects(sel, keys, storage[root].m)
      {
        SelectedProof(combine, keys, storage[root], sel);
      }
    }

    method RequiredSigners(root: Digest<RawPubkey>) returns (r: Result<nat, RootHashError>)
      requires Valid()
      ensures r.Err? <==> root !in storage
      ensures r.Ok? ==> 0 < r.value <= storage[root].n && r.value == storage[root].m
    {
      if root !in storage {
        return Err(AddressNotFound);
      }
      SignersInRange(combine, storage[root]);
      r := Ok(storage[root].m);
    }
  }

  lemma SignersInRange(combine: Combiner, address: MultiSigAddress)
    requires Genuine(combine, address)
    ensures 0 < address.m <= address.n
  {
    var keys :| MadeFrom(combine, keys, address);
  }
}
