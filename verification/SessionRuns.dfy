/** Signing sessions along whole runs: where recorded values come from, and which sessions can be
    completed. */
module SessionRuns {
  import opened Wrappers
  import opened RootHash
  import opened SigningSession

  // ---------- Where values come from ----------

  /** This request gives the signer with this key its value: it brings it, or it is the signer's own. */
  predicate Gives(kind: Kind, r: Request, reply: Result<H256, SessionError>, own: PublicKey, key: PublicKey, v: nat) {
    || (IsPut(kind, r) && r.key == key && PutValue(kind, r) == v)
    || (IsGet(kind, r) && key == own && reply == Ok(v))
  }

  /** A call on a session fills in at most the value it gives. */
  lemma RespondGives(m: Musig, s: Session, r: Request, kind: Kind, i: nat)
    requires SessionOk(s) && !r.NewSession? && Respond(m, s, r).Ok? && i < |s.signers|
    ensures var t := Respond(m, s, r).value;
            && |t.0.signers| == |s.signers| && t.0.signers[i].key == s.signers[i].key && t.0.key == s.key
            && (ValueOf(kind, t.0.signers[i]) == ValueOf(kind, s.signers[i])
                || (ValueOf(kind, t.0.signers[i]).Some?
                    && Gives(kind, r, Ok(t.1), s.key, s.signers[i].key, ValueOf(kind, t.0.signers[i]).value)))
  {
    FoundAt(s, s.key);
    if r.PutCommitment? || r.PutNonce? || r.PutPartial? { FoundAt(s, r.key); }
    hide SignerIndex, SessionOk, KeysOf, AllCommitted, AllRevealed, Commitments, Nonces, AllSigned, Partials, ContextOf;
  }

  /** The value of a signer, in a session after a run, was given by a request of the run. */
  ghost predicate Given(m: Musig, rs: seq<Request>, id: SessionId, kind: Kind, own: PublicKey, key: PublicKey, v: nat) {
    exists j | 0 <= j < |rs| :: rs[j].id == id && Gives(kind, rs[j], Reply(m, map[], rs, j), own, key, v)
  }

  lemma GivenLater(
    m: Musig, rs: seq<Request>, id: SessionId, kind: Kind, own: PublicKey, key: PublicKey, v: nat, n: nat)
    requires n <= |rs| && Given(m, rs[..n], id, kind, own, key, v)
    ensures Given(m, rs, id, kind, own, key, v)
  {
    hide Step, Run, Gives;
    var j :| 0 <= j < n && rs[..n][j].id == id && Gives(kind, rs[..n][j], Reply(m, map[], rs[..n], j), own, key, v);
    assert rs[..n][..j] == rs[..j];
    assert Reply(m, map[], rs[..n], j) == Reply(m, map[], rs, j);
    assert rs[j].id == id && Gives(kind, rs[j], Reply(m, map[], rs, j), own, key, v);
  }

  lemma StepGives(m: Musig, store: Store, r: Request, id: SessionId, kind: Kind, i: nat)
    requires StoreOk(store) && id in Step(m, store, r).0
    requires var t := Step(m, store, r).0[id]; i < |t.signers| && ValueOf(kind, t.signers[i]).Some?
    ensures var t := Step(m, store, r).0[id];
            || (r.id == id
                && Gives(kind, r, Step(m, store, r).1, t.key, t.signers[i].key, ValueOf(kind, t.signers[i]).value))
            || (id in store && i < |store[id].signers| && store[id].key == t.key
                && store[id].signers[i].key == t.signers[i].key
                && ValueOf(kind, store[id].signers[i]) == ValueOf(kind, t.signers[i]))
  {
    hide SessionOk, Respond, Created, Gives;
    if r.id == id {
      if r.NewSession? {
        if Created(m, r).Ok? { NothingYet(m, r, kind, i); }
      } else if Respond(m, store[id], r).Ok? {
        RespondExtends(m, store[id], r);
        RespondGives(m, store[id], r, kind, i);
      }
    }
  }

  lemma NothingYet(m: Musig, r: Request, kind: Kind, i: nat)
    requires r.NewSession? && Created(m, r).Ok?
    ensures i < |Created(m, r).value.signers| ==> ValueOf(kind, Created(m, r).value.signers[i]).None?
  {
    hide IndexOf, SortKeys;
  }

  lemma {:induction false} Provenance(m: Musig, rs: seq<Request>, id: SessionId, kind: Kind, i: nat)
    requires id in Run(m, map[], rs)
    requires var s := Run(m, map[], rs)[id]; i < |s.signers| && ValueOf(kind, s.signers[i]).Some?
    ensures var s := Run(m, map[], rs)[id];
            Given(m, rs, id, kind, s.key, s.signers[i].key, ValueOf(kind, s.signers[i]).value)
    decreases |rs|
  {
    hide Step, Gives, StoreOk, Given, ValueOf;
    var n := |rs| - 1;
    var before, s := Run(m, map[], rs[..n]), Run(m, map[], rs)[id];
    var v := ValueOf(kind, s.signers[i]).value;
    RunsKeepOk(m, rs[..n]);
    StepGives(m, before, rs[n], id, kind, i);
    if rs[n].id == id && Gives(kind, rs[n], Step(m, before, rs[n]).1, s.key, s.signers[i].key, v) {
      GivenAt(m, rs, n, id, kind, s.key, s.signers[i].key, v);
    } else {
      Provenance(m, rs[..n], id, kind, i);
      GivenLater(m, rs, id, kind, s.key, s.signers[i].key, v, n);
    }
  }

  lemma GivenAt(
    m: Musig, rs: seq<Request>, j: nat, id: SessionId, kind: Kind, own: PublicKey, key: PublicKey, v: nat)
    requires j < |rs| && rs[j].id == id && Gives(kind, rs[j], Reply(m, map[], rs, j), own, key, v)
    ensures Given(m, rs, id, kind, own, key, v)
  {
  }

  /** Every signer has a value of this kind, and it was given by a request of the run. */
  ghost predicate Collected(m: Musig, rs: seq<Request>, id: SessionId, kind: Kind) {
    id in Run(m, map[], rs) &&
    var s := Run(m, map[], rs)[id];
    forall i | 0 <= i < |s.signers| ::
      ValueOf(kind, s.signers[i]).Some? &&
      Given(m, rs, id, kind, s.key, s.signers[i].key, ValueOf(kind, s.signers[i]).value)
  }

  predicate AllHave(kind: Kind, s: Session) {
    forall i | 0 <= i < |s.signers| :: ValueOf(kind, s.signers[i]).Some?
  }

  lemma AllHaveIs(s: Session)
    ensures AllHave(CommitmentValue, s) <==> AllCommitted(s)
    ensures AllHave(NonceValue, s) <==> AllRevealed(s)
    ensures AllHave(PartialValue, s) <==> AllSigned(s)
  {
    assert forall i | 0 <= i < |s.signers| :: ValueOf(CommitmentValue, s.signers[i]) == s.signers[i].commitment;
    assert forall i | 0 <= i < |s.signers| :: ValueOf(NonceValue, s.signers[i]) == s.signers[i].nonce;
    assert forall i | 0 <= i < |s.signers| :: ValueOf(PartialValue, s.signers[i]) == s.signers[i].partial;
  }

  lemma AllCollected(m: Musig, rs: seq<Request>, id: SessionId, kind: Kind)
    requires id in Run(m, map[], rs) && AllHave(kind, Run(m, map[], rs)[id])
    ensures Collected(m, rs, id, kind)
  {
    hide Run, Given, ValueOf;
    var s := Run(m, map[], rs)[id];
    forall i | 0 <= i < |s.signers|
      ensures Given(m, rs, id, kind, s.key, s.signers[i].key, ValueOf(kind, s.signers[i]).value)
    {
      Provenance(m, rs, id, kind, i);
    }
  }

  /** Along every run: a nonce is revealed only after the commitments of all signers were received or
      made, a partial signature only after all nonces too, and the signature only after all partial
      signatures. */
  lemma RevealsInOrder(m: Musig, rs: seq<Request>, k: nat)
    requires k < |rs| && !rs[k].NewSession? && Reply(m, map[], rs, k).Ok?
    ensures rs[k].GetNonce? || rs[k].GetPartial? || rs[k].GetSignature? ==>
              Collected(m, rs[..k], rs[k].id, CommitmentValue)
    ensures rs[k].GetPartial? || rs[k].GetSignature? ==> Collected(m, rs[..k], rs[k].id, NonceValue)
    ensures rs[k].GetSignature? ==> Collected(m, rs[..k], rs[k].id, PartialValue)
  {
    hide Step, Run, Collected, AllHave, AllCommitted, AllRevealed, AllSigned;
    var store, id := Run(m, map[], rs[..k]), rs[k].id;
    AnswersNeed(m, store, rs[k]);
    AllHaveIs(store[id]);
    if AllHave(CommitmentValue, store[id]) { AllCollected(m, rs[..k], id, CommitmentValue); }
    if AllHave(NonceValue, store[id]) { AllCollected(m, rs[..k], id, NonceValue); }
    if AllHave(PartialValue, store[id]) { AllCollected(m, rs[..k], id, PartialValue); }
  }

  // ---------- Which sessions can be completed ----------

  predicate DistinctKeys(s: Session) {
    forall i, j | 0 <= i < j < |s.signers| :: s.signers[i].key != s.signers[j].key
  }

  /** Values are recorded only where the search finds their key. */
  predicate OnlyFound(kind: Kind, s: Session) {
    forall i | 0 <= i < |s.signers| && ValueOf(kind, s.signers[i]).Some? :: SignerIndex(s, s.signers[i].key) == Some(i)
  }

  lemma IndexKept(s: Session, t: Session, key: PublicKey)
    requires Extends(s, t)
    ensures SignerIndex(s, key) == SignerIndex(t, key)
  {
    KeysKept(s, t);
  }

  lemma RespondFillsFound(m: Musig, s: Session, r: Request, kind: Kind, i: nat)
    requires SessionOk(s) && !r.NewSession? && Respond(m, s, r).Ok? && i < |s.signers|
    ensures |Respond(m, s, r).value.0.signers| == |s.signers|
    ensures ValueOf(kind, Respond(m, s, r).value.0.signers[i]) == ValueOf(kind, s.signers[i])
            || SignerIndex(s, s.signers[i].key) == Some(i)
  {
    FoundAt(s, s.key);
    if r.PutCommitment? || r.PutNonce? || r.PutPartial? { FoundAt(s, r.key); }
    hide SignerIndex, SessionOk, KeysOf, AllCommitted, AllRevealed, Commitments, Nonces, AllSigned, Partials, ContextOf;
  }

  lemma RespondKeepsFound(m: Musig, s: Session, r: Request, kind: Kind)
    requires SessionOk(s) && OnlyFound(kind, s) && !r.NewSession? && Respond(m, s, r).Ok?
    ensures OnlyFound(kind, Respond(m, s, r).value.0)
  {
    hide Respond, SessionOk, SignerIndex, ValueOf;
    RespondExtends(m, s, r);
    var t := Respond(m, s, r).value.0;
    forall i | 0 <= i < |t.signers| && ValueOf(kind, t.signers[i]).Some?
      ensures SignerIndex(t, t.signers[i].key) == Some(i)
    {
      RespondFillsFound(m, s, r, kind, i);
      IndexKept(s, t, s.signers[i].key);
      assert SignerKept(s.signers[i], t.signers[i]);
    }
  }

  predicate AllOnlyFound(kind: Kind, store: Store) {
    forall id | id in store :: OnlyFound(kind, store[id])
  }

  lemma StepKeepsFound(m: Musig, store: Store, r: Request, kind: Kind)
    requires StoreOk(store) && AllOnlyFound(kind, store)
    ensures AllOnlyFound(kind, Step(m, store, r).0)
  {
    hide SessionOk, Respond, Created, OnlyFound;
    if r.NewSession? {
      if Created(m, r).Ok? { NothingFoundYet(m, r, kind); }
    } else if r.id in store && Respond(m, store[r.id], r).Ok? {
      RespondKeepsFound(m, store[r.id], r, kind);
    }
  }

  lemma NothingFoundYet(m: Musig, r: Request, kind: Kind)
    requires r.NewSession? && Created(m, r).Ok?
    ensures OnlyFound(kind, Created(m, r).value)
  {
    hide Created, SignerIndex;
    forall i | 0 <= i < |Created(m, r).value.signers| ensures ValueOf(kind, Created(m, r).value.signers[i]).None? {
      NothingYet(m, r, kind, i);
    }
  }

  lemma {:induction false} RunsKeepFound(m: Musig, rs: seq<Request>, kind: Kind)
    ensures AllOnlyFound(kind, Run(m, map[], rs))
    decreases |rs|
  {
    hide Step, StoreOk;
    if rs != [] {
      RunsKeepFound(m, rs[..|rs| - 1], kind);
      RunsKeepOk(m, rs[..|rs| - 1]);
      StepKeepsFound(m, Run(m, map[], rs[..|rs| - 1]), rs[|rs| - 1], kind);
    }
  }

  /** A session with a repeated key never collects all values of any kind: the search finds only one
      of the places of that key. */
  lemma RepeatedKeyNeverCompletes(m: Musig, rs: seq<Request>, id: SessionId, kind: Kind)
    requires id in Run(m, map[], rs) && !DistinctKeys(Run(m, map[], rs)[id])
    ensures !AllHave(kind, Run(m, map[], rs)[id])
  {
    hide Run, SignerIndex, ValueOf;
    RunsKeepFound(m, rs, kind);
  }

  /** Such sessions are created: nothing compares the keys with each other. */
  lemma RepeatedKeysAccepted(m: Musig, id: SessionId, message: H256, key: PublicKey)
    requires m.combineKeys([key, key]).Ok?
    ensures var r := NewSession(id, message, [key, key], key, key);
            Created(m, r).Ok? && !DistinctKeys(Created(m, r).value)
  {
    var keys := [key, key];
    SortShape(keys);
    SortedTwice(key);
    IndexOfFinds(keys, key);
    hide IndexOf, SortKeys;
    var signers := FreshSigners(keys);
    assert KeysOf(signers)[0] == key && KeysOf(signers)[1] == key;
  }

  lemma SortedTwice(key: PublicKey)
    ensures SortKeys([key, key]) == [key, key]
  {
    SortShape([key, key]);
    AscendingUnique(SortKeys([key, key]), [key, key]);
  }

  lemma PutFills(m: Musig, store: Store, r: Request, kind: Kind)
    requires StoreOk(store) && r.id in store && IsPut(kind, r) && r.key in KeysOf(store[r.id].signers)
    ensures r.id in Step(m, store, r).0
    ensures var t, i := Step(m, store, r).0[r.id], SignerIndex(store[r.id], r.key);
            i.Some? && i.value < |t.signers| && ValueOf(kind, t.signers[i.value]).Some?
  {
    hide SessionOk, Respond, SignerIndex;
    assert SessionOk(store[r.id]);
    FoundAt(store[r.id], r.key);
    PutsRecord(m, store[r.id], r, kind);
  }

  lemma ValueKept(s: Session, t: Session, kind: Kind, i: nat)
    requires Extends(s, t) && i < |s.signers| && ValueOf(kind, s.signers[i]).Some?
    ensures i < |t.signers| && ValueOf(kind, t.signers[i]) == ValueOf(kind, s.signers[i])
  {
    assert SignerKept(s.signers[i], t.signers[i]);
  }

  /** Some request after n steps brings a value for this key. */
  predicate PutAfter(rs: seq<Request>, n: nat, id: SessionId, kind: Kind, key: PublicKey) {
    exists j | n <= j < |rs| :: rs[j].id == id && IsPut(kind, rs[j]) && rs[j].key == key
  }

  lemma PutIsThere(m: Musig, rs: seq<Request>, n: nat, id: SessionId, kind: Kind, key: PublicKey)
    requires n <= |rs| && id in Run(m, map[], rs[..n]) && FreshIds(rs[n..], id)
    requires PutAfter(rs, n, id, kind, key) && key in KeysOf(Run(m, map[], rs[..n])[id].signers)
    ensures id in Run(m, map[], rs)
    ensures var s := Run(m, map[], rs)[id];
            var i := SignerIndex(s, key);
            i.Some? && ValueOf(kind, s.signers[i.value]).Some? && s.signers[i.value].key == key
    ensures Extends(Run(m, map[], rs[..n])[id], Run(m, map[], rs)[id])
  {
    hide Run, Step, SignerIndex, StoreOk, SessionOk, KeysOf, ValueOf, Extends;
    var j :| n <= j < |rs| && rs[j].id == id && IsPut(kind, rs[j]) && rs[j].key == key;
    Sooner(rs, n, j, id);
    var s0 := Run(m, map[], rs[..n])[id];
    RecordedStays(m, map[], rs, n, j, id);
    var s1 := Run(m, map[], rs[..j])[id];
    KeysKept(s0, s1);
    RunsKeepOk(m, rs[..j]);
    PutFills(m, Run(m, map[], rs[..j]), rs[j], kind);
    RunNext(m, rs, j);
    RecordedStays(m, map[], rs, j, j + 1, id);
    RecordedStays(m, map[], rs, j + 1, |rs|, id);
    RecordedStays(m, map[], rs, n, |rs|, id);
    assert rs[..|rs|] == rs;
    var s2, s := Run(m, map[], rs[..j + 1])[id], Run(m, map[], rs)[id];
    IndexKept(s1, s2, key);
    IndexKept(s2, s, key);
    ValueKept(s2, s, kind, SignerIndex(s1, key).value);
    StoredOk(m, rs, id);
    FoundAt(s, key);
  }

  lemma StoredOk(m: Musig, rs: seq<Request>, id: SessionId)
    requires id in Run(m, map[], rs)
    ensures SessionOk(Run(m, map[], rs)[id])
  {
    hide Run, SessionOk;
    RunsKeepOk(m, rs);
  }

  lemma RunNext(m: Musig, rs: seq<Request>, j: nat)
    requires j < |rs|
    ensures Run(m, map[], rs[..j + 1]) == Step(m, Run(m, map[], rs[..j]), rs[j]).0
  {
    assert rs[..j + 1][..j] == rs[..j];
  }

  lemma Sooner(rs: seq<Request>, n: nat, j: nat, id: SessionId)
    requires n <= j < |rs| && FreshIds(rs[n..], id)
    ensures FreshIds(rs[n..j], id) && FreshIds(rs[j..j + 1], id)
    ensures FreshIds(rs[j + 1..], id) && FreshIds(rs[n..|rs|], id)
    ensures rs[j + 1..] == rs[j + 1..|rs|]
  {
    forall r | r in rs[n..j] || r in rs[j..j + 1] || r in rs[j + 1..] ensures r in rs[n..] {
      var k :| n <= k < |rs| && rs[k] == r;
      assert rs[n..][k - n] == r;
    }
  }

  /** A session with distinct keys has all values of a kind once a value was put for every key. */
  lemma DistinctKeysComplete(m: Musig, rs: seq<Request>, n: nat, id: SessionId, kind: Kind)
    requires n <= |rs| && id in Run(m, map[], rs[..n]) && FreshIds(rs[n..], id)
    requires DistinctKeys(Run(m, map[], rs[..n])[id])
    requires forall key | key in KeysOf(Run(m, map[], rs[..n])[id].signers) :: PutAfter(rs, n, id, kind, key)
    ensures id in Run(m, map[], rs) && AllHave(kind, Run(m, map[], rs)[id])
  {
    hide Run, SignerIndex, PutAfter, ValueOf, Extends, FreshIds;
    var s0 := Run(m, map[], rs[..n])[id];
    StillThere(m, rs, n, id);
    var s := Run(m, map[], rs)[id];
    KeysKept(s0, s);
    forall i | 0 <= i < |s.signers| ensures ValueOf(kind, s.signers[i]).Some? {
      var key := s.signers[i].key;
      assert KeysOf(s.signers)[i] == key;
      assert key in KeysOf(s0.signers);
      PutIsThere(m, rs, n, id, kind, key);
      SameKeySamePlace(s0, s, i, SignerIndex(s, key).value);
    }
  }

  lemma SameKeySamePlace(s0: Session, s: Session, i: nat, j: nat)
    requires DistinctKeys(s0) && KeysOf(s0.signers) == KeysOf(s.signers)
    requires i < |s.signers| && j < |s.signers| && s.signers[i].key == s.signers[j].key
    ensures i == j
  {
    assert KeysOf(s0.signers)[i] == KeysOf(s.signers)[i] && KeysOf(s0.signers)[j] == KeysOf(s.signers)[j];
  }

  lemma StillThere(m: Musig, rs: seq<Request>, n: nat, id: SessionId)
    requires n <= |rs| && id in Run(m, map[], rs[..n]) && FreshIds(rs[n..], id)
    ensures id in Run(m, map[], rs) && Extends(Run(m, map[], rs[..n])[id], Run(m, map[], rs)[id])
  {
    hide Run, Extends;
    assert rs[n..] == rs[n..|rs|] && rs[..|rs|] == rs;
    RecordedStays(m, map[], rs, n, |rs|, id);
  }

  // ---------- Where sessions come from ----------

  /** A session is created exactly for two or more keys that include the current signer's own one and
      can be combined; it has these keys, in order, and nothing recorded. */
  lemma SessionCreated(m: Musig, r: Request)
    requires r.NewSession?
    ensures Created(m, r).Ok? <==>
            r.ownKey == r.key && |r.keys| > 1 && r.key in r.keys && m.combineKeys(SortKeys(r.keys)).Ok?
    ensures Created(m, r).Ok? ==> Made(m, r, Created(m, r).value)
    ensures Created(m, r).Ok? ==>
              var signers := Created(m, r).value.signers;
              forall kind, i | 0 <= i < |signers| :: ValueOf(kind, signers[i]).None?
  {
    SortShape(r.keys);
    IndexOfFinds(SortKeys(r.keys), r.key);
    assert r.key in SortKeys(r.keys) <==> r.key in r.keys by { SortMembers(r.keys, r.key); }
    hide IndexOf, SortKeys, KeysOf;
    if Created(m, r).Ok? {
      var signers := Created(m, r).value.signers;
      forall kind, i | 0 <= i < |signers| ensures ValueOf(kind, signers[i]).None? {
        NothingYet(m, r, kind, i);
      }
    }
  }

  /** A session for this request: its id, message and signer, and its keys in ascending order. */
  predicate Made(m: Musig, r: Request, s: Session)
    requires r.NewSession?
  {
    && s.id == r.id && s.message == r.message && s.key == r.key
    && Ascending(KeysOf(s.signers)) && multiset(KeysOf(s.signers)) == multiset(r.keys)
    && m.combineKeys(KeysOf(s.signers)) == Ok(s.combined)
  }

  ghost predicate MadeIn(m: Musig, rs: seq<Request>, s: Session) {
    exists j | 0 <= j < |rs| :: rs[j].NewSession? && Made(m, rs[j], s)
  }

  lemma MadeKept(m: Musig, r: Request, s: Session, t: Session)
    requires r.NewSession? && Made(m, r, s) && Extends(s, t)
    ensures Made(m, r, t)
  {
    KeysKept(s, t);
    hide KeysOf;
  }

  /** Every session after a run was made by a request of the run, and still is the session asked for. */
  lemma {:induction false} SessionsAreMade(m: Musig, rs: seq<Request>, id: SessionId)
    requires id in Run(m, map[], rs)
    ensures MadeIn(m, rs, Run(m, map[], rs)[id]) && Run(m, map[], rs)[id].id == id
    decreases |rs|
  {
    hide Step, Made, Extends, Created;
    var n := |rs| - 1;
    var before, r, t := Run(m, map[], rs[..n]), rs[n], Run(m, map[], rs)[id];
    StepOrigin(m, before, r, id);
    if r.NewSession? && r.id == id && Created(m, r).Ok? {
      SessionCreated(m, r);
      assert rs[n].NewSession? && Made(m, rs[n], t);
      assert t.id == id by { MadeId(m, r, t); }
    } else {
      SessionsAreMade(m, rs[..n], id);
      var j :| 0 <= j < n && rs[..n][j].NewSession? && Made(m, rs[..n][j], before[id]);
      MadeKept(m, rs[j], before[id], t);
      assert rs[j].NewSession? && Made(m, rs[j], t);
      assert t.id == id by { SameId(before[id], t); }
    }
  }

  lemma MadeId(m: Musig, r: Request, s: Session)
    requires r.NewSession? && Made(m, r, s)
    ensures s.id == r.id
  {
  }

  lemma SameId(s: Session, t: Session)
    requires Extends(s, t)
    ensures s.id == t.id
  {
  }

  lemma StepOrigin(m: Musig, store: Store, r: Request, id: SessionId)
    requires id in Step(m, store, r).0
    ensures r.NewSession? && r.id == id && Created(m, r).Ok? ==> Step(m, store, r).0[id] == Created(m, r).value
    ensures !(r.NewSession? && r.id == id && Created(m, r).Ok?) ==>
              id in store && Extends(store[id], Step(m, store, r).0[id])
  {
    hide Created, Respond, Extends;
    if !(r.NewSession? && r.id == id) {
      if id in store { StepExtends(m, store, r, id); }
    } else if Created(m, r).Err? {
      assert Extends(store[id], store[id]) by { ExtendsItself(store[id]); }
    }
  }

  lemma ExtendsItself(s: Session)
    ensures Extends(s, s)
  {
  }

  // ---------- What the cryptographic functions are given ----------

  /** The context of a session for the signer at this place. */
  predicate IsContext(x: Context, s: Session, i: nat) {
    && x.id == s.id && x.message == s.message && x.combined == s.combined && x.index == i
    && |x.keys| == |s.signers| && forall j | 0 <= j < |s.signers| :: x.keys[j] == s.signers[j].key
  }

  /** These are the values of this kind, signer by signer. */
  predicate AreValues(kind: Kind, s: Session, vs: seq<nat>) {
    |vs| == |s.signers| && forall j | 0 <= j < |vs| :: ValueOf(kind, s.signers[j]) == Some(vs[j])
  }

  lemma ContextIs(s: Session, i: nat)
    ensures IsContext(ContextOf(s, i), s, i) && ContextOf(s, i).index == i
  {
  }

  lemma CollectedAre(s: Session)
    ensures AllCommitted(s) ==> AreValues(CommitmentValue, s, Commitments(s))
    ensures AllRevealed(s) ==> AreValues(NonceValue, s, Nonces(s))
    ensures AllSigned(s) ==> AreValues(PartialValue, s, Partials(s))
  {
  }

  /** Along every run, the own commitment is made for the session and the place of the current signer
      among its signers. */
  lemma CommitsForSession(m: Musig, rs: seq<Request>, k: nat) returns (x: Context)
    requires k < |rs| && rs[k].GetCommitment? && Reply(m, map[], rs, k).Ok?
    ensures rs[k].id in Run(m, map[], rs[..k])
    ensures var s := Run(m, map[], rs[..k])[rs[k].id];
            && x.index < |s.signers| && IsContext(x, s, x.index) && s.signers[x.index].key == s.key
            && Reply(m, map[], rs, k) == m.commitment(x)
  {
    hide Run, SignerIndex, KeysOf, IsContext, AddCommitment, SessionOk;
    assert rs[k].id in Run(m, map[], rs[..k]);
    var s := Run(m, map[], rs[..k])[rs[k].id];
    StoredOk(m, rs[..k], rs[k].id);
    FoundAt(s, s.key);
    x := ContextOf(s, SignerIndex(s, s.key).value);
    ContextIs(s, x.index);
  }

  /** Along every run, the signature is computed for the session, the place of the current signer, and
      all commitments, nonces and partial signatures recorded, signer by signer. */
  lemma SignsForSession(m: Musig, rs: seq<Request>, k: nat)
    returns (x: Context, cs: seq<H256>, ns: seq<PublicKey>, ps: seq<H256>)
    requires k < |rs| && rs[k].GetSignature? && Reply(m, map[], rs, k).Ok?
    ensures rs[k].id in Run(m, map[], rs[..k])
    ensures var s := Run(m, map[], rs[..k])[rs[k].id];
            && SignerIndex(s, s.key) == Some(x.index) && IsContext(x, s, x.index) && s.signers[x.index].key == s.key
            && AreValues(CommitmentValue, s, cs) && AreValues(NonceValue, s, ns) && AreValues(PartialValue, s, ps)
            && Reply(m, map[], rs, k) == m.signature(x, cs, ns, ps)
  {
    hide Run, SignerIndex, KeysOf, IsContext, AreValues, AllCommitted, AllRevealed, AllSigned, SessionOk;
    hide Commitments, Nonces, Partials;
    assert rs[k].id in Run(m, map[], rs[..k]);
    var s := Run(m, map[], rs[..k])[rs[k].id];
    StoredOk(m, rs[..k], rs[k].id);
    FoundAt(s, s.key);
    x, cs, ns, ps := ContextOf(s, SignerIndex(s, s.key).value), Commitments(s), Nonces(s), Partials(s);
    ContextIs(s, x.index);
    CollectedAre(s);
  }

  /** Along every run, a request for the nonce, the partial signature or the signature says which values
      are missing, in the order of the rounds, and once none is missing gives the library's answer. */
  lemma AnswersOnceCollected(m: Musig, rs: seq<Request>, k: nat)
    returns (x: Context, cs: seq<H256>, ns: seq<PublicKey>, ps: seq<H256>)
    requires k < |rs| && rs[k].id in Run(m, map[], rs[..k])
    requires rs[k].GetNonce? || rs[k].GetPartial? || rs[k].GetSignature?
    ensures var s, r, answer := Run(m, map[], rs[..k])[rs[k].id], rs[k], Reply(m, map[], rs, k);
            if !AllHave(CommitmentValue, s) then answer == Err(MissingNonceCommitment)
            else if r.GetNonce? then answer == m.nonce(x, cs)
            else if !AllHave(NonceValue, s) then answer == Err(MissingNonce)
            else if r.GetPartial? then answer == m.partial(x, cs, ns)
            else if !AllHave(PartialValue, s) then answer == Err(MissingPartialSignature)
            else answer == m.signature(x, cs, ns, ps)
    ensures var s := Run(m, map[], rs[..k])[rs[k].id];
            && IsContext(x, s, x.index)
            && (AllHave(CommitmentValue, s) ==> AreValues(CommitmentValue, s, cs))
            && (AllHave(NonceValue, s) ==> AreValues(NonceValue, s, ns))
            && (AllHave(PartialValue, s) ==> AreValues(PartialValue, s, ps))
  {
    hide Run, SignerIndex, KeysOf, IsContext, AreValues, AllCommitted, AllRevealed, AllSigned, SessionOk, AllHave;
    hide Commitments, Nonces, Partials, ContextOf;
    var s := Run(m, map[], rs[..k])[rs[k].id];
    StoredOk(m, rs[..k], rs[k].id);
    FoundAt(s, s.key);
    assert s.key in KeysOf(s.signers) by { OwnKeyListed(s); }
    AllHaveIs(s);
    CollectedAre(s);
    x := ContextOf(s, SignerIndex(s, s.key).value);
    ContextIs(s, SignerIndex(s, s.key).value);
    cs := if AllCommitted(s) then Commitments(s) else [];
    ns := if AllRevealed(s) then Nonces(s) else [];
    ps := if AllSigned(s) then Partials(s) else [];
  }

  lemma OwnKeyListed(s: Session)
    requires SessionOk(s)
    ensures s.key in KeysOf(s.signers)
  {
  }

  lemma SameValues(s: Session, t: Session, kind: Kind, vs: seq<nat>)
    requires Extends(s, t) && AreValues(kind, s, vs)
    ensures AreValues(kind, t, vs)
  {
    forall j | 0 <= j < |vs| ensures ValueOf(kind, t.signers[j]) == Some(vs[j]) { ValueKept(s, t, kind, j); }
  }

  lemma SameContext(s: Session, t: Session, x: Context, i: nat)
    requires Extends(s, t) && IsContext(x, s, i)
    ensures IsContext(x, t, i)
  {
    forall j | 0 <= j < |s.signers| ensures x.keys[j] == t.signers[j].key {
      assert SignerKept(s.signers[j], t.signers[j]);
    }
  }

  /** The partial signature handed out and the signature made later use the same context, commitments
      and nonces. */
  lemma SignatureUsesShares(m: Musig, rs: seq<Request>, i: nat, k: nat)
    returns (x: Context, cs: seq<H256>, ns: seq<PublicKey>, ps: seq<H256>)
    requires i < k < |rs| && rs[i].GetPartial? && rs[k].GetSignature? && rs[i].id == rs[k].id
    requires Reply(m, map[], rs, i).Ok? && Reply(m, map[], rs, k).Ok? && FreshIds(rs[i..k], rs[i].id)
    ensures Reply(m, map[], rs, i) == m.partial(x, cs, ns) && Reply(m, map[], rs, k) == m.signature(x, cs, ns, ps)
    ensures rs[k].id in Run(m, map[], rs[..k])
    ensures var t := Run(m, map[], rs[..k])[rs[k].id];
            IsContext(x, t, x.index) && AreValues(CommitmentValue, t, cs) && AreValues(NonceValue, t, ns)
  {
    hide Run, Step, Extends, IsContext, AreValues, SignerIndex, AllCommitted, AllRevealed, Commitments, Nonces;
    hide KeysOf;
    var id := rs[i].id;
    AnswersNeed(m, Run(m, map[], rs[..i]), rs[i]);
    PartialReply(m, Run(m, map[], rs[..i]), rs[i]);
    var s := Run(m, map[], rs[..i])[id];
    RecordedStays(m, map[], rs, i, k, id);
    var t := Run(m, map[], rs[..k])[id];
    var x', cs', ns', ps' := SignsForSession(m, rs, k);
    x, cs, ns, ps := ContextOf(s, SignerIndex(s, s.key).value), Commitments(s), Nonces(s), ps';
    CollectedAre(s);
    SameValues(s, t, CommitmentValue, cs);
    SameValues(s, t, NonceValue, ns);
    ValuesUnique(t, CommitmentValue, cs, cs');
    ValuesUnique(t, NonceValue, ns, ns');
    SameSigner(s, t);
    IndexKept(s, t, s.key);
    ContextIs(s, x.index);
    SameContext(s, t, x, x.index);
    ContextUnique(t, x, x');
  }

  lemma SameSigner(s: Session, t: Session)
    requires Extends(s, t)
    ensures s.key == t.key
  {
  }

  lemma ContextUnique(s: Session, x: Context, y: Context)
    requires IsContext(x, s, x.index) && IsContext(y, s, y.index) && x.index == y.index
    ensures x == y
  {
    forall j | 0 <= j < |x.keys| ensures x.keys[j] == y.keys[j] {
      assert x.keys[j] == s.signers[j].key;
    }
  }

  lemma ValuesUnique(s: Session, kind: Kind, a: seq<nat>, b: seq<nat>)
    requires AreValues(kind, s, a) && AreValues(kind, s, b)
    ensures a == b
  {
    forall j | 0 <= j < |a| ensures a[j] == b[j] { assert ValueOf(kind, s.signers[j]) == Some(a[j]); }
  }
}
