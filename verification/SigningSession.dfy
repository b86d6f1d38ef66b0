/** Multi-signature signing sessions (client-core/src/service/multi_sig_session_service.rs). Each call is
    one step; the cryptographic functions are kept abstract. */
module SigningSession {
  import opened Wrappers
  import opened RootHash

  type H256 = nat
  type SessionId = nat

  datatype SessionError =
    | InvalidInput | SessionNotFound | SignerNotFound | MissingNonceCommitment | MissingNonce
    | MissingPartialSignature | CryptoError

  datatype Signer = Signer(key: PublicKey, commitment: Option<H256>, nonce: Option<PublicKey>, partial: Option<H256>)

  /** `signers` is sorted by key and includes the current signer, whose key is `key`. */
  datatype Session = Session(id: SessionId, message: H256, signers: seq<Signer>, key: PublicKey, combined: PublicKey)

  /** What every cryptographic call is given: session, message, keys, and the index of the caller. */
  datatype Context = Context(id: SessionId, message: H256, keys: seq<PublicKey>, combined: PublicKey, index: nat)

  datatype Musig = Musig(
    combineKeys: seq<PublicKey> -> Result<PublicKey, SessionError>,
    commitment: Context -> Result<H256, SessionError>,
    nonce: (Context, seq<H256>) -> Result<PublicKey, SessionError>,
    partial: (Context, seq<H256>, seq<PublicKey>) -> Result<H256, SessionError>,
    signature: (Context, seq<H256>, seq<PublicKey>, seq<H256>) -> Result<H256, SessionError>)

  type Store = map<SessionId, Session>

  function KeysOf(signers: seq<Signer>): (keys: seq<PublicKey>)
    ensures |keys| == |signers|
  {
    seq(|signers|, i requires 0 <= i < |signers| => signers[i].key)
  }

  // ---------- Finding a signer ----------

  /** The library's binary search: halve the range, moving up unless the middle is too big. */
  function Search(keys: seq<PublicKey>, key: PublicKey, base: nat, size: nat): Option<nat>
    requires base + size <= |keys| && size > 0
    decreases size
  {
    if size == 1 then (if keys[base] == key then Some(base) else None)
    else
      var half := size / 2;
      Search(keys, key, if keys[base + half] > key then base else base + half, size - half)
  }

  function IndexOf(keys: seq<PublicKey>, key: PublicKey): Option<nat> {
    if keys == [] then None else Search(keys, key, 0, |keys|)
  }

  predicate Occurs(keys: seq<PublicKey>, key: PublicKey, lo: nat, hi: nat)
    requires hi <= |keys|
  {
    exists i | lo <= i < hi :: keys[i] == key
  }

  /** Where the search goes on. */
  function NextBase(keys: seq<PublicKey>, key: PublicKey, base: nat, half: nat): nat
    requires base + half < |keys|
  {
    if keys[base + half] > key then base else base + half
  }

  lemma HalfKeepsKey(keys: seq<PublicKey>, key: PublicKey, base: nat, size: nat, half: nat)
    requires Ascending(keys) && base + size <= |keys| && 0 < half < size && 2 * half <= size
    ensures var next := NextBase(keys, key, base, half);
            Occurs(keys, key, base, base + size) <==> Occurs(keys, key, next, next + (size - half))
  {
    var next, mid := NextBase(keys, key, base, half), base + half;
    if Occurs(keys, key, base, base + size) {
      var i :| base <= i < base + size && keys[i] == key;
      var j := if keys[mid] == key then mid else i;
      assert keys[j] == key;
      assert keys[mid] > key ==> j < mid;
      assert keys[mid] <= key ==> j >= mid;
    }
    if Occurs(keys, key, next, next + (size - half)) {
      var i :| next <= i < next + (size - half) && keys[i] == key;
      assert base <= i < base + size;
    }
  }

  lemma {:induction false} SearchFinds(keys: seq<PublicKey>, key: PublicKey, base: nat, size: nat)
    requires Ascending(keys) && base + size <= |keys| && size > 0
    ensures Search(keys, key, base, size).Some? <==> Occurs(keys, key, base, base + size)
    ensures Search(keys, key, base, size).Some? ==>
              var i := Search(keys, key, base, size).value;
              i < |keys| && keys[i] == key
    decreases size
  {
    if size == 1 {
      if keys[base] == key { assert Occurs(keys, key, base, base + size); }
    } else {
      hide Occurs, Ascending;
      var half := size / 2;
      HalfKeepsKey(keys, key, base, size, half);
      SearchFinds(keys, key, NextBase(keys, key, base, half), size - half);
    }
  }

  /** On sorted keys the search finds a key exactly when it is there. */
  lemma IndexOfFinds(keys: seq<PublicKey>, key: PublicKey)
    requires Ascending(keys)
    ensures IndexOf(keys, key).Some? <==> key in keys
    ensures IndexOf(keys, key).Some? ==> IndexOf(keys, key).value < |keys| && keys[IndexOf(keys, key).value] == key
  {
    if keys != [] { SearchFinds(keys, key, 0, |keys|); }
    if key in keys {
      var i :| 0 <= i < |keys| && keys[i] == key;
      assert Occurs(keys, key, 0, |keys|);
    }
  }

  method BinarySearch(keys: seq<PublicKey>, key: PublicKey) returns (r: Option<nat>)
    ensures r == IndexOf(keys, key)
  {
    if |keys| == 0 {
      return None;
    }
    var base, size := 0, |keys|;
    while size > 1
      invariant 0 <= base && size > 0 && base + size <= |keys|
      invariant IndexOf(keys, key) == Search(keys, key, base, size)
    {
      var half := size / 2;
      if keys[base + half] <= key {
        base := base + half;
      }
      size := size - half;
    }
    r := if keys[base] == key then Some(base) else None;
  }

  // ---------- Recording values ----------

  function SignerIndex(s: Session, key: PublicKey): (r: Option<nat>)
    ensures r.Some? ==> r.value < |s.signers|
  {
    match IndexOf(KeysOf(s.signers), key)
    case Some(i) => if i < |s.signers| then Some(i) else None
    case None => None
  }

  function AddCommitment(s: Session, key: PublicKey, c: H256): Result<Session, SessionError> {
    match SignerIndex(s, key)
    case None => Err(SignerNotFound)
    case Some(i) =>
      if s.signers[i].commitment.Some? then Err(SessionError.InvalidInput)
      else Ok(s.(signers := s.signers[i := s.signers[i].(commitment := Some(c))]))
  }

  function AddNonce(s: Session, key: PublicKey, n: PublicKey): Result<Session, SessionError> {
    match SignerIndex(s, key)
    case None => Err(SignerNotFound)
    case Some(i) =>
      if s.signers[i].nonce.Some? then Err(SessionError.InvalidInput)
      else Ok(s.(signers := s.signers[i := s.signers[i].(nonce := Some(n))]))
  }

  function AddPartial(s: Session, key: PublicKey, p: H256): Result<Session, SessionError> {
    match SignerIndex(s, key)
    case None => Err(SignerNotFound)
    case Some(i) =>
      if s.signers[i].partial.Some? then Err(SessionError.InvalidInput)
      else Ok(s.(signers := s.signers[i := s.signers[i].(partial := Some(p))]))
  }

  // ---------- What has been collected ----------

  predicate AllCommitted(s: Session) {
    forall i | 0 <= i < |s.signers| :: s.signers[i].commitment.Some?
  }

  predicate AllRevealed(s: Session) {
    forall i | 0 <= i < |s.signers| :: s.signers[i].nonce.Some?
  }

  predicate AllSigned(s: Session) {
    forall i | 0 <= i < |s.signers| :: s.signers[i].partial.Some?
  }

  function Commitments(s: Session): seq<H256>
    requires AllCommitted(s)
  {
    seq(|s.signers|, i requires 0 <= i < |s.signers| => s.signers[i].commitment.value)
  }

  function Nonces(s: Session): seq<PublicKey>
    requires AllRevealed(s)
  {
    seq(|s.signers|, i requires 0 <= i < |s.signers| => s.signers[i].nonce.value)
  }

  function Partials(s: Session): seq<H256>
    requires AllSigned(s)
  {
    seq(|s.signers|, i requires 0 <= i < |s.signers| => s.signers[i].partial.value)
  }

  function ContextOf(s: Session, index: nat): Context {
    Context(s.id, s.message, KeysOf(s.signers), s.combined, index)
  }

  function OwnCommitment(m: Musig, s: Session): Result<H256, SessionError> {
    match SignerIndex(s, s.key)
    case None => Err(SignerNotFound)
    case Some(i) => m.commitment(ContextOf(s, i))
  }

  function OwnNonce(m: Musig, s: Session): Result<PublicKey, SessionError> {
    if !AllCommitted(s) then Err(MissingNonceCommitment)
    else match SignerIndex(s, s.key)
      case None => Err(SignerNotFound)
      case Some(i) => m.nonce(ContextOf(s, i), Commitments(s))
  }

  function OwnPartial(m: Musig, s: Session): Result<H256, SessionError> {
    if !AllCommitted(s) then Err(MissingNonceCommitment)
    else if !AllRevealed(s) then Err(MissingNonce)
    else match SignerIndex(s, s.key)
      case None => Err(SignerNotFound)
      case Some(i) => m.partial(ContextOf(s, i), Commitments(s), Nonces(s))
  }

  function FinalSignature(m: Musig, s: Session): Result<H256, SessionError> {
    if !AllCommitted(s) then Err(MissingNonceCommitment)
    else if !AllRevealed(s) then Err(MissingNonce)
    else if !AllSigned(s) then Err(MissingPartialSignature)
    else match SignerIndex(s, s.key)
      case None => Err(SignerNotFound)
      case Some(i) => m.signature(ContextOf(s, i), Commitments(s), Nonces(s), Partials(s))
  }

  // ---------- The calls ----------

  /** `id` of a new session is drawn at random; `ownKey` is the public key of the private key given. */
  datatype Request =
    | NewSession(id: SessionId, message: H256, keys: seq<PublicKey>, key: PublicKey, ownKey: PublicKey)
    | GetCommitment(id: SessionId)
    | PutCommitment(id: SessionId, key: PublicKey, commitment: H256)
    | GetNonce(id: SessionId)
    | PutNonce(id: SessionId, key: PublicKey, nonce: PublicKey)
    | GetPartial(id: SessionId)
    | PutPartial(id: SessionId, key: PublicKey, partial: H256)
    | GetSignature(id: SessionId)

  function FreshSigners(keys: seq<PublicKey>): (signers: seq<Signer>)
    ensures KeysOf(signers) == keys
  {
    seq(|keys|, i requires 0 <= i < |keys| => Signer(keys[i], None, None, None))
  }

  function Created(m: Musig, r: Request): Result<Session, SessionError>
    requires r.NewSession?
  {
    var sorted := SortKeys(r.keys);
    if r.ownKey != r.key || |r.keys| <= 1 then Err(SessionError.InvalidInput)
    else if IndexOf(sorted, r.key).None? then Err(SessionError.InvalidInput)
    else match m.combineKeys(sorted)
      case Err(e) => Err(e)
      case Ok(combined) => Ok(Session(r.id, r.message, FreshSigners(sorted), r.key, combined))
  }

  /** Ask for one's own value: computed anew each time, recorded the first time. */
  function Recorded(own: Result<H256, SessionError>, has: bool, add: Result<Session, SessionError>, s: Session):
    Result<(Session, H256), SessionError>
  {
    match own
    case Err(e) => Err(e)
    case Ok(v) =>
      if has then Ok((s, v))
      else match add
        case Err(e) => Err(e)
        case Ok(t) => Ok((t, v))
  }

  /** The session after a call on it, and what the call returns. */
  function Respond(m: Musig, s: Session, r: Request): Result<(Session, H256), SessionError>
    requires !r.NewSession?
  {
    var i := SignerIndex(s, s.key);
    match r
    case GetCommitment(_) =>
      var own := OwnCommitment(m, s);
      Recorded(own, i.Some? && s.signers[i.value].commitment.Some?,
               AddCommitment(s, s.key, if own.Ok? then own.value else 0), s)
    case PutCommitment(_, key, c) =>
      (match AddCommitment(s, key, c) case Err(e) => Err(e) case Ok(t) => Ok((t, 0)))
    case GetNonce(_) =>
      var own := OwnNonce(m, s);
      Recorded(own, i.Some? && s.signers[i.value].nonce.Some?,
               AddNonce(s, s.key, if own.Ok? then own.value else 0), s)
    case PutNonce(_, key, n) =>
      (match AddNonce(s, key, n) case Err(e) => Err(e) case Ok(t) => Ok((t, 0)))
    case GetPartial(_) =>
      var own := OwnPartial(m, s);
      Recorded(own, i.Some? && s.signers[i.value].partial.Some?,
               AddPartial(s, s.key, if own.Ok? then own.value else 0), s)
    case PutPartial(_, key, p) =>
      (match AddPartial(s, key, p) case Err(e) => Err(e) case Ok(t) => Ok((t, 0)))
    case GetSignature(_) =>
      (match FinalSignature(m, s) case Err(e) => Err(e) case Ok(v) => Ok((s, v)))
  }

  function Step(m: Musig, store: Store, r: Request): (Store, Result<H256, SessionError>) {
    if r.NewSession? then
      match Created(m, r)
      case Err(e) => (store, Err(e))
      case Ok(s) => (store[r.id := s], Ok(r.id))
    else if r.id !in store then (store, Err(SessionNotFound))
    else match Respond(m, store[r.id], r)
      case Err(e) => (store, Err(e))
      case Ok(tv) => (store[r.id := tv.0], Ok(tv.1))
  }

  // ---------- Recorded values stay ----------

  predicate Kept<T(==)>(a: Option<T>, b: Option<T>) {
    a.Some? ==> a == b
  }

  predicate SignerKept(a: Signer, b: Signer) {
    a.key == b.key && Kept(a.commitment, b.commitment) && Kept(a.nonce, b.nonce) && Kept(a.partial, b.partial)
  }

  /** Same session, with nothing changed that was recorded. */
  predicate Extends(s: Session, t: Session) {
    && s.id == t.id && s.message == t.message && s.key == t.key && s.combined == t.combined
    && |s.signers| == |t.signers|
    && forall i | 0 <= i < |s.signers| :: SignerKept(s.signers[i], t.signers[i])
  }

  lemma ExtendsTransitive(s: Session, t: Session, u: Session)
    requires Extends(s, t) && Extends(t, u)
    ensures Extends(s, u)
  {
  }

  lemma UpdateExtends(s: Session, i: nat, b: Signer)
    requires i < |s.signers| && SignerKept(s.signers[i], b)
    ensures Extends(s, s.(signers := s.signers[i := b])) && Extends(s, s)
  {
  }

  lemma AddsExtend(s: Session, key: PublicKey, v: H256)
    ensures AddCommitment(s, key, v).Ok? ==> Extends(s, AddCommitment(s, key, v).value)
    ensures AddNonce(s, key, v).Ok? ==> Extends(s, AddNonce(s, key, v).value)
    ensures AddPartial(s, key, v).Ok? ==> Extends(s, AddPartial(s, key, v).value)
  {
    hide SignerIndex, Extends;
    var i := SignerIndex(s, key);
    if i.Some? {
      var a := s.signers[i.value];
      if a.commitment.None? { UpdateExtends(s, i.value, a.(commitment := Some(v))); }
      if a.nonce.None? { UpdateExtends(s, i.value, a.(nonce := Some(v))); }
      if a.partial.None? { UpdateExtends(s, i.value, a.(partial := Some(v))); }
    }
  }

  lemma RespondExtends(m: Musig, s: Session, r: Request)
    requires !r.NewSession? && Respond(m, s, r).Ok?
    ensures Extends(s, Respond(m, s, r).value.0)
  {
    assert Extends(s, s);
    hide SignerIndex, OwnCommitment, OwnNonce, OwnPartial, FinalSignature, Extends, AddCommitment, AddNonce, AddPartial;
    match r
    case GetCommitment(_) => AddsExtend(s, s.key, if OwnCommitment(m, s).Ok? then OwnCommitment(m, s).value else 0);
    case PutCommitment(_, key, c) => AddsExtend(s, key, c);
    case GetNonce(_) => AddsExtend(s, s.key, if OwnNonce(m, s).Ok? then OwnNonce(m, s).value else 0);
    case PutNonce(_, key, n) => AddsExtend(s, key, n);
    case GetPartial(_) => AddsExtend(s, s.key, if OwnPartial(m, s).Ok? then OwnPartial(m, s).value else 0);
    case PutPartial(_, key, p) => AddsExtend(s, key, p);
    case GetSignature(_) =>
  }

  lemma StepExtends(m: Musig, store: Store, r: Request, id: SessionId)
    requires id in store && (r.NewSession? ==> r.id != id)
    ensures id in Step(m, store, r).0 && Extends(store[id], Step(m, store, r).0[id])
  {
    hide Respond, Created;
    if !r.NewSession? && r.id in store && Respond(m, store[r.id], r).Ok? { RespondExtends(m, store[r.id], r); }
  }

  function Run(m: Musig, store: Store, rs: seq<Request>): Store {
    if rs == [] then store else Step(m, Run(m, store, rs[..|rs| - 1]), rs[|rs| - 1]).0
  }

  /** Session ids are not drawn twice. */
  predicate FreshIds(rs: seq<Request>, id: SessionId) {
    forall r | r in rs && r.NewSession? :: r.id != id
  }

  /** Along every run, what was recorded in a session stays as it is. */
  lemma {:induction false} RecordedStays(m: Musig, store: Store, rs: seq<Request>, i: nat, j: nat, id: SessionId)
    requires i <= j <= |rs| && FreshIds(rs[i..j], id) && id in Run(m, store, rs[..i])
    ensures id in Run(m, store, rs[..j]) && Extends(Run(m, store, rs[..i])[id], Run(m, store, rs[..j])[id])
    decreases j
  {
    hide Step;
    if i < j {
      forall r | r in rs[i..j - 1] ensures r in rs[i..j] {}
      RecordedStays(m, store, rs, i, j - 1, id);
      assert rs[..j][..j - 1] == rs[..j - 1];
      assert rs[j - 1] in rs[i..j];
      var before := Run(m, store, rs[..j - 1]);
      StepExtends(m, before, rs[j - 1], id);
      ExtendsTransitive(Run(m, store, rs[..i])[id], before[id], Step(m, before, rs[j - 1]).0[id]);
    }
  }

  // ---------- The protocol ----------

  function Reply(m: Musig, store: Store, rs: seq<Request>, k: nat): Result<H256, SessionError>
    requires k < |rs|
  {
    Step(m, Run(m, store, rs[..k]), rs[k]).1
  }

  lemma AnswersNeed(m: Musig, store: Store, r: Request)
    requires !r.NewSession? && Step(m, store, r).1.Ok?
    ensures r.id in store
    ensures r.GetNonce? || r.GetPartial? || r.GetSignature? ==> AllCommitted(store[r.id])
    ensures r.GetPartial? || r.GetSignature? ==> AllRevealed(store[r.id])
    ensures r.GetSignature? ==> AllSigned(store[r.id])
  {
    hide SignerIndex, AddCommitment, AddNonce, AddPartial, AllCommitted, AllRevealed, AllSigned;
  }

  lemma CommitmentsKept(s: Session, t: Session)
    requires Extends(s, t) && AllCommitted(s)
    ensures AllCommitted(t) && Commitments(s) == Commitments(t)
  {
    forall i | 0 <= i < |s.signers| ensures s.signers[i].commitment == t.signers[i].commitment {
      assert SignerKept(s.signers[i], t.signers[i]);
    }
  }

  lemma NoncesKept(s: Session, t: Session)
    requires Extends(s, t) && AllRevealed(s)
    ensures AllRevealed(t) && Nonces(s) == Nonces(t)
  {
    forall i | 0 <= i < |s.signers| ensures s.signers[i].nonce == t.signers[i].nonce {
      assert SignerKept(s.signers[i], t.signers[i]);
    }
  }

  lemma KeysKept(s: Session, t: Session)
    requires Extends(s, t)
    ensures KeysOf(s.signers) == KeysOf(t.signers)
  {
    forall i | 0 <= i < |s.signers| ensures s.signers[i].key == t.signers[i].key {
      assert SignerKept(s.signers[i], t.signers[i]);
    }
  }

  lemma PartialReply(m: Musig, store: Store, r: Request)
    requires r.GetPartial? && Step(m, store, r).1.Ok?
    ensures r.id in store && Step(m, store, r).1 == OwnPartial(m, store[r.id])
  {
    hide SignerIndex, AddPartial, OwnPartial;
  }

  lemma NonceReply(m: Musig, store: Store, r: Request)
    requires r.GetNonce? && Step(m, store, r).1.Ok?
    ensures r.id in store && Step(m, store, r).1 == OwnNonce(m, store[r.id])
  {
    hide SignerIndex, AddNonce, OwnNonce;
  }

  /** The nonce is revealed for some commitments, and the partial signature made later is made with
      exactly these commitments. */
  lemma SignsWhatWasCommitted(m: Musig, store: Store, rs: seq<Request>, i: nat, j: nat)
    requires i < j < |rs| && rs[i].GetNonce? && rs[j].GetPartial? && rs[i].id == rs[j].id
    requires Reply(m, store, rs, i).Ok? && Reply(m, store, rs, j).Ok? && FreshIds(rs[i..j], rs[i].id)
    ensures rs[i].id in Run(m, store, rs[..i]) && rs[i].id in Run(m, store, rs[..j])
    ensures var s, t := Run(m, store, rs[..i])[rs[i].id], Run(m, store, rs[..j])[rs[i].id];
            && AllCommitted(s) && AllCommitted(t) && AllRevealed(t) && Commitments(s) == Commitments(t)
            && SignerIndex(s, s.key).Some? && SignerIndex(t, t.key).Some?
            && Reply(m, store, rs, i) == m.nonce(ContextOf(s, SignerIndex(s, s.key).value), Commitments(s))
            && Reply(m, store, rs, j) == m.partial(ContextOf(t, SignerIndex(t, t.key).value), Commitments(s), Nonces(t))
  {
    hide Step, Run, Extends, SignerIndex, AllCommitted, AllRevealed, Commitments, Nonces, ContextOf;
    NonceReply(m, Run(m, store, rs[..i]), rs[i]);
    PartialReply(m, Run(m, store, rs[..j]), rs[j]);
    RecordedStays(m, store, rs, i, j, rs[i].id);
    CommitmentsKept(Run(m, store, rs[..i])[rs[i].id], Run(m, store, rs[..j])[rs[i].id]);
  }

  lemma PartialIsFunction(m: Musig, s: Session, t: Session)
    requires Extends(s, t) && AllCommitted(s) && AllRevealed(s)
    ensures OwnPartial(m, s) == OwnPartial(m, t) && OwnNonce(m, s) == OwnNonce(m, t)
  {
    CommitmentsKept(s, t);
    NoncesKept(s, t);
    KeysKept(s, t);
    hide IndexOf, KeysOf, Commitments, Nonces, Extends, AllCommitted, AllRevealed;
  }

  /** Asking for the partial signature again gives the same one: a session never signs with one nonce
      for two different sets of commitments or nonces. */
  lemma SignsOnce(m: Musig, store: Store, rs: seq<Request>, i: nat, j: nat)
    requires i < j < |rs| && rs[i].GetPartial? && rs[j].GetPartial? && rs[i].id == rs[j].id
    requires Reply(m, store, rs, i).Ok? && Reply(m, store, rs, j).Ok? && FreshIds(rs[i..j], rs[i].id)
    ensures Reply(m, store, rs, i) == Reply(m, store, rs, j)
  {
    hide Step, Run, Extends;
    AnswersNeed(m, Run(m, store, rs[..i]), rs[i]);
    PartialReply(m, Run(m, store, rs[..i]), rs[i]);
    PartialReply(m, Run(m, store, rs[..j]), rs[j]);
    RecordedStays(m, store, rs, i, j, rs[i].id);
    PartialIsFunction(m, Run(m, store, rs[..i])[rs[i].id], Run(m, store, rs[..j])[rs[i].id]);
  }

  // ---------- Signers are found ----------

  predicate SessionOk(s: Session) {
    Ascending(KeysOf(s.signers)) && s.key in KeysOf(s.signers)
  }

  lemma CreatedOk(m: Musig, r: Request)
    requires r.NewSession? && Created(m, r).Ok?
    ensures SessionOk(Created(m, r).value)
  {
    SortShape(r.keys);
    IndexOfFinds(SortKeys(r.keys), r.key);
    hide IndexOf, SortKeys;
  }

  lemma ExtendsOk(s: Session, t: Session)
    requires SessionOk(s) && Extends(s, t)
    ensures SessionOk(t)
  {
    KeysKept(s, t);
  }

  predicate StoreOk(store: Store) {
    forall id | id in store :: SessionOk(store[id])
  }

  lemma StepKeepsOk(m: Musig, store: Store, r: Request)
    requires StoreOk(store)
    ensures StoreOk(Step(m, store, r).0)
  {
    hide SessionOk, Respond, Created;
    if r.NewSession? {
      if Created(m, r).Ok? { CreatedOk(m, r); }
    } else if r.id in store && Respond(m, store[r.id], r).Ok? {
      RespondExtends(m, store[r.id], r);
      ExtendsOk(store[r.id], Respond(m, store[r.id], r).value.0);
    }
  }

  /** In every session of every run the signers are sorted, so that the search finds exactly the keys
      of the signers, and the current signer is one of them. */
  lemma {:induction false} SignersAreFound(m: Musig, rs: seq<Request>, id: SessionId, key: PublicKey)
    requires id in Run(m, map[], rs)
    ensures var s := Run(m, map[], rs)[id];
            && (SignerIndex(s, key).Some? <==> key in KeysOf(s.signers))
            && (SignerIndex(s, key).Some? ==> s.signers[SignerIndex(s, key).value].key == key)
            && s.key in KeysOf(s.signers)
  {
    RunsKeepOk(m, rs);
    IndexOfFinds(KeysOf(Run(m, map[], rs)[id].signers), key);
    hide Run, IndexOf;
  }

  lemma {:induction false} RunsKeepOk(m: Musig, rs: seq<Request>)
    ensures StoreOk(Run(m, map[], rs))
    decreases |rs|
  {
    hide Step, SessionOk;
    if rs != [] {
      RunsKeepOk(m, rs[..|rs| - 1]);
      StepKeepsOk(m, Run(m, map[], rs[..|rs| - 1]), rs[|rs| - 1]);
    }
  }

  // ---------- What is recorded ----------

  datatype Kind = CommitmentValue | NonceValue | PartialValue

  function ValueOf(kind: Kind, x: Signer): Option<nat> {
    match kind
    case CommitmentValue => x.commitment
    case NonceValue => x.nonce
    case PartialValue => x.partial
  }

  function WithValue(kind: Kind, x: Signer, v: nat): Signer {
    match kind
    case CommitmentValue => x.(commitment := Some(v))
    case NonceValue => x.(nonce := Some(v))
    case PartialValue => x.(partial := Some(v))
  }

  predicate IsPut(kind: Kind, r: Request) {
    match kind
    case CommitmentValue => r.PutCommitment?
    case NonceValue => r.PutNonce?
    case PartialValue => r.PutPartial?
  }

  predicate IsGet(kind: Kind, r: Request) {
    match kind
    case CommitmentValue => r.GetCommitment?
    case NonceValue => r.GetNonce?
    case PartialValue => r.GetPartial?
  }

  function PutValue(kind: Kind, r: Request): nat
    requires IsPut(kind, r)
  {
    match kind
    case CommitmentValue => r.commitment
    case NonceValue => r.nonce
    case PartialValue => r.partial
  }

  lemma FoundAt(s: Session, key: PublicKey)
    requires SessionOk(s)
    ensures SignerIndex(s, key).Some? <==> key in KeysOf(s.signers)
    ensures SignerIndex(s, key).Some? ==> s.signers[SignerIndex(s, key).value].key == key
  {
    IndexOfFinds(KeysOf(s.signers), key);
    hide IndexOf;
  }

  /** A value received is taken if and only if its key is a signer that has none yet. It is recorded
      for that signer and nowhere else; a second value is refused, and so is an unknown key. */
  lemma PutsRecord(m: Musig, s: Session, r: Request, kind: Kind)
    requires SessionOk(s) && IsPut(kind, r)
    ensures var a, i := Respond(m, s, r), SignerIndex(s, r.key);
            && (a.Ok? <==> r.key in KeysOf(s.signers) && i.Some? && ValueOf(kind, s.signers[i.value]).None?)
            && (a.Err? ==> a.error == if r.key in KeysOf(s.signers) then SessionError.InvalidInput else SignerNotFound)
            && (a.Ok? ==> s.signers[i.value].key == r.key)
            && (a.Ok? ==>
                  var b := WithValue(kind, s.signers[i.value], PutValue(kind, r));
                  a.value.0 == s.(signers := s.signers[i.value := b]))
  {
    FoundAt(s, r.key);
    hide SignerIndex, SessionOk, KeysOf;
  }

  /** After a value of one's own is returned, that value or an earlier one is recorded. */
  lemma GetsRecord(m: Musig, s: Session, r: Request)
    requires SessionOk(s) && (r.GetCommitment? || r.GetNonce? || r.GetPartial?) && Respond(m, s, r).Ok?
    ensures var t, v, i := Respond(m, s, r).value.0, Respond(m, s, r).value.1, SignerIndex(s, s.key);
            && i.Some? && s.signers[i.value].key == s.key && |t.signers| == |s.signers|
            && (r.GetCommitment? ==> Own(s.signers[i.value].commitment, t.signers[i.value].commitment, v))
            && (r.GetNonce? ==> Own(s.signers[i.value].nonce, t.signers[i.value].nonce, v))
            && (r.GetPartial? ==> Own(s.signers[i.value].partial, t.signers[i.value].partial, v))
  {
    FoundAt(s, s.key);
    hide SignerIndex, SessionOk, KeysOf, AllCommitted, AllRevealed, Commitments, Nonces;
  }

  predicate Own(before: Option<nat>, after: Option<nat>, v: nat) {
    after == if before.Some? then before else Some(v)
  }

  // ---------- The service ----------

  class MultiSigSessionService {
    var storage: Store
    const musig: Musig

    constructor (musig: Musig)
      ensures this.musig == musig && storage == map[]
    {
      this.musig := musig;
      storage := map[];
    }

    method CreateSession(id: SessionId, message: H256, keys: seq<PublicKey>, key: PublicKey, ownKey: PublicKey)
      returns (r: Result<SessionId, SessionError>)
      modifies this
      ensures (storage, r) == Step(musig, old(storage), NewSession(id, message, keys, key, ownKey))
    {
      if ownKey != key || |keys| <= 1 {
        return Err(SessionError.InvalidInput);
      }
      var sorted := SortKeys(keys);
      var found := BinarySearch(sorted, key);
      if found.None? {
        return Err(SessionError.InvalidInput);
      }
      var combined := musig.combineKeys(sorted);
      if combined.Err? {
        return Err(combined.error);
      }
      storage := storage[id := Session(id, message, FreshSigners(sorted), key, combined.value)];
      r := Ok(id);
    }

    method Commitment(id: SessionId) returns (r: Result<H256, SessionError>)
      modifies this
      ensures (storage, r) == Step(musig, old(storage), GetCommitment(id))
    {
      hide SignerIndex;
      if id !in storage {
        return Err(SessionNotFound);
      }
      var session := storage[id];
      var own := OwnCommitment(musig, session);
      if own.Err? {
        return Err(own.error);
      }
      var i := SignerIndex(session, session.key).value;
      if session.signers[i].commitment.None? {
        session := AddCommitment(session, session.key, own.value).value;
      }
      storage := storage[id := session];
      r := Ok(own.value);
    }

    method ReceiveCommitment(id: SessionId, key: PublicKey, c: H256) returns (r: Result<H256, SessionError>)
      modifies this
      ensures (storage, r) == Step(musig, old(storage), PutCommitment(id, key, c))
    {
      hide SignerIndex;
      if id !in storage {
        return Err(SessionNotFound);
      }
      var added := AddCommitment(storage[id], key, c);
      if added.Err? {
        return Err(added.error);
      }
      storage := storage[id := added.value];
      r := Ok(0);
    }

    method Nonce(id: SessionId) returns (r: Result<PublicKey, SessionError>)
      modifies this
      ensures (storage, r) == Step(musig, old(storage), GetNonce(id))
    {
      hide SignerIndex, AllCommitted, Commitments;
      if id !in storage {
        return Err(SessionNotFound);
      }
      var session := storage[id];
      var own := OwnNonce(musig, session);
      if own.Err? {
        return Err(own.error);
      }
      var i := SignerIndex(session, session.key).value;
      if session.signers[i].nonce.None? {
        session := AddNonce(session, session.key, own.value).value;
      }
      storage := storage[id := session];
      r := Ok(own.value);
    }

    method ReceiveNonce(id: SessionId, key: PublicKey, n: PublicKey) returns (r: Result<H256, SessionError>)
      modifies this
      ensures (storage, r) == Step(musig, old(storage), PutNonce(id, key, n))
    {
      hide SignerIndex;
      if id !in storage {
        return Err(SessionNotFound);
      }
      var added := AddNonce(storage[id], key, n);
      if added.Err? {
        return Err(added.error);
      }
      storage := storage[id := added.value];
      r := Ok(0);
    }

    method PartialSignature(id: SessionId) returns (r: Result<H256, SessionError>)
      modifies this
      ensures (storage, r) == Step(musig, old(storage), GetPartial(id))
    {
      hide SignerIndex, AllCommitted, AllRevealed, Commitments, Nonces;
      if id !in storage {
        return Err(SessionNotFound);
      }
      var session := storage[id];
      var own := OwnPartial(musig, session);
      if own.Err? {
        return Err(own.error);
      }
      var i := SignerIndex(session, session.key).value;
      if session.signers[i].partial.None? {
        session := AddPartial(session, session.key, own.value).value;
      }
      storage := storage[id := session];
      r := Ok(own.value);
    }

    method ReceivePartialSignature(id: SessionId, key: PublicKey, p: H256) returns (r: Result<H256, SessionError>)
      modifies this
      ensures (storage, r) == Step(musig, old(storage), PutPartial(id, key, p))
    {
      hide SignerIndex;
      if id !in storage {
        return Err(SessionNotFound);
      }
      var added := AddPartial(storage[id], key, p);
      if added.Err? {
        return Err(added.error);
      }
      storage := storage[id := added.value];
      r := Ok(0);
    }

    method Signature(id: SessionId) returns (r: Result<H256, SessionError>)
      ensures r == Step(musig, storage, GetSignature(id)).1
    {
      if id !in storage {
        return Err(SessionNotFound);
      }
      r := FinalSignature(musig, storage[id]);
    }
  }
}
