/**
 * The document store the app's store layer sits on (a chain-tree community),
 * reduced to what that layer relies on: documents addressed by a did, each
 * with a tip counter, a data tree and an ownership list; reads by did; and
 * batches of transactions that are accepted only from an owner and only on
 * the latest tip. Key derivation is left abstract.
 */
module Store {
  import opened Wrappers
  import opened Json

  type Did = string
  type Address = string

  /** The failures the store layer distinguishes or raises. */
  datatype Error =
    | NotFound       // the store has no document under the did ("not found")
    | Unavailable    // a transport or infrastructure failure
    | Conflict       // the batch was built on a stale tip
    | Unauthorized   // the signing key is not an owner
    | AccountExists  // "account already exists"
    | NoTreeFound    // "no tree found"
    | TypeError      // JavaScript's TypeError: a property of undefined, a missing method
    | InvalidDid     // a lookup by something that is not a did string

  /** The only test the source makes of an error: does its message say "not found"? */
  predicate IsNotFound(e: Error) {
    e == NotFound
  }

  /** The outcome of one store call. */
  datatype Result<+T> = Ok(value: T) | Err(error: Error)

  /** The final state of a promise; `Pending` is a promise that never settles. */
  datatype Async<+T> = Resolved(value: T) | Rejected(error: Error) | Pending

  function Settle<T>(r: Result<T>): Async<T> {
    match r
    case Ok(v) => Resolved(v)
    case Err(e) => Rejected(e)
  }

  /** A signing key, known by what it was derived from. */
  datatype Key = PassPhrase(phrase: string, salt: string) | Generated(seed: nat)

  /** `EcdsaKey.passPhraseKey(phrase, salt)`. */
  function PassPhraseKey(phrase: string, salt: string): Key {
    PassPhrase(phrase, salt)
  }

  /** The derivations from a key that the model leaves uninterpreted: its
      did, its address, and its private key rendered as a string. */
  datatype KeyScheme = KeyScheme(toDid: Key -> Did, address: Key -> Address, privateKey: Key -> string)

  /** Distinct keys have distinct addresses (assumed only where stated). */
  ghost predicate AddressesDistinct(ks: KeyScheme) {
    forall k1: Key, k2: Key :: ks.address(k1) == ks.address(k2) ==> k1 == k2
  }

  /** A document's latest state; `owners` is None until ownership is first set. */
  datatype Doc = Doc(tip: nat, data: Value, owners: Option<seq<Address>>)

  /** A chain-tree handle: a document's state as this process knows it, and
      the key it signs with, if any. */
  datatype Tree = Tree(id: Did, doc: Doc, key: Option<Key>)

  datatype Tx = SetData(path: string, value: Value) | SetOwnership(owners: seq<Address>)

  function EmptyDoc(): Doc {
    Doc(0, Obj(map[]), None)
  }

  /** `ChainTree.newEmptyTree(store, key)`. */
  function NewEmptyTree(ks: KeyScheme, key: Key): Tree {
    Tree(ks.toDid(key), EmptyDoc(), Some(key))
  }

  /** `getLatest(did)` (and `getTip`): `fault` is a failure of the call itself. */
  function GetLatest(docs: map<Did, Doc>, did: Did, fault: Option<Error>): (r: Result<Tree>)
    ensures r.Ok? <==> fault.None? && did in docs
    ensures r.Ok? ==> r.value == Tree(did, docs[did], None)
    ensures r.Err? && fault.None? ==> IsNotFound(r.error)
  {
    if fault.Some? then Err(fault.value)
    else if did in docs then Ok(Tree(did, docs[did], None))
    else Err(NotFound)
  }

  function ApplyTx(d: Doc, tx: Tx): Doc {
    match tx
    case SetData(path, v) => d.(data := SetAt(d.data, DecodePath(path), v))
    case SetOwnership(owners) => d.(owners := Some(owners))
  }

  function ApplyAll(d: Doc, txs: seq<Tx>): Doc
    decreases |txs|
  {
    if txs == [] then d else ApplyAll(ApplyTx(d, txs[0]), txs[1..])
  }

  /** The document after an accepted batch: every transaction in order, one new tip. */
  function Committed(d: Doc, txs: seq<Tx>): Doc {
    ApplyAll(d, txs).(tip := d.tip + 1)
  }

  /** The handle is at the store's latest tip (a document the store lacks is at tip 0). */
  predicate Current(docs: map<Did, Doc>, t: Tree) {
    if t.id in docs then docs[t.id].tip == t.doc.tip else t.doc.tip == 0
  }

  /** The handle's key may sign: it is an owner, or, before ownership is set,
      the key the did was derived from. */
  predicate Authorized(ks: KeyScheme, t: Tree) {
    t.key.Some? &&
    match t.doc.owners
    case None => ks.toDid(t.key.value) == t.id
    case Some(owners) => ks.address(t.key.value) in owners
  }

  /** `playTransactions(tree, txs)`: the handle after the batch, or why it was refused. */
  function Play(ks: KeyScheme, docs: map<Did, Doc>, t: Tree, txs: seq<Tx>, fault: Option<Error>): (r: Result<Tree>)
    ensures r.Ok? <==> fault.None? && Current(docs, t) && Authorized(ks, t)
    ensures r.Ok? ==> r.value.id == t.id && r.value.key == t.key && r.value.doc.tip == t.doc.tip + 1
    ensures r.Err? && fault.None? ==> r.error in {Conflict, Unauthorized}
  {
    if fault.Some? then Err(fault.value)
    else if !Current(docs, t) then Err(Conflict)
    else if !Authorized(ks, t) then Err(Unauthorized)
    else Ok(Tree(t.id, Committed(t.doc, txs), t.key))
  }

  /** The store after a write whose outcome is `w`: only an accepted batch is recorded. */
  function StoreAfter(docs: map<Did, Doc>, w: Async<Tree>): map<Did, Doc> {
    if w.Resolved? then docs[w.value.id := w.value.doc] else docs
  }

  /** A batch that ends by setting ownership leaves exactly those owners. */
  lemma {:induction false} OwnersAfter(d: Doc, txs: seq<Tx>)
    requires txs != [] && txs[|txs| - 1].SetOwnership?
    ensures ApplyAll(d, txs).owners == Some(txs[|txs| - 1].owners)
    decreases |txs|
  {
    if |txs| == 1 {
      assert txs[1..] == [];
    } else {
      OwnersAfter(ApplyTx(d, txs[0]), txs[1..]);
    }
  }

  /** A batch of one SetData leaves the written path resolving to the value. */
  lemma PlaySetData(ks: KeyScheme, docs: map<Did, Doc>, t: Tree, path: string, v: Value, fault: Option<Error>)
    requires Play(ks, docs, t, [SetData(path, v)], fault).Ok?
    ensures Play(ks, docs, t, [SetData(path, v)], fault).value.doc.data == SetAt(t.doc.data, DecodePath(path), v)
    ensures Resolve(Play(ks, docs, t, [SetData(path, v)], fault).value.doc.data, DecodePath(path)) == Resolution(Some(v), [])
  {
    var txs := [SetData(path, v)];
    assert txs[1..] == [];
    assert ApplyAll(t.doc, txs) == ApplyTx(t.doc, txs[0]);
    ResolveSetAt(t.doc.data, DecodePath(path), v);
  }

  /** An accepted write makes the handle current again: a second batch on it
      needs no refresh (the store was not written in between). */
  lemma PlayLeavesCurrent(ks: KeyScheme, docs: map<Did, Doc>, t: Tree, txs: seq<Tx>)
    requires Play(ks, docs, t, txs, None).Ok?
    ensures Current(StoreAfter(docs, Settle(Play(ks, docs, t, txs, None))), Play(ks, docs, t, txs, None).value)
  {
  }

  /** The shared connection to the store (`getAppCommunity()`), holding every
      document by did. */
  class Community {
    const keys: KeyScheme
    var docs: map<Did, Doc>

    constructor(keys: KeyScheme, docs: map<Did, Doc>)
      ensures this.keys == keys && this.docs == docs
    {
      this.keys := keys;
      this.docs := docs;
    }

    /** `c.playTransactions(tree, txs)`: the store records an accepted batch. */
    method PlayTransactions(t: Tree, txs: seq<Tx>, fault: Option<Error>) returns (r: Result<Tree>)
      modifies this
      ensures r == Play(keys, old(docs), t, txs, fault)
      ensures docs == StoreAfter(old(docs), Settle(r))
    {
      r := Play(keys, docs, t, txs, fault);
      if r.Ok? {
        docs := docs[t.id := r.value.doc];
      }
    }
  }
}
