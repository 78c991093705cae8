/**
 * The find-or-create and refresh policy every registry in the store layer
 * follows (src/store/openTree.ts, repeated in src/store/collection.ts): a
 * document is found by a did derived from a name and a namespace, or started
 * empty; a handle is refreshed to the store's latest state, keeping its own
 * key, and kept as it is when the store has not heard of it yet.
 */
module OpenTree {
  import opened Wrappers
  import opened Json
  import opened Store

  /** `findOrCreateTree(name, ns)`: the latest state under the derived did,
      signed by the derived key, or a new empty tree when the store reports
      "not found"; any other failure is passed on. */
  function FindOrCreateTree(ks: KeyScheme, docs: map<Did, Doc>, name: string, ns: string, fault: Option<Error>): (r: Result<Tree>)
    ensures r.Ok? ==> r.value.id == ks.toDid(PassPhraseKey(name, ns)) && r.value.key == Some(PassPhraseKey(name, ns))
    ensures r.Ok? <==> fault.None? || IsNotFound(fault.value)
    ensures r.Err? ==> r.error == fault.value
    ensures r.Ok? && fault.None? && ks.toDid(PassPhraseKey(name, ns)) in docs ==>
              r.value.doc == docs[ks.toDid(PassPhraseKey(name, ns))]
    ensures r.Ok? && (fault.Some? || ks.toDid(PassPhraseKey(name, ns)) !in docs) ==> r.value.doc == EmptyDoc()
  {
    var key := PassPhraseKey(name, ns);
    match GetLatest(docs, ks.toDid(key), fault)
    case Ok(tree) => Ok(tree.(key := Some(key)))
    case Err(e) => if IsNotFound(e) then Ok(NewEmptyTree(ks, key)) else Err(e)
  }

  /** The same name and namespace open the same document with the same key,
      whatever the store holds: a registry is found without prior state. */
  lemma Discoverable(ks: KeyScheme, docs1: map<Did, Doc>, docs2: map<Did, Doc>, name: string, ns: string,
                     fault1: Option<Error>, fault2: Option<Error>)
    requires FindOrCreateTree(ks, docs1, name, ns, fault1).Ok?
    requires FindOrCreateTree(ks, docs2, name, ns, fault2).Ok?
    ensures FindOrCreateTree(ks, docs1, name, ns, fault1).value.id == FindOrCreateTree(ks, docs2, name, ns, fault2).value.id
    ensures FindOrCreateTree(ks, docs1, name, ns, fault1).value.key == FindOrCreateTree(ks, docs2, name, ns, fault2).value.key
  {
  }

  /** `updateTree(treePromise)`: the handle refreshed by its own id and keeping
      its own key; the handle itself on "not found"; a rejection on any other
      failure. Awaiting a rejected handle inside the promise executor throws
      where nothing catches it, so the new promise then never settles. */
  function UpdateTree(docs: map<Did, Doc>, h: Async<Tree>, fault: Option<Error>): (r: Async<Tree>)
    ensures r.Resolved? ==> h.Resolved? && r.value.id == h.value.id && r.value.key == h.value.key
    ensures h.Resolved? ==> (r.Resolved? <==> fault.None? || IsNotFound(fault.value))
    ensures h.Resolved? && r.Resolved? && fault.None? && h.value.id in docs ==> r.value.doc == docs[h.value.id]
    ensures h.Resolved? && r.Resolved? && (fault.Some? || h.value.id !in docs) ==> r == h
    ensures h.Resolved? && r.Rejected? ==> r.error == fault.value
    ensures !h.Resolved? ==> r == Pending
  {
    match h
    case Resolved(tree) =>
      (match GetLatest(docs, tree.id, fault)
       case Ok(latest) => Resolved(latest.(key := tree.key))
       case Err(e) => if IsNotFound(e) then h else Rejected(e))
    case Rejected(_) => Pending
    case Pending => Pending
  }

  /** With no failure and no write in between, a second refresh changes nothing. */
  lemma RefreshIdempotent(docs: map<Did, Doc>, h: Async<Tree>)
    ensures UpdateTree(docs, UpdateTree(docs, h, None), None) == UpdateTree(docs, h, None)
  {
  }

  /** Once a refresh has been rejected, every later refresh of that handle hangs. */
  lemma RejectionHangs(docs: map<Did, Doc>, h: Async<Tree>, fault: Option<Error>, later: Option<Error>)
    requires UpdateTree(docs, h, fault).Rejected?
    ensures UpdateTree(docs, UpdateTree(docs, h, fault), later) == Pending
  {
  }

  /** A refreshed handle is at the store's latest tip, so a write on it is not
      refused as stale. */
  lemma RefreshMakesCurrent(docs: map<Did, Doc>, h: Async<Tree>)
    requires h.Resolved? && (h.value.id in docs || h.value.doc.tip == 0)
    ensures UpdateTree(docs, h, None).Resolved? && Current(docs, UpdateTree(docs, h, None).value)
  {
  }

  /** A handle that was just written reads back as itself. */
  lemma RefreshAfterOwnWrite(docs: map<Did, Doc>, t: Tree)
    ensures UpdateTree(StoreAfter(docs, Resolved(t)), Resolved(t), None) == Resolved(t)
  {
    assert StoreAfter(docs, Resolved(t))[t.id] == t.doc;
  }

  /** `c.playTransactions(await handle, txs)`. */
  function PlayOn(ks: KeyScheme, docs: map<Did, Doc>, h: Async<Tree>, txs: seq<Tx>, fault: Option<Error>): (r: Async<Tree>)
    ensures r.Resolved? ==> h.Resolved? && r.value.id == h.value.id && r.value.key == h.value.key
  {
    match h
    case Resolved(tree) => Settle(Play(ks, docs, tree, txs, fault))
    case Rejected(e) => Rejected(e)
    case Pending => Pending
  }

  /** The handle after that write: an accepted batch advances the tree the
      handle holds, in place. */
  function AfterPlay(h: Async<Tree>, w: Async<Tree>): Async<Tree> {
    if w.Resolved? then w else h
  }
}
