/**
 * The app-wide collection (src/store/collection.ts): a document found by a
 * did derived from a name and a namespace, whose `trackables` object maps
 * each donation's did to `false` (nobody has it) or to the did of the driver
 * who took it. Donors add entries; a driver claims one; nothing is removed.
 */
module Collection {
  import opened Wrappers
  import opened Json
  import opened Store
  import opened OpenTree

  const TrackablesPath: string := "trackables"

  /** `trackables/${did}`. */
  function EntryPath(did: string): string {
    TrackablesPath + "/" + did
  }

  /** The marker for an entry nobody has claimed. */
  const Unowned: Value := Bool(false)

  /** What `resolveData("trackables")` finds in a tree. */
  function Markers(t: Tree): Option<Value> {
    Resolve(t.doc.data, DecodePath(TrackablesPath)).value
  }

  /** One record of `getTrackables`: its `updates` are always empty, and it has
      a driver exactly when the entry's marker is truthy. */
  datatype Listed = Listed(did: string, updates: map<string, Value>, driver: Option<Value>)

  /** `getTrackables` on a tree: one record per key of the `trackables`
      object. `Object.keys` of a missing or null `trackables` throws. */
  function ListTrackables(t: Tree): (r: Result<map<string, Listed>>)
    ensures r.Err? <==> Markers(t).None? || Markers(t).value.Null?
    ensures r.Err? ==> r.error == TypeError
    ensures r.Ok? ==> r.value.Keys == Fields(Markers(t)).Keys
    ensures r.Ok? ==> forall d :: d in r.value ==>
              && r.value[d].did == d
              && r.value[d].updates == map[]
              && (r.value[d].driver.Some? <==> Truthy(Fields(Markers(t))[d]))
              && (r.value[d].driver.Some? ==> r.value[d].driver.value == Fields(Markers(t))[d])
  {
    var found := Markers(t);
    if found.None? || found.value.Null? then Err(TypeError)
    else
      var m := Fields(found);
      Ok(map d | d in m :: Listed(d, map[], if Truthy(m[d]) then Some(m[d]) else None))
  }

  /** A did without '/' is one segment below `trackables`. */
  lemma EntryPathSegments(did: string)
    requires '/' !in did
    ensures DecodePath(EntryPath(did)) == [TrackablesPath, did]
    ensures DecodePath(TrackablesPath) == [TrackablesPath]
  {
    var tp := TrackablesPath;
    assert tp[0] == 't';
    assert '/' !in tp;
    SplitWhole(tp);
    SplitWhole(did);
    DecodeConcat(tp, did);
  }

  /** Writing a marker for `did` sets that entry and keeps every other one. */
  lemma {:induction false} MarkWritten(ks: KeyScheme, docs: map<Did, Doc>, t: Tree, did: string, marker: Value, fault: Option<Error>)
    requires '/' !in did
    requires Play(ks, docs, t, [SetData(EntryPath(did), marker)], fault).Ok?
    ensures Markers(Play(ks, docs, t, [SetData(EntryPath(did), marker)], fault).value)
            == Some(Obj(Fields(Markers(t))[did := marker]))
  {
    PlaySetData(ks, docs, t, EntryPath(did), marker, fault);
    EntryPathSegments(did);
    assert [TrackablesPath, did] == [TrackablesPath] + [did];
    SetChild(t.doc.data, [TrackablesPath], did, marker);
  }

  /** After `addTrackable`, the listing succeeds, holds the new did without a
      driver, and holds every entry it held before. */
  lemma AddedIsListed(ks: KeyScheme, docs: map<Did, Doc>, t: Tree, did: string, fault: Option<Error>, t': Tree)
    requires '/' !in did
    requires Play(ks, docs, t, [SetData(EntryPath(did), Unowned)], fault) == Ok(t')
    ensures ListTrackables(t').Ok?
    ensures did in ListTrackables(t').value && ListTrackables(t').value[did] == Listed(did, map[], None)
    ensures ListTrackables(t').value.Keys == Fields(Markers(t)).Keys + {did}
  {
    MarkWritten(ks, docs, t, did, Unowned, fault);
    assert Fields(Markers(t')) == Fields(Markers(t))[did := Unowned];
  }

  /** After `addTrackable`, reading `trackables/<did>` from the store's latest
      state of the collection gives `false`. */
  lemma AddedIsUnowned(ks: KeyScheme, docs: map<Did, Doc>, t: Tree, did: string, fault: Option<Error>, t': Tree)
    requires Play(ks, docs, t, [SetData(EntryPath(did), Unowned)], fault) == Ok(t')
    ensures GetLatest(StoreAfter(docs, Resolved(t')), t.id, None).Ok?
    ensures Resolve(GetLatest(StoreAfter(docs, Resolved(t')), t.id, None).value.doc.data, DecodePath(EntryPath(did))).value
            == Some(Bool(false))
  {
    PlaySetData(ks, docs, t, EntryPath(did), Unowned, fault);
    assert StoreAfter(docs, Resolved(t'))[t.id] == t'.doc;
  }

  /** After `ownTrackable(t, user)`, the listing reports `user.did` as the
      entry's driver, unless that did is the empty string (which is falsy). */
  lemma OwnedIsListed(ks: KeyScheme, docs: map<Did, Doc>, t: Tree, did: string, owner: string, fault: Option<Error>, t': Tree)
    requires '/' !in did
    requires Play(ks, docs, t, [SetData(EntryPath(did), Str(owner))], fault) == Ok(t')
    ensures ListTrackables(t').Ok?
    ensures did in ListTrackables(t').value
    ensures ListTrackables(t').value[did].driver == (if owner == "" then None else Some(Str(owner)))
    ensures ListTrackables(t').value.Keys == Fields(Markers(t)).Keys + {did}
  {
    MarkWritten(ks, docs, t, did, Str(owner), fault);
    assert Fields(Markers(t')) == Fields(Markers(t))[did := Str(owner)];
  }

  /** A collection document the store has never seen: an empty tree under
      the derived did, signed by the derived key. */
  function FreshCollection(ks: KeyScheme, name: string, ns: string): Tree {
    NewEmptyTree(ks, PassPhraseKey(name, ns))
  }

  /** On a handle the derived key signs, whose document has no owners yet and
      is current, adding `did` is accepted and leaves exactly one more entry. */
  lemma AddAccepted(ks: KeyScheme, docs: map<Did, Doc>, t: Tree, did: string)
    requires '/' !in did
    requires t.key.Some? && ks.toDid(t.key.value) == t.id && t.doc.owners.None? && Current(docs, t)
    ensures Play(ks, docs, t, [SetData(EntryPath(did), Unowned)], None).Ok?
    ensures var t' := Play(ks, docs, t, [SetData(EntryPath(did), Unowned)], None).value;
            && t'.doc.owners.None? && t'.id == t.id && t'.key == t.key
            && Fields(Markers(t')) == Fields(Markers(t))[did := Unowned]
  {
    var txs := [SetData(EntryPath(did), Unowned)];
    assert txs[1..] == [];
    assert ApplyAll(t.doc, txs) == ApplyTx(t.doc, txs[0]);
    MarkWritten(ks, docs, t, did, Unowned, None);
  }

  /** An empty document has no `trackables` entries. */
  lemma FreshHasNoEntries(ks: KeyScheme, name: string, ns: string)
    ensures Fields(Markers(FreshCollection(ks, name, ns))) == map[]
  {
    EntryPathSegments("x");
  }

  /** The scenario of two collection objects opened on the same name and
      namespace before the store has the document: each adds a different did,
      refreshing before its write. Both writes are accepted, the second
      although its object was opened before the first write, and once both
      objects refresh again each lists exactly the two dids. */
  lemma TwoCollectionsConverge(ks: KeyScheme, docs: map<Did, Doc>, name: string, ns: string, d1: string, d2: string)
    requires '/' !in d1 && '/' !in d2
    requires ks.toDid(PassPhraseKey(name, ns)) !in docs
    ensures var h := Settle(FindOrCreateTree(ks, docs, name, ns, None));
            var r1 := UpdateTree(docs, h, None);
            var w1 := PlayOn(ks, docs, r1, [SetData(EntryPath(d1), Unowned)], None);
            var docs1 := StoreAfter(docs, w1);
            var r2 := UpdateTree(docs1, h, None);
            var w2 := PlayOn(ks, docs1, r2, [SetData(EntryPath(d2), Unowned)], None);
            var docs2 := StoreAfter(docs1, w2);
            var final1 := UpdateTree(docs2, AfterPlay(r1, w1), None);
            var final2 := UpdateTree(docs2, AfterPlay(r2, w2), None);
            && w1.Resolved? && w2.Resolved?
            && final1.Resolved? && ListTrackables(final1.value).Ok? && ListTrackables(final1.value).value.Keys == {d1, d2}
            && final2.Resolved? && ListTrackables(final2.value).Ok? && ListTrackables(final2.value).value.Keys == {d1, d2}
  {
    var t0 := FreshCollection(ks, name, ns);
    var h := Settle(FindOrCreateTree(ks, docs, name, ns, None));
    assert h == Resolved(t0);
    var r1 := UpdateTree(docs, h, None);
    assert r1 == h;
    FreshHasNoEntries(ks, name, ns);
    AddAccepted(ks, docs, t0, d1);
    var w1 := Play(ks, docs, t0, [SetData(EntryPath(d1), Unowned)], None).value;
    var pw1 := PlayOn(ks, docs, r1, [SetData(EntryPath(d1), Unowned)], None);
    assert pw1 == Resolved(w1);
    var docs1 := StoreAfter(docs, pw1);
    var r2 := UpdateTree(docs1, h, None);
    var t1 := Tree(t0.id, w1.doc, t0.key);
    assert docs1[t0.id] == w1.doc;
    assert r2 == Resolved(t1);
    AddAccepted(ks, docs1, t1, d2);
    var w2 := Play(ks, docs1, t1, [SetData(EntryPath(d2), Unowned)], None).value;
    var pw2 := PlayOn(ks, docs1, r2, [SetData(EntryPath(d2), Unowned)], None);
    assert pw2 == Resolved(w2);
    assert Markers(t1) == Markers(w1);
    assert Fields(Markers(w2)) == map[d1 := Unowned, d2 := Unowned];
    var docs2 := StoreAfter(docs1, pw2);
    assert w2.id == w1.id == t0.id;
    assert docs2 == docs1[w2.id := w2.doc];
    assert AfterPlay(r1, pw1) == Resolved(w1);
    assert AfterPlay(r2, pw2) == Resolved(w2);
    BothSeeBoth(docs2, w1, w2, d1, d2);
  }

  /** Two handles on a document whose latest state `w2` holds exactly the
      entries `d1` and `d2` both list exactly those once refreshed. */
  lemma BothSeeBoth(docs: map<Did, Doc>, w1: Tree, w2: Tree, d1: string, d2: string)
    requires w1.id == w2.id && w2.id in docs && docs[w2.id] == w2.doc
    requires Fields(Markers(w2)) == map[d1 := Unowned, d2 := Unowned]
    ensures var final1 := UpdateTree(docs, Resolved(w1), None);
            var final2 := UpdateTree(docs, Resolved(w2), None);
            && final1.Resolved? && ListTrackables(final1.value).Ok? && ListTrackables(final1.value).value.Keys == {d1, d2}
            && final2.Resolved? && ListTrackables(final2.value).Ok? && ListTrackables(final2.value).value.Keys == {d1, d2}
  {
    assert d1 in Fields(Markers(w2));
    SeesLatest(docs, w1, w2);
    SeesLatest(docs, w2, w2);
    assert ListTrackables(w2).value.Keys == {d1, d2};
  }

  /** A handle refreshed against a store holding `latest` under its id lists
      what `latest` lists. */
  lemma SeesLatest(docs: map<Did, Doc>, t: Tree, latest: Tree)
    requires t.id == latest.id && t.id in docs && docs[t.id] == latest.doc
    ensures UpdateTree(docs, Resolved(t), None).Resolved?
    ensures ListTrackables(UpdateTree(docs, Resolved(t), None).value) == ListTrackables(latest)
  {
    assert Markers(UpdateTree(docs, Resolved(t), None).value) == Markers(latest);
  }

  /** Every marker is `false` or a did string. */
  predicate WellMarked(t: Tree) {
    forall d :: d in Fields(Markers(t)) ==> Fields(Markers(t))[d] == Unowned || Fields(Markers(t))[d].Str?
  }

  /** Adding and claiming only ever write `false` or a did, and never drop an entry. */
  lemma MarkingKeepsEntries(ks: KeyScheme, docs: map<Did, Doc>, t: Tree, did: string, marker: Value, fault: Option<Error>)
    requires '/' !in did
    requires marker == Unowned || marker.Str?
    requires Play(ks, docs, t, [SetData(EntryPath(did), marker)], fault).Ok?
    ensures var t' := Play(ks, docs, t, [SetData(EntryPath(did), marker)], fault).value;
            && Fields(Markers(t)).Keys <= Fields(Markers(t')).Keys
            && (WellMarked(t) ==> WellMarked(t'))
  {
    var t' := Play(ks, docs, t, [SetData(EntryPath(did), marker)], fault).value;
    MarkWritten(ks, docs, t, did, marker, fault);
    var m, m' := Fields(Markers(t)), Fields(Markers(t'));
    assert m' == m[did := marker];
    if WellMarked(t) {
      forall d | d in m' ensures m'[d] == Unowned || m'[d].Str? {
        if d != did {
          assert m'[d] == m[d];
        }
      }
    }
  }

  /**
   * The collection object. `treePromise` is the handle every call awaits and
   * replaces; a write mutates the tree it holds, so a later call sees its
   * own earlier write without going back to the store.
   */
  class AppCollection {
    const community: Community
    const name: string
    const namespace: string
    var treePromise: Async<Tree>

    function Key(): Key {
      PassPhraseKey(name, namespace)
    }

    function Did(): Did {
      community.keys.toDid(Key())
    }

    /** The handle, once it holds a tree, holds this collection's own
        document and signs with the derived key. */
    ghost predicate Valid()
      reads this
    {
      treePromise.Resolved? ==> treePromise.value.id == Did() && treePromise.value.key == Some(Key())
    }

    constructor(community: Community, name: string, namespace: string, fault: Option<Error>)
      ensures this.community == community && this.name == name && this.namespace == namespace
      ensures treePromise == Settle(FindOrCreateTree(community.keys, community.docs, name, namespace, fault))
      ensures Valid()
    {
      this.community := community;
      this.name := name;
      this.namespace := namespace;
      treePromise := Settle(FindOrCreateTree(community.keys, community.docs, name, namespace, fault));
    }

    method UpdateTree(fault: Option<Error>) returns (r: Async<Tree>)
      requires Valid()
      modifies this
      ensures Valid()
      ensures treePromise == OpenTree.UpdateTree(community.docs, old(treePromise), fault)
      ensures r == treePromise
    {
      treePromise := OpenTree.UpdateTree(community.docs, treePromise, fault);
      r := treePromise;
    }

    /** `getTrackables()`: the listing of the tree the handle holds. */
    function GetTrackables(): (r: Async<map<string, Listed>>)
      reads this
      ensures r.Resolved? <==> treePromise.Resolved? && ListTrackables(treePromise.value).Ok?
      ensures r.Resolved? ==> r.value.Keys == Fields(Markers(treePromise.value)).Keys
      ensures treePromise.Resolved? && r.Rejected? ==> r.error == TypeError
      ensures treePromise.Rejected? ==> r == Rejected(treePromise.error)
      ensures treePromise.Pending? ==> r.Pending?
    {
      match treePromise
      case Resolved(t) => Settle(ListTrackables(t))
      case Rejected(e) => Rejected(e)
      case Pending => Pending
    }

    /** Refresh, then write `marker` at `trackables/<did>`. */
    method Mark(did: string, marker: Value, refreshFault: Option<Error>, writeFault: Option<Error>) returns (r: Async<Tree>)
      requires Valid()
      modifies this, community
      ensures Valid()
      ensures var h := OpenTree.UpdateTree(old(community.docs), old(treePromise), refreshFault);
              && r == PlayOn(community.keys, old(community.docs), h, [SetData(EntryPath(did), marker)], writeFault)
              && treePromise == AfterPlay(h, r)
              && community.docs == StoreAfter(old(community.docs), r)
    {
      var h := UpdateTree(refreshFault);
      match h {
        case Resolved(tree) =>
          var w := community.PlayTransactions(tree, [SetData(EntryPath(did), marker)], writeFault);
          r := Settle(w);
        case Rejected(e) =>
          r := Rejected(e);
        case Pending =>
          r := Pending;
      }
      treePromise := AfterPlay(h, r);
    }

    /** `addTrackable(t)`: mark `t.did` unowned. Afterwards the listing holds it,
        also on a collection the store had never seen. */
    method AddTrackable(did: string, refreshFault: Option<Error>, writeFault: Option<Error>) returns (r: Async<Tree>)
      requires Valid()
      modifies this, community
      ensures Valid()
      ensures var h := OpenTree.UpdateTree(old(community.docs), old(treePromise), refreshFault);
              && r == PlayOn(community.keys, old(community.docs), h, [SetData(EntryPath(did), Unowned)], writeFault)
              && treePromise == AfterPlay(h, r)
              && community.docs == StoreAfter(old(community.docs), r)
      ensures r.Resolved? && '/' !in did ==>
                GetTrackables().Resolved? && did in GetTrackables().value && GetTrackables().value[did].driver == None
    {
      ghost var docs := community.docs;
      ghost var h := OpenTree.UpdateTree(docs, treePromise, refreshFault);
      r := Mark(did, Unowned, refreshFault, writeFault);
      if r.Resolved? && '/' !in did {
        AddedIsListed(community.keys, docs, h.value, did, writeFault, r.value);
      }
    }

    /** `ownTrackable(t, user)`: mark `t.did` as held by `user.did`. */
    method OwnTrackable(did: string, userDid: string, refreshFault: Option<Error>, writeFault: Option<Error>) returns (r: Async<Tree>)
      requires Valid()
      modifies this, community
      ensures Valid()
      ensures var h := OpenTree.UpdateTree(old(community.docs), old(treePromise), refreshFault);
              && r == PlayOn(community.keys, old(community.docs), h, [SetData(EntryPath(did), Str(userDid))], writeFault)
              && treePromise == AfterPlay(h, r)
              && community.docs == StoreAfter(old(community.docs), r)
      ensures r.Resolved? && '/' !in did && userDid != "" ==>
                GetTrackables().Resolved? && did in GetTrackables().value
                && GetTrackables().value[did].driver == Some(Str(userDid))
    {
      ghost var docs := community.docs;
      ghost var h := OpenTree.UpdateTree(docs, treePromise, refreshFault);
      r := Mark(did, Str(userDid), refreshFault, writeFault);
      if r.Resolved? && '/' !in did {
        OwnedIsListed(community.keys, docs, h.value, did, userDid, writeFault, r.value);
      }
    }
  }
}
