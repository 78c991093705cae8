/**
 * The drivers registry (src/store/drivers.ts): one document per region and
 * namespace holding, at `drivers`, the list of dids of the users who drive
 * for it. A new driver is appended by refreshing the document, reading the
 * list and writing it back.
 */
module Drivers {
  import opened Wrappers
  import opened Json
  import opened Store
  import opened OpenTree
  import opened DidList

  /** A did followed by `/tree/data/<p>` splits into the did's segments and
      the three segments of the path into its data. */
  lemma GraftPath(d: string, p: string)
    requires '/' !in p
    ensures Split(d + "/tree/data/" + p) == Split(d) + ["tree", "data", p]
  {
    var tr, da := "tree", "data";
    var b := tr + "/" + da + "/" + p;
    assert d + "/tree/data/" + p == d + "/" + b;
    assert '/' !in da && '/' !in tr;
    SplitThree(tr, da, p);
    SplitConcat(d, b);
  }

  /** A write outcome whose value the caller ignores. */
  function Done(w: Async<Tree>): (r: Async<()>)
    ensures r.Resolved? <==> w.Resolved?
    ensures w.Rejected? ==> r == Rejected(w.error)
  {
    match w
    case Resolved(_) => Resolved(())
    case Rejected(e) => Rejected(e)
    case Pending => Pending
  }

  class Drivers {
    const community: Community
    const region: string
    const namespace: string
    /** Where in the registry's data the list lives. */
    const driversPath: string
    var treePromise: Async<Tree>

    function Key(): Key {
      PassPhraseKey(region, namespace)
    }

    function Did(): Did {
      community.keys.toDid(Key())
    }

    ghost predicate Valid()
      reads this
    {
      && driversPath == "drivers"
      && (treePromise.Resolved? ==> treePromise.value.id == Did() && treePromise.value.key == Some(Key()))
    }

    constructor(community: Community, region: string, namespace: string, fault: Option<Error>)
      ensures this.community == community && this.region == region && this.namespace == namespace
      ensures treePromise == Settle(FindOrCreateTree(community.keys, community.docs, region, namespace, fault))
      ensures Valid()
    {
      this.community := community;
      this.region := region;
      this.namespace := namespace;
      driversPath := "drivers";
      treePromise := Settle(FindOrCreateTree(community.keys, community.docs, region, namespace, fault));
    }

    /** `graftableOwnership()`: the registry's own did, and the path of its
        drivers list inside that document, so that ownership of another
        document can be granted to whoever that list names. */
    function GraftableOwnership(): (r: seq<string>)
      requires Valid()
      reads this
      ensures |r| == 2 && r[0] == Did()
      ensures Split(r[1]) == Split(Did()) + ["tree", "data", driversPath]
    {
      assert '/' !in driversPath;
      GraftPath(Did(), driversPath);
      [Did(), Did() + "/tree/data/" + driversPath]
    }

    method UpdateTree(fault: Option<Error>) returns (r: Async<Tree>)
      requires Valid()
      modifies this
      ensures Valid()
      ensures treePromise == OpenTree.UpdateTree(community.docs, old(treePromise), fault)
      ensures r == treePromise
    {
      treePromise := OpenTree.UpdateTree(community.docs, treePromise, fault);
      r := treePromise;
    }

    /** `addDriver(driver)`: refresh, push the driver's did onto the list at
        `drivers` (started empty when missing), write the list back. */
    method AddDriver(driverDid: Did, refreshFault: Option<Error>, writeFault: Option<Error>) returns (r: Async<()>)
      requires Valid()
      modifies this, community
      ensures Valid()
      ensures var h := OpenTree.UpdateTree(old(community.docs), old(treePromise), refreshFault);
              var w := AppendOn(community.keys, old(community.docs), h, driversPath, driverDid, writeFault);
              && r == Done(w)
              && treePromise == AfterPlay(h, w)
              && community.docs == StoreAfter(old(community.docs), w)
      ensures r.Resolved? ==>
                treePromise.Resolved? && OrEmpty(ListAt(treePromise.value, driversPath)).List?
                && Str(driverDid) in OrEmpty(ListAt(treePromise.value, driversPath)).items
    {
      ghost var docs := community.docs;
      var h := UpdateTree(refreshFault);
      var w: Async<Tree>;
      match h {
        case Resolved(tree) =>
          var dids := Pushed(ListAt(tree, driversPath), driverDid);
          if dids.Ok? {
            var played := community.PlayTransactions(tree, [SetData(driversPath, dids.value)], writeFault);
            w := Settle(played);
          } else {
            w := Rejected(dids.error);
          }
          assert w == AppendOn(community.keys, docs, h, driversPath, driverDid, writeFault);
        case Rejected(e) =>
          w := Rejected(e);
        case Pending =>
          w := Pending;
      }
      treePromise := AfterPlay(h, w);
      r := Done(w);
      if w.Resolved? {
        AppendThenRead(community.keys, docs, h, driversPath, driverDid, writeFault, w.value);
      }
    }
  }
}
