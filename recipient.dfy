/**
 * Recipients of the givingchain application (src/store/recipient.ts): the
 * account creation of the prefixed variant, fixed to the `givingchain`
 * prefix, and a regional registry listing recipient dids.
 */
module Recipient {
  import opened Wrappers
  import opened Json
  import opened Store
  import opened OpenTree
  import opened DidList
  import AppRecipient

  const RecipientNamespace: string := "givingchain/recipient"
  const RecipientNamePath: string := RecipientNamespace + "/name"
  const RecipientAddressPath: string := RecipientNamespace + "/address"
  const RecipientInstructionsPath: string := RecipientNamespace + "/instructions"
  const RecipientListPath: string := RecipientNamespace + "/collection"

  /** The fixed paths are the prefixed ones for the prefix `givingchain`. */
  lemma SameAsPrefixed()
    ensures RecipientNamespace == AppRecipient.RecipientNamespace("givingchain")
    ensures RecipientNamePath == AppRecipient.RecipientNamePath("givingchain")
    ensures RecipientAddressPath == AppRecipient.RecipientAddressPath("givingchain")
    ensures RecipientInstructionsPath == AppRecipient.RecipientInstructionsPath("givingchain")
  {
  }

  /** A postal address as the GraphQL `Address` type has it. */
  datatype PostalAddress = PostalAddress(street: Option<string>, cityStateZip: Option<string>)

  /** The address as stored: an object with the fields that are set. */
  function AddressValue(a: PostalAddress): (r: Value)
    ensures r.Obj? && ("street" in r.fields <==> a.street.Some?) && ("cityStateZip" in r.fields <==> a.cityStateZip.Some?)
    ensures a.street.Some? ==> r.fields["street"] == Str(a.street.value)
    ensures a.cityStateZip.Some? ==> r.fields["cityStateZip"] == Str(a.cityStateZip.value)
  {
    var m: map<string, Value> := map[];
    var m := if a.street.Some? then m["street" := Str(a.street.value)] else m;
    Obj(if a.cityStateZip.Some? then m["cityStateZip" := Str(a.cityStateZip.value)] else m)
  }

  /** `createRecipientTree(name, password, address, instructions)`. */
  method CreateRecipientTree(c: Community, name: string, password: string, address: PostalAddress, instructions: string,
                             lookupFault: Option<Error>, createFault: Option<Error>, writeFault: Option<Error>) returns (r: Result<Tree>)
    modifies c
    ensures r == AppRecipient.RecipientOutcome(c.keys, old(c.docs), "givingchain", name, password, AddressValue(address), instructions,
                                               lookupFault, createFault, writeFault)
    ensures r.Ok? ==> Resolve(r.value.doc.data, DecodePath(RecipientAddressPath)).value == Some(AddressValue(address))
    ensures r.Ok? ==> Resolve(r.value.doc.data, DecodePath(RecipientInstructionsPath)).value == Some(Str(instructions))
  {
    ghost var docs := c.docs;
    var stored := AddressValue(address);
    r := AppRecipient.CreateUnder(c, "givingchain", name, password, stored, instructions, lookupFault, createFault, writeFault);
    if r.Ok? {
      assert '/' !in "givingchain";
      SameAsPrefixed();
      AppRecipient.RecipientTreeHolds(c.keys, docs, "givingchain", name, password, stored, instructions,
                                      lookupFault, createFault, writeFault, r.value);
    }
  }

  /** A region whose registry the store has never seen lists no recipients:
      `getAll` gives `[]`. */
  lemma NewRegionListsNone(ks: KeyScheme, docs: map<Did, Doc>, region: string)
    requires ks.toDid(PassPhraseKey(region, RecipientNamespace)) !in docs
    ensures var h := Settle(FindOrCreateTree(ks, docs, region, RecipientNamespace, None));
            ListOf(OpenTree.UpdateTree(docs, h, None), RecipientListPath) == Resolved(List([]))
  {
    var path := DecodePath(RecipientListPath);
    assert RecipientListPath[0] == 'g';
    assert |path| >= 1;
    assert Resolve(Obj(map[]), path).value == None;
  }

  /** The regional list of recipients. */
  class RecipientCollection {
    const community: Community
    const region: string
    var treePromise: Async<Tree>

    function Key(): Key {
      PassPhraseKey(region, RecipientNamespace)
    }

    function Did(): Did {
      community.keys.toDid(Key())
    }

    ghost predicate Valid()
      reads this
    {
      treePromise.Resolved? ==> treePromise.value.id == Did() && treePromise.value.key == Some(Key())
    }

    constructor(community: Community, region: string, fault: Option<Error>)
      ensures this.community == community && this.region == region
      ensures treePromise == Settle(FindOrCreateTree(community.keys, community.docs, region, RecipientNamespace, fault))
      ensures Valid()
    {
      this.community := community;
      this.region := region;
      treePromise := Settle(FindOrCreateTree(community.keys, community.docs, region, RecipientNamespace, fault));
    }

    method UpdateTree(fault: Option<Error>) returns (r: Async<Tree>)
      requires Valid()
      modifies this
      ensures Valid()
      ensures treePromise == OpenTree.UpdateTree(community.docs, old(treePromise), fault)
      ensures r == treePromise
    {
      treePromise := OpenTree.UpdateTree(community.docs, treePromise, fault);
      r := treePromise;
    }

    /** `add(recipient)`: refresh, push the did onto the list, write it back,
        and return the write's outcome. A later `getAll` that refreshes
        without failure reads a list holding the did. */
    method Add(recipientDid: Did, refreshFault: Option<Error>, writeFault: Option<Error>) returns (r: Async<Tree>)
      requires Valid()
      modifies this, community
      ensures Valid()
      ensures var h := OpenTree.UpdateTree(old(community.docs), old(treePromise), refreshFault);
              && r == AppendOn(community.keys, old(community.docs), h, RecipientListPath, recipientDid, writeFault)
              && treePromise == AfterPlay(h, r)
              && community.docs == StoreAfter(old(community.docs), r)
      ensures r.Resolved? ==>
                var again := OpenTree.UpdateTree(community.docs, treePromise, None);
                again == treePromise && ListOf(again, RecipientListPath).value.List?
                && Str(recipientDid) in ListOf(again, RecipientListPath).value.items
    {
      ghost var docs := community.docs;
      var h := UpdateTree(refreshFault);
      match h {
        case Resolved(tree) =>
          var dids := Pushed(ListAt(tree, RecipientListPath), recipientDid);
          if dids.Ok? {
            var played := community.PlayTransactions(tree, [SetData(RecipientListPath, dids.value)], writeFault);
            r := Settle(played);
          } else {
            r := Rejected(dids.error);
          }
          assert r == AppendOn(community.keys, docs, h, RecipientListPath, recipientDid, writeFault);
        case Rejected(e) =>
          r := Rejected(e);
        case Pending =>
          r := Pending;
      }
      treePromise := AfterPlay(h, r);
      if r.Resolved? {
        AppendThenRead(community.keys, docs, h, RecipientListPath, recipientDid, writeFault, r.value);
      }
    }

    /** `getAll()`: refresh, then the list, `[]` when there is none. */
    method GetAll(refreshFault: Option<Error>) returns (r: Async<Value>)
      requires Valid()
      modifies this
      ensures Valid()
      ensures treePromise == OpenTree.UpdateTree(community.docs, old(treePromise), refreshFault)
      ensures r == ListOf(treePromise, RecipientListPath)
      ensures treePromise.Resolved? && !Present(ListAt(treePromise.value, RecipientListPath)) ==> r == Resolved(List([]))
      ensures treePromise.Resolved? && Present(ListAt(treePromise.value, RecipientListPath)) ==>
                r == Resolved(ListAt(treePromise.value, RecipientListPath).value)
      ensures treePromise.Rejected? ==> r == Rejected(treePromise.error)
    {
      var h := UpdateTree(refreshFault);
      match h {
        case Resolved(tree) =>
          var dids := ListAt(tree, RecipientListPath);
          if !Present(dids) {
            dids := Some(List([]));
          }
          r := Resolved(dids.value);
        case Rejected(e) =>
          r := Rejected(e);
        case Pending =>
          r := Pending;
      }
    }
  }
}
