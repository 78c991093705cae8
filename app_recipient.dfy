/**
 * Recipient accounts under an application prefix (src/store/appRecipient.ts):
 * a recipient is an account created in the namespace `<prefix>/recipient`
 * whose data then also holds a delivery address and instructions under that
 * namespace.
 */
module AppRecipient {
  import opened Wrappers
  import opened Json
  import opened Store
  import opened Identity

  function RecipientNamespace(appPrefix: string): string {
    appPrefix + "/recipient"
  }

  function RecipientNamePath(appPrefix: string): string {
    RecipientNamespace(appPrefix) + "/name"
  }

  function RecipientAddressPath(appPrefix: string): string {
    RecipientNamespace(appPrefix) + "/address"
  }

  function RecipientInstructionsPath(appPrefix: string): string {
    RecipientNamespace(appPrefix) + "/instructions"
  }

  /** A field directly under a one-segment prefix's namespace is three segments deep. */
  lemma FieldUnder(appPrefix: string, field: string)
    requires appPrefix != "" && '/' !in appPrefix && '/' !in field
    ensures DecodePath(RecipientNamespace(appPrefix) + "/" + field) == [appPrefix, "recipient", field]
  {
    var rc := "recipient";
    assert '/' !in rc;
    assert RecipientNamespace(appPrefix) + "/" + field == appPrefix + "/" + rc + "/" + field;
    DecodeThree(appPrefix, rc, field);
  }

  /** For a one-segment prefix, the field paths are three segments deep and
      differ only in the last one. */
  lemma FieldSegments(appPrefix: string)
    requires appPrefix != "" && '/' !in appPrefix
    ensures DecodePath(RecipientNamePath(appPrefix)) == [appPrefix, "recipient", "name"]
    ensures DecodePath(RecipientAddressPath(appPrefix)) == [appPrefix, "recipient", "address"]
    ensures DecodePath(RecipientInstructionsPath(appPrefix)) == [appPrefix, "recipient", "instructions"]
  {
    var ns := RecipientNamespace(appPrefix);
    assert RecipientNamePath(appPrefix) == ns + "/" + "name";
    assert RecipientAddressPath(appPrefix) == ns + "/" + "address";
    assert RecipientInstructionsPath(appPrefix) == ns + "/" + "instructions";
    FieldUnder(appPrefix, "name");
    FieldUnder(appPrefix, "address");
    FieldUnder(appPrefix, "instructions");
  }

  /** Different prefixes give different namespaces, so different accounts
      for the same recipient name. */
  lemma NamespacesSeparate(p1: string, p2: string)
    requires p1 != p2
    ensures RecipientNamespace(p1) != RecipientNamespace(p2)
  {
    assert RecipientNamespace(p1)[..|p1|] == p1;
    if |p1| == |p2| {
      assert RecipientNamespace(p2)[..|p2|] == p2;
    }
  }

  /** The username path's segments. */
  lemma UsernameSegments()
    ensures DecodePath(UsernamePath) == ["givingchain", "username"]
  {
    var g, u := "givingchain", "username";
    assert UsernamePath == g + "/" + u;
    assert g[0] == 'g' && '/' !in g && '/' !in u;
    SplitWhole(g);
    SplitWhole(u);
    DecodeConcat(g, u);
  }

  /** The second batch: address, then instructions. */
  function RecipientTxs(appPrefix: string, address: Value, instructions: string): seq<Tx> {
    [SetData(RecipientAddressPath(appPrefix), address), SetData(RecipientInstructionsPath(appPrefix), Str(instructions))]
  }

  /** What `createRecipientTree` yields: the created account after the second
      batch, or the first failure. */
  function RecipientOutcome(ks: KeyScheme, docs: map<Did, Doc>, appPrefix: string, name: string, password: string,
                            address: Value, instructions: string,
                            lookupFault: Option<Error>, createFault: Option<Error>, writeFault: Option<Error>): (r: Result<Tree>)
    ensures r.Ok? ==> r.value.id == AccountDid(ks, name, RecipientNamespace(appPrefix))
                      && r.value.key == Some(SecurePasswordKey(name, password))
    ensures NamedTree(ks, docs, name, password, RecipientNamespace(appPrefix), lookupFault, createFault).Err? ==>
              r == Err(NamedTree(ks, docs, name, password, RecipientNamespace(appPrefix), lookupFault, createFault).error)
  {
    match NamedTree(ks, docs, name, password, RecipientNamespace(appPrefix), lookupFault, createFault)
    case Err(e) => Err(e)
    case Ok(t) => Play(ks, StoreAfter(docs, Resolved(t)), t, RecipientTxs(appPrefix, address, instructions), writeFault)
  }

  /** The handle `createNamedTree` returns can write at once: it is current
      and signs with the new owner's key. */
  lemma CreatedTreeWritable(ks: KeyScheme, docs: map<Did, Doc>, name: string, password: string, ns: string,
                            lookupFault: Option<Error>, createFault: Option<Error>, t: Tree, txs: seq<Tx>)
    requires NamedTree(ks, docs, name, password, ns, lookupFault, createFault) == Ok(t)
    ensures Play(ks, StoreAfter(docs, Resolved(t)), t, txs, None).Ok?
  {
    NamedTreeHolds(ks, docs, name, password, ns, lookupFault, createFault, t);
  }

  /** Two writes in one batch: the data after both, in order. */
  lemma TwoWrites(d: Doc, p1: string, v1: Value, p2: string, v2: Value)
    ensures ApplyAll(d, [SetData(p1, v1), SetData(p2, v2)]).data
            == SetAt(SetAt(d.data, DecodePath(p1), v1), DecodePath(p2), v2)
    ensures ApplyAll(d, [SetData(p1, v1), SetData(p2, v2)]).owners == d.owners
  {
    var txs := [SetData(p1, v1), SetData(p2, v2)];
    var d1 := ApplyTx(d, txs[0]);
    assert txs[1..][1..] == [];
    assert ApplyAll(d, txs) == ApplyAll(d1, txs[1..]);
    assert ApplyAll(d1, txs[1..]) == ApplyTx(d1, txs[1]);
  }

  /** The address, instructions and username paths part ways pairwise. */
  lemma FieldPathsDiverge(appPrefix: string)
    ensures Diverge([appPrefix, "recipient", "instructions"], [appPrefix, "recipient", "address"])
    ensures Diverge([appPrefix, "recipient", "instructions"], ["givingchain", "username"])
    ensures Diverge([appPrefix, "recipient", "address"], ["givingchain", "username"])
  {
    var i: Path := [appPrefix, "recipient", "instructions"];
    var a: Path := [appPrefix, "recipient", "address"];
    var u: Path := ["givingchain", "username"];
    assert i[1..][1..] == ["instructions"] && a[1..][1..] == ["address"];
    assert Diverge(i[1..][1..], a[1..][1..]);
    assert i[1..] == ["recipient", "instructions"] && a[1..] == ["recipient", "address"] && u[1..] == ["username"];
    assert Diverge(i[1..], u[1..]) && Diverge(a[1..], u[1..]);
  }

  /** Writing a recipient's address and instructions leaves both readable and
      the cached username untouched. */
  lemma FieldsAfterWrites(root: Value, appPrefix: string, address: Value, instructions: string)
    requires appPrefix != "" && '/' !in appPrefix
    ensures var a := DecodePath(RecipientAddressPath(appPrefix));
            var i := DecodePath(RecipientInstructionsPath(appPrefix));
            var u := DecodePath(UsernamePath);
            var after := SetAt(SetAt(root, a, address), i, Str(instructions));
            && Resolve(after, a).value == Some(address)
            && Resolve(after, i).value == Some(Str(instructions))
            && Resolve(after, u).value == Resolve(root, u).value
  {
    FieldSegments(appPrefix);
    UsernameSegments();
    FieldPathsDiverge(appPrefix);
    var a: Path := [appPrefix, "recipient", "address"];
    var i: Path := [appPrefix, "recipient", "instructions"];
    var u: Path := ["givingchain", "username"];
    var data1 := SetAt(root, a, address);
    ResolveSetAt(data1, i, Str(instructions));
    ResolveSetAt(root, a, address);
    SetAtElsewhere(data1, i, a, Str(instructions));
    SetAtElsewhere(data1, i, u, Str(instructions));
    SetAtElsewhere(root, a, u, address);
  }

  /** The recipient document ends up holding the address, the instructions
      and the cached name, and is owned by the password's key. */
  lemma RecipientTreeHolds(ks: KeyScheme, docs: map<Did, Doc>, appPrefix: string, name: string, password: string,
                           address: Value, instructions: string,
                           lookupFault: Option<Error>, createFault: Option<Error>, writeFault: Option<Error>, t': Tree)
    requires appPrefix != "" && '/' !in appPrefix
    requires RecipientOutcome(ks, docs, appPrefix, name, password, address, instructions, lookupFault, createFault, writeFault) == Ok(t')
    ensures Resolve(t'.doc.data, DecodePath(RecipientAddressPath(appPrefix))).value == Some(address)
    ensures Resolve(t'.doc.data, DecodePath(RecipientInstructionsPath(appPrefix))).value == Some(Str(instructions))
    ensures ResolveUsername(t') == Str(name)
    ensures t'.doc.owners == Some([ks.address(SecurePasswordKey(name, password))])
  {
    var ns := RecipientNamespace(appPrefix);
    var t := NamedTree(ks, docs, name, password, ns, lookupFault, createFault).value;
    NamedTreeHolds(ks, docs, name, password, ns, lookupFault, createFault, t);
    var txs := RecipientTxs(appPrefix, address, instructions);
    assert t'.doc == Committed(t.doc, txs);
    TwoWrites(t.doc, RecipientAddressPath(appPrefix), address, RecipientInstructionsPath(appPrefix), Str(instructions));
    FieldsAfterWrites(t.doc.data, appPrefix, address, instructions);
  }

  /** `createRecipientTree` for any address value; the address is stored as given. */
  method CreateUnder(c: Community, appPrefix: string, name: string, password: string, address: Value, instructions: string,
                     lookupFault: Option<Error>, createFault: Option<Error>, writeFault: Option<Error>) returns (r: Result<Tree>)
    modifies c
    ensures r == RecipientOutcome(c.keys, old(c.docs), appPrefix, name, password, address, instructions, lookupFault, createFault, writeFault)
    ensures var created := NamedTree(c.keys, old(c.docs), name, password, RecipientNamespace(appPrefix), lookupFault, createFault);
            c.docs == StoreAfter(StoreAfter(old(c.docs), Settle(created)), Settle(r))
  {
    var recipientTree := CreateNamedTree(c, name, password, RecipientNamespace(appPrefix), lookupFault, createFault);
    if recipientTree.Err? {
      return Err(recipientTree.error);
    }
    r := c.PlayTransactions(recipientTree.value, RecipientTxs(appPrefix, address, instructions), writeFault);
  }

  /** `createRecipientTree(appPrefix, name, password, address, instructions)`. */
  method CreateRecipientTree(c: Community, appPrefix: string, name: string, password: string, address: string, instructions: string,
                             lookupFault: Option<Error>, createFault: Option<Error>, writeFault: Option<Error>) returns (r: Result<Tree>)
    modifies c
    ensures r == RecipientOutcome(c.keys, old(c.docs), appPrefix, name, password, Str(address), instructions, lookupFault, createFault, writeFault)
    ensures var created := NamedTree(c.keys, old(c.docs), name, password, RecipientNamespace(appPrefix), lookupFault, createFault);
            c.docs == StoreAfter(StoreAfter(old(c.docs), Settle(created)), Settle(r))
  {
    r := CreateUnder(c, appPrefix, name, password, Str(address), instructions, lookupFault, createFault, writeFault);
  }
}
