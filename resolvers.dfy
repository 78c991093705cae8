/**
 * The GraphQL resolvers of the store layer (src/store/index.ts): where a
 * user's trackable collection is recorded, how a collection's `updates` map
 * becomes edges, how an edge's node and its fields are found again, who
 * `me` is, and the writes that create a trackable.
 */
module Resolvers {
  import opened Wrappers
  import opened Json
  import opened Store

  /** `namespaceToPath(ns)`: where a user's account records its collection's did. */
  function NamespaceToPath(ns: string): string {
    "/apps/" + ns + "/collection"
  }

  /** A path written with a leading '/' has the segments of the rest. */
  lemma RootedPath(q: string)
    requires q != ""
    ensures DecodePath("/" + q) == Split(q)
  {
    assert ("/" + q)[1..] == q;
  }

  /** Three '/'-free pieces joined by '/' split back into those pieces. */
  lemma ThreeSegments(a: string, b: string, c: string)
    requires '/' !in a && '/' !in b && '/' !in c
    ensures Split(a + "/" + (b + "/" + c)) == [a, b, c]
  {
    SplitWhole(a);
    SplitWhole(b);
    SplitWhole(c);
    SplitConcat(b, c);
    SplitConcat(a, b + "/" + c);
  }

  /** For a namespace without '/', the collection path is three segments. */
  lemma NamespacePathSegments(ns: string)
    requires '/' !in ns
    ensures DecodePath(NamespaceToPath(ns)) == ["apps", ns, "collection"]
  {
    var apps, coll := "apps", "collection";
    var q := apps + "/" + (ns + "/" + coll);
    assert NamespaceToPath(ns) == "/" + q;
    RootedPath(q);
    ThreeSegments(apps, ns, coll);
  }

  /** The logged-in user as ambient-react hands it over: a name, a did once
      loaded, and the account handle. */
  datatype Session = Session(userName: string, did: Option<Did>, tree: Tree)

  /** The GraphQL `User` object the resolvers return. */
  datatype UserObj = UserObj(did: Option<Did>, namespace: Option<string>, username: string, loggedIn: bool)

  /** `!user.namespace`: missing or empty. */
  predicate NoNamespace(ns: Option<string>) {
    ns.None? || ns.value == ""
  }

  /** `User.collection`: the user's account is fetched first (so its failure
      comes first), then no collection without a namespace, otherwise the
      value recorded at the namespace's collection path. */
  function CollectionOf(docs: map<Did, Doc>, user: UserObj, fault: Option<Error>): (r: Result<Option<Option<Value>>>)
    ensures user.did.None? ==> r == Err(InvalidDid)
    ensures user.did.Some? ==> (r.Ok? <==> fault.None? && user.did.value in docs)
    ensures r.Ok? ==> (r.value.None? <==> NoNamespace(user.namespace))
    ensures r.Ok? && r.value.Some? ==>
              r.value.value == Resolve(docs[user.did.value].data, DecodePath(NamespaceToPath(user.namespace.value))).value
  {
    if user.did.None? then Err(InvalidDid)
    else
      match GetLatest(docs, user.did.value, fault)
      case Err(e) => Err(e)
      case Ok(tree) =>
        if NoNamespace(user.namespace) then Ok(None)
        else Ok(Some(Resolve(tree.doc.data, DecodePath(NamespaceToPath(user.namespace.value))).value))
  }

  /** The did `TrackableEdge.node` gives the node of an edge to `d`. */
  function NodeDid(d: Did): string {
    "edge/" + d
  }

  /** `did.split("/")[1]`: undefined when there is no '/'. */
  function EdgeTarget(nodeDid: string): (r: Option<string>)
    ensures '/' !in nodeDid ==> r == None
  {
    var parts := Split(nodeDid);
    assert '/' !in nodeDid ==> |parts| == 1 by {
      if '/' !in nodeDid {
        SplitWhole(nodeDid);
      }
    }
    if |parts| > 1 then Some(parts[1]) else None
  }

  /** Taking a node's did apart gives back the did it was built from, when
      that did has no '/'. */
  lemma EdgeRoundTrip(d: Did)
    requires '/' !in d
    ensures EdgeTarget(NodeDid(d)) == Some(d)
  {
    var e := "edge";
    assert NodeDid(d) == e + "/" + d;
    assert '/' !in e;
    SplitWhole(e);
    SplitWhole(d);
    SplitConcat(e, d);
  }

  /** `Trackable.name` and `Trackable.image`: the field read from the latest
      state of the document the node's did points at. */
  function TrackableField(docs: map<Did, Doc>, nodeDid: string, field: string, fault: Option<Error>): (r: Result<Option<Value>>)
    ensures EdgeTarget(nodeDid).None? ==> r == Err(InvalidDid)
    ensures EdgeTarget(nodeDid).Some? ==> (r.Ok? <==> fault.None? && EdgeTarget(nodeDid).value in docs)
    ensures r.Ok? ==> r.value == Resolve(docs[EdgeTarget(nodeDid).value].data, DecodePath(field)).value
  {
    match EdgeTarget(nodeDid)
    case None => Err(InvalidDid)
    case Some(did) =>
      match GetLatest(docs, did, fault)
      case Err(e) => Err(e)
      case Ok(tree) => Ok(Resolve(tree.doc.data, DecodePath(field)).value)
  }

  /** A node's fields are read from the document its edge points at. */
  lemma NodeFieldReadsTarget(docs: map<Did, Doc>, d: Did, field: string)
    requires '/' !in d && d in docs
    ensures TrackableField(docs, NodeDid(d), field, None) == Ok(Resolve(docs[d].data, DecodePath(field)).value)
  {
    EdgeRoundTrip(d);
  }

  /** An edge of a collection, and its node, both named by the stored did. */
  datatype NodeRef = NodeRef(did: Value)
  datatype Edge = Edge(did: Value, node: NodeRef)

  const UpdatesPath: string := "updates"

  /** One edge per timestamp, each naming the stored did twice. */
  function EdgesOf(updates: map<string, Value>): (m: map<string, Edge>)
    ensures m.Keys == updates.Keys
    ensures forall ts :: ts in m ==> m[ts] == Edge(updates[ts], NodeRef(updates[ts]))
  {
    map ts | ts in updates :: Edge(updates[ts], NodeRef(updates[ts]))
  }

  /** A missing or falsy `updates` value has no keys, hence no edges. */
  lemma NoEdgesWhenAbsent(updates: Option<Value>)
    requires !Present(updates)
    ensures EdgesOf(Fields(updates)) == map[]
  {
    assert Fields(updates) == map[];
    var m := EdgesOf(map[]);
    assert m.Keys == {};
  }

  /** The `updates` map of a collection document, if any. */
  function UpdatesOf(d: Doc): Option<Value> {
    Resolve(d.data, DecodePath(UpdatesPath)).value
  }

  /** `TrackableCollection.trackables`: one edge per timestamp key of the
      `updates` map, none when that map is missing or falsy. */
  function Edges(docs: map<Did, Doc>, collectionDid: Did, fault: Option<Error>): (r: Result<map<string, Edge>>)
    ensures r.Ok? <==> fault.None? && collectionDid in docs
    ensures r.Ok? ==>
              r.value == EdgesOf(Fields(UpdatesOf(docs[collectionDid])))
  {
    match GetLatest(docs, collectionDid, fault)
    case Err(e) => Err(e)
    case Ok(tree) =>
      var updates := UpdatesOf(tree.doc);
      if !Present(updates) then
        NoEdgesWhenAbsent(updates);
        Ok(map[])
      else Ok(EdgesOf(Fields(updates)))
  }

  /** `TrackableEdge.node`: the document's whole data spread into an object,
      with `did` replaced by the node's did. */
  function Node(docs: map<Did, Doc>, d: Did, fault: Option<Error>): (r: Result<map<string, Value>>)
    ensures r.Ok? <==> fault.None? && d in docs
    ensures r.Ok? ==> "did" in r.value && r.value["did"] == Str(NodeDid(d))
    ensures r.Ok? ==> forall k :: k in r.value && k != "did" ==> k in Fields(Some(docs[d].data)) && r.value[k] == Fields(Some(docs[d].data))[k]
    ensures r.Ok? ==> forall k :: k in Fields(Some(docs[d].data)) ==> k in r.value
  {
    match GetLatest(docs, d, fault)
    case Err(e) => Err(e)
    case Ok(tree) =>
      var trackable := Resolve(tree.doc.data, DecodePath("/")).value;
      Ok(Fields(trackable)["did" := Str(NodeDid(d))])
  }

  /** `Query.me`: nothing without a logged-in user, otherwise that user,
      logged in. */
  function Me(session: Option<Session>, ns: string): (r: Option<UserObj>)
    ensures r.Some? <==> session.Some?
    ensures r.Some? ==> r.value.loggedIn && r.value.did == session.value.did
                        && r.value.username == session.value.userName && r.value.namespace == Some(ns)
  {
    match session
    case None => None
    case Some(user) => Some(UserObj(user.did, Some(ns), user.userName, true))
  }

  /** `${n}` for a non-negative integer. */
  function DecimalString(n: nat): (r: string)
    ensures |r| >= 1
    ensures forall i :: 0 <= i < |r| ==> '0' <= r[i] <= '9'
    decreases n
  {
    var digit := ['0' + (n % 10) as char];
    if n < 10 then digit else DecimalString(n / 10) + digit
  }

  /** The number a string of decimal digits spells. */
  function DigitsValue(s: string): nat
    requires forall i :: 0 <= i < |s| ==> '0' <= s[i] <= '9'
    decreases |s|
  {
    if s == [] then 0 else 10 * DigitsValue(s[..|s| - 1]) + (s[|s| - 1] - '0') as nat
  }

  /** Reading `${n}` back gives `n`. */
  lemma {:induction false} DecimalRoundTrip(n: nat)
    ensures DigitsValue(DecimalString(n)) == n
    decreases n
  {
    var s := DecimalString(n);
    if n >= 10 {
      DecimalRoundTrip(n / 10);
      assert s[..|s| - 1] == DecimalString(n / 10);
    }
  }

  /** Different times give different `updates` keys. */
  lemma DecimalInjective(a: nat, b: nat)
    requires DecimalString(a) == DecimalString(b)
    ensures a == b
  {
    DecimalRoundTrip(a);
    DecimalRoundTrip(b);
  }

  /** What `createTrackable` takes: the GraphQL `CreateTrackableInput`. */
  datatype TrackableInput = TrackableInput(name: string, image: Option<string>, address: Option<Value>, instructions: Option<string>)

  /** The input as written at the root of the new document. */
  function InputValue(input: TrackableInput): (r: Value)
    ensures r.Obj? && "name" in r.fields && r.fields["name"] == Str(input.name)
  {
    var m: map<string, Value> := map["name" := Str(input.name)];
    var m := if input.image.Some? then m["image" := Str(input.image.value)] else m;
    var m := if input.address.Some? then m["address" := input.address.value] else m;
    Obj(if input.instructions.Some? then m["instructions" := Str(input.instructions.value)] else m)
  }

  /** The trackable's key: the user's private key, "/trackables/", the name,
      salted with the namespace. */
  function TrackableKey(ks: KeyScheme, userKey: Key, ns: string, name: string): Key {
    PassPhraseKey(ks.privateKey(userKey) + "/trackables/" + name, ns)
  }

  /** The batch that fills the new trackable and hands it to its creator. */
  function TrackableTxs(ks: KeyScheme, userKey: Key, input: TrackableInput): seq<Tx> {
    [SetData("/", InputValue(input)), SetOwnership([ks.address(userKey)])]
  }

  /** The batch that records the trackable in the creator's collection. */
  function UpdateTxs(now: nat, trackableDid: Did): seq<Tx> {
    [SetData(UpdatesPath + "/" + DecimalString(now), Str(trackableDid))]
  }

  /** `createTrackable`'s handle on the user's collection: the latest state
      of the did recorded in the user's account, signed by the user's key.
      A missing or non-string did makes the lookup fail. */
  function CollectionHandle(docs: map<Did, Doc>, userTree: Tree, ns: string, fault: Option<Error>): (r: Result<Tree>)
    ensures r.Ok? ==> r.value.key == userTree.key
    ensures r.Ok? ==> Resolve(userTree.doc.data, DecodePath(NamespaceToPath(ns))).value == Some(Str(r.value.id))
    ensures r.Ok? ==> r.value.id in docs && r.value.doc == docs[r.value.id]
  {
    match Resolve(userTree.doc.data, DecodePath(NamespaceToPath(ns))).value
    case Some(Str(did)) =>
      (match GetLatest(docs, did, fault)
       case Ok(t) => Ok(t.(key := userTree.key))
       case Err(e) => Err(e))
    case _ => Err(InvalidDid)
  }

  /** What `createTrackable` returns. */
  datatype Payload = Payload(collectionDid: Did, trackableDid: Did, name: string)

  /** `createTrackable(input)`: nothing without a user; otherwise a new
      document keyed by the user's private key and the name, filled with the
      input and handed to the user, and its did recorded under
      `updates/<now>` in the user's collection. The two writes run together;
      both are attempted once the collection is found. */
  method CreateTrackable(c: Community, session: Option<Session>, ns: string, input: TrackableInput, now: nat,
                         lookupFault: Option<Error>, trackableFault: Option<Error>, collectionFault: Option<Error>)
    returns (r: Result<Option<Payload>>)
    modifies c
    ensures session.None? ==> r == Ok(None) && c.docs == old(c.docs)
    ensures session.Some? && session.value.tree.key.None? ==> r == Err(TypeError) && c.docs == old(c.docs)
    ensures session.Some? && session.value.tree.key.Some? ==>
              var userKey := session.value.tree.key.value;
              var tree := NewEmptyTree(c.keys, TrackableKey(c.keys, userKey, ns, input.name));
              var coll := CollectionHandle(old(c.docs), session.value.tree, ns, lookupFault);
              if coll.Err? then r == Err(coll.error) && c.docs == old(c.docs)
              else
                var w1 := Play(c.keys, old(c.docs), tree, TrackableTxs(c.keys, userKey, input), trackableFault);
                var docs1 := StoreAfter(old(c.docs), Settle(w1));
                var w2 := Play(c.keys, docs1, coll.value, UpdateTxs(now, tree.id), collectionFault);
                && c.docs == StoreAfter(docs1, Settle(w2))
                && (r.Ok? <==> w1.Ok? && w2.Ok?)
                && (r.Ok? ==> r.value == Some(Payload(coll.value.id, tree.id, input.name)))
                && (r.Err? ==> r.error == (if w1.Err? then w1.error else w2.error))
  {
    if session.None? {
      return Ok(None);
    }
    var ambientUser := session.value;
    if ambientUser.tree.key.None? {
      // `Buffer.from(undefined)` throws
      return Err(TypeError);
    }
    var userKey := ambientUser.tree.key.value;
    var trackableKey := TrackableKey(c.keys, userKey, ns, input.name);
    var tree := NewEmptyTree(c.keys, trackableKey);
    var collectionTree := CollectionHandle(c.docs, ambientUser.tree, ns, lookupFault);
    if collectionTree.Err? {
      return Err(collectionTree.error);
    }
    var w1 := c.PlayTransactions(tree, TrackableTxs(c.keys, userKey, input), trackableFault);
    var w2 := c.PlayTransactions(collectionTree.value, UpdateTxs(now, tree.id), collectionFault);
    if w1.Err? {
      return Err(w1.error);
    }
    if w2.Err? {
      return Err(w2.error);
    }
    r := Ok(Some(Payload(collectionTree.value.id, tree.id, input.name)));
  }

  /** A single write, applied. */
  lemma SingleWrite(d: Doc, path: string, v: Value)
    ensures ApplyAll(d, [SetData(path, v)]) == d.(data := SetAt(d.data, DecodePath(path), v))
  {
    var txs := [SetData(path, v)];
    assert txs[1..] == [];
  }

  /** The creation batch, applied to an empty document: the input at the
      root, the creator's address the only owner. */
  lemma TrackableBatch(ks: KeyScheme, userKey: Key, input: TrackableInput)
    ensures ApplyAll(EmptyDoc(), TrackableTxs(ks, userKey, input)) == Doc(0, InputValue(input), Some([ks.address(userKey)]))
  {
    var txs := TrackableTxs(ks, userKey, input);
    var d0 := EmptyDoc();
    var d1 := ApplyTx(d0, txs[0]);
    assert DecodePath("/") == [];
    assert d1.data == InputValue(input);
    assert txs[1..][1..] == [];
    assert ApplyAll(d0, txs) == ApplyAll(d1, txs[1..]);
    assert ApplyAll(d1, txs[1..]) == ApplyTx(d1, txs[1]);
  }

  /** A one-segment field of a document holding the input reads the input's entry. */
  lemma InputFieldReads(docs: map<Did, Doc>, d: Did, input: TrackableInput, field: string)
    requires '/' !in d && d in docs && docs[d].data == InputValue(input)
    requires field != "" && '/' !in field
    ensures TrackableField(docs, NodeDid(d), field, None) == Ok(Resolve(InputValue(input), [field]).value)
  {
    NodeFieldReadsTarget(docs, d, field);
    SplitWhole(field);
    assert field[0] != '/';
  }

  /** The created trackable holds the input at its root, is owned by its
      creator's address alone, and its node's `name` reads the input's name. */
  lemma CreatedTrackableHolds(ks: KeyScheme, docs: map<Did, Doc>, userKey: Key, ns: string, input: TrackableInput,
                              fault: Option<Error>, t1: Tree)
    requires Play(ks, docs, NewEmptyTree(ks, TrackableKey(ks, userKey, ns, input.name)), TrackableTxs(ks, userKey, input), fault) == Ok(t1)
    ensures t1.doc.data == InputValue(input)
    ensures t1.doc.owners == Some([ks.address(userKey)])
    ensures '/' !in t1.id ==>
              TrackableField(StoreAfter(docs, Resolved(t1)), NodeDid(t1.id), "name", None) == Ok(Some(Str(input.name)))
  {
    TrackableBatch(ks, userKey, input);
    assert t1.doc.data == InputValue(input);
    if '/' !in t1.id {
      NameReads(docs, t1, input);
    }
  }

  /** Once written, a trackable's node reads its `name` from the input. */
  lemma NameReads(docs: map<Did, Doc>, t1: Tree, input: TrackableInput)
    requires '/' !in t1.id && t1.doc.data == InputValue(input)
    ensures TrackableField(StoreAfter(docs, Resolved(t1)), NodeDid(t1.id), "name", None) == Ok(Some(Str(input.name)))
  {
    var field := "name";
    assert field[0] == 'n';
    assert '/' !in field;
    var docs' := StoreAfter(docs, Resolved(t1));
    assert docs'[t1.id] == t1.doc;
    InputFieldReads(docs', t1.id, input, field);
  }

  /** The same user creating a trackable of the same name again in the same
      namespace derives the same document, and its write is refused as stale. */
  lemma SameNameRefused(ks: KeyScheme, docs: map<Did, Doc>, userKey: Key, ns: string, input: TrackableInput, input2: TrackableInput,
                        fault: Option<Error>, t1: Tree)
    requires Play(ks, docs, NewEmptyTree(ks, TrackableKey(ks, userKey, ns, input.name)), TrackableTxs(ks, userKey, input), fault) == Ok(t1)
    requires input2.name == input.name
    ensures Play(ks, StoreAfter(docs, Resolved(t1)), NewEmptyTree(ks, TrackableKey(ks, userKey, ns, input2.name)),
                 TrackableTxs(ks, userKey, input2), None) == Err(Conflict)
  {
  }

  /** The update key `updates/<now>` is two segments. */
  lemma UpdatePathSegments(now: nat)
    ensures DecodePath(UpdatesPath + "/" + DecimalString(now)) == [UpdatesPath, DecimalString(now)]
  {
    var u, t := UpdatesPath, DecimalString(now);
    assert '/' !in u;
    assert '/' !in t by {
      forall i | 0 <= i < |t| ensures t[i] != '/' {
      }
    }
    SplitWhole(u);
    SplitWhole(t);
    DecodeConcat(u, t);
  }

  /** `updates` is one segment. */
  lemma UpdatesSegment()
    ensures DecodePath(UpdatesPath) == [UpdatesPath]
  {
    var u := UpdatesPath;
    assert u[0] == 'u';
    assert '/' !in u;
    SplitWhole(u);
  }

  /** The collection write adds one timestamp key to the `updates` map and
      keeps the others. */
  lemma UpdatesAfterWrite(d: Doc, now: nat, trackableDid: Did)
    ensures UpdatesOf(Committed(d, UpdateTxs(now, trackableDid)))
            == Some(Obj(ChildrenAt(d.data, [UpdatesPath])[DecimalString(now) := Str(trackableDid)]))
  {
    var key := DecimalString(now);
    var path := UpdatesPath + "/" + key;
    var v := Str(trackableDid);
    SingleWrite(d, path, v);
    UpdatePathSegments(now);
    assert Committed(d, UpdateTxs(now, trackableDid)).data == SetAt(d.data, [UpdatesPath] + [key], v);
    SetChild(d.data, [UpdatesPath], key, v);
    UpdatesSegment();
  }

  /** After the collection write, the collection's edges include one keyed by
      the creation time that names the new trackable. */
  lemma CreatedTrackableListed(ks: KeyScheme, docs: map<Did, Doc>, coll: Tree, now: nat, trackableDid: Did,
                               fault: Option<Error>, c2: Tree)
    requires Play(ks, docs, coll, UpdateTxs(now, trackableDid), fault) == Ok(c2)
    ensures Edges(StoreAfter(docs, Resolved(c2)), coll.id, None).Ok?
    ensures var edges := Edges(StoreAfter(docs, Resolved(c2)), coll.id, None).value;
            DecimalString(now) in edges && edges[DecimalString(now)] == Edge(Str(trackableDid), NodeRef(Str(trackableDid)))
  {
    assert c2.id == coll.id;
    assert c2.doc == Committed(coll.doc, UpdateTxs(now, trackableDid));
    UpdatesAfterWrite(coll.doc, now, trackableDid);
    var updates := UpdatesOf(c2.doc);
    var docs' := StoreAfter(docs, Resolved(c2));
    assert docs'[coll.id] == c2.doc;
    assert Edges(docs', coll.id, None) == Ok(EdgesOf(Fields(updates)));
  }

  /** The key of a newly registered user's collection: the user's private
      key, the collection path and "collection", salted with the namespace. */
  function CollectionKey(ks: KeyScheme, userKey: Key, ns: string): Key {
    PassPhraseKey(ks.privateKey(userKey) + NamespaceToPath(ns) + "collection", ns)
  }

  /** `Mutation.register`, after the account is created and loaded: nothing
      without a user; otherwise the user's account records a fresh
      collection's did at the namespace's collection path, the collection is
      handed to the user's address, and the user is returned logged in. The
      two writes run together; both are attempted. */
  method RegisterCollection(c: Community, registered: Option<Session>, ns: string,
                            accountFault: Option<Error>, collectionFault: Option<Error>)
    returns (r: Result<Option<UserObj>>)
    modifies c
    ensures registered.None? ==> r == Ok(None) && c.docs == old(c.docs)
    ensures registered.Some? && registered.value.tree.key.None? ==> r == Err(TypeError) && c.docs == old(c.docs)
    ensures registered.Some? && registered.value.tree.key.Some? ==>
              var account := registered.value.tree;
              var userKey := account.key.value;
              var coll := NewEmptyTree(c.keys, CollectionKey(c.keys, userKey, ns));
              var w1 := Play(c.keys, old(c.docs), account, [SetData(NamespaceToPath(ns), Str(coll.id))], accountFault);
              var docs1 := StoreAfter(old(c.docs), Settle(w1));
              var w2 := Play(c.keys, docs1, coll, [SetOwnership([c.keys.address(userKey)])], collectionFault);
              && c.docs == StoreAfter(docs1, Settle(w2))
              && (r.Ok? <==> w1.Ok? && w2.Ok?)
              && (r.Ok? ==> r.value == Some(UserObj(Some(account.id), Some(ns), registered.value.userName, true)))
              && (r.Err? ==> r.error == (if w1.Err? then w1.error else w2.error))
  {
    if registered.None? {
      return Ok(None);
    }
    var ambientUser := registered.value;
    var user := UserObj(Some(ambientUser.tree.id), Some(ns), ambientUser.userName, true);
    if ambientUser.tree.key.None? {
      // `Buffer.from(undefined)` throws
      return Err(TypeError);
    }
    var userKey := ambientUser.tree.key.value;
    var tree := NewEmptyTree(c.keys, CollectionKey(c.keys, userKey, ns));
    var w1 := c.PlayTransactions(ambientUser.tree, [SetData(NamespaceToPath(ns), Str(tree.id))], accountFault);
    var w2 := c.PlayTransactions(tree, [SetOwnership([c.keys.address(userKey)])], collectionFault);
    if w1.Err? {
      return Err(w1.error);
    }
    if w2.Err? {
      return Err(w2.error);
    }
    r := Ok(Some(user));
  }

  /** A batch that only sets ownership leaves exactly those owners. */
  lemma OwnershipOnly(d: Doc, owners: seq<Address>)
    ensures Committed(d, [SetOwnership(owners)]).owners == Some(owners)
  {
    OwnersAfter(d, [SetOwnership(owners)]);
  }

  /** Once both registration writes are accepted (on two different
      documents), `User.collection` reads the new collection's did, and
      `createTrackable`'s lookup finds that collection current and writable
      with the user's key. */
  lemma RegisteredCollectionFound(ks: KeyScheme, docs: map<Did, Doc>, account: Tree, userKey: Key, ns: string, userName: string,
                                  f1: Option<Error>, f2: Option<Error>, t1: Tree, t2: Tree)
    requires account.key == Some(userKey) && ns != ""
    requires Play(ks, docs, account, [SetData(NamespaceToPath(ns), Str(ks.toDid(CollectionKey(ks, userKey, ns))))], f1) == Ok(t1)
    requires Play(ks, StoreAfter(docs, Resolved(t1)), NewEmptyTree(ks, CollectionKey(ks, userKey, ns)),
                  [SetOwnership([ks.address(userKey)])], f2) == Ok(t2)
    requires t2.id != t1.id
    ensures var docs2 := StoreAfter(StoreAfter(docs, Resolved(t1)), Resolved(t2));
            && CollectionOf(docs2, UserObj(Some(t1.id), Some(ns), userName, true), None) == Ok(Some(Some(Str(t2.id))))
            && CollectionHandle(docs2, t1, ns, None) == Ok(Tree(t2.id, t2.doc, Some(userKey)))
            && Current(docs2, Tree(t2.id, t2.doc, Some(userKey))) && Authorized(ks, Tree(t2.id, t2.doc, Some(userKey)))
  {
    var path := NamespaceToPath(ns);
    var v := Str(ks.toDid(CollectionKey(ks, userKey, ns)));
    PlaySetData(ks, docs, account, path, v, f1);
    assert Resolve(t1.doc.data, DecodePath(path)).value == Some(v);
    var docs1 := StoreAfter(docs, Resolved(t1));
    var docs2 := StoreAfter(docs1, Resolved(t2));
    assert docs2[t1.id] == t1.doc;
    assert docs2[t2.id] == t2.doc;
    assert t2.id == ks.toDid(CollectionKey(ks, userKey, ns));
    OwnershipOnly(EmptyDoc(), [ks.address(userKey)]);
    assert t2.doc.owners == Some([ks.address(userKey)]);
    assert t1.key == Some(userKey);
  }
}
