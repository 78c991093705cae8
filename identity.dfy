/**
 * Accounts (src/store/identity.ts). A username names an account document
 * whose did is derived from an insecure key built from the username and an
 * application namespace; on creation, ownership of that document passes to
 * a secure key built from the username and the password, and the username
 * is cached in the document's data. Logging in is checking that the secure
 * key's address is among the document's owners.
 */
module Identity {
  import opened Wrappers
  import opened Json
  import opened Store

  /** Where an account document caches its username. */
  const UsernamePath: string := "givingchain/username"

  /** The key anyone can derive from a username: it fixes the account's did. */
  function InsecureUsernameKey(username: string, ns: string): Key {
    PassPhraseKey(username, ns)
  }

  /** The key only the password's holder can derive; note the salt is the username. */
  function SecurePasswordKey(username: string, password: string): Key {
    PassPhraseKey(password, username)
  }

  /** The did of `username`'s account in namespace `ns`. */
  function AccountDid(ks: KeyScheme, username: string, ns: string): Did {
    ks.toDid(InsecureUsernameKey(username, ns))
  }

  /** `findUserAccount(username, ns)`: the account document, with no key, or
      nothing. "Not found" gives nothing; any other failure also leaves the
      tip unset and gives nothing. */
  function FindUserAccount(ks: KeyScheme, docs: map<Did, Doc>, username: string, ns: string, fault: Option<Error>): (r: Option<Tree>)
    ensures r.Some? <==> fault.None? && AccountDid(ks, username, ns) in docs
    ensures r.Some? ==> r.value == Tree(AccountDid(ks, username, ns), docs[AccountDid(ks, username, ns)], None)
  {
    match GetLatest(docs, AccountDid(ks, username, ns), fault)
    case Ok(tree) => Some(tree)
    case Err(_) => None
  }

  /** What `verifyAccount` decides: the account signed by the secure key when
      that key's address is an owner, nothing when there is no account or it
      is not an owner, and a TypeError when ownership was never set, because
      `includes` is then called on undefined. */
  function Authenticate(ks: KeyScheme, docs: map<Did, Doc>, username: string, password: string, ns: string, fault: Option<Error>): (r: Result<Option<Tree>>)
    ensures var did := AccountDid(ks, username, ns);
            r == Err(TypeError) <==> fault.None? && did in docs && docs[did].owners.None?
    ensures r.Err? ==> r.error == TypeError
    ensures var did := AccountDid(ks, username, ns);
            (r.Ok? && r.value.Some?) <==>
              fault.None? && did in docs && docs[did].owners.Some?
              && ks.address(SecurePasswordKey(username, password)) in docs[did].owners.value
    ensures r.Ok? && r.value.Some? ==>
              var did := AccountDid(ks, username, ns);
              r.value.value == Tree(did, docs[did], Some(SecurePasswordKey(username, password)))
  {
    var secureKey := SecurePasswordKey(username, password);
    match FindUserAccount(ks, docs, username, ns, fault)
    case None => Ok(None)
    case Some(tree) =>
      match tree.doc.owners
      case None => Err(TypeError)
      case Some(auths) =>
        if ks.address(secureKey) in auths then Ok(Some(tree.(key := Some(secureKey)))) else Ok(None)
  }

  /** The batch that creates an account: hand ownership to the secure key,
      then cache the username. */
  function NamedTreeTxs(ks: KeyScheme, name: string, password: string): seq<Tx> {
    [SetOwnership([ks.address(SecurePasswordKey(name, password))]), SetData(UsernamePath, Str(name))]
  }

  /** `createNamedTree(name, password, ns)`: refuse a name that already has a
      document, pass on a lookup failure other than "not found", otherwise
      write the creating batch on a new empty tree and return it signed by
      the secure key. */
  function NamedTree(ks: KeyScheme, docs: map<Did, Doc>, name: string, password: string, ns: string,
                     lookupFault: Option<Error>, writeFault: Option<Error>): (r: Result<Tree>)
    ensures lookupFault.None? && AccountDid(ks, name, ns) in docs ==> r == Err(AccountExists)
    ensures lookupFault.Some? && !IsNotFound(lookupFault.value) ==> r == Err(lookupFault.value)
    ensures r.Ok? <==>
              (if lookupFault.None? then AccountDid(ks, name, ns) !in docs else IsNotFound(lookupFault.value))
              && writeFault.None? && Current(docs, NewEmptyTree(ks, InsecureUsernameKey(name, ns)))
    ensures r.Ok? ==> r.value.id == AccountDid(ks, name, ns) && r.value.key == Some(SecurePasswordKey(name, password))
  {
    var insecureKey := InsecureUsernameKey(name, ns);
    if lookupFault.None? && ks.toDid(insecureKey) in docs then Err(AccountExists)
    else if lookupFault.Some? && !IsNotFound(lookupFault.value) then Err(lookupFault.value)
    else
      match Play(ks, docs, NewEmptyTree(ks, insecureKey), NamedTreeTxs(ks, name, password), writeFault)
      case Ok(t) => Ok(t.(key := Some(SecurePasswordKey(name, password))))
      case Err(e) => Err(e)
  }

  /** The creating batch, applied to a document. */
  lemma NamedBatch(ks: KeyScheme, d: Doc, name: string, password: string)
    ensures ApplyAll(d, NamedTreeTxs(ks, name, password))
            == Doc(d.tip, SetAt(d.data, DecodePath(UsernamePath), Str(name)), Some([ks.address(SecurePasswordKey(name, password))]))
  {
    var txs := NamedTreeTxs(ks, name, password);
    var d1 := ApplyTx(d, txs[0]);
    assert txs[1..][1..] == [];
    assert ApplyAll(d, txs) == ApplyAll(d1, txs[1..]);
    assert ApplyAll(d1, txs[1..]) == ApplyTx(d1, txs[1]);
  }

  /** A created account is owned by the secure key alone, caches the name,
      and is the first state of its document when it was new. */
  lemma NamedTreeHolds(ks: KeyScheme, docs: map<Did, Doc>, name: string, password: string, ns: string,
                       lookupFault: Option<Error>, writeFault: Option<Error>, t: Tree)
    requires NamedTree(ks, docs, name, password, ns, lookupFault, writeFault) == Ok(t)
    ensures t.doc.owners == Some([ks.address(SecurePasswordKey(name, password))])
    ensures Resolve(t.doc.data, DecodePath(UsernamePath)) == Resolution(Some(Str(name)), [])
    ensures t.doc.tip == 1
  {
    var txs := NamedTreeTxs(ks, name, password);
    var fresh_ := NewEmptyTree(ks, InsecureUsernameKey(name, ns));
    var played := Play(ks, docs, fresh_, txs, writeFault);
    assert played.Ok? && t == played.value.(key := Some(SecurePasswordKey(name, password)));
    NamedBatch(ks, EmptyDoc(), name, password);
    ResolveSetAt(EmptyDoc().data, DecodePath(UsernamePath), Str(name));
  }

  /** Once an account is created, verifying the same username and password
      against the store finds exactly that handle. */
  lemma RegisterThenVerify(ks: KeyScheme, docs: map<Did, Doc>, name: string, password: string, ns: string,
                           lookupFault: Option<Error>, writeFault: Option<Error>, t: Tree)
    requires NamedTree(ks, docs, name, password, ns, lookupFault, writeFault) == Ok(t)
    ensures Authenticate(ks, StoreAfter(docs, Resolved(t)), name, password, ns, None) == Ok(Some(t))
  {
    NamedTreeHolds(ks, docs, name, password, ns, lookupFault, writeFault, t);
  }

  /** A password whose secure key has another address is refused. */
  lemma WrongPasswordRefused(ks: KeyScheme, docs: map<Did, Doc>, name: string, password: string, other: string, ns: string,
                             lookupFault: Option<Error>, writeFault: Option<Error>, t: Tree)
    requires NamedTree(ks, docs, name, password, ns, lookupFault, writeFault) == Ok(t)
    requires ks.address(SecurePasswordKey(name, other)) != ks.address(SecurePasswordKey(name, password))
    ensures Authenticate(ks, StoreAfter(docs, Resolved(t)), name, other, ns, None) == Ok(None)
  {
    NamedTreeHolds(ks, docs, name, password, ns, lookupFault, writeFault, t);
  }

  /** A name is taken once: creating it again, with any password, is refused. */
  lemma NameTakenOnce(ks: KeyScheme, docs: map<Did, Doc>, name: string, password: string, password2: string, ns: string,
                      lookupFault: Option<Error>, writeFault: Option<Error>, writeFault2: Option<Error>, t: Tree)
    requires NamedTree(ks, docs, name, password, ns, lookupFault, writeFault) == Ok(t)
    ensures NamedTree(ks, StoreAfter(docs, Resolved(t)), name, password2, ns, None, writeFault2) == Err(AccountExists)
  {
  }

  /** After creation, the key derived from the username alone can no longer
      write to the account. */
  lemma UsernameKeyLosesControl(ks: KeyScheme, docs: map<Did, Doc>, name: string, password: string, ns: string,
                                lookupFault: Option<Error>, writeFault: Option<Error>, t: Tree, txs: seq<Tx>)
    requires NamedTree(ks, docs, name, password, ns, lookupFault, writeFault) == Ok(t)
    requires ks.address(InsecureUsernameKey(name, ns)) != ks.address(SecurePasswordKey(name, password))
    ensures Play(ks, StoreAfter(docs, Resolved(t)), t.(key := Some(InsecureUsernameKey(name, ns))), txs, None) == Err(Unauthorized)
  {
    NamedTreeHolds(ks, docs, name, password, ns, lookupFault, writeFault, t);
  }

  /** `resolveUsername(tree)`: the cached name, or "" when the path does not
      resolve all the way. */
  function ResolveUsername(t: Tree): (r: Value)
    ensures Resolve(t.doc.data, DecodePath(UsernamePath)).remainder == [] ==>
              Resolve(t.doc.data, DecodePath(UsernamePath)).value == Some(r)
    ensures Resolve(t.doc.data, DecodePath(UsernamePath)).remainder != [] ==> r == Str("")
  {
    var resp := Resolve(t.doc.data, DecodePath(UsernamePath));
    if |resp.remainder| > 0 then Str("") else resp.value.value
  }

  /** The name an account was created with is the name read back from it. */
  lemma CreatedNameResolves(ks: KeyScheme, docs: map<Did, Doc>, name: string, password: string, ns: string,
                            lookupFault: Option<Error>, writeFault: Option<Error>, t: Tree)
    requires NamedTree(ks, docs, name, password, ns, lookupFault, writeFault) == Ok(t)
    ensures ResolveUsername(t) == Str(name)
  {
    NamedTreeHolds(ks, docs, name, password, ns, lookupFault, writeFault, t);
  }

  /** `createNamedTree`, step by step against the store. */
  method CreateNamedTree(c: Community, name: string, password: string, ns: string,
                         lookupFault: Option<Error>, writeFault: Option<Error>) returns (r: Result<Tree>)
    modifies c
    ensures r == NamedTree(c.keys, old(c.docs), name, password, ns, lookupFault, writeFault)
    ensures c.docs == StoreAfter(old(c.docs), Settle(r))
  {
    var insecureKey := InsecureUsernameKey(name, ns);
    var secureKey := SecurePasswordKey(name, password);
    var treeDid := c.keys.toDid(insecureKey);
    var tip := GetLatest(c.docs, treeDid, lookupFault);
    if tip.Ok? {
      // "account already exists" is rethrown: its message does not say "not found"
      return Err(AccountExists);
    }
    if !IsNotFound(tip.error) {
      return Err(tip.error);
    }
    var namedTree := NewEmptyTree(c.keys, insecureKey);
    var w := c.PlayTransactions(namedTree, NamedTreeTxs(c.keys, name, password), writeFault);
    if w.Err? {
      return Err(w.error);
    }
    r := Ok(w.value.(key := Some(secureKey)));
  }

  /** A logged-in (or just registered) user: the account handle and, once
      loaded, its did. */
  class User {
    const community: Community
    const userName: string
    var tree: Tree
    var did: Option<Did>

    constructor(userName: string, tree: Tree, community: Community)
      ensures this.userName == userName && this.tree == tree && this.community == community
      ensures did == None
    {
      this.userName := userName;
      this.tree := tree;
      this.community := community;
      did := None;
    }

    /** `load()`: record the handle's did. */
    method Load()
      modifies this
      ensures did == Some(tree.id)
      ensures tree == old(tree)
    {
      did := Some(tree.id);
    }

    /** `User.find(userName, ns)`: the account, not yet loaded, or "no tree found". */
    static method Find(userName: string, ns: string, community: Community, fault: Option<Error>) returns (r: Result<User>)
      ensures FindUserAccount(community.keys, community.docs, userName, ns, fault).None? ==> r == Err(NoTreeFound)
      ensures FindUserAccount(community.keys, community.docs, userName, ns, fault).Some? ==>
                r.Ok? && fresh(r.value) && r.value.userName == userName && r.value.did == None
                && r.value.tree == FindUserAccount(community.keys, community.docs, userName, ns, fault).value
    {
      var tree := FindUserAccount(community.keys, community.docs, userName, ns, fault);
      if tree.None? {
        return Err(NoTreeFound);
      }
      var u := new User(userName, tree.value, community);
      r := Ok(u);
    }
  }

  /** `verifyAccount(username, password, ns)`: `Ok(None)` is `[false, undefined]`;
      a match yields a loaded user signing with the secure key. */
  method VerifyAccount(c: Community, username: string, password: string, ns: string, fault: Option<Error>) returns (r: Result<Option<User>>)
    ensures r.Ok? <==> Authenticate(c.keys, c.docs, username, password, ns, fault).Ok?
    ensures r.Err? ==> r.error == TypeError
    ensures r.Ok? ==> (r.value.Some? <==> Authenticate(c.keys, c.docs, username, password, ns, fault).value.Some?)
    ensures r.Ok? && r.value.Some? ==>
              fresh(r.value.value) && r.value.value.userName == username && r.value.value.community == c
              && r.value.value.tree == Authenticate(c.keys, c.docs, username, password, ns, fault).value.value
              && r.value.value.did == Some(AccountDid(c.keys, username, ns))
  {
    match Authenticate(c.keys, c.docs, username, password, ns, fault) {
      case Err(e) =>
        r := Err(e);
      case Ok(None) =>
        r := Ok(None);
      case Ok(Some(tree)) =>
        var user := new User(username, tree, c);
        user.Load();
        r := Ok(Some(user));
    }
  }

  /** `register(username, password, ns)`: create the account and wrap it in a
      user that is not loaded (its did is unset). */
  method Register(c: Community, username: string, password: string, ns: string,
                  lookupFault: Option<Error>, writeFault: Option<Error>) returns (r: Result<User>)
    modifies c
    ensures var created := NamedTree(c.keys, old(c.docs), username, password, ns, lookupFault, writeFault);
            && (r.Ok? <==> created.Ok?)
            && (r.Err? ==> r.error == created.error)
            && (r.Ok? ==> fresh(r.value) && r.value.tree == created.value && r.value.userName == username && r.value.did == None)
            && c.docs == StoreAfter(old(c.docs), Settle(created))
  {
    var userTree := CreateNamedTree(c, username, password, ns, lookupFault, writeFault);
    if userTree.Err? {
      return Err(userTree.error);
    }
    var u := new User(username, userTree.value, c);
    r := Ok(u);
  }
}
