/**
 * The read-append-write of a list of dids that the drivers registry and the
 * recipient registry share: read the list at a path of the refreshed tree,
 * start from `[]` when it is missing or falsy, push one did, write the whole
 * list back.
 */
module DidList {
  import opened Wrappers
  import opened Json
  import opened Store
  import opened OpenTree

  /** `(await tree.resolveData(path)).value`. */
  function ListAt(t: Tree, path: string): Option<Value> {
    Resolve(t.doc.data, DecodePath(path)).value
  }

  /** The entries a read finds: those of a list, none for a missing or falsy value. */
  function Existing(current: Option<Value>): seq<Value> {
    if Present(current) && current.value.List? then current.value.items else []
  }

  /** `if (!dids) dids = []; dids.push(did)`: a truthy value that is not a
      list has no `push`, which throws. */
  function Pushed(current: Option<Value>, did: string): (r: Result<Value>)
    ensures r.Ok? <==> !Present(current) || current.value.List?
    ensures r.Err? ==> r.error == TypeError
    ensures r.Ok? ==> r.value.List? && r.value.items == Existing(current) + [Str(did)]
  {
    if !Present(current) then Ok(List([Str(did)]))
    else if current.value.List? then Ok(List(current.value.items + [Str(did)]))
    else Err(TypeError)
  }

  /** `getAll`'s reading: the stored value, or `[]` when it is missing or falsy. */
  function OrEmpty(current: Option<Value>): (r: Value)
    ensures Present(current) ==> r == current.value
    ensures !Present(current) ==> r == List([])
  {
    if Present(current) then current.value else List([])
  }

  /** The list a refreshed handle reads, with `getAll`'s default. */
  function ListOf(h: Async<Tree>, path: string): (r: Async<Value>)
    ensures r.Resolved? <==> h.Resolved?
    ensures h.Resolved? && Present(ListAt(h.value, path)) ==> r.value == ListAt(h.value, path).value
    ensures h.Resolved? && !Present(ListAt(h.value, path)) ==> r.value == List([])
    ensures h.Rejected? ==> r == Rejected(h.error)
    ensures h.Pending? ==> r == Pending
  {
    match h
    case Resolved(t) => Resolved(OrEmpty(ListAt(t, path)))
    case Rejected(e) => Rejected(e)
    case Pending => Pending
  }

  /** Refresh has happened; read the list at `path`, push `did`, write it back. */
  function AppendOn(ks: KeyScheme, docs: map<Did, Doc>, h: Async<Tree>, path: string, did: string, fault: Option<Error>): Async<Tree>
  {
    match h
    case Resolved(t) =>
      (match Pushed(ListAt(t, path), did)
       case Ok(v) => PlayOn(ks, docs, h, [SetData(path, v)], fault)
       case Err(e) => Rejected(e))
    case Rejected(e) => Rejected(e)
    case Pending => Pending
  }

  /** An accepted append leaves at `path` the old entries, in order, followed
      by exactly the new did; nothing is filtered. */
  lemma AppendOnAppends(ks: KeyScheme, docs: map<Did, Doc>, h: Async<Tree>, path: string, did: string, fault: Option<Error>)
    requires AppendOn(ks, docs, h, path, did, fault).Resolved?
    ensures h.Resolved?
    ensures ListAt(AppendOn(ks, docs, h, path, did, fault).value, path)
            == Some(List(Existing(ListAt(h.value, path)) + [Str(did)]))
  {
    var v := Pushed(ListAt(h.value, path), did).value;
    PlaySetData(ks, docs, h.value, path, v, fault);
  }

  /** The list grows by exactly one: the old entries keep their places. */
  lemma AppendGrowsByOne(old_: Option<Value>, did: string)
    requires Pushed(old_, did).Ok?
    ensures |Pushed(old_, did).value.items| == |Existing(old_)| + 1
    ensures Pushed(old_, did).value.items[..|Existing(old_)|] == Existing(old_)
    ensures Pushed(old_, did).value.items[|Existing(old_)|] == Str(did)
  {
  }

  /** Pushing the same did twice lists it twice. */
  lemma NoDeduplication(current: Option<Value>, did: string)
    requires Pushed(current, did).Ok?
    ensures Pushed(Some(Pushed(current, did).value), did).Ok?
    ensures var twice := Pushed(Some(Pushed(current, did).value), did).value.items;
            |twice| == |Existing(current)| + 2 && twice[|twice| - 1] == twice[|twice| - 2] == Str(did)
  {
  }

  /** After an accepted append, a refresh against the store it wrote reads
      back a list that holds the did. */
  lemma AppendThenRead(ks: KeyScheme, docs: map<Did, Doc>, h: Async<Tree>, path: string, did: string, fault: Option<Error>, t': Tree)
    requires AppendOn(ks, docs, h, path, did, fault) == Resolved(t')
    ensures UpdateTree(StoreAfter(docs, Resolved(t')), Resolved(t'), None) == Resolved(t')
    ensures OrEmpty(ListAt(t', path)).List? && Str(did) in OrEmpty(ListAt(t', path)).items
  {
    AppendOnAppends(ks, docs, h, path, did, fault);
    RefreshAfterOwnWrite(docs, t');
    var items := Existing(ListAt(h.value, path)) + [Str(did)];
    var cur := ListAt(t', path);
    assert cur == Some(List(items));
    LastListed(items[..|items| - 1], did);
  }

  /** Reading back a list that ends with `did` finds `did`. */
  lemma LastListed(prefix: seq<Value>, did: string)
    ensures OrEmpty(Some(List(prefix + [Str(did)]))) == List(prefix + [Str(did)])
    ensures Str(did) in prefix + [Str(did)]
  {
    assert (prefix + [Str(did)])[|prefix|] == Str(did);
  }
}
