/**
 * The local trackable collection of src/store.tsx: a per-user document
 * mapping trackable ids to trackable records, changed only through a
 * reducer, and the two ways a trackable enters it (a new one, written to
 * the store first, or an existing one).
 */
module TrackerStore {
  import opened Wrappers
  import opened Json
  import opened Store
  import Resolvers

  const UserNamespace: string := "local-only-tracker"

  /** The local `Trackable` record. */
  datatype TrackableRec = TrackableRec(id: Did, name: string, image: Option<string>, updates: seq<Value>, latestTip: nat)

  /** A collaborator: a name, and a did that is unset for a user not loaded. */
  datatype Collaborator = Collaborator(name: string, did: Option<Did>)

  /** `TrackableCollectionActions.ADD`, the enum's first and only member. */
  const AddCode := 0

  /** A `type` value other than `ADD`. */
  type OtherCode = c: int | c != AddCode witness 1

  /** A dispatched event: `ADD`, or any other type value, which the reducer
      reports and ignores. */
  datatype Action = Add(trackable: TrackableRec) | Unsupported(code: OtherCode)

  /** What the reducer leaves in `trackables`: a missing map is first made
      empty; `ADD` then sets the trackable under its id. */
  function Reduced(trackables: Option<map<Did, TrackableRec>>, evt: Action): (r: map<Did, TrackableRec>)
    ensures evt.Add? ==> evt.trackable.id in r && r[evt.trackable.id] == evt.trackable
    ensures evt.Add? ==> r.Keys == (if trackables.Some? then trackables.value.Keys else {}) + {evt.trackable.id}
    ensures trackables.Some? ==> forall id :: id in trackables.value && !(evt.Add? && id == evt.trackable.id) ==>
              id in r && r[id] == trackables.value[id]
    ensures evt.Unsupported? ==> r == (if trackables.Some? then trackables.value else map[])
  {
    var m := if trackables.None? then map[] else trackables.value;
    match evt
    case Add(t) => m[t.id := t]
    case Unsupported(_) => m
  }

  /** The same `ADD` twice leaves what it left once. */
  lemma AddIdempotent(trackables: Option<map<Did, TrackableRec>>, t: TrackableRec)
    ensures Reduced(Some(Reduced(trackables, Add(t))), Add(t)) == Reduced(trackables, Add(t))
  {
  }

  /** The document after a sequence of events. */
  function Replay(trackables: Option<map<Did, TrackableRec>>, evts: seq<Action>): map<Did, TrackableRec>
    decreases |evts|
  {
    if evts == [] then (if trackables.None? then map[] else trackables.value)
    else Replay(Some(Reduced(trackables, evts[0])), evts[1..])
  }

  /** After a sequence of events, an id holds the last trackable added under
      it; an id no event added keeps what it had. */
  lemma {:induction false} ReplayLastAddWins(trackables: Option<map<Did, TrackableRec>>, evts: seq<Action>, i: nat)
    requires i < |evts| && evts[i].Add?
    requires forall j :: i < j < |evts| && evts[j].Add? ==> evts[j].trackable.id != evts[i].trackable.id
    ensures evts[i].trackable.id in Replay(trackables, evts)
    ensures Replay(trackables, evts)[evts[i].trackable.id] == evts[i].trackable
    decreases |evts|
  {
    if i == 0 {
      ReplayKeeps(Some(Reduced(trackables, evts[0])), evts[1..], evts[0].trackable.id);
    } else {
      ReplayLastAddWins(Some(Reduced(trackables, evts[0])), evts[1..], i - 1);
    }
  }

  /** Events that never add under `id` leave its entry as it was. */
  lemma {:induction false} ReplayKeeps(trackables: Option<map<Did, TrackableRec>>, evts: seq<Action>, id: Did)
    requires trackables.Some? && id in trackables.value
    requires forall j :: 0 <= j < |evts| && evts[j].Add? ==> evts[j].trackable.id != id
    ensures id in Replay(trackables, evts) && Replay(trackables, evts)[id] == trackables.value[id]
    decreases |evts|
  {
    if evts != [] {
      ReplayKeeps(Some(Reduced(trackables, evts[0])), evts[1..], id);
    }
  }

  /** The collection document that the reducer changes in place. */
  class TrackableCollectionDoc {
    var userDid: string
    var trackables: Option<map<Did, TrackableRec>>

    constructor(userDid: string, trackables: Option<map<Did, TrackableRec>>)
      ensures this.userDid == userDid && this.trackables == trackables
    {
      this.userDid := userDid;
      this.trackables := trackables;
    }

    /** `TrackableCollectionReducer(doc, evt)`. */
    method Reduce(evt: Action)
      modifies this
      ensures trackables == Some(Reduced(old(trackables), evt))
      ensures userDid == old(userDid)
    {
      if trackables.None? {
        trackables := Some(map[]);
      }
      match evt {
        case Add(trackable) =>
          trackables := Some(trackables.value[trackable.id := trackable]);
        case Unsupported(_) =>
      }
    }
  }

  /** `addExistingTrackable(dispatch, trackable)`: dispatch one `ADD`, hand
      the trackable back. */
  method AddExistingTrackable(doc: TrackableCollectionDoc, trackable: TrackableRec) returns (r: TrackableRec)
    modifies doc
    ensures r == trackable
    ensures doc.trackables == Some(Reduced(old(doc.trackables), Add(trackable)))
    ensures doc.userDid == old(doc.userDid)
  {
    doc.Reduce(Add(trackable));
    r := trackable;
  }

  /** A trackable record as stored under `_tracker`. */
  function TrackableValue(t: TrackableRec): (v: Value)
    ensures v.Obj? && "id" in v.fields && v.fields["id"] == Str(t.id) && "name" in v.fields && v.fields["name"] == Str(t.name)
  {
    var m := map["name" := Str(t.name), "id" := Str(t.id), "updates" := List(t.updates), "latestTip" := Num(t.latestTip)];
    Obj(if t.image.Some? then m["image" := Str(t.image.value)] else m)
  }

  function CollaboratorsValue(cs: seq<Collaborator>): (v: Value)
    ensures v.List? && |v.items| == |cs|
    ensures forall i :: 0 <= i < |cs| ==>
              && v.items[i].Obj? && "name" in v.items[i].fields && v.items[i].fields["name"] == Str(cs[i].name)
              && ("did" in v.items[i].fields <==> cs[i].did.Some?)
              && (cs[i].did.Some? ==> v.items[i].fields["did"] == Str(cs[i].did.value))
  {
    List(seq(|cs|, i requires 0 <= i < |cs| =>
      Obj(if cs[i].did.Some? then map["name" := Str(cs[i].name), "did" := Str(cs[i].did.value)] else map["name" := Str(cs[i].name)])))
  }

  /** The batch that sets up a new trackable: its record, its collaborators,
      and ownership handed to the creating user. */
  function SetupTxs(t: TrackableRec, collaborators: seq<Collaborator>, owner: Address): seq<Tx> {
    [SetData("_tracker", TrackableValue(t)), SetData("_trackerCollaborators", CollaboratorsValue(collaborators)),
     SetOwnership([owner])]
  }

  /** `addTrackable(dispatch, user, name, image)`: a document for a freshly
      generated key, set up with the record and the user as its only
      collaborator and owner; only once that is written is the record
      dispatched. `seed` stands for the generated key. */
  method AddTrackable(c: Community, doc: TrackableCollectionDoc, user: Resolvers.Session, name: string, image: Option<string>,
                      seed: nat, fault: Option<Error>) returns (r: Result<TrackableRec>)
    modifies c, doc
    ensures var tree := NewEmptyTree(c.keys, Generated(seed));
            var t := TrackableRec(tree.id, name, image, [], tree.doc.tip);
            if user.tree.key.None? then
              r == Err(TypeError) && c.docs == old(c.docs) && doc.trackables == old(doc.trackables)
            else
              var w := Play(c.keys, old(c.docs), tree,
                            SetupTxs(t, [Collaborator(user.userName, user.did)], c.keys.address(user.tree.key.value)), fault);
              && c.docs == StoreAfter(old(c.docs), Settle(w))
              && (r.Ok? <==> w.Ok?)
              && (r.Ok? ==> r.value == t && doc.trackables == Some(Reduced(old(doc.trackables), Add(t))))
              && (r.Err? ==> r.error == w.error && doc.trackables == old(doc.trackables))
    ensures r.Ok? ==> r.value.updates == [] && r.value.name == name && r.value.image == image
    ensures doc.userDid == old(doc.userDid)
  {
    var key := Generated(seed);
    var tree := NewEmptyTree(c.keys, key);
    var did := tree.id;
    var trackable := TrackableRec(did, name, image, [], tree.doc.tip);
    var collaborators := [Collaborator(user.userName, user.did)];
    if user.tree.key.None? {
      return Err(TypeError);
    }
    var w := c.PlayTransactions(tree, SetupTxs(trackable, collaborators, c.keys.address(user.tree.key.value)), fault);
    if w.Err? {
      return Err(w.error);
    }
    doc.Reduce(Add(trackable));
    r := Ok(trackable);
  }

  /** A freshly keyed trackable's setup write is accepted unless the call
      fails, and leaves the creator as the only owner. */
  lemma SetupAccepted(ks: KeyScheme, docs: map<Did, Doc>, seed: nat, t: TrackableRec, collaborators: seq<Collaborator>, owner: Address)
    requires ks.toDid(Generated(seed)) !in docs
    ensures Play(ks, docs, NewEmptyTree(ks, Generated(seed)), SetupTxs(t, collaborators, owner), None).Ok?
    ensures Play(ks, docs, NewEmptyTree(ks, Generated(seed)), SetupTxs(t, collaborators, owner), None).value.doc.owners == Some([owner])
  {
    var tree := NewEmptyTree(ks, Generated(seed));
    var txs := SetupTxs(t, collaborators, owner);
    assert Current(docs, tree) && Authorized(ks, tree);
    OwnersAfter(tree.doc, txs);
    assert Committed(tree.doc, txs).owners == Some([owner]);
  }
}
