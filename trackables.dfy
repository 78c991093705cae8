/**
 * Preparing a trackable's updates for display (src/store/trackables.ts):
 * each update gains its timestamp as a date and the value of its first
 * `image` metadata entry, and the list is ordered by that date. Parsing a
 * timestamp into a date is a parameter. Reading a property of a missing
 * connection, update or metadata entry throws a TypeError.
 */
module Trackables {
  import opened Wrappers
  import opened Store

  /** The GraphQL `MetadataEntry`. */
  datatype MetadataEntry = MetadataEntry(key: string, value: Option<string>)

  /** The GraphQL `TrackableUpdate`; a list entry may be null (`None`). */
  datatype Update = Update(id: string, timestamp: Option<string>, message: Option<string>,
                           metadata: Option<seq<Option<MetadataEntry>>>, userDid: string, userName: string)

  /** The GraphQL `TrackableUpdateConnection`. */
  datatype UpdateConnection = UpdateConnection(did: string, edges: Option<seq<Option<Update>>>)

  /** The GraphQL `Trackable`. */
  datatype Trackable = Trackable(did: string, name: Option<string>, image: Option<string>, updates: Option<UpdateConnection>)

  /** An update with every original field, plus the date and the image. */
  datatype Enhanced = Enhanced(update: Update, timestampDate: int, image: Option<string>)

  /** The first `i` entries are present and none of them is the image. */
  predicate PassedOver(ms: seq<Option<MetadataEntry>>, i: nat)
    requires i <= |ms|
  {
    forall j :: 0 <= j < i ==> ms[j].Some? && ms[j].value.key != "image"
  }

  /** `metadata.find(m => m.key === "image")?.value`: the search stops at the
      first image entry, and a null entry reached before it throws. */
  function FindImage(ms: seq<Option<MetadataEntry>>): (r: Result<Option<string>>)
    ensures r.Err? ==> r.error == TypeError
    ensures PassedOver(ms, |ms|) ==> r == Ok(None)
    ensures forall i :: 0 <= i < |ms| && PassedOver(ms, i) && ms[i].None? ==> r == Err(TypeError)
    ensures forall i :: 0 <= i < |ms| && PassedOver(ms, i) && ms[i].Some? && ms[i].value.key == "image" ==>
              r == Ok(ms[i].value.value)
    decreases |ms|
  {
    if ms == [] then Ok(None)
    else if ms[0].None? then Err(TypeError)
    else if ms[0].value.key == "image" then Ok(ms[0].value.value)
    else
      var r := FindImage(ms[1..]);
      assert forall i :: 1 <= i <= |ms| ==> (PassedOver(ms, i) <==> PassedOver(ms[1..], i - 1)) by {
        forall i | 1 <= i <= |ms| ensures PassedOver(ms, i) <==> PassedOver(ms[1..], i - 1) {
          if PassedOver(ms[1..], i - 1) {
            forall j | 0 <= j < i ensures ms[j].Some? && ms[j].value.key != "image" {
              if j > 0 { assert ms[j] == ms[1..][j - 1]; }
            }
          }
        }
      }
      r
  }

  /** The image of an update: none when it has no metadata. */
  function ImageOf(u: Update): Result<Option<string>> {
    if u.metadata.None? then Ok(None) else FindImage(u.metadata.value)
  }

  function Enhance(u: Option<Update>, dateOf: Option<string> -> int): Result<Enhanced> {
    if u.None? then Err(TypeError)
    else match ImageOf(u.value)
      case Ok(image) => Ok(Enhanced(u.value, dateOf(u.value.timestamp), image))
      case Err(e) => Err(e)
  }

  /** `enhanceUpdates(trackable)`: a TypeError without an `updates`
      connection; undefined when it has no edges; otherwise every update
      enhanced, in the same order, unless some edge is null or reaches a null
      metadata entry before its image. */
  function EnhanceUpdates(t: Trackable, dateOf: Option<string> -> int): (r: Result<Option<seq<Enhanced>>>)
    ensures r.Err? ==> r.error == TypeError
    ensures t.updates.None? ==> r.Err?
    ensures t.updates.Some? && t.updates.value.edges.None? ==> r == Ok(None)
    ensures t.updates.Some? && t.updates.value.edges.Some? ==>
              (r.Ok? <==> forall i :: 0 <= i < |t.updates.value.edges.value| ==>
                            t.updates.value.edges.value[i].Some? && ImageOf(t.updates.value.edges.value[i].value).Ok?)
    ensures r.Ok? && r.value.Some? ==>
              var es := t.updates.value.edges.value;
              && |r.value.value| == |es|
              && forall i :: 0 <= i < |es| ==>
                   && r.value.value[i].update == es[i].value
                   && r.value.value[i].timestampDate == dateOf(es[i].value.timestamp)
                   && Ok(r.value.value[i].image) == ImageOf(es[i].value)
  {
    match t.updates
    case None => Err(TypeError)
    case Some(conn) =>
      match conn.edges
      case None => Ok(None)
      case Some(us) =>
        if forall i :: 0 <= i < |us| ==> Enhance(us[i], dateOf).Ok? then
          Ok(Some(seq(|us|, i requires 0 <= i < |us| && Enhance(us[i], dateOf).Ok? => Enhance(us[i], dateOf).value)))
        else Err(TypeError)
  }

  predicate Sorted(s: seq<Enhanced>) {
    forall i, j :: 0 <= i < j < |s| ==> s[i].timestampDate <= s[j].timestampDate
  }

  /** Place `x` before the first element of `s` that is not earlier than it,
      so that it stays ahead of the elements of its own date. */
  function Insert(x: Enhanced, s: seq<Enhanced>): (r: seq<Enhanced>)
    ensures |r| == |s| + 1
    ensures multiset(r) == multiset(s) + multiset{x}
    decreases |s|
  {
    if s == [] then [x]
    else if x.timestampDate <= s[0].timestampDate then [x] + s
    else
      assert s == [s[0]] + s[1..];
      [s[0]] + Insert(x, s[1..])
  }

  /** Inserting into a sorted sequence keeps it sorted. */
  lemma {:induction false} InsertSorted(x: Enhanced, s: seq<Enhanced>)
    requires Sorted(s)
    ensures Sorted(Insert(x, s))
    decreases |s|
  {
    if s != [] && x.timestampDate > s[0].timestampDate {
      InsertSorted(x, s[1..]);
      var rest := Insert(x, s[1..]);
      var r := [s[0]] + rest;
      assert forall k :: 0 <= k < |rest| ==> s[0].timestampDate <= rest[k].timestampDate by {
        forall k | 0 <= k < |rest|
          ensures s[0].timestampDate <= rest[k].timestampDate
        {
          assert rest[k] in multiset(rest);
          assert rest[k] in multiset(s[1..]) || rest[k] == x;
          if rest[k] != x {
            var m :| 0 <= m < |s[1..]| && s[1..][m] == rest[k];
            assert s[m + 1] == rest[k];
          }
        }
      }
    }
  }

  /** The elements of `s` dated `d`, in their order in `s`. */
  function WithDate(s: seq<Enhanced>, d: int): seq<Enhanced>
    decreases |s|
  {
    if s == [] then [] else (if s[0].timestampDate == d then [s[0]] else []) + WithDate(s[1..], d)
  }

  /** Stability: order among equal dates is the input's order. */
  ghost predicate SameDateOrder(r: seq<Enhanced>, s: seq<Enhanced>) {
    forall d :: WithDate(r, d) == WithDate(s, d)
  }

  lemma WithDateCons(x: Enhanced, s: seq<Enhanced>, d: int)
    ensures WithDate([x] + s, d) == WithDate([x], d) + WithDate(s, d)
  {
    assert ([x] + s)[1..] == s;
    assert [x][1..] == [];
  }

  /** Inserting `x` puts it ahead of every element of its own date and keeps
      the order of the others. */
  lemma {:induction false} InsertWithDate(x: Enhanced, s: seq<Enhanced>, d: int)
    ensures WithDate(Insert(x, s), d) == WithDate([x], d) + WithDate(s, d)
    decreases |s|
  {
    if s == [] {
    } else if x.timestampDate <= s[0].timestampDate {
      WithDateCons(x, s, d);
    } else {
      assert s == [s[0]] + s[1..];
      InsertWithDate(x, s[1..], d);
      WithDateCons(s[0], Insert(x, s[1..]), d);
      WithDateCons(s[0], s[1..], d);
      assert [x][1..] == [];
    }
  }

  /** Stable insertion sort by date: the order `Array.prototype.sort` gives
      with the comparator `a - b`. */
  function SortByDate(s: seq<Enhanced>): (r: seq<Enhanced>)
    ensures Sorted(r)
    ensures multiset(r) == multiset(s)
    ensures SameDateOrder(r, s)
    decreases |s|
  {
    if s == [] then []
    else
      assert s == [s[0]] + s[1..];
      InsertSorted(s[0], SortByDate(s[1..]));
      SortStep(s[0], s[1..], SortByDate(s[1..]));
      Insert(s[0], SortByDate(s[1..]))
  }

  /** One step of the sort keeps equal dates in input order. */
  lemma SortStep(x: Enhanced, rest: seq<Enhanced>, sorted: seq<Enhanced>)
    requires SameDateOrder(sorted, rest)
    ensures SameDateOrder(Insert(x, sorted), [x] + rest)
  {
    forall d ensures WithDate(Insert(x, sorted), d) == WithDate([x] + rest, d) {
      InsertWithDate(x, sorted, d);
      WithDateCons(x, rest, d);
    }
  }

  /** `sortUpdates(trackable)`: the enhanced updates ordered by date; a
      failure of `enhanceUpdates` passes through. */
  function SortUpdates(t: Trackable, dateOf: Option<string> -> int): (r: Result<Option<seq<Enhanced>>>)
    ensures r.Err? <==> EnhanceUpdates(t, dateOf).Err?
    ensures r.Err? ==> r.error == TypeError
    ensures r.Ok? ==> (r.value.Some? <==> EnhanceUpdates(t, dateOf).value.Some?)
    ensures r.Ok? && r.value.Some? ==>
              && Sorted(r.value.value)
              && multiset(r.value.value) == multiset(EnhanceUpdates(t, dateOf).value.value)
              && SameDateOrder(r.value.value, EnhanceUpdates(t, dateOf).value.value)
  {
    match EnhanceUpdates(t, dateOf)
    case Err(e) => Err(e)
    case Ok(None) => Ok(None)
    case Ok(Some(es)) => Ok(Some(SortByDate(es)))
  }
}
