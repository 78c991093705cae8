/**
 * The redux slice of src/trackable/trackable_slice.ts: a list of trackable
 * names that only ever grows at the end.
 */
module TrackableSlice {
  /** The slice's `Trackable`: a name only. */
  datatype Item = Item(name: string)

  /** An `addObject` payload, of which only `name` is read. */
  datatype Payload = Payload(name: string)

  class TrackableSlice {
    var state: seq<Item>

    /** `initialState`. */
    constructor()
      ensures state == []
    {
      state := [];
    }

    /** `addObject(action)`: push `{name}` taken from the payload. */
    method AddObject(payload: Payload)
      modifies this
      ensures state == old(state) + [Item(payload.name)]
    {
      var name := payload.name;
      state := state + [Item(name)];
    }
  }
}
