/**
 * The per-stream session store, as values: a map from call id to the
 * session record (`calldata_t`) of a call in flight.
 */
module SessionStore {

  import opened Wrappers
  import opened Wire

  /** The fields of `calldata_t` (its lock is left out). */
  datatype Session = Session(magic: int, jsonLength: nat, sampleCount: int, jsonString: seq<byte>, samples: seq<int16>)

  /** A freshly constructed `calldata_t`. */
  const EmptySession := Session(0, 0, 0, [], [])

  type Store = map<string, Session>

  /** `callstream_err`. */
  datatype Err = Success | CallAlreadyExists | CallDoesntExist | InsertionFailure

  /** The count field agrees with the buffer. */
  predicate Consistent(s: Session) {
    s.sampleCount == |s.samples|
  }

  predicate WellFormed(st: Store) {
    forall id | id in st :: Consistent(st[id])
  }

  /** `add_call`: insert a fresh session unless one is there already. */
  function Insert(st: Store, id: string): (r: (Store, Err))
    ensures r.0.Keys == st.Keys + {id}
    ensures r.1 == Success <==> id !in st
  {
    if id in st then (st, CallAlreadyExists) else (st[id := EmptySession], Success)
  }

  /** `get_call_data`. */
  function Lookup(st: Store, id: string): (r: Option<Session>)
    ensures r.Some? <==> id in st
  {
    if id in st then Some(st[id]) else None
  }

  /** `add_call_samples`, on the session's value. */
  function Append(s: Session, chunk: seq<int16>): (r: Session)
    ensures |r.samples| == |s.samples| + |chunk|
    ensures r.sampleCount - |r.samples| == s.sampleCount - |s.samples|
  {
    s.(sampleCount := s.sampleCount + |chunk|, samples := s.samples + chunk)
  }

  /** `destroy_call`. */
  function Erase(st: Store, id: string): (r: Store)
    ensures id !in r && r.Keys == st.Keys - {id}
  {
    st - {id}
  }

  /** Inserting never overwrites, says whether it inserted, and touches no other call. */
  lemma InsertSpec(st: Store, id: string)
    ensures Insert(st, id).1 == Success <==> id !in st
    ensures Insert(st, id).1 != Success ==> Insert(st, id).1 == CallAlreadyExists && Insert(st, id).0 == st
    ensures Insert(st, id).0.Keys == st.Keys + {id}
    ensures Insert(st, id).0[id] == if id in st then st[id] else EmptySession
    ensures forall k | k in st && k != id :: Insert(st, id).0[k] == st[k]
  {
  }

  /** A second start of the same call leaves exactly the one session of the first. */
  lemma InsertIdempotent(st: Store, id: string)
    ensures Insert(Insert(st, id).0, id) == (Insert(st, id).0, CallAlreadyExists)
  {
  }

  /** Erasing a call forgets whatever was last stored for it. */
  lemma EraseAfterUpdate(st: Store, id: string, s: Session)
    ensures Erase(st[id := s], id) == Erase(st, id)
  {
  }

  /** Lookup finds exactly the stored sessions. */
  lemma LookupSpec(st: Store, id: string)
    ensures Lookup(st, id).Some? <==> id in st
    ensures id in st ==> Lookup(st, id).value == st[id]
  {
  }

  /** Erasing removes the id if present, is a no-op if absent, and keeps every other key. */
  lemma EraseSpec(st: Store, id: string)
    ensures Erase(st, id).Keys == st.Keys - {id}
    ensures forall k | k in st && k != id :: Erase(st, id)[k] == st[k]
    ensures id !in st ==> Erase(st, id) == st
    ensures Erase(Erase(st, id), id) == Erase(st, id)
  {
  }

  /** Appending keeps the count in step with the buffer and changes nothing else. */
  lemma AppendSpec(s: Session, chunk: seq<int16>)
    ensures Consistent(s) ==> Consistent(Append(s, chunk))
    ensures Append(s, chunk).samples[..|s.samples|] == s.samples
    ensures Append(s, chunk).samples[|s.samples|..] == chunk
    ensures Append(s, chunk).magic == s.magic && Append(s, chunk).jsonLength == s.jsonLength
    ensures Append(s, chunk).jsonString == s.jsonString
  {
  }

  /** The chunks of a call, joined in arrival order. */
  function Flatten(chunks: seq<seq<int16>>): seq<int16> {
    if chunks == [] then [] else chunks[0] + Flatten(chunks[1..])
  }

  /** The session after the chunks have been appended one by one, in order. */
  function AppendAll(s: Session, chunks: seq<seq<int16>>): Session
    decreases |chunks|
  {
    if chunks == [] then s else AppendAll(Append(s, chunks[0]), chunks[1..])
  }

  /** Per-chunk order is preserved and the count is the total length of the chunks. */
  lemma {:induction false} AppendAllSpec(s: Session, chunks: seq<seq<int16>>)
    ensures AppendAll(s, chunks) == s.(sampleCount := s.sampleCount + |Flatten(chunks)|, samples := s.samples + Flatten(chunks))
    decreases |chunks|
  {
    if chunks != [] {
      AppendAllSpec(Append(s, chunks[0]), chunks[1..]);
      assert s.samples + chunks[0] + Flatten(chunks[1..]) == s.samples + Flatten(chunks);
    }
  }

  /** A fresh store only ever holds sessions whose count matches their buffer. */
  lemma OperationsPreserveWellFormed(st: Store, id: string, chunk: seq<int16>)
    requires WellFormed(st)
    ensures WellFormed(Insert(st, id).0)
    ensures WellFormed(Erase(st, id))
    ensures id in st ==> WellFormed(st[id := Append(st[id], chunk)])
  {
  }
}
