/**
 * The `Call_Stream` plugin's objects: the session record a call accumulates
 * (`calldata_t`), the per-stream session store (`callstream_t`) and the plugin
 * itself, whose callbacks route each call event to a stream and update that
 * stream's store. Each object keeps the abstract value its methods are
 * specified by: a `Session`, a `Store`, and the plugin's `Stores`, one per
 * configured stream.
 */
module CallStreamPlugin {

  import opened Wrappers
  import opened Wire
  import opened UniqueIds
  import opened Subscriptions
  import opened SessionStore
  import opened Frames
  import opened Lifecycle

  /** One element of the "streams" list; a missing "shortName" reads as "". */
  datatype StreamEntry = StreamEntry(tgid: nat, shortName: Option<string>)

  /** The keys of the plugin configuration that `parse_config` inspects. */
  datatype Config = Config(address: Option<string>, port: Option<int>, streams: Option<seq<StreamEntry>>)

  datatype ConfigError = MissingAddress | MissingPort | MissingStreams

  /** The presence checks of `parse_config`, in the order it makes them. */
  function CheckConfig(cfg: Config): (r: Option<ConfigError>)
    ensures r.None? <==> cfg.address.Some? && cfg.port.Some? && cfg.streams.Some?
    ensures r == Some(MissingAddress) <==> cfg.address.None?
    ensures r == Some(MissingPort) <==> cfg.address.Some? && cfg.port.None?
    ensures r == Some(MissingStreams) <==> cfg.address.Some? && cfg.port.Some? && cfg.streams.None?
  {
    if cfg.address.None? then Some(MissingAddress)
    else if cfg.port.None? then Some(MissingPort)
    else if cfg.streams.None? then Some(MissingStreams)
    else None
  }

  function EntrySubscription(e: StreamEntry): Subscription {
    Subscription(e.tgid, e.shortName.GetOr(""))
  }

  function EntrySubscriptions(es: seq<StreamEntry>): (r: seq<Subscription>)
    ensures |r| == |es|
  {
    if es == [] then [] else EntrySubscriptions(es[..|es| - 1]) + [EntrySubscription(es[|es| - 1])]
  }

  function EmptyStores(n: nat): (r: seq<Store>)
    ensures |r| == n && forall k | 0 <= k < n :: r[k] == map[]
  {
    if n == 0 then [] else EmptyStores(n - 1) + [map[]]
  }

  /** `calldata_t`: the record one call accumulates until it ends. */
  class CallData {
    /** Proof-only: the stream whose store holds this record, and its key there. */
    ghost const home: object
    ghost const key: string

    var magic: int
    var jsonLength: nat
    var sampleCount: int
    var jsonString: seq<byte>
    var samples: seq<int16>

    /** The count field agrees with the buffer. */
    ghost predicate Valid()
      reads this
    {
      sampleCount == |samples|
    }

    function View(): Session
      reads this
    {
      Session(magic, jsonLength, sampleCount, jsonString, samples)
    }

    constructor (ghost home: object, ghost key: string)
      ensures Valid() && View() == EmptySession
      ensures this.home == home && this.key == key
    {
      this.home := home;
      this.key := key;
      magic := 0;
      jsonLength := 0;
      sampleCount := 0;
      jsonString := [];
      samples := [];
    }

    /** `add_call_samples`: bump the count, then append the chunk one sample at a time. */
    method AddCallSamples(chunk: seq<int16>)
      requires Valid()
      modifies this
      ensures Valid()
      ensures View() == Append(old(View()), chunk)
    {
      sampleCount := sampleCount + |chunk|;
      var i := 0;
      while i < |chunk|
        invariant 0 <= i <= |chunk|
        invariant samples == old(samples) + chunk[..i]
        invariant sampleCount == old(sampleCount) + |chunk|
        invariant magic == old(magic) && jsonLength == old(jsonLength) && jsonString == old(jsonString)
      {
        samples := samples + [chunk[i]];
        i := i + 1;
      }
      assert chunk[..i] == chunk;
    }
  }

  /** `callstream_t`: one configured stream and the sessions of its calls in flight. */
  class CallStream {
    const tgid: nat
    const shortName: string
    var callData: map<string, CallData>

    constructor (tgid: nat, shortName: string)
      ensures this.tgid == tgid && this.shortName == shortName && callData == map[]
      ensures Valid()
    {
      this.tgid := tgid;
      this.shortName := shortName;
      callData := map[];
    }

    /** Every record belongs to this stream and sits under its own key, so no record serves two calls. */
    ghost predicate Valid()
      reads this
    {
      forall id | id in callData :: callData[id].home == this && callData[id].key == id
    }

    /** The sessions this stream's records hold, by call id. */
    ghost function View(): Store
      reads this, callData.Values
    {
      map id | id in callData :: callData[id].View()
    }

    /** `add_call`: insert a fresh record unless the call has one already. */
    method AddCall(id: string) returns (err: Err)
      requires Valid()
      modifies this
      ensures Valid()
      ensures (View(), err) == Insert(old(View()), id)
      ensures id in old(callData) ==> callData == old(callData)
      ensures id in callData
      ensures id !in old(callData) ==> fresh(callData[id]) && callData == old(callData)[id := callData[id]]
      ensures callData.Values <= old(callData.Values) + {callData[id]}
    {
      if id in callData {
        return CallAlreadyExists;
      }
      var d := new CallData(this, id);
      callData := callData[id := d];
      err := Success;
      assert View() == old(View())[id := EmptySession];
    }

    /** `get_call_data`: the record of a call, or null when the call has none. */
    method GetCallData(id: string) returns (d: CallData?)
      ensures d == if id in callData then callData[id] else null
      ensures d != null <==> Lookup(View(), id).Some?
      ensures d != null ==> Lookup(View(), id) == Some(d.View())
    {
      if id in callData {
        d := callData[id];
      } else {
        d := null;
      }
    }

    /** `destroy_call`: forget the call's record; nothing happens when there is none. */
    method DestroyCall(id: string)
      requires Valid()
      modifies this
      ensures Valid()
      ensures callData == old(callData) - {id}
      ensures callData.Values <= old(callData.Values)
      ensures View() == Erase(old(View()), id)
    {
      callData := callData - {id};
    }

    /** The sessions depend on this stream's map and its records only. */
    twostate lemma ViewUnchanged()
      requires unchanged(this) && forall k | k in callData :: unchanged(callData[k])
      ensures View() == old(View())
    {
    }

    /** Changing the fields of one record changes this stream's sessions at that call's id only. */
    twostate lemma RecordChanged(id: string)
      requires old(Valid()) && id in old(callData) && unchanged(this)
      requires forall k | k in callData && k != id :: unchanged(callData[k])
      ensures Valid()
      ensures View() == old(View())[id := callData[id].View()]
    {
    }
  }

  /** Where a call's record sits: the index of its stream and its call id. */
  datatype Slot = Slot(stream: nat, id: string)

  /** The routing parts of the configured streams, in configuration order. */
  function SubsOf(ss: seq<CallStream>): (r: seq<Subscription>)
    ensures |r| == |ss|
  {
    if ss == [] then [] else SubsOf(ss[..|ss| - 1]) + [Subscription(ss[|ss| - 1].tgid, ss[|ss| - 1].shortName)]
  }

  /** `Call_Stream`: the configured streams and the callbacks that route call events to them. */
  class Plugin {
    var streams: seq<CallStream>
    ghost var Stores: seq<Store>
    ghost var Repr: set<object>

    /** Each stream is valid and holds its abstract store; the streams are distinct objects. */
    ghost predicate Valid()
      reads this, Repr
    {
      && this in Repr
      && |Stores| == |streams|
      && (forall i | 0 <= i < |streams| :: streams[i] in Repr && streams[i].callData.Values <= Repr)
      && (forall i | 0 <= i < |streams| :: streams[i].Valid() && streams[i].View() == Stores[i])
      && (forall i, j | 0 <= i < |streams| && 0 <= j < |streams| && i != j :: streams[i] != streams[j])
      && RegistryWellFormed(Stores)
    }

    function Subs(): seq<Subscription>
      reads this
    {
      SubsOf(streams)
    }

    constructor ()
      ensures Valid() && fresh(Repr)
      ensures streams == [] && Stores == []
    {
      streams := [];
      Stores := [];
      Repr := {this};
    }

    /** Valid survives appending a fresh, empty stream with an empty store. */
    twostate lemma StreamAppended()
      requires old(Valid())
      requires |streams| == |old(streams)| + 1 && streams[..|old(streams)|] == old(streams)
      requires Stores == old(Stores) + [map[]] && Repr == old(Repr) + {streams[|old(streams)|]}
      requires fresh(streams[|old(streams)|]) && streams[|old(streams)|].callData == map[]
      requires forall j | 0 <= j < |old(streams)| :: unchanged(streams[j])
      requires forall j, k | 0 <= j < |old(streams)| && k in streams[j].callData :: unchanged(streams[j].callData[k])
      ensures Valid()
    {
      var n := |old(streams)|;
      forall j | 0 <= j < n
        ensures streams[j].View() == old(streams[j].View())
      {
        assert streams[j] == old(streams)[j];
        streams[j].ViewUnchanged();
      }
      assert streams[n].View() == map[];
    }

    /** Appends a configured stream with an empty store, as `parse_config` does for each entry. */
    method AddStream(tgid: nat, shortName: string)
      requires Valid()
      modifies Repr
      ensures Valid() && fresh(Repr - old(Repr))
      ensures |streams| == |old(streams)| + 1 && streams[..|old(streams)|] == old(streams)
      ensures Subs() == old(Subs()) + [Subscription(tgid, shortName)]
      ensures Stores == old(Stores) + [map[]]
    {
      var callstream := new CallStream(tgid, shortName);
      streams := streams + [callstream];
      Stores := Stores + [map[]];
      Repr := Repr + {callstream};
      StreamAppended();
      assert streams[..|streams| - 1] == old(streams);
    }

    /** `parse_config`: reject a configuration missing a required key, else add one stream per entry. */
    method ParseConfig(cfg: Config) returns (rc: int)
      requires Valid()
      modifies Repr
      ensures Valid() && fresh(Repr - old(Repr))
      ensures rc == if CheckConfig(cfg).None? then 0 else 1
      ensures rc != 0 ==> streams == old(streams) && Stores == old(Stores)
      ensures rc == 0 ==> Subs() == old(Subs()) + EntrySubscriptions(cfg.streams.value)
      ensures rc == 0 ==> Stores == old(Stores) + EmptyStores(|cfg.streams.value|)
    {
      if CheckConfig(cfg).Some? {
        return 1;
      }
      var entries := cfg.streams.value;
      var k := 0;
      while k < |entries|
        invariant 0 <= k <= |entries|
        invariant Valid() && fresh(Repr - old(Repr))
        invariant Subs() == old(Subs()) + EntrySubscriptions(entries[..k])
        invariant Stores == old(Stores) + EmptyStores(k)
      {
        var e := entries[k];
        assert entries[..k + 1][..k] == entries[..k];
        AddStream(e.tgid, e.shortName.GetOr(""));
        k := k + 1;
      }
      assert entries[..k] == entries;
      rc := 0;
    }

    /** Valid survives a change confined to stream i, its records and its store. */
    twostate lemma StreamReplaced(i: nat)
      requires old(Valid()) && i < |old(streams)| && streams == old(streams)
      requires old(Repr) <= Repr
      requires |Stores| == |old(Stores)| && forall j | 0 <= j < |Stores| && j != i :: Stores[j] == old(Stores[j])
      requires RegistryWellFormed(Stores)
      requires streams[i].Valid() && streams[i].View() == Stores[i] && streams[i].callData.Values <= Repr
      requires forall o | o in old(Repr) && o != this && o != streams[i] && o !in old(streams[i].callData.Values) :: unchanged(o)
      ensures Valid()
    {
      assert forall r | r in old(streams[i].callData.Values) :: r.home == streams[i];
      forall j | 0 <= j < |streams| && j != i
        ensures unchanged(streams[j])
        ensures streams[j].View() == old(streams[j].View())
      {
        var t := streams[j];
        assert t != streams[i];
        forall k | k in t.callData
          ensures unchanged(t.callData[k])
        {
          var r := t.callData[k];
          assert r in t.callData.Values;
          assert r.home == t;
        }
        t.ViewUnchanged();
      }
    }

    /**
     * Valid survives a change to the fields of the record at `at` (a stream
     * index and a call id), once that stream's store holds the record's new
     * session.
     */
    twostate lemma RecordUpdated(at: Slot)
      requires old(Valid()) && at.stream < |old(streams)| && streams == old(streams) && Repr == old(Repr)
      requires at.id in old(streams[at.stream].callData) && unchanged(streams[at.stream])
      requires forall o | o in old(Repr) && o != this && o != streams[at.stream].callData[at.id] :: unchanged(o)
      requires Consistent(streams[at.stream].callData[at.id].View())
      requires Stores == old(Stores)[at.stream := old(Stores[at.stream])[at.id := streams[at.stream].callData[at.id].View()]]
      ensures Valid()
    {
      var i, id := at.stream, at.id;
      var s := streams[i];
      forall k | k in s.callData && k != id
        ensures unchanged(s.callData[k])
      {
        assert s.callData[k] in s.callData.Values;
        assert s.callData[k].key == k;
      }
      s.RecordChanged(id);
      OperationsPreserveWellFormed(old(Stores[i]), id, []);
      ReplacePreservesWellFormed(old(Stores), i, Stores[i]);
      StreamReplaced(i);
    }

    /** `add_call` on stream i, with the abstract store kept in step. */
    method AddCallAt(i: nat, id: string) returns (err: Err)
      requires Valid() && i < |streams|
      modifies Repr
      ensures Valid() && fresh(Repr - old(Repr))
      ensures streams == old(streams)
      ensures (Stores[i], err) == Insert(old(Stores)[i], id)
      ensures Stores == old(Stores)[i := Insert(old(Stores)[i], id).0]
    {
      var s := streams[i];
      err := s.AddCall(id);
      Stores := Stores[i := s.View()];
      if err == Success {
        Repr := Repr + {s.callData[id]};
      }
      InsertPreservesWellFormed(old(Stores), i, id);
      StreamReplaced(i);
    }

    /** `destroy_call` on stream i, with the abstract store kept in step. */
    method DestroyCallAt(i: nat, id: string)
      requires Valid() && i < |streams|
      modifies Repr
      ensures Valid() && Repr == old(Repr)
      ensures streams == old(streams)
      ensures Stores == old(Stores)[i := Erase(old(Stores)[i], id)]
    {
      var s := streams[i];
      s.DestroyCall(id);
      Stores := Stores[i := s.View()];
      OperationsPreserveWellFormed(old(Stores)[i], id, []);
      ReplacePreservesWellFormed(old(Stores), i, Stores[i]);
      StreamReplaced(i);
    }

    /** `add_call_samples` on the record of call id in stream i, with the abstract store kept in step. */
    method AddCallSamplesAt(i: nat, id: string, d: CallData, chunk: seq<int16>)
      requires Valid() && i < |streams| && id in streams[i].callData && d == streams[i].callData[id]
      modifies this, d
      ensures Valid() && Repr == old(Repr)
      ensures streams == old(streams)
      ensures Stores == old(Stores)[i := old(Stores)[i][id := Append(old(Stores)[i][id], chunk)]]
    {
      assert Consistent(Stores[i][id]);
      d.AddCallSamples(chunk);
      Stores := Stores[i := Stores[i][id := d.View()]];
      RecordUpdated(Slot(i, id));
    }

    /** What `call_end` does to a record before sending it: the magic, then the metadata text and its length. */
    method StampAt(i: nat, id: string, d: CallData, json: seq<byte>)
      requires Valid() && i < |streams| && id in streams[i].callData && d == streams[i].callData[id]
      modifies this, d
      ensures Valid() && Repr == old(Repr)
      ensures streams == old(streams)
      ensures Stores == old(Stores)[i := old(Stores)[i][id := Prepared(old(Stores)[i][id], json)]]
    {
      assert Consistent(Stores[i][id]);
      d.magic := Magic;
      d.jsonString := json;
      d.jsonLength := |json|;
      Stores := Stores[i := Stores[i][id := d.View()]];
      RecordUpdated(Slot(i, id));
    }

    /** `call_start`: give a subscribed call a session in its stream, once. */
    method CallStart(call: Call) returns (rc: int)
      requires Valid()
      modifies Repr
      ensures Valid() && fresh(Repr - old(Repr))
      ensures streams == old(streams)
      ensures rc == 0
      ensures Stores == StartStep(Subs(), old(Stores), call)
    {
      var found := FindStream(SubsOf(streams), call.shortName, call.talkgroup, call.patches);
      if found.None? {
        return 0;
      }
      var i := found.value;
      var id := UniqueId(call.callNum);
      var err := AddCallAt(i, id);
      if err == CallAlreadyExists {
        // a start repeated for the same call (e.g. a grant) finds its session already there
        return 0;
      }
      StartStepAt(Subs(), old(Stores), call, i);
      rc := 0;
    }

    /** `audio_stream`: append a chunk to the session of a subscribed call that has one. */
    method AudioStream(call: Call, chunk: seq<int16>) returns (rc: int)
      requires Valid()
      modifies Repr
      ensures Valid() && Repr == old(Repr)
      ensures streams == old(streams)
      ensures rc == 0
      ensures Stores == AudioStep(Subs(), old(Stores), call, chunk)
    {
      var found := FindStream(SubsOf(streams), call.shortName, call.talkgroup, call.patches);
      if found.None? {
        return 0;
      }
      var i := found.value;
      var id := UniqueId(call.callNum);
      var d := streams[i].GetCallData(id);
      AudioStepAt(Subs(), old(Stores), call, chunk, i);
      if d == null {
        // no session: the start of this call was not seen
        return 0;
      }
      AddCallSamplesAt(i, id, d, chunk);
      rc := 0;
    }

    /**
     * `send`: unless the connect times out, gather the five buffers of the
     * record of call id in stream i and write them; in every case the record
     * is destroyed afterwards.
     */
    method Send(i: nat, d: CallData, id: string, outcome: Outcome) returns (report: SendReport)
      requires Valid() && i < |streams| && id in streams[i].callData && d == streams[i].callData[id]
      modifies Repr
      ensures Valid() && Repr == old(Repr)
      ensures streams == old(streams)
      ensures Consistent(old(Stores)[i][id])
      ensures report == SendStep(old(Stores)[i][id], outcome)
      ensures Stores == old(Stores)[i := Erase(old(Stores)[i], id)]
    {
      assert d.View() == Stores[i][id] && Consistent(Stores[i][id]);
      if outcome == ConnectTimeout {
        DestroyCallAt(i, id);
        return NoServer;
      }
      var buffers := SendBuffers(d.View());
      if outcome.WriteCompleted? {
        var total := TotalSize(buffers);
        report := Written(Concat(buffers), total, outcome.bytesSent);
      } else {
        // the transport error is caught and logged; nothing is reported back
        report := SendFailed;
      }
      DestroyCallAt(i, id);
    }

    /**
     * `call_end`: a subscribed call's session is dropped when it has no audio,
     * and otherwise stamped with the magic and the metadata text and sent.
     */
    method CallEnd(info: CallInfo, dump: CallInfo -> seq<byte>, outcome: Outcome) returns (rc: int, report: EndReport)
      requires Valid()
      modifies Repr
      ensures Valid() && Repr == old(Repr)
      ensures streams == old(streams)
      ensures rc == 0
      ensures (Stores, report) == EndStep(Subs(), old(Stores), info, dump, outcome)
    {
      var found := FindStream(SubsOf(streams), info.shortName, info.talkgroup, info.patchedTalkgroups);
      if found.None? {
        return 0, Unsubscribed;
      }
      var i := found.value;
      var id := UniqueId(info.callNum);
      var d := streams[i].GetCallData(id);
      EndStepAt(Subs(), old(Stores), info, dump, outcome, i);
      if d == null {
        return 0, UnknownCall;
      }
      if d.sampleCount == 0 || |d.samples| == 0 {
        DestroyCallAt(i, id);
        return 0, NoSamples;
      }
      ghost var s := Stores[i][id];
      assert s.sampleCount != 0 && |s.samples| != 0;
      var json := dump(info);
      StampAt(i, id, d, json);
      var sent := Send(i, d, id, outcome);
      EraseAfterChange(old(Stores), i, id, Prepared(s, json));
      report := Transmitted(sent);
      rc := 0;
    }
  }
}
