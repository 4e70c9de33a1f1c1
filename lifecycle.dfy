/**
 * The call lifecycle as a state machine over the registry: one session store
 * per configured stream, in configuration order. Each step is what one
 * callback (`call_start`, `audio_stream`, `call_end`) does to the registry.
 */
module Lifecycle {

  import opened Wrappers
  import opened Wire
  import opened UniqueIds
  import opened Subscriptions
  import opened SessionStore
  import opened Frames

  /**
   * What `call_start` and `audio_stream` read from the host's call object;
   * `patches` is what the host's system returns for the call's talkgroup.
   */
  datatype Call = Call(shortName: string, talkgroup: nat, patches: seq<nat>, callNum: int)

  /** The fields of the host's `Call_Data_t` that `call_end` reads; they are also the eight metadata fields. */
  datatype CallInfo = CallInfo(
    sysNum: int, talkgroup: nat, patchedTalkgroups: seq<nat>, freq: int,
    shortName: string, callNum: int, startTime: int, stopTime: int)

  /** How the connection attempt and the write end, as seen by the sender. */
  datatype Outcome = ConnectTimeout | WriteCompleted(bytesSent: nat) | TransportError

  /** What the sender did with a record. */
  datatype SendReport =
    | NoServer                                                  // connect timed out, nothing written
    | Written(frame: seq<byte>, totalSize: nat, bytesSent: nat) // gathered write completed
    | SendFailed                                                // a transport error was raised and caught

  /** Which path `call_end` took. */
  datatype EndReport = Unsubscribed | UnknownCall | NoSamples | Transmitted(send: SendReport)

  type Registry = seq<Store>

  predicate RegistryWellFormed(reg: Registry) {
    forall i | 0 <= i < |reg| :: WellFormed(reg[i])
  }

  function StreamOfCall(subs: seq<Subscription>, c: Call): Option<nat> {
    FindStream(subs, c.shortName, c.talkgroup, c.patches)
  }

  function StreamOfInfo(subs: seq<Subscription>, info: CallInfo): Option<nat> {
    FindStream(subs, info.shortName, info.talkgroup, info.patchedTalkgroups)
  }

  /** `call_start`. */
  function StartStep(subs: seq<Subscription>, reg: Registry, c: Call): (r: Registry)
    requires |reg| == |subs|
    ensures |r| == |reg|
    ensures forall j | 0 <= j < |reg| && StreamOfCall(subs, c) != Some(j) :: r[j] == reg[j]
  {
    match StreamOfCall(subs, c)
    case None => reg
    case Some(i) => reg[i := Insert(reg[i], UniqueId(c.callNum)).0]
  }

  /** `audio_stream`. */
  function AudioStep(subs: seq<Subscription>, reg: Registry, c: Call, chunk: seq<int16>): (r: Registry)
    requires |reg| == |subs|
    ensures |r| == |reg|
    ensures forall j | 0 <= j < |reg| :: r[j].Keys == reg[j].Keys
  {
    match StreamOfCall(subs, c)
    case None => reg
    case Some(i) =>
      match Lookup(reg[i], UniqueId(c.callNum))
      case None => reg
      case Some(s) => reg[i := reg[i][UniqueId(c.callNum) := Append(s, chunk)]]
  }

  /** The session as `call_end` prepares it for sending. */
  function Prepared(s: Session, json: seq<byte>): (r: Session)
    ensures r.jsonLength == |r.jsonString| == |json|
    ensures Consistent(s) ==> Consistent(r)
  {
    s.(magic := Magic, jsonString := json, jsonLength := |json|)
  }

  /** `send`, apart from the removal of the session. */
  function SendStep(s: Session, outcome: Outcome): (r: SendReport)
    requires 0 <= s.sampleCount <= |s.samples|
    ensures r.Written? <==> outcome.WriteCompleted?
    ensures r.Written? ==> r.totalSize == |r.frame|
  {
    match outcome
    case ConnectTimeout => NoServer
    case WriteCompleted(bytesSent) => Written(Frame(s), |Frame(s)|, bytesSent)
    case TransportError => SendFailed
  }

  /** `call_end`, including the `send` it hands the record to. */
  function EndStep(subs: seq<Subscription>, reg: Registry, info: CallInfo, dump: CallInfo -> seq<byte>, outcome: Outcome): (r: (Registry, EndReport))
    requires |reg| == |subs| && RegistryWellFormed(reg)
    ensures |r.0| == |reg|
    ensures forall j | 0 <= j < |reg| :: r.0[j].Keys <= reg[j].Keys
  {
    match StreamOfInfo(subs, info)
    case None => (reg, Unsubscribed)
    case Some(i) =>
      var id := UniqueId(info.callNum);
      match Lookup(reg[i], id)
      case None => (reg, UnknownCall)
      case Some(s) =>
        if s.sampleCount == 0 || |s.samples| == 0 then
          (reg[i := Erase(reg[i], id)], NoSamples)
        else
          assert Consistent(s);
          (reg[i := Erase(reg[i], id)], Transmitted(SendStep(Prepared(s, dump(info)), outcome)))
  }

  /** The start of a call no stream subscribes to creates no session and changes nothing. */
  lemma UnsubscribedStartIgnored(subs: seq<Subscription>, reg: Registry, c: Call)
    requires |reg| == |subs| && StreamOfCall(subs, c).None?
    ensures StartStep(subs, reg, c) == reg
  {
  }

  /** Audio of a call no stream subscribes to is dropped and changes nothing. */
  lemma UnsubscribedAudioIgnored(subs: seq<Subscription>, reg: Registry, c: Call, chunk: seq<int16>)
    requires |reg| == |subs| && StreamOfCall(subs, c).None?
    ensures AudioStep(subs, reg, c, chunk) == reg
  {
  }

  /** The end of a call no stream subscribes to changes nothing and sends nothing. */
  lemma UnsubscribedEndIgnored(subs: seq<Subscription>, reg: Registry, info: CallInfo, dump: CallInfo -> seq<byte>, outcome: Outcome)
    requires |reg| == |subs| && RegistryWellFormed(reg) && StreamOfInfo(subs, info).None?
    ensures EndStep(subs, reg, info, dump, outcome) == (reg, Unsubscribed)
  {
  }

  /** A start puts the call's session (the existing one, or a fresh one) in its stream's store and nowhere else. */
  lemma StartStepSpec(subs: seq<Subscription>, reg: Registry, c: Call, i: nat)
    requires |reg| == |subs| && StreamOfCall(subs, c) == Some(i)
    ensures |StartStep(subs, reg, c)| == |reg|
    ensures UniqueId(c.callNum) in StartStep(subs, reg, c)[i]
    ensures StartStep(subs, reg, c)[i][UniqueId(c.callNum)] ==
      if UniqueId(c.callNum) in reg[i] then reg[i][UniqueId(c.callNum)] else EmptySession
    ensures StartStep(subs, reg, c)[i] - {UniqueId(c.callNum)} == reg[i] - {UniqueId(c.callNum)}
    ensures forall j | 0 <= j < |reg| && j != i :: StartStep(subs, reg, c)[j] == reg[j]
  {
    var id := UniqueId(c.callNum);
    InsertSpec(reg[i], id);
    var st := Insert(reg[i], id).0;
    assert st - {id} == reg[i] - {id};
  }

  /** The start of a call routed to stream i updates that stream's store only. */
  lemma StartStepAt(subs: seq<Subscription>, reg: Registry, c: Call, i: nat)
    requires |reg| == |subs| && StreamOfCall(subs, c) == Some(i)
    ensures StartStep(subs, reg, c) == reg[i := Insert(reg[i], UniqueId(c.callNum)).0]
  {
  }

  lemma InsertPreservesWellFormed(reg: Registry, i: nat, id: string)
    requires RegistryWellFormed(reg) && i < |reg|
    ensures RegistryWellFormed(reg[i := Insert(reg[i], id).0])
  {
    OperationsPreserveWellFormed(reg[i], id, []);
  }

  /** Replacing one stream's store by a well-formed one keeps the registry well-formed. */
  lemma ReplacePreservesWellFormed(reg: Registry, i: nat, st: Store)
    requires RegistryWellFormed(reg) && i < |reg| && WellFormed(st)
    ensures RegistryWellFormed(reg[i := st])
  {
  }

  /** Audio for a call routed to stream i with a session there extends that session only. */
  lemma AudioStepAt(subs: seq<Subscription>, reg: Registry, c: Call, chunk: seq<int16>, i: nat)
    requires |reg| == |subs| && StreamOfCall(subs, c) == Some(i)
    ensures UniqueId(c.callNum) !in reg[i] ==> AudioStep(subs, reg, c, chunk) == reg
    ensures UniqueId(c.callNum) in reg[i] ==>
      AudioStep(subs, reg, c, chunk) == reg[i := reg[i][UniqueId(c.callNum) := Append(reg[i][UniqueId(c.callNum)], chunk)]]
  {
  }

  /** The three outcomes of the end of a call routed to stream i. */
  lemma EndStepAt(subs: seq<Subscription>, reg: Registry, info: CallInfo, dump: CallInfo -> seq<byte>, outcome: Outcome, i: nat)
    requires |reg| == |subs| && RegistryWellFormed(reg) && StreamOfInfo(subs, info) == Some(i)
    ensures UniqueId(info.callNum) !in reg[i] ==> EndStep(subs, reg, info, dump, outcome) == (reg, UnknownCall)
    ensures UniqueId(info.callNum) in reg[i] && (reg[i][UniqueId(info.callNum)].sampleCount == 0 || |reg[i][UniqueId(info.callNum)].samples| == 0) ==>
      EndStep(subs, reg, info, dump, outcome) == (reg[i := Erase(reg[i], UniqueId(info.callNum))], NoSamples)
    ensures UniqueId(info.callNum) in reg[i] && reg[i][UniqueId(info.callNum)].sampleCount != 0 && |reg[i][UniqueId(info.callNum)].samples| != 0 ==>
      EndStep(subs, reg, info, dump, outcome) ==
        (reg[i := Erase(reg[i], UniqueId(info.callNum))], Transmitted(SendStep(Prepared(reg[i][UniqueId(info.callNum)], dump(info)), outcome)))
  {
  }

  /** Erasing a session from stream i undoes any earlier change to that session. */
  lemma EraseAfterChange(reg: Registry, i: nat, id: string, s: Session)
    requires i < |reg|
    ensures var changed := reg[i := reg[i][id := s]];
      changed[i := Erase(changed[i], id)] == reg[i := Erase(reg[i], id)]
  {
    EraseAfterUpdate(reg[i], id, s);
  }

  /** Starting a call twice yields the same registry as starting it once. */
  lemma StartIdempotent(subs: seq<Subscription>, reg: Registry, c: Call)
    requires |reg| == |subs|
    ensures StartStep(subs, StartStep(subs, reg, c), c) == StartStep(subs, reg, c)
  {
  }

  /** Audio goes to the end of the call's own buffer; an unknown call changes nothing. */
  lemma AudioStepSpec(subs: seq<Subscription>, reg: Registry, c: Call, chunk: seq<int16>, i: nat)
    requires |reg| == |subs| && StreamOfCall(subs, c) == Some(i)
    ensures UniqueId(c.callNum) !in reg[i] ==> AudioStep(subs, reg, c, chunk) == reg
    ensures UniqueId(c.callNum) in reg[i] ==>
      var r := AudioStep(subs, reg, c, chunk);
      var id := UniqueId(c.callNum);
      && |r| == |reg|
      && r[i].Keys == reg[i].Keys
      && r[i][id].samples == reg[i][id].samples + chunk
      && r[i][id].sampleCount == reg[i][id].sampleCount + |chunk|
      && (forall k | k in reg[i] && k != id :: r[i][k] == reg[i][k])
      && (forall j | 0 <= j < |reg| && j != i :: r[j] == reg[j])
  {
  }

  /**
   * Whatever path `call_end` takes for a subscribed call, the call's session is
   * gone afterwards and no other session or stream changed; an unknown call
   * and an empty call are told apart from a transmitted one.
   */
  lemma EndRemovesSession(subs: seq<Subscription>, reg: Registry, info: CallInfo, dump: CallInfo -> seq<byte>, outcome: Outcome, i: nat)
    requires |reg| == |subs| && RegistryWellFormed(reg) && StreamOfInfo(subs, info) == Some(i)
    ensures var (r, report) := EndStep(subs, reg, info, dump, outcome);
      && |r| == |reg|
      && UniqueId(info.callNum) !in r[i]
      && r[i] == reg[i] - {UniqueId(info.callNum)}
      && (forall j | 0 <= j < |reg| && j != i :: r[j] == reg[j])
      && (report == UnknownCall <==> UniqueId(info.callNum) !in reg[i])
      && (report == NoSamples <==> UniqueId(info.callNum) in reg[i] && reg[i][UniqueId(info.callNum)].samples == [])
      && (report.Transmitted? <==> UniqueId(info.callNum) in reg[i] && reg[i][UniqueId(info.callNum)].samples != [])
  {
    var id := UniqueId(info.callNum);
    EndStepAt(subs, reg, info, dump, outcome, i);
    if id !in reg[i] {
      assert reg[i] - {id} == reg[i];
    } else {
      assert Consistent(reg[i][id]);
      var r := reg[i := Erase(reg[i], id)];
      assert r[i] == reg[i] - {id};
      assert forall j | 0 <= j < |reg| && j != i :: r[j] == reg[j];
    }
  }

  /** A call that ends with no audio builds no frame and attempts no send. */
  lemma EmptyCallDropped(subs: seq<Subscription>, reg: Registry, info: CallInfo, dump: CallInfo -> seq<byte>, outcome: Outcome, i: nat)
    requires |reg| == |subs| && RegistryWellFormed(reg) && StreamOfInfo(subs, info) == Some(i)
    requires UniqueId(info.callNum) in reg[i] && reg[i][UniqueId(info.callNum)].sampleCount == 0
    ensures EndStep(subs, reg, info, dump, outcome) == (reg[i := reg[i] - {UniqueId(info.callNum)}], NoSamples)
  {
  }

  /**
   * A call with audio is transmitted as one frame that carries the metadata
   * text and the call's samples; its computed total size is the header, the
   * text and two bytes per sample, and a receiver decodes the session back.
   */
  lemma EndTransmitsFrame(subs: seq<Subscription>, reg: Registry, info: CallInfo, dump: CallInfo -> seq<byte>, bytesSent: nat, i: nat)
    requires |reg| == |subs| && RegistryWellFormed(reg) && StreamOfInfo(subs, info) == Some(i)
    requires UniqueId(info.callNum) in reg[i] && reg[i][UniqueId(info.callNum)].samples != []
    requires |dump(info)| < Pow256(SizeOfSizeT) && |reg[i][UniqueId(info.callNum)].samples| < 0x8000_0000
    ensures var s := reg[i][UniqueId(info.callNum)];
      var report := EndStep(subs, reg, info, dump, WriteCompleted(bytesSent)).1;
      && report.Transmitted? && report.send.Written?
      && report.send.totalSize == HeaderSize + |dump(info)| + SizeOfInt16 * |s.samples|
      && report.send.bytesSent == bytesSent
      && Decode(report.send.frame) == Some(Session(Magic, |dump(info)|, |s.samples|, dump(info), s.samples))
  {
    var s := reg[i][UniqueId(info.callNum)];
    assert Consistent(s);
    var p := Prepared(s, dump(info));
    FrameSize(p);
    FrameRoundTrip(p);
  }

  /** When the connect times out or the transport fails, nothing is reported written. */
  lemma FailedSendWritesNothing(subs: seq<Subscription>, reg: Registry, info: CallInfo, dump: CallInfo -> seq<byte>, outcome: Outcome)
    requires |reg| == |subs| && RegistryWellFormed(reg) && !outcome.WriteCompleted?
    ensures var report := EndStep(subs, reg, info, dump, outcome).1;
      report.Transmitted? ==> (report.send == NoServer <==> outcome == ConnectTimeout) && !report.send.Written?
  {
  }

  /** A start keeps every session's count in step with its buffer. */
  lemma StartPreservesWellFormed(subs: seq<Subscription>, reg: Registry, c: Call)
    requires |reg| == |subs| && RegistryWellFormed(reg)
    ensures RegistryWellFormed(StartStep(subs, reg, c))
  {
    if StreamOfCall(subs, c).Some? {
      InsertPreservesWellFormed(reg, StreamOfCall(subs, c).value, UniqueId(c.callNum));
    }
  }

  /** Audio keeps every session's count in step with its buffer. */
  lemma AudioPreservesWellFormed(subs: seq<Subscription>, reg: Registry, c: Call, chunk: seq<int16>)
    requires |reg| == |subs| && RegistryWellFormed(reg)
    ensures RegistryWellFormed(AudioStep(subs, reg, c, chunk))
  {
    match StreamOfCall(subs, c) {
      case None =>
      case Some(i) =>
        var id := UniqueId(c.callNum);
        if id in reg[i] {
          OperationsPreserveWellFormed(reg[i], id, chunk);
          ReplacePreservesWellFormed(reg, i, reg[i][id := Append(reg[i][id], chunk)]);
        }
    }
  }

  /** The end of a call keeps every other session's count in step with its buffer. */
  lemma EndPreservesWellFormed(subs: seq<Subscription>, reg: Registry, info: CallInfo, dump: CallInfo -> seq<byte>, outcome: Outcome)
    requires |reg| == |subs| && RegistryWellFormed(reg)
    ensures RegistryWellFormed(EndStep(subs, reg, info, dump, outcome).0)
  {
    match StreamOfInfo(subs, info) {
      case None =>
      case Some(i) =>
        EndStepAt(subs, reg, info, dump, outcome, i);
        OperationsPreserveWellFormed(reg[i], UniqueId(info.callNum), []);
        ReplacePreservesWellFormed(reg, i, Erase(reg[i], UniqueId(info.callNum)));
    }
  }

  /** The registry after the chunks of one call have arrived one by one. */
  function AudioSteps(subs: seq<Subscription>, reg: Registry, c: Call, chunks: seq<seq<int16>>): (r: Registry)
    requires |reg| == |subs|
    ensures |r| == |reg|
    decreases |chunks|
  {
    if chunks == [] then reg else AudioSteps(subs, AudioStep(subs, reg, c, chunks[0]), c, chunks[1..])
  }

  lemma {:induction false} AudioStepsAppendAll(subs: seq<Subscription>, reg: Registry, c: Call, chunks: seq<seq<int16>>, i: nat)
    requires |reg| == |subs| && StreamOfCall(subs, c) == Some(i) && UniqueId(c.callNum) in reg[i]
    ensures UniqueId(c.callNum) in AudioSteps(subs, reg, c, chunks)[i]
    ensures AudioSteps(subs, reg, c, chunks)[i][UniqueId(c.callNum)] == AppendAll(reg[i][UniqueId(c.callNum)], chunks)
    decreases |chunks|
  {
    if chunks != [] {
      AudioStepsAppendAll(subs, AudioStep(subs, reg, c, chunks[0]), c, chunks[1..], i);
    }
  }

  lemma {:induction false} AudioStepsWellFormed(subs: seq<Subscription>, reg: Registry, c: Call, chunks: seq<seq<int16>>)
    requires |reg| == |subs| && RegistryWellFormed(reg)
    ensures RegistryWellFormed(AudioSteps(subs, reg, c, chunks))
    decreases |chunks|
  {
    if chunks != [] {
      AudioPreservesWellFormed(subs, reg, c, chunks[0]);
      AudioStepsWellFormed(subs, AudioStep(subs, reg, c, chunks[0]), c, chunks[1..]);
    }
  }

  /** A whole call: started, fed its audio chunk by chunk, then ended. */
  function WholeCall(subs: seq<Subscription>, reg: Registry, c: Call, chunks: seq<seq<int16>>,
                     info: CallInfo, dump: CallInfo -> seq<byte>, outcome: Outcome): (r: (Registry, EndReport))
    requires |reg| == |subs| && RegistryWellFormed(reg)
    ensures |r.0| == |reg|
  {
    var started := StartStep(subs, reg, c);
    StartPreservesWellFormed(subs, reg, c);
    AudioStepsWellFormed(subs, started, c, chunks);
    EndStep(subs, AudioSteps(subs, started, c, chunks), info, dump, outcome)
  }

  /**
   * A whole call written out: the frame carries the metadata text and exactly
   * the concatenated chunks, and the call's session is gone from the registry.
   */
  lemma WholeCallRoundTrip(subs: seq<Subscription>, reg: Registry, c: Call, chunks: seq<seq<int16>>,
                           info: CallInfo, dump: CallInfo -> seq<byte>, bytesSent: nat, i: nat)
    requires |reg| == |subs| && RegistryWellFormed(reg)
    requires StreamOfCall(subs, c) == Some(i) && StreamOfInfo(subs, info) == Some(i) && info.callNum == c.callNum
    requires UniqueId(c.callNum) !in reg[i]
    requires Flatten(chunks) != [] && |Flatten(chunks)| < 0x8000_0000 && |dump(info)| < Pow256(SizeOfSizeT)
    ensures var (r, report) := WholeCall(subs, reg, c, chunks, info, dump, WriteCompleted(bytesSent));
      && report.Transmitted? && report.send.Written?
      && Decode(report.send.frame) == Some(Session(Magic, |dump(info)|, |Flatten(chunks)|, dump(info), Flatten(chunks)))
      && UniqueId(c.callNum) !in r[i]
  {
    var id := UniqueId(c.callNum);
    var started := StartStep(subs, reg, c);
    StartPreservesWellFormed(subs, reg, c);
    StartStepSpec(subs, reg, c, i);
    AudioStepsWellFormed(subs, started, c, chunks);
    var fed: Registry := AudioSteps(subs, started, c, chunks);
    AudioStepsAppendAll(subs, started, c, chunks, i);
    AppendAllSpec(EmptySession, chunks);
    assert fed[i][id].samples == Flatten(chunks);
    EndTransmitsFrame(subs, fed, info, dump, bytesSent, i);
    EndRemovesSession(subs, fed, info, dump, WriteCompleted(bytesSent), i);
  }

  /**
   * The end of a call touches only the store of the stream it resolves to.
   * Resolution is redone at every callback, from the host system's patches at
   * start and audio and from the end record's own patch list at the end.
   */
  lemma EndTouchesOnlyItsRoute(subs: seq<Subscription>, reg: Registry, info: CallInfo, dump: CallInfo -> seq<byte>, outcome: Outcome, j: nat)
    requires |reg| == |subs| && RegistryWellFormed(reg) && j < |reg| && StreamOfInfo(subs, info) != Some(j)
    ensures EndStep(subs, reg, info, dump, outcome).0[j] == reg[j]
  {
    match StreamOfInfo(subs, info)
    case None =>
    case Some(i) => EndStepAt(subs, reg, info, dump, outcome, i);
  }

  /** Two streams on system "A": talkgroup 100 and talkgroup 200. */
  const TwoStreams: seq<Subscription> := [Subscription(100, "A"), Subscription(200, "A")]

  /** An unpatched call on talkgroup 100 resolves to the first stream; patched to 200, to the second. */
  lemma TwoStreamsRouting()
    ensures FindStream(TwoStreams, "A", 100, []) == Some(0)
    ensures FindStream(TwoStreams, "A", 100, [200]) == Some(1)
  {
    assert Candidates(100, []) == [100];
    assert Matches(TwoStreams[0], "A", [100]) by { assert [100][0] == 100; }
    FindStreamIsFirstMatch(TwoStreams, "A", 100, [], 0);
    assert Candidates(100, [200]) == [200];
    assert !Matches(TwoStreams[0], "A", [200]);
    assert Matches(TwoStreams[1], "A", [200]) by { assert [200][0] == 200; }
    FindStreamIsFirstMatch(TwoStreams, "A", 100, [200], 1);
  }

  /**
   * A call started unpatched and ended with a patch to talkgroup 200 is
   * looked up in the wrong store: the end reports an unknown call and the
   * session stays in the first stream's store.
   */
  lemma RepatchedEndLeavesSession(dump: CallInfo -> seq<byte>, outcome: Outcome)
    ensures var started := StartStep(TwoStreams, [map[], map[]], Call("A", 100, [], 7));
      var (r, report) := EndStep(TwoStreams, started, CallInfo(1, 100, [200], 0, "A", 7, 0, 0), dump, outcome);
      report == UnknownCall && UniqueId(7) in r[0]
  {
    TwoStreamsRouting();
    var started := StartStep(TwoStreams, [map[], map[]], Call("A", 100, [], 7));
    assert UniqueId(7) in started[0] && UniqueId(7) !in started[1];
    EndStepAt(TwoStreams, started, CallInfo(1, 100, [200], 0, "A", 7, 0, 0), dump, outcome, 1);
  }

  /**
   * Two starts of the same call (a grant renewal) on either side of a patch
   * change give the call a session in two stores.
   */
  lemma RepatchedStartSplitsHome()
    ensures var r := StartStep(TwoStreams, StartStep(TwoStreams, [map[], map[]], Call("A", 100, [], 7)), Call("A", 100, [200], 7));
      UniqueId(7) in r[0] && UniqueId(7) in r[1] && !SingleHome(r)
  {
    TwoStreamsRouting();
    var r := StartStep(TwoStreams, StartStep(TwoStreams, [map[], map[]], Call("A", 100, [], 7)), Call("A", 100, [200], 7));
    assert UniqueId(7) in r[0] && UniqueId(7) in r[1];
  }

  /** No call id is in the stores of two streams at once. */
  predicate SingleHome(reg: Registry) {
    forall i, j, id | 0 <= i < |reg| && 0 <= j < |reg| && i != j && id in reg[i] :: id !in reg[j]
  }

  /**
   * Starting a call keeps ids in one store each, provided the call's id is not
   * already held by a stream other than the one it resolves to (the host gives
   * each call one id and one routing).
   */
  lemma StartKeepsSingleHome(subs: seq<Subscription>, reg: Registry, c: Call)
    requires |reg| == |subs| && SingleHome(reg)
    requires forall j | 0 <= j < |reg| && UniqueId(c.callNum) in reg[j] :: StreamOfCall(subs, c) == Some(j)
    ensures SingleHome(StartStep(subs, reg, c))
  {
    match StreamOfCall(subs, c)
    case None =>
    case Some(i) =>
      var r := StartStep(subs, reg, c);
      forall a, b, id | 0 <= a < |r| && 0 <= b < |r| && a != b && id in r[a]
        ensures id !in r[b]
      {
        if id == UniqueId(c.callNum) {
          if b != i { assert r[b] == reg[b]; }
        }
      }
  }

  /** Audio never adds an id to a store, so it keeps ids in one store each. */
  lemma AudioKeepsSingleHome(subs: seq<Subscription>, reg: Registry, c: Call, chunk: seq<int16>)
    requires |reg| == |subs| && SingleHome(reg)
    ensures SingleHome(AudioStep(subs, reg, c, chunk))
  {
    var r := AudioStep(subs, reg, c, chunk);
    assert forall j | 0 <= j < |reg| :: r[j].Keys == reg[j].Keys;
  }

  /** The end of a call never adds an id to a store, so it keeps ids in one store each. */
  lemma EndKeepsSingleHome(subs: seq<Subscription>, reg: Registry, info: CallInfo, dump: CallInfo -> seq<byte>, outcome: Outcome)
    requires |reg| == |subs| && RegistryWellFormed(reg) && SingleHome(reg)
    ensures SingleHome(EndStep(subs, reg, info, dump, outcome).0)
  {
    EndPreservesWellFormed(subs, reg, info, dump, outcome);
    var e := EndStep(subs, reg, info, dump, outcome).0;
    assert forall j | 0 <= j < |reg| :: e[j].Keys <= reg[j].Keys;
  }
}
