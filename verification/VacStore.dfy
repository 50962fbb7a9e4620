/** The persisted parameters of VolumeAttributesClasses: one document per volume, kept on the filers
    under a key that encodes the volume ID, and reached over HTTP. */
module VacStore {
  import opened Wrappers
  import opened Strings
  import VA = VolumeAttributes
  import Base64Url

  type Params = VA.Params

  /** A document as it is stored; encoding parameters as JSON and decoding them again is taken to give
      the same parameters. */
  datatype Body = Entry(parameters: Params) | Garbage

  type Entries = map<string, Body>

  const VAC_ROOT_DIR := "/.csi/vac"

  function VacPath(volumeID: string): string
    requires IsBytes(volumeID)
  {
    VAC_ROOT_DIR + "/" + Base64Url.Encode(volumeID)
  }

  /** The key of a volume is one path element below the root, and no other volume has it. */
  lemma VacPathIsInjective(v: string, w: string)
    requires IsBytes(v) && IsBytes(w)
    ensures VacPath(v) == VacPath(w) <==> v == w
    ensures '/' !in VacPath(v)[|VAC_ROOT_DIR| + 1..]
  {
    Base64Url.EncodeIsInjective(v, w);
    Base64Url.EncodeHasNoSlash(v);
    var root := VAC_ROOT_DIR + "/";
    assert VacPath(v)[|root|..] == Base64Url.Encode(v) && VacPath(w)[|root|..] == Base64Url.Encode(w);
  }

  /** What the store holds for a volume. */
  function Stored(entries: Entries, v: string): Option<Body>
    requires IsBytes(v)
  {
    if VacPath(v) in entries then Some(entries[VacPath(v)]) else None
  }

  // ---- one request -------------------------------------------------------------------------------

  datatype Request = Get | Put(body: Body) | Remove

  function Effect(entries: Entries, request: Request, path: string): Entries {
    match request
    case Get => entries
    case Put(body) => entries[path := body]
    case Remove => entries - {path}
  }

  lemma EffectOnStored(entries: Entries, request: Request, v: string, w: string)
    requires IsBytes(v) && IsBytes(w)
    ensures Stored(Effect(entries, request, VacPath(v)), w) ==
            if v != w || request.Get? then Stored(entries, w) else if request.Put? then Some(request.body) else None
  {
    VacPathIsInjective(v, w);
  }

  /** What becomes of a request at one filer. A request whose answer is lost, or is an error status, may
      have been carried out all the same. */
  datatype Answer = NotBuilt | NoAnswer(done: bool) | BadStatus(done: bool) | GoodStatus

  /** The filer is asked: none before it has answered. */
  ghost predicate Reached(answers: seq<Answer>, i: int) {
    0 <= i < |answers| && forall j :: 0 <= j < i ==> answers[j].NoAnswer?
  }

  predicate Done(answer: Answer) {
    match answer
    case NotBuilt => false
    case NoAnswer(done) => done
    case BadStatus(done) => done
    case GoodStatus => true
  }

  /** An answer is the last. */
  lemma OnlyUpTo(answers: seq<Answer>, i: int)
    requires Reached(answers, i)
    ensures !answers[i].NoAnswer? ==> forall k :: Reached(answers, k) ==> k <= i
  {
  }

  datatype Result = Failed | Replied(body: Option<Body>)

  /** The filers keep their documents in one store. */
  class FilerVacStore {
    const filers: seq<string>
    const reliable: bool  // every filer answers, and with a good status
    var entries: Entries

    constructor (filers: seq<string>, reliable: bool, entries: Entries)
      ensures this.filers == filers && this.reliable == reliable && this.entries == entries
    {
      this.filers, this.reliable, this.entries := filers, reliable, entries;
    }

    /** How the filers will answer a request, each if it is asked. */
    method Answers() returns (answers: seq<Answer>)
      ensures |answers| == |filers| && (reliable ==> forall i :: 0 <= i < |answers| ==> answers[i].GoodStatus?)
    {
      answers := [];
      while |answers| < |filers|
        invariant |answers| <= |filers| && (reliable ==> forall i :: 0 <= i < |answers| ==> answers[i].GoodStatus?)
      {
        var answer: Answer := *;
        answers := answers + [if reliable then GoodStatus else answer];
      }
    }

    /** roundTrip: each filer in turn until one answers, and that answer decides. The request has been carried
        out if a filer that was reached has done so, whatever it answered. A reply to a Get carries the
        document, if there is one. */
    method RoundTrip(request: Request, volumeID: string, answers: seq<Answer>) returns (r: Result)
      requires IsBytes(volumeID) && |answers| == |filers|
      modifies this
      ensures r.Replied? <==> exists i :: Reached(answers, i) && answers[i].GoodStatus?
      ensures entries == if exists i :: Reached(answers, i) && Done(answers[i]) then Effect(old(entries), request, VacPath(volumeID)) else old(entries)
      ensures r.Replied? ==> r.body == Stored(old(entries), volumeID)
    {
      var path := VacPath(volumeID);
      ghost var before := entries;
      var body := Stored(entries, volumeID);
      for i := 0 to |filers|
        invariant forall j :: 0 <= j < i ==> answers[j].NoAnswer? && Reached(answers, j)
        invariant entries == if exists j :: 0 <= j < i && Done(answers[j]) then Effect(before, request, path) else before
      {
        assert Reached(answers, i);
        OnlyUpTo(answers, i);
        if Done(answers[i]) {
          entries := Effect(entries, request, path);
        }
        match answers[i]
        case NotBuilt => return Failed;
        case NoAnswer(_) =>
        case BadStatus(_) => return Failed;
        case GoodStatus => return Replied(body);
      }
      r := Failed;
    }

    /** Read: no filer and no document read as no parameters. */
    method Read(volumeID: string) returns (r: Option<VA.Document>)
      requires IsBytes(volumeID)
      modifies this
      ensures entries == old(entries)
      ensures filers == [] ==> r == Some(VA.Doc(map[]))
      ensures reliable ==> r.Some?
      ensures filers != [] && r.Some? ==>
                r.value == match Stored(entries, volumeID)
                           case None => VA.Doc(map[])
                           case Some(Entry(parameters)) => VA.Doc(parameters)
                           case Some(Garbage) => VA.CorruptDoc
    {
      if |filers| == 0 {
        return Some(VA.Doc(map[]));
      }
      var answers := Answers();
      assert filers != [] ==> Reached(answers, 0);
      var reply := RoundTrip(Get, volumeID, answers);
      match reply
      case Failed => r := None;
      case Replied(None) => r := Some(VA.Doc(map[]));
      case Replied(Some(Entry(parameters))) => r := Some(VA.Doc(parameters));
      case Replied(Some(Garbage)) => r := Some(VA.CorruptDoc);
    }

    method Write(volumeID: string, params: Params) returns (ok: bool)
      requires IsBytes(volumeID)
      modifies this
      ensures filers != [] && reliable ==> ok
      ensures After(old(entries), entries, ok, volumeID, if params == map[] then None else Some(Put(Entry(params))))
    {
      if params == map[] {
        return true;
      }
      var answers := Answers();
      assert filers != [] ==> Reached(answers, 0);
      var reply := RoundTrip(Put(Entry(params)), volumeID, answers);
      ok := reply.Replied?;
    }

    method Delete(volumeID: string) returns (ok: bool)
      requires IsBytes(volumeID)
      modifies this
      ensures filers != [] && reliable ==> ok
      ensures After(old(entries), entries, ok, volumeID, Some(Remove))
    {
      var answers := Answers();
      assert filers != [] ==> Reached(answers, 0);
      var reply := RoundTrip(Remove, volumeID, answers);
      ok := reply.Replied?;
    }
  }

  /** A request about `v` has been made, or none: if it succeeded it has been carried out. */
  predicate After(before: Entries, after: Entries, ok: bool, v: string, request: Option<Request>)
    requires IsBytes(v)
  {
    match request
    case None => ok && after == before
    case Some(q) => after == Effect(before, q, VacPath(v)) || (!ok && after == before)
  }

  // ---- whole histories ---------------------------------------------------------------------------

  /** A call of the store. */
  datatype Call = Write(vol: string, params: Params) | Delete(vol: string) | Read(vol: string)

  datatype Outcome = Outcome(call: Call, ok: bool)

  /** What the call leaves behind for its volume, if it leaves anything. */
  function Leaves(call: Call): Option<Option<Body>> {
    match call
    case Write(_, params) => if params == map[] then None else Some(Some(Entry(params)))
    case Delete(_) => Some(None)
    case Read(_) => None
  }

  /** What the store may hold for `v` after the calls: a call that failed may have been carried out. */
  function Possible(start: Option<Body>, trace: seq<Outcome>, v: string): (held: set<Option<Body>>)
    ensures held != {}
  {
    if trace == [] then {start}
    else
      var before := Possible(start, trace[..|trace| - 1], v);
      var last := trace[|trace| - 1];
      if last.call.vol != v || Leaves(last.call).None? then before
      else {Leaves(last.call).value} + if last.ok then {} else before
  }

  /** What a map from volumes to parameters holds for `v` after the calls. */
  function InMap(start: Option<Body>, trace: seq<Outcome>, v: string): Option<Body> {
    if trace == [] then start
    else
      var last := trace[|trace| - 1];
      if last.call.vol == v && Leaves(last.call).Some? then Leaves(last.call).value
      else InMap(start, trace[..|trace| - 1], v)
  }

  /** If every call about the volume has succeeded, the store is that map. */
  lemma {:induction false} StoreIsAMap(start: Option<Body>, trace: seq<Outcome>, v: string)
    requires forall i :: 0 <= i < |trace| && trace[i].call.vol == v ==> trace[i].ok
    ensures Possible(start, trace, v) == {InMap(start, trace, v)}
  {
    if trace != [] {
      StoreIsAMap(start, trace[..|trace| - 1], v);
    }
  }

  lemma OneMoreCall(before: Entries, after: Entries, start: Entries, trace: seq<Outcome>, call: Call, ok: bool, v: string)
    requires IsBytes(v) && IsBytes(call.vol)
    requires Stored(before, v) in Possible(Stored(start, v), trace, v)
    requires After(before, after, ok, call.vol,
                   match call
                   case Write(_, params) => if params == map[] then None else Some(Put(Entry(params)))
                   case Delete(_) => Some(Remove)
                   case Read(_) => Some(Get))
    ensures Stored(after, v) in Possible(Stored(start, v), trace + [Outcome(call, ok)], v)
  {
    assert (trace + [Outcome(call, ok)])[..|trace|] == trace;
    match call
    case Write(w, params) => EffectOnStored(before, Put(Entry(params)), w, v);
    case Delete(w) => EffectOnStored(before, Remove, w, v);
    case Read(w) => EffectOnStored(before, Get, w, v);
  }

  method Do(store: FilerVacStore, call: Call) returns (ok: bool)
    requires IsBytes(call.vol)
    modifies store
    ensures After(old(store.entries), store.entries, ok, call.vol,
                  match call
                  case Write(_, params) => if params == map[] then None else Some(Put(Entry(params)))
                  case Delete(_) => Some(Remove)
                  case Read(_) => Some(Get))
  {
    match call
    case Write(v, params) => ok := store.Write(v, params);
    case Delete(v) => ok := store.Delete(v);
    case Read(v) =>
      var r := store.Read(v);
      ok := r.Some?;
  }

  /** Any calls for any volumes: the calls about one volume decide what is held for it. */
  method AnyCalls(store: FilerVacStore) returns (trace: seq<Outcome>)
    modifies store
    ensures forall v :: IsBytes(v) ==> Stored(store.entries, v) in Possible(old(Stored(store.entries, v)), trace, v)
  {
    trace := [];
    ghost var start := store.entries;
    var n: nat := *;
    while n > 0
      invariant forall v :: IsBytes(v) ==> Stored(store.entries, v) in Possible(Stored(start, v), trace, v)
    {
      var call: Call := *;
      if IsBytes(call.vol) {
        ghost var before := store.entries;
        var ok := Do(store, call);
        forall v | IsBytes(v)
          ensures Stored(store.entries, v) in Possible(Stored(start, v), trace + [Outcome(call, ok)], v)
        {
          OneMoreCall(before, store.entries, start, trace, call, ok, v);
        }
        trace := trace + [Outcome(call, ok)];
      }
      n := n - 1;
    }
  }

  // ---- modifying a volume ------------------------------------------------------------------------

  /** ControllerModifyVolume to its end: nothing is written for a request that is not acceptable. */
  method ModifyVolume(store: FilerVacStore, volumeID: string, pv: Option<Params>, request: Params) returns (r: VA.Modify)
    requires IsBytes(volumeID)
    modifies store
    ensures r.InvalidArgument? <==> volumeID == "" || request == map[] || !VA.Modifiable(request) || (pv.Some? && !VA.Accepts(pv.value, request))
    ensures store.filers != [] && store.reliable && pv.Some? ==> !r.Internal?
    ensures r.InvalidArgument? || pv.None? ==> store.entries == old(store.entries)
    ensures r.Modified? ==> pv.Some? && VA.Accepts(pv.value, request) && store.entries == Effect(old(store.entries), Put(Entry(request)), VacPath(volumeID))
    ensures store.entries == old(store.entries) || store.entries == Effect(old(store.entries), Put(Entry(request)), VacPath(volumeID))
  {
    r := VA.ControllerModifyVolume(volumeID, pv, request);
    if r.Modified? {
      var ok := store.Write(volumeID, request);
      if !ok {
        r := VA.Internal;
      }
    }
  }

  /** What has been accepted and written is what the next staging reads, and staging from the same PV
      attributes does not refuse it. A store that cannot be read counts as one without a document. */
  method ModifyThenStage(store: FilerVacStore, volumeID: string, pv: Params, request: Params, capacity: Option<VA.Int64>)
      returns (r: VA.Modify, doc: Option<VA.Document>, staged: VA.Staged)
    requires IsBytes(volumeID) && store.filers != []
    modifies store
    ensures staged == VA.StageContext(pv, VA.Staging(if doc.Some? then doc.value else VA.Doc(map[]), capacity))
    ensures store.reliable ==> doc.Some?
    ensures r.Modified? && doc.Some? ==> doc.value == VA.Doc(request)
    ensures r.Modified? && doc.Some? ==>
              (staged.Context? <==> capacity.Some? || VA.Get(pv, VA.CAPACITY) == ""
                                    || (VA.ParseInt(VA.Get(pv, VA.CAPACITY)).Some? && VA.ParseInt(VA.Get(pv, VA.CAPACITY)).value >= 0))
  {
    r := ModifyVolume(store, volumeID, Some(pv), request);
    doc := store.Read(volumeID);
    staged := VA.StageContext(pv, VA.Staging(if doc.Some? then doc.value else VA.Doc(map[]), capacity));
    if r.Modified? {
      VA.AcceptedModificationStages(pv, request, capacity);
    }
  }
}
