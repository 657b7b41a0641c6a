/**
 The guard between the workflow and the resume server. Its critical sections are steps on a value, so that
 any interleaving of its methods is a sequence of steps; the class below runs those steps in place.
 */
module GuardSteps {
  import opened Options
  import opened Uuids

  type Bytes = seq<bv8>

  const MAX_TOOL_CALLS := 96
  const MAX_DECODED_PHOTO_BYTES := 2 * 1024 * 1024

  /** The tools that the guard knows, and any other name. */
  datatype Tool =
    | ListResumes | GetResume | GetPhoto | CreateResume | UploadPhoto | UpdatePhotoCrop
    | Other(name: string) {
    predicate IsRead() { ListResumes? || GetResume? || GetPhoto? }
    predicate IsMutation() { CreateResume? || UploadPhoto? || UpdatePhotoCrop? }
  }

  datatype BoundIntent = BoundIntent(sourceId: string, key: string, payload: Bytes)

  /** A tool argument: absent, of the wrong type, or given. */
  datatype Field<+T> = Missing | Mistyped | Given(value: T)
  datatype Arguments = Arguments(key: Field<string>, document: Field<Bytes>, resumeId: Field<string>)
  datatype Call = Call(tool: Tool, arguments: Arguments)

  /** The guard's fields, the sends that a method has reserved and not yet made, and every call it made. */
  datatype Guard = Guard(
    local: bool, calls: nat, source: Option<string>, intent: Option<BoundIntent>, target: Option<string>,
    freshIntent: bool, createSends: nat, uploads: nat, crops: nat, conflictProbe: bool,
    pendingCreates: nat, pendingUploads: nat, pendingCrops: nat, pendingProbes: nat, sent: seq<Call>)

  function NewGuard(local: bool): Guard {
    Guard(local, 0, None, None, None, false, 0, 0, 0, false, 0, 0, 0, 0, [])
  }

  // ---------------------------------------------------------------- critical sections

  /** A mutation in the exact shape that the bound paths send. */
  predicate MutationBound(g: Guard, call: Call) {
    if call.tool.CreateResume? then
      && g.intent.Some? && call.arguments.resumeId.Missing?
      && call.arguments.key == Given(g.intent.value.key) && call.arguments.document == Given(g.intent.value.payload)
    else
      && g.target.Some? && call.arguments.resumeId == Given(g.target.value) && g.target != g.source
  }

  predicate CallAdmitted(g: Guard, call: Call) {
    && (call.tool.IsRead() || call.tool.IsMutation())
    && g.calls < MAX_TOOL_CALLS
    && (call.tool.IsMutation() ==> MutationBound(g, call))
  }

  function MakeCall(g: Guard, call: Call): Guard {
    if CallAdmitted(g, call) then g.(calls := g.calls + 1, sent := g.sent + [call]) else g
  }

  /** One send per process; local mode adds one exact replay once the target is known. */
  predicate CreateAllowed(g: Guard) {
    && g.intent.Some?
    && if g.local then g.createSends == 0 || (g.createSends == 1 && g.target.Some?)
       else g.createSends == 0 && g.target.None?
  }

  predicate WriteAllowed(g: Guard, target: string, used: bool) {
    g.target.Some? && Some(target) == g.target && Some(target) != g.source && !used
  }

  function CreateCall(intent: BoundIntent): Call {
    Call(CreateResume, Arguments(Given(intent.key), Given(intent.payload), Missing))
  }

  function TargetCall(tool: Tool, target: string, key: string): Call {
    Call(tool, Arguments(Given(key), Missing, Given(target)))
  }

  datatype Event =
    | SetSource(id: string)
    | BindIntent(intent: BoundIntent, first: bool)
    | BindTarget(id: string)
    | ReserveCreate
    | ReserveUpload(id: string)
    | ReserveCrop(id: string)
    | ReserveProbe(id: string)
    | Read(call: Call)
    | SendCreate
    | SendUpload(key: string)
    | SendCrop(key: string)
    | SendProbe(key: string)
    | AbandonUpload  // reserved, but another argument is invalid
    | AbandonCrop

  /** One critical section. A refused one changes nothing. A send happens only after its reservation. */
  function Step(g: Guard, e: Event): Guard {
    match e
    case SetSource(id) => SetSourceStep(g, id)
    case BindIntent(intent, first) => BindIntentStep(g, intent, first)
    case BindTarget(id) => BindTargetStep(g, id)
    case ReserveCreate => ReserveCreateStep(g)
    case ReserveUpload(id) => ReserveUploadStep(g, id)
    case ReserveCrop(id) => ReserveCropStep(g, id)
    case ReserveProbe(id) => ReserveProbeStep(g, id)
    case Read(call) => if call.tool.IsRead() then MakeCall(g, call) else g
    case SendCreate => SendCreateStep(g)
    case SendUpload(key) => SendUploadStep(g, key)
    case SendCrop(key) => SendCropStep(g, key)
    case SendProbe(key) => SendProbeStep(g, key)
    case AbandonUpload => AbandonUploadStep(g)
    case AbandonCrop => AbandonCropStep(g)
  }

  function AbandonUploadStep(g: Guard): Guard {
    if g.pendingUploads > 0 then g.(pendingUploads := g.pendingUploads - 1) else g
  }

  function AbandonCropStep(g: Guard): Guard {
    if g.pendingCrops > 0 then g.(pendingCrops := g.pendingCrops - 1) else g
  }

  function SetSourceStep(g: Guard, id: string): Guard {
    if g.source.Some? || !ValidUuid(id) then g else g.(source := Some(id))
  }

  function BindIntentStep(g: Guard, intent: BoundIntent, first: bool): Guard {
    if g.intent.Some? || g.source.None? || Some(intent.sourceId) != g.source then g
    else g.(intent := Some(intent), freshIntent := first)
  }

  function BindTargetStep(g: Guard, id: string): Guard {
    if !ValidUuid(id) || Some(id) == g.source || g.intent.None? || (g.target.Some? && g.target != Some(id)) then g
    else g.(target := Some(id))
  }

  function ReserveCreateStep(g: Guard): Guard {
    if CreateAllowed(g) then g.(createSends := g.createSends + 1, pendingCreates := g.pendingCreates + 1) else g
  }

  function ReserveUploadStep(g: Guard, id: string): Guard {
    if WriteAllowed(g, id, g.uploads != 0) then g.(uploads := 1, pendingUploads := g.pendingUploads + 1) else g
  }

  function ReserveCropStep(g: Guard, id: string): Guard {
    if WriteAllowed(g, id, g.crops != 0) then g.(crops := 1, pendingCrops := g.pendingCrops + 1) else g
  }

  function ReserveProbeStep(g: Guard, id: string): Guard {
    if g.local && WriteAllowed(g, id, g.conflictProbe) then
      g.(conflictProbe := true, pendingProbes := g.pendingProbes + 1)
    else g
  }

  function SendCreateStep(g: Guard): Guard {
    if g.pendingCreates == 0 || g.intent.None? then g
    else MakeCall(g.(pendingCreates := g.pendingCreates - 1), CreateCall(g.intent.value))
  }

  function SendUploadStep(g: Guard, key: string): Guard {
    if g.pendingUploads == 0 || g.target.None? then g
    else MakeCall(g.(pendingUploads := g.pendingUploads - 1), TargetCall(UploadPhoto, g.target.value, key))
  }

  function SendCropStep(g: Guard, key: string): Guard {
    if g.pendingCrops == 0 || g.target.None? then g
    else MakeCall(g.(pendingCrops := g.pendingCrops - 1), TargetCall(UpdatePhotoCrop, g.target.value, key))
  }

  function SendProbeStep(g: Guard, key: string): Guard {
    if g.pendingProbes == 0 || g.target.None? then g
    else MakeCall(g.(pendingProbes := g.pendingProbes - 1), TargetCall(UpdatePhotoCrop, g.target.value, key))
  }

  function Run(g: Guard, events: seq<Event>): Guard
    decreases |events|
  {
    if events == [] then g else Run(Step(g, events[0]), events[1..])
  }

  // ---------------------------------------------------------------- what any interleaving sends

  function Sends(calls: seq<Call>, tool: Tool): nat {
    if calls == [] then 0 else Sends(calls[..|calls| - 1], tool) + if calls[|calls| - 1].tool == tool then 1 else 0
  }

  lemma SendsAppend(calls: seq<Call>, call: Call, tool: Tool)
    ensures Sends(calls + [call], tool) == Sends(calls, tool) + if call.tool == tool then 1 else 0
  {
    assert (calls + [call])[..|calls|] == calls;
  }

  /** What stays fixed once bound: source, intent, target, mode, and every call already made. */
  ghost predicate Keeps(g: Guard, g': Guard) {
    && (g.source.Some? ==> g'.source == g.source)
    && (g.intent.Some? ==> g'.intent == g.intent)
    && (g.target.Some? ==> g'.target == g.target)
    && g'.local == g.local && g.sent <= g'.sent
  }

  /** Every mutation made so far is the bound create, or a write to the bound target, which is not the source. */
  ghost predicate OnlyBound(g: Guard) {
    forall c <- g.sent :: c.tool.IsRead() || (c.tool.IsMutation() && MutationBound(g, c))
  }

  ghost predicate Bindings(g: Guard) {
    && (g.intent.Some? ==> g.source.Some? && Some(g.intent.value.sourceId) == g.source)
    && (g.target.Some? ==> g.intent.Some? && g.target != g.source)
    && (g.createSends > 0 ==> g.intent.Some?)
    && (g.uploads + g.crops > 0 || g.conflictProbe ==> g.target.Some?)
  }

  ghost predicate Caps(g: Guard) {
    && |g.sent| == g.calls <= MAX_TOOL_CALLS
    && g.createSends <= (if g.local then 2 else 1)
    && (g.createSends == 2 ==> g.target.Some?)
    && g.uploads <= 1 && g.crops <= 1 && (g.conflictProbe ==> g.local)
    && Sends(g.sent, CreateResume) + g.pendingCreates <= g.createSends
    && Sends(g.sent, UploadPhoto) + g.pendingUploads <= g.uploads
    && Sends(g.sent, UpdatePhotoCrop) + g.pendingCrops + g.pendingProbes <= g.crops + (if g.conflictProbe then 1 else 0)
  }

  ghost predicate Sound(g: Guard) {
    Bindings(g) && Caps(g) && OnlyBound(g)
  }

  /** A step that calls nothing keeps the old calls bound, because bindings are final. */
  lemma OldCallsStayBound(g: Guard, g': Guard)
    requires Bindings(g) && OnlyBound(g) && Keeps(g, g') && g'.sent == g.sent
    ensures OnlyBound(g')
  {
  }

  lemma CallKeepsSound(g: Guard, call: Call)
    requires Sound(g)
    requires (call.tool.CreateResume? ==> Sends(g.sent, CreateResume) + g.pendingCreates < g.createSends)
    requires (call.tool.UploadPhoto? ==> Sends(g.sent, UploadPhoto) + g.pendingUploads < g.uploads)
    requires (call.tool.UpdatePhotoCrop? ==>
                Sends(g.sent, call.tool) + g.pendingCrops + g.pendingProbes
                    < g.crops + (if g.conflictProbe then 1 else 0))
    ensures Sound(MakeCall(g, call))
  {
    SendsAppend(g.sent, call, CreateResume);
    SendsAppend(g.sent, call, UploadPhoto);
    SendsAppend(g.sent, call, UpdatePhotoCrop);
  }

  lemma SendCreateKeepsSound(g: Guard)
    requires Sound(g)
    ensures Sound(SendCreateStep(g)) && Keeps(g, SendCreateStep(g))
  {
    hide MutationBound;
    if g.pendingCreates > 0 && g.intent.Some? {
      var g1 := g.(pendingCreates := g.pendingCreates - 1);
      OldCallsStayBound(g, g1);
      CallKeepsSound(g1, CreateCall(g.intent.value));
    }
  }

  lemma SendUploadKeepsSound(g: Guard, key: string)
    requires Sound(g)
    ensures Sound(SendUploadStep(g, key)) && Keeps(g, SendUploadStep(g, key))
  {
    hide MutationBound;
    if g.pendingUploads > 0 && g.target.Some? {
      var g1 := g.(pendingUploads := g.pendingUploads - 1);
      OldCallsStayBound(g, g1);
      CallKeepsSound(g1, TargetCall(UploadPhoto, g.target.value, key));
    }
  }

  lemma SendCropKeepsSound(g: Guard, key: string)
    requires Sound(g)
    ensures Sound(SendCropStep(g, key)) && Keeps(g, SendCropStep(g, key))
  {
    hide MutationBound;
    if g.pendingCrops > 0 && g.target.Some? {
      var g1 := g.(pendingCrops := g.pendingCrops - 1);
      OldCallsStayBound(g, g1);
      CallKeepsSound(g1, TargetCall(UpdatePhotoCrop, g.target.value, key));
    }
  }

  lemma SendProbeKeepsSound(g: Guard, key: string)
    requires Sound(g)
    ensures Sound(SendProbeStep(g, key)) && Keeps(g, SendProbeStep(g, key))
  {
    hide MutationBound;
    if g.pendingProbes > 0 && g.target.Some? {
      var g2 := g.(pendingProbes := g.pendingProbes - 1);
      OldCallsStayBound(g, g2);
      CallKeepsSound(g2, TargetCall(UpdatePhotoCrop, g.target.value, key));
    }
  }

  lemma ReserveKeepsSound(g: Guard, e: Event)
    requires Sound(g) && (e.ReserveCreate? || e.ReserveUpload? || e.ReserveCrop? || e.ReserveProbe?
             || e.AbandonUpload? || e.AbandonCrop?)
    ensures Sound(Step(g, e)) && Keeps(g, Step(g, e))
  {
    hide OnlyBound;
    OldCallsStayBound(g, Step(g, e));
  }

  lemma BindKeepsSound(g: Guard, e: Event)
    requires Sound(g) && (e.SetSource? || e.BindIntent? || e.BindTarget?)
    ensures Sound(Step(g, e)) && Keeps(g, Step(g, e))
  {
    hide OnlyBound;
    OldCallsStayBound(g, Step(g, e));
  }

  lemma StepKeepsSound(g: Guard, e: Event)
    requires Sound(g)
    ensures Sound(Step(g, e)) && Keeps(g, Step(g, e))
  {
    hide Sound, SendCreateStep, SendUploadStep, SendCropStep, SendProbeStep;
    match e
    case SendCreate => SendCreateKeepsSound(g);
    case SendUpload(key) => SendUploadKeepsSound(g, key);
    case SendCrop(key) => SendCropKeepsSound(g, key);
    case SendProbe(key) => SendProbeKeepsSound(g, key);
    case Read(call) => if call.tool.IsRead() { CallKeepsSound(g, call); }
    case _ =>
      if e.SetSource? || e.BindIntent? || e.BindTarget? { BindKeepsSound(g, e); } else { ReserveKeepsSound(g, e); }
  }

  /** Whatever the interleaving, the guard stays sound and bindings are final. */
  lemma {:induction false} RunKeepsSound(g: Guard, events: seq<Event>)
    requires Sound(g)
    ensures Sound(Run(g, events)) && Keeps(g, Run(g, events))
    decreases |events|
  {
    if events != [] {
      var next := Step(g, events[0]);
      StepKeepsSound(g, events[0]);
      RunKeepsSound(next, events[1..]);
    }
  }

  /**
   However the methods of one process interleave: every mutation sent is the bound create or a write to the
   bound target, the target is never the source, and the caps hold: one create, one upload, one crop, plus in
   local mode one replay, sent after binding, and one probe.
   */
  lemma AnyInterleavingIsBound(local: bool, events: seq<Event>)
    ensures var g := Run(NewGuard(local), events);
            && |g.sent| <= MAX_TOOL_CALLS
            && (forall c <- g.sent | !c.tool.IsRead() ::
                  || (c.tool.CreateResume? && g.intent.Some? && c == CreateCall(g.intent.value))
                  || ((c.tool.UploadPhoto? || c.tool.UpdatePhotoCrop?) && g.target.Some? && g.target != g.source
                      && c.arguments.resumeId == Given(g.target.value)))
            && Sends(g.sent, CreateResume) <= (if local then 2 else 1)
            && (Sends(g.sent, CreateResume) == 2 ==> g.target.Some?)
            && Sends(g.sent, UploadPhoto) <= 1
            && Sends(g.sent, UpdatePhotoCrop) <= (if local then 2 else 1)
  {
    RunKeepsSound(NewGuard(local), events);
  }
}

/** The guard object: each method runs its critical sections in order on its own fields. */
module ToolGuards {
  import opened GuardSteps
  import opened Options
  import opened Uuids

  /** What the SDK session returned: a transport error, a tool error, or an output that may not decode. */
  datatype Response = TransportError | ToolError(code: Option<ErrorCode>) | Output(decodes: bool)

  datatype CreateOutcome = Created | DefinitiveFailure | Unknown

  /** The closed set of tool error codes. */
  datatype ErrorCode =
    | ValidationFailed | PayloadTooLarge
    | NotFound | RevisionConflict | RateLimited | AgentAccessUnavailable | ScopeDenied
  {
    /** Only these, on a first send, prove that the server accepted nothing. */
    predicate Rejects() { ValidationFailed? || PayloadTooLarge? }
  }

  class ToolGuard {
    const local: bool
    var calls: nat
    var source: Option<string>
    var intent: Option<BoundIntent>
    var target: Option<string>
    var freshIntent: bool
    var createSends: nat
    var uploads: nat
    var crops: nat
    var conflictProbe: bool
    ghost var pending: (nat, nat, nat, nat)
    ghost var sent: seq<Call>

    /** The abstract guard. The history fields are the reserved sends, in the order of the steps, and the calls made. */
    ghost function View(): Guard
      reads this
    {
      Guard(local, calls, source, intent, target, freshIntent, createSends, uploads, crops, conflictProbe,
            pending.0, pending.1, pending.2, pending.3, sent)
    }

    constructor (local: bool)
      ensures View() == NewGuard(local) && Sound(View())
    {
      this.local := local;
      calls, source, intent, target, freshIntent := 0, None, None, None, false;
      createSends, uploads, crops, conflictProbe, pending, sent := 0, 0, 0, false, (0, 0, 0, 0), [];
    }

    method SetSource(id: string) returns (ok: bool)
      requires Sound(View())
      modifies this
      ensures View() == SetSourceStep(old(View()), id) && Sound(View())
      ensures ok <==> old(source).None? && ValidUuid(id)
      ensures source == if ok then Some(id) else old(source)
    {
      StepKeepsSound(View(), Event.SetSource(id));
      ok := !(source.Some? || !ValidUuid(id));
      if ok { source := Some(id); }
    }

    method BindIntent(bound: BoundIntent, first: bool) returns (ok: bool)
      requires Sound(View())
      modifies this
      ensures View() == BindIntentStep(old(View()), bound, first) && Sound(View())
      ensures ok <==> old(intent).None? && old(source) == Some(bound.sourceId)
      ensures ok ==> intent == Some(bound) && freshIntent == first
      ensures !ok ==> intent == old(intent) && freshIntent == old(freshIntent)
    {
      StepKeepsSound(View(), Event.BindIntent(bound, first));
      ok := !(intent.Some? || source.None? || Some(bound.sourceId) != source);
      if ok { intent, freshIntent := Some(bound), first; }
    }

    method BindTarget(id: string) returns (handle: Option<string>)
      requires Sound(View())
      modifies this
      ensures View() == BindTargetStep(old(View()), id) && Sound(View())
      ensures handle.Some? <==> && ValidUuid(id) && old(source) != Some(id) && old(intent).Some?
                                && (old(target).None? || old(target) == Some(id))
      ensures if handle.Some? then handle == target == Some(id) else target == old(target)
    {
      StepKeepsSound(View(), Event.BindTarget(id));
      if !ValidUuid(id) || Some(id) == source || intent.None? || (target.Some? && target != Some(id)) { return None; }
      target := Some(id);
      handle := target;
    }

    /** The one path to the session. */
    method Send(call: Call) returns (admitted: bool)
      modifies this
      ensures admitted <==> CallAdmitted(old(View()), call)
      ensures View() == MakeCall(old(View()), call)
      // Reads, the bound create without a resume of its own, and writes to the target that is not the source.
      ensures admitted <==>
                && old(calls) < 96
                && match call.tool
                   case ListResumes => true
                   case GetResume => true
                   case GetPhoto => true
                   case CreateResume =>
                     && old(intent).Some? && call.arguments.resumeId.Missing?
                     && call.arguments.key == Given(old(intent).value.key)
                     && call.arguments.document == Given(old(intent).value.payload)
                   case UploadPhoto =>
                     old(target).Some? && call.arguments.resumeId == Given(old(target).value) && old(target != source)
                   case UpdatePhotoCrop =>
                     old(target).Some? && call.arguments.resumeId == Given(old(target).value) && old(target != source)
                   case Other(_) => false
      ensures calls == old(calls) + (if admitted then 1 else 0) && sent == old(sent) + if admitted then [call] else []
    {
      admitted := call.tool.IsRead() || call.tool.IsMutation();
      if admitted && (calls >= MAX_TOOL_CALLS || (call.tool.IsMutation() && !Bound(call))) { admitted := false; }
      if admitted {
        calls := calls + 1;
        sent := sent + [call];
      }
    }

    predicate Bound(call: Call)
      reads this
      ensures Bound(call) <==> MutationBound(View(), call)
    {
      if call.tool.CreateResume? then
        && intent.Some? && call.arguments.key.Given? && call.arguments.document.Given?
        && call.arguments.resumeId.Missing?
        && call.arguments.key.value == intent.value.key && call.arguments.document.value == intent.value.payload
      else
        && call.arguments.resumeId.Given? && target.Some? && call.arguments.resumeId.value == target.value
        && Some(call.arguments.resumeId.value) != source
    }

    /** Sends the bound intent once, and classifies the answer. */
    method Create(response: Response) returns (outcome: CreateOutcome)
      requires Sound(View())
      modifies this
      ensures Sound(View())
      ensures View() == if CreateAllowed(old(View())) then SendCreateStep(ReserveCreateStep(old(View())))
              else old(View())
      ensures !outcome.Unknown? ==> intent.Some? && sent == old(sent) + [CreateCall(intent.value)]
      // A definitive failure is exactly a rejection of the only send of a fresh intent.
      ensures outcome.DefinitiveFailure? <==>
                && old(freshIntent) && old(createSends) == 0 && sent != old(sent)
                && response.ToolError? && response.code in {Some(ValidationFailed), Some(PayloadTooLarge)}
      // It is sent once, and in local mode once more when the target is known.
      ensures sent != old(sent) <==>
                && old(intent).Some? && old(calls) < 96
                && if local then old(createSends) == 0 || (old(createSends) == 1 && old(target).Some?)
                   else old(createSends) == 0 && old(target).None?
      ensures outcome.DefinitiveFailure? ==> freshIntent && Sends(sent, CreateResume) == 1
      ensures outcome.Created? <==> sent != old(sent) && response == Output(true)
    {
      hide CallAdmitted, CreateAllowed;
      var firstSend := createSends == 0 && freshIntent;
      var reserved := ReserveCreate();
      if !reserved { return Unknown; }
      var admitted := SendCreate();
      if !admitted { return Unknown; }
      SendsAppend(old(sent), CreateCall(intent.value), CreateResume);
      match response {
        case TransportError => outcome := Unknown;
        case ToolError(code) =>
          outcome := if code.Some? && firstSend && code.value.Rejects() then DefinitiveFailure else Unknown;
        case Output(decodes) => outcome := if decodes then Created else Unknown;
      }
    }

    method ReserveCreate() returns (ok: bool)
      requires Sound(View())
      modifies this
      ensures Sound(View()) && View() == ReserveCreateStep(old(View()))
      ensures ok <==> && old(intent).Some?
                      && if local then old(createSends) == 0 || (old(createSends) == 1 && old(target).Some?)
                         else old(createSends) == 0 && old(target).None?
      ensures ok <==> CreateAllowed(old(View()))
      ensures ok ==> createSends == old(createSends) + 1 && pending.0 > 0 && intent.Some?
      ensures sent == old(sent) && intent == old(intent) && freshIntent == old(freshIntent) && calls == old(calls)
    {
      hide Sound;
      ReserveKeepsSound(View(), Event.ReserveCreate);
      ok := CreateIsAllowed();
      if ok {
        createSends := createSends + 1;
        pending := (pending.0 + 1, pending.1, pending.2, pending.3);
      }
    }

    method SendCreate() returns (made: bool)
      requires Sound(View()) && pending.0 > 0 && intent.Some?
      modifies this
      ensures Sound(View()) && View() == SendCreateStep(old(View()))
      ensures createSends == old(createSends) && intent == old(intent) && freshIntent == old(freshIntent)
      ensures made <==> old(calls) < 96
      ensures sent == old(sent) + if made then [CreateCall(intent.value)] else []
    {
      hide Sound, CallAdmitted;
      ghost var before := View();
      pending := (pending.0 - 1, pending.1, pending.2, pending.3);
      made := Send(CreateCall(intent.value));
      assert View() == SendCreateStep(before);
      assert Sound(View()) by { SendCreateKeepsSound(before); }
    }

    predicate CreateIsAllowed()
      reads this
      ensures CreateIsAllowed() <==> CreateAllowed(View())
    {
      if intent.None? then false
      else if local then createSends == 0 || (createSends == 1 && target.Some?)
      else createSends == 0 && target.None?
    }

    /** The photo goes to the bound target at most once; an invalid argument still uses the reservation up. */
    method UploadPhoto(id: string, key: string, revisionValid: bool, size: nat) returns (made: bool)
      requires Sound(View())
      modifies this
      ensures Sound(View())
      ensures View() == if !WriteAllowed(old(View()), id, old(uploads) != 0) then old(View())
                        else if revisionValid && ValidUuid(key) && 0 < size <= MAX_DECODED_PHOTO_BYTES
                            then SendUploadStep(ReserveUploadStep(old(View()), id), key)
                        else AbandonUploadStep(ReserveUploadStep(old(View()), id))
      ensures made <==> && old(target) == Some(id) && old(source) != Some(id) && old(uploads) == 0
                        && revisionValid && ValidUuid(key) && 0 < size <= 2_097_152 && old(calls) < 96
      ensures sent == old(sent) + if made then [TargetCall(Tool.UploadPhoto, id, key)] else []
    {
      hide Sound, SendUploadStep;
      var reserved := ReserveUpload(id);
      if !reserved { return false; }
      if revisionValid && ValidUuid(key) && 0 < size <= MAX_DECODED_PHOTO_BYTES {
        made := SendUpload(id, key);
      } else {
        ghost var reservedView := View();
        ReserveKeepsSound(reservedView, AbandonUpload);
        pending := (pending.0, pending.1 - 1, pending.2, pending.3);
        assert View() == AbandonUploadStep(reservedView);
        made := false;
      }
    }

    method ReserveUpload(id: string) returns (ok: bool)
      requires Sound(View())
      modifies this
      ensures Sound(View()) && View() == ReserveUploadStep(old(View()), id)
      ensures ok <==> WriteAllowed(old(View()), id, old(uploads) != 0)
      ensures ok <==> old(target) == Some(id) && old(source) != Some(id) && old(uploads) == 0
      ensures ok ==> target == Some(id) && pending.1 > 0
      ensures sent == old(sent) && calls == old(calls) && source == old(source)
    {
      hide Sound;
      ReserveKeepsSound(View(), Event.ReserveUpload(id));
      ok := !(target.None? || Some(id) != target || Some(id) == source || uploads != 0);
      if ok {
        uploads := 1;
        pending := (pending.0, pending.1 + 1, pending.2, pending.3);
      }
    }

    method SendUpload(id: string, key: string) returns (made: bool)
      requires Sound(View()) && pending.1 > 0 && target == Some(id)
      modifies this
      ensures Sound(View()) && View() == SendUploadStep(old(View()), key)
      ensures made <==> old(calls) < 96 && old(source) != Some(id)
      ensures sent == old(sent) + if made then [TargetCall(Tool.UploadPhoto, id, key)] else []
    {
      hide Sound, CallAdmitted;
      SendUploadKeepsSound(View(), key);
      pending := (pending.0, pending.1 - 1, pending.2, pending.3);
      made := Send(TargetCall(Tool.UploadPhoto, id, key));
    }

    /** The same for the crop. */
    method CropPhoto(id: string, key: string, revisionValid: bool, cropValid: bool) returns (made: bool)
      requires Sound(View())
      modifies this
      ensures Sound(View())
      ensures View() == if !WriteAllowed(old(View()), id, old(crops) != 0) then old(View())
                        else if revisionValid && ValidUuid(key) && cropValid
                            then SendCropStep(ReserveCropStep(old(View()), id), key)
                        else AbandonCropStep(ReserveCropStep(old(View()), id))
      ensures made <==> && old(target) == Some(id) && old(source) != Some(id) && old(crops) == 0
                        && revisionValid && ValidUuid(key) && cropValid && old(calls) < 96
      ensures sent == old(sent) + if made then [TargetCall(UpdatePhotoCrop, id, key)] else []
    {
      hide Sound, SendCropStep;
      var reserved := ReserveCrop(id);
      if !reserved { return false; }
      if revisionValid && ValidUuid(key) && cropValid {
        made := SendCrop(id, key);
      } else {
        ghost var reservedView := View();
        ReserveKeepsSound(reservedView, AbandonCrop);
        pending := (pending.0, pending.1, pending.2 - 1, pending.3);
        assert View() == AbandonCropStep(reservedView);
        made := false;
      }
    }

    method ReserveCrop(id: string) returns (ok: bool)
      requires Sound(View())
      modifies this
      ensures Sound(View()) && View() == ReserveCropStep(old(View()), id)
      ensures ok <==> WriteAllowed(old(View()), id, old(crops) != 0)
      ensures ok <==> old(target) == Some(id) && old(source) != Some(id) && old(crops) == 0
      ensures ok ==> target == Some(id) && pending.2 > 0
      ensures sent == old(sent) && calls == old(calls) && source == old(source)
    {
      hide Sound;
      ReserveKeepsSound(View(), Event.ReserveCrop(id));
      ok := !(target.None? || Some(id) != target || Some(id) == source || crops != 0);
      if ok {
        crops := 1;
        pending := (pending.0, pending.1, pending.2 + 1, pending.3);
      }
    }

    method SendCrop(id: string, key: string) returns (made: bool)
      requires Sound(View()) && pending.2 > 0 && target == Some(id)
      modifies this
      ensures Sound(View()) && View() == SendCropStep(old(View()), key)
      ensures made <==> old(calls) < 96 && old(source) != Some(id)
      ensures sent == old(sent) + if made then [TargetCall(UpdatePhotoCrop, id, key)] else []
    {
      hide Sound, CallAdmitted;
      SendCropKeepsSound(View(), key);
      pending := (pending.0, pending.1, pending.2 - 1, pending.3);
      made := Send(TargetCall(UpdatePhotoCrop, id, key));
    }

    /** Local proof only: one crop that must be refused as stale. */
    method StaleCropProbe(id: string, key: string) returns (made: bool)
      requires Sound(View())
      modifies this
      ensures Sound(View())
      ensures var allowed := local && WriteAllowed(old(View()), id, old(conflictProbe));
              View() == if allowed then SendProbeStep(ReserveProbeStep(old(View()), id), key) else old(View())
      ensures made <==> && local && old(target) == Some(id) && old(source) != Some(id) && !old(conflictProbe)
                        && old(calls) < 96
      ensures sent == old(sent) + if made then [TargetCall(UpdatePhotoCrop, id, key)] else []
    {
      var reserved := ReserveProbe(id);
      if !reserved { return false; }
      made := SendProbe(id, key);
    }

    method ReserveProbe(id: string) returns (ok: bool)
      requires Sound(View())
      modifies this
      ensures Sound(View()) && View() == ReserveProbeStep(old(View()), id)
      ensures ok <==> local && WriteAllowed(old(View()), id, old(conflictProbe))
      ensures ok <==> local && old(target) == Some(id) && old(source) != Some(id) && !old(conflictProbe)
      ensures ok ==> target == Some(id) && pending.3 > 0
      ensures sent == old(sent) && calls == old(calls) && source == old(source)
    {
      hide Sound;
      ReserveKeepsSound(View(), Event.ReserveProbe(id));
      ok := !(!local || conflictProbe || target.None? || Some(id) != target || Some(id) == source);
      if ok {
        conflictProbe := true;
        pending := (pending.0, pending.1, pending.2, pending.3 + 1);
      }
    }

    method SendProbe(id: string, key: string) returns (made: bool)
      requires Sound(View()) && pending.3 > 0 && target == Some(id)
      modifies this
      ensures Sound(View()) && View() == SendProbeStep(old(View()), key)
      ensures made <==> old(calls) < 96 && old(source) != Some(id)
      ensures sent == old(sent) + if made then [TargetCall(UpdatePhotoCrop, id, key)] else []
    {
      hide Sound, CallAdmitted;
      SendProbeKeepsSound(View(), key);
      pending := (pending.0, pending.1, pending.2, pending.3 - 1);
      made := Send(TargetCall(UpdatePhotoCrop, id, key));
    }
  }
}
