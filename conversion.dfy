/**
 * The conversion orchestrator of `services/conversion.ts`: an optional
 * vector precheck, an access check, and a credit deduction for free users.
 * The three awaited collaborators are calls on a `Backend` whose answers
 * are fixed by its oracles and whose calls are recorded in a ghost log.
 */
module Conversion {
  import opened Wrappers
  import Tools
  import Strings
  import PdfUtils

  /** The uploaded file; the content is there for the vector-check oracle. */
  datatype FileRef = FileRef(name: string, content: seq<int>)

  datatype RequestUser = RequestUser(id: string, planType: string)

  /** `ConversionRequest`. The size is carried through to the deduction only. */
  datatype Request = Request(user: RequestUser, toolKey: string, file: FileRef, fileSizeMB: real)

  /** What `canUserUseTool` resolves to; `reason` may be missing or empty. */
  datatype AccessResult = AccessResult(allowed: bool, reason: Option<string>)

  /**
   * The errors `executeConversion` throws: `VECTOR_REQUIRED`, or the
   * access check's message.
   */
  datatype ConversionError =
    | VectorRequired
    | AccessDenied(message: string)

  /** One call into a collaborator. */
  datatype Event =
    | VectorChecked(fileName: string)
    | AccessChecked(userId: string, toolKey: string)
    | CreditDeducted(userId: string, toolKey: string, fileSizeMB: real)

  /** The only key that gets the vector precheck is the literal `pdf_to_dwg`. */
  const VectorTool: string := "pdf_to_dwg"

  /** For a key in the registry, the literal-key gate agrees with `vector_only`. */
  function NeedsVectorCheck(toolKey: string): (r: bool)
    ensures toolKey in Tools.ConversionTools ==> (r <==> Tools.ConversionTools[toolKey].vectorOnly)
    ensures r ==> toolKey in Tools.ConversionTools
  {
    toolKey == VectorTool
  }

  /** `accessResult.reason || "Access denied"`: a missing or empty reason becomes the default. */
  function DenialMessage(reason: Option<string>): (m: string)
    ensures m != ""
    ensures reason.Some? && reason.value != "" ==> m == reason.value
    ensures reason.None? || reason.value == "" ==> m == "Access denied"
  {
    match reason
    case Some(text) => if text != "" then text else "Access denied"
    case None => "Access denied"
  }

  lemma CountAppendAll(a: seq<Event>, b: seq<Event>)
    ensures forall call :: Count(a + b, call) == Count(a, call) + Count(b, call)
  {
    forall call ensures Count(a + b, call) == Count(a, call) + Count(b, call) {
      CountAppend(a, b, call);
    }
  }

  lemma CountSingle(e: Event)
    ensures forall call :: Count([e], call) == if IsCall(e, call) then 1 else 0
  {
    assert [e][1..] == [];
  }

  /** The outcome of one request together with the calls it made, in order. */
  datatype Run = Run(outcome: Outcome<ConversionError>, trace: seq<Event>)

  /** The three collaborator calls, as kinds of event. */
  datatype Call = VectorCheck | AccessCheck | Deduction

  predicate IsCall(e: Event, call: Call) {
    match call
    case VectorCheck => e.VectorChecked?
    case AccessCheck => e.AccessChecked?
    case Deduction => e.CreditDeducted?
  }

  /** How many calls of one kind a trace holds. */
  function Count(trace: seq<Event>, call: Call): nat {
    if trace == [] then 0
    else (if IsCall(trace[0], call) then 1 else 0) + Count(trace[1..], call)
  }

  lemma {:induction false} CountAppend(a: seq<Event>, b: seq<Event>, call: Call)
    ensures Count(a + b, call) == Count(a, call) + Count(b, call)
  {
    if a == [] {
      assert a + b == b;
    } else {
      assert (a + b)[1..] == a[1..] + b;
      CountAppend(a[1..], b, call);
    }
  }

  /**
   * What `executeConversion` does, given the answer `vectorOk` the vector
   * check gives for the request's file and the answer `access` the access
   * check gives for the request's user and key.
   */
  function Execute(req: Request, vectorOk: bool, access: AccessResult): (r: Run)
    // the vector check runs once for the literal key, first, and never for any other key
    ensures Count(r.trace, VectorCheck) == if req.toolKey == VectorTool then 1 else 0
    ensures req.toolKey == VectorTool ==> r.trace[0] == VectorChecked(req.file.name)
    // a failed vector check stops the request before anything else
    ensures req.toolKey == VectorTool && !vectorOk ==>
      r == Run(Fail(VectorRequired), [VectorChecked(req.file.name)])
    // otherwise the access check is made exactly once, right after it
    ensures (req.toolKey != VectorTool || vectorOk) ==>
      var k := if req.toolKey == VectorTool then 1 else 0;
      |r.trace| > k && r.trace[k] == AccessChecked(req.user.id, req.toolKey) &&
      (access.allowed ==> r.outcome == Pass) &&
      (!access.allowed ==> r.outcome == Fail(AccessDenied(DenialMessage(access.reason))) && |r.trace| == k + 1)
    // the access check runs at most once
    ensures Count(r.trace, AccessCheck) == if req.toolKey != VectorTool || vectorOk then 1 else 0
    // the credit is deducted once exactly when access is granted to a free user, and last
    ensures Count(r.trace, Deduction) == if r.outcome.Pass? && req.user.planType == "free" then 1 else 0
    ensures Count(r.trace, Deduction) == 1 ==>
      r.trace[|r.trace| - 1] == CreditDeducted(req.user.id, req.toolKey, req.fileSizeMB)
    ensures r.outcome.Pass? ==> access.allowed && (req.toolKey == VectorTool ==> vectorOk)
    ensures |r.trace| <= 3
  {
    var vectorCalls := if req.toolKey == VectorTool then [VectorChecked(req.file.name)] else [];
    CountSingle(VectorChecked(req.file.name));
    if req.toolKey == VectorTool && !vectorOk then
      Run(Fail(VectorRequired), vectorCalls)
    else
      var checked := vectorCalls + [AccessChecked(req.user.id, req.toolKey)];
      CountSingle(AccessChecked(req.user.id, req.toolKey));
      CountAppendAll(vectorCalls, [AccessChecked(req.user.id, req.toolKey)]);
      if !access.allowed then
        Run(Fail(AccessDenied(DenialMessage(access.reason))), checked)
      else
        var deducted := if req.user.planType == "free"
          then [CreditDeducted(req.user.id, req.toolKey, req.fileSizeMB)] else [];
        CountSingle(CreditDeducted(req.user.id, req.toolKey, req.fileSizeMB));
        CountAppendAll(checked, deducted);
        Run(Pass, checked + deducted)
  }

  /**
   * With the extractor mocks behind the vector check, a `pdf_to_dwg`
   * request is refused for its file exactly when the lower-cased file name
   * mentions "scan" or "image", and then nothing but the vector check runs.
   */
  lemma MockedVectorGate(req: Request, access: AccessResult)
    requires req.toolKey == VectorTool
    ensures var lower := Strings.ToLower(req.file.name);
      var run := Execute(req, PdfUtils.IsVectorPdf(req.file.name), access);
      (run.outcome == Fail(VectorRequired) <==> Strings.Contains(lower, "scan") || Strings.Contains(lower, "image")) &&
      (run.outcome == Fail(VectorRequired) ==> run.trace == [VectorChecked(req.file.name)])
  {
  }

  /**
   * The gate compares the raw key: an un-normalised display name such as
   * "PDF to DWG" never gets the vector check and never fails with it.
   */
  lemma DisplayNameSkipsVectorCheck(req: Request, vectorOk: bool, access: AccessResult)
    requires req.toolKey == "PDF to DWG"
    ensures var run := Execute(req, vectorOk, access);
      Count(run.trace, VectorCheck) == 0 && run.outcome != Fail(VectorRequired) &&
      run.trace[0] == AccessChecked(req.user.id, req.toolKey)
  {
    assert req.toolKey[0] != VectorTool[0];
  }

  /**
   * The collaborators `isVectorPDF`, `canUserUseTool` and `deductCredit`.
   * Their answers are given by the two oracles; every call is logged.
   */
  class Backend {
    const isVector: FileRef -> bool
    const canUse: (string, string) -> AccessResult
    ghost var log: seq<Event>

    constructor (isVector: FileRef -> bool, canUse: (string, string) -> AccessResult)
      ensures this.isVector == isVector && this.canUse == canUse
      ensures log == []
    {
      this.isVector := isVector;
      this.canUse := canUse;
      log := [];
    }

    method IsVectorPdf(file: FileRef) returns (ok: bool)
      modifies this
      ensures ok == isVector(file)
      ensures log == old(log) + [VectorChecked(file.name)]
    {
      ok := isVector(file);
      log := log + [VectorChecked(file.name)];
    }

    method CanUserUseTool(userId: string, toolKey: string) returns (result: AccessResult)
      modifies this
      ensures result == canUse(userId, toolKey)
      ensures log == old(log) + [AccessChecked(userId, toolKey)]
    {
      result := canUse(userId, toolKey);
      log := log + [AccessChecked(userId, toolKey)];
    }

    method DeductCredit(userId: string, toolKey: string, fileSizeMB: real)
      modifies this
      ensures log == old(log) + [CreditDeducted(userId, toolKey, fileSizeMB)]
    {
      log := log + [CreditDeducted(userId, toolKey, fileSizeMB)];
    }
  }

  /** `executeConversion`: the calls it makes and its outcome are those of `Execute`. */
  method ExecuteConversion(backend: Backend, req: Request) returns (outcome: Outcome<ConversionError>)
    modifies backend
    ensures var run := Execute(req, backend.isVector(req.file), backend.canUse(req.user.id, req.toolKey));
      outcome == run.outcome && backend.log == old(backend.log) + run.trace
  {
    ghost var before := backend.log;
    if req.toolKey == VectorTool {
      var vectorOk := backend.IsVectorPdf(req.file);
      if !vectorOk {
        return Fail(VectorRequired);
      }
    }
    var accessResult := backend.CanUserUseTool(req.user.id, req.toolKey);
    if !accessResult.allowed {
      return Fail(AccessDenied(DenialMessage(accessResult.reason)));
    }
    if req.user.planType == "free" {
      backend.DeductCredit(req.user.id, req.toolKey, req.fileSizeMB);
    }
    outcome := Pass;
  }
}
