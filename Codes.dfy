/**
 * Submission states, per-case verdicts and the decoding of a judge's status bitmask
 * (judge/bridge/judgecallback.py).
 */
module Codes {

  /** The lifecycle state of a submission: QU, P, G, D, CE, IE, AB. */
  datatype Status = Queued | Processing | Grading | Done | CompileError | InternalError | Aborted

  /** The verdict of one test case. */
  datatype CaseStatus = SC | AC | WA | MLE | TLE | IR | RTE | OLE

  /** The `result` field of a submission: a case verdict, or one of the side exits. */
  datatype ResultCode = Graded(verdict: CaseStatus) | CompileFailed | InternalFailure | AbortedResult

  /** `status_codes`, in ascending severity. */
  const StatusCodes: seq<CaseStatus> := [SC, AC, WA, MLE, TLE, IR, RTE, OLE]

  /** `status_codes.index(s)`: the position of a verdict in the severity order. */
  function Severity(s: CaseStatus): (i: nat)
    ensures i < |StatusCodes| && StatusCodes[i] == s
  {
    match s
    case SC => 0
    case AC => 1
    case WA => 2
    case MLE => 3
    case TLE => 4
    case IR => 5
    case RTE => 6
    case OLE => 7
  }

  /** Whether the bit of value `bit` (a power of two) is set in `mask` (`mask & bit` in the source). */
  predicate HasBit(mask: nat, bit: nat)
    requires bit > 0
  {
    (mask / bit) % 2 == 1
  }

  /** The bits a judge may report, each with the verdict it stands for, in the order they are tested. */
  const Priority: seq<(nat, CaseStatus)> :=
    [(4, TLE), (8, MLE), (64, OLE), (2, RTE), (16, IR), (1, WA), (32, SC)]

  /** Decodes a case's status bitmask: the first set bit in `Priority` wins, AC when none is set. */
  function DecodeStatus(mask: nat): (r: CaseStatus)
    ensures r == AC || exists k :: 0 <= k < |Priority| && Priority[k].1 == r && HasBit(mask, Priority[k].0)
    ensures r != AC ==> forall k :: 0 <= k < |Priority| && Priority[k].1 == r ==> HasBit(mask, Priority[k].0)
  {
    assert Priority[0] == (4, TLE) && Priority[1] == (8, MLE) && Priority[2] == (64, OLE) && Priority[3] == (2, RTE);
    assert Priority[4] == (16, IR) && Priority[5] == (1, WA) && Priority[6] == (32, SC);
    if HasBit(mask, 4) then TLE
    else if HasBit(mask, 8) then MLE
    else if HasBit(mask, 64) then OLE
    else if HasBit(mask, 2) then RTE
    else if HasBit(mask, 16) then IR
    else if HasBit(mask, 1) then WA
    else if HasBit(mask, 32) then SC
    else AC
  }

  /** The index in `Priority` of the first bit set in `mask`, or |Priority| when none is. */
  function FirstSetBit(mask: nat, from: nat): (k: nat)
    requires from <= |Priority|
    ensures from <= k <= |Priority|
    ensures forall j :: from <= j < k ==> !HasBit(mask, Priority[j].0)
    ensures k < |Priority| ==> HasBit(mask, Priority[k].0)
    decreases |Priority| - from
  {
    if from == |Priority| then from
    else if HasBit(mask, Priority[from].0) then from
    else FirstSetBit(mask, from + 1)
  }

  /**
   * The decoded verdict is the one of the highest-priority bit that is set, and AC exactly
   * when no bit of `Priority` is set; every bit of higher priority is clear.
   */
  lemma DecodeFollowsPriority(mask: nat)
    ensures var k := FirstSetBit(mask, 0);
            (k == |Priority| ==> DecodeStatus(mask) == AC) &&
            (k < |Priority| ==> DecodeStatus(mask) == Priority[k].1)
    ensures DecodeStatus(mask) == AC <==> forall j :: 0 <= j < |Priority| ==> !HasBit(mask, Priority[j].0)
  {
    var k := FirstSetBit(mask, 0);
    assert forall j :: 0 <= j < k ==> !HasBit(mask, Priority[j].0);
    if k < |Priority| {
      assert HasBit(mask, Priority[k].0);
    }
  }

  /** TLE together with WA decodes to TLE. */
  lemma TimeLimitBeatsWrongAnswer()
    ensures DecodeStatus(4 + 1) == TLE
  {
  }
}
