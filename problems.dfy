/** Diagnostics attached to a profile patch: a list of problems and the worst
    severity among them. `ProfilePatch::addProblem` itself is not part of this
    model; it is taken to append one entry and raise the severity to the
    maximum of the old severity and the new entry's. */
module Problems {

  /** PROBLEM_NONE < PROBLEM_WARNING < PROBLEM_ERROR. */
  datatype ProblemSeverity = ProblemNone | ProblemWarning | ProblemError

  function Rank(s: ProblemSeverity): nat
  {
    match s
    case ProblemNone => 0
    case ProblemWarning => 1
    case ProblemError => 2
  }

  /** The more severe of two severities. */
  function MaxSeverity(a: ProblemSeverity, b: ProblemSeverity): (r: ProblemSeverity)
    ensures r == a || r == b
    ensures Rank(a) <= Rank(r) && Rank(b) <= Rank(r)
  {
    if Rank(a) >= Rank(b) then a else b
  }

  datatype PatchProblem = PatchProblem(severity: ProblemSeverity, message: string)

  /** A problem list together with the severity recorded beside it
      (`m_problems` and `m_problemSeverity`). */
  datatype ProblemLog = ProblemLog(entries: seq<PatchProblem>, severity: ProblemSeverity)

  /** The state right after `m_problems.clear()` and `m_problemSeverity = PROBLEM_NONE`. */
  const EmptyLog := ProblemLog([], ProblemNone)

  /** The worst severity among the entries, `ProblemNone` for no entries. */
  function Worst(ps: seq<PatchProblem>): (r: ProblemSeverity)
    ensures forall i :: 0 <= i < |ps| ==> Rank(ps[i].severity) <= Rank(r)
    ensures r == ProblemNone || exists i :: 0 <= i < |ps| && ps[i].severity == r
    decreases |ps|
  {
    if ps == [] then ProblemNone
    else
      var rest := Worst(ps[1..]);
      assert forall i :: 1 <= i < |ps| ==> ps[i] == ps[1..][i - 1];
      MaxSeverity(ps[0].severity, rest)
  }

  /** A log is consistent when its severity is the worst of its entries. */
  predicate Consistent(log: ProblemLog)
  {
    log.severity == Worst(log.entries)
  }

  lemma {:induction false} WorstAppend(ps: seq<PatchProblem>, p: PatchProblem)
    ensures Worst(ps + [p]) == MaxSeverity(Worst(ps), p.severity)
    decreases |ps|
  {
    if ps == [] {
      assert [] + [p] == [p];
      assert [p][1..] == [];
    } else {
      assert (ps + [p])[1..] == ps[1..] + [p];
      WorstAppend(ps[1..], p);
    }
  }

  /** `addProblem(severity, message)`: appends the entry and raises the severity. */
  function AddProblem(log: ProblemLog, severity: ProblemSeverity, message: string): (r: ProblemLog)
    ensures r.entries == log.entries + [PatchProblem(severity, message)]
    ensures r.severity == log.severity || r.severity == severity
    ensures Rank(log.severity) <= Rank(r.severity) && Rank(severity) <= Rank(r.severity)
    ensures Consistent(log) ==> Consistent(r)
  {
    WorstAppend(log.entries, PatchProblem(severity, message));
    ProblemLog(log.entries + [PatchProblem(severity, message)], MaxSeverity(log.severity, severity))
  }

  /** Recording one problem on a cleared log leaves exactly that problem, at its severity. */
  lemma SingleProblem(severity: ProblemSeverity, message: string)
    ensures AddProblem(EmptyLog, severity, message) == ProblemLog([PatchProblem(severity, message)], severity)
    ensures Consistent(AddProblem(EmptyLog, severity, message))
  {
  }
}
