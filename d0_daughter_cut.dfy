/**
 * The single-track gate for the daughters of a D0 candidate (class
 * AliRsnCutDaughterD0 of the resonance package): detector status bits, a
 * track-quality sub-cut, then a PID decision on the TPC and TOF sigma
 * deviations whose thresholds depend on the species hypothesis, on whether
 * TOF matched, on the cut mode and on momentum buckets.
 *
 * Momenta and sigma deviations are reals; only comparisons are involved.
 * The results of the framework calls (TargetOK, the dynamic cast, the status
 * word, the quality sub-cut, the PID response service, MatchTOF and the two
 * NumberOfSigmas calls) are fields of the candidate.
 */
module RsnCutDaughterD0 {

  /** The species hypothesis `fPID`; the gate only distinguishes pions and kaons. */
  datatype Species = Pion | Kaon | OtherSpecies

  /** The "no limit" value: `IsSelected` starts both maxima (and an unmatched TOF deviation) at 1E20. */
  const NoLimit: real := 1.0e20

  /** The configuration fields `IsSelected` reads. */
  datatype CutConfig = CutConfig(
    noPID: bool,
    pid: Species,
    pionTPCMax: real,
    kaonTPCMax: real,
    pionTOFMax: real,
    kaonTOFMax: real,
    ptDependent: bool)

  /** What `IsSelected` learns about one candidate from the framework. */
  datatype Candidate = Candidate(
    targetOK: bool,        // TargetOK(obj)
    isTrack: bool,         // the daughter reference casts to a track
    tpcIn: bool,           // status bit kTPCin
    tpcRefit: bool,        // status bit kTPCrefit
    itsRefit: bool,        // status bit kITSrefit
    qualityOK: bool,       // the quality sub-cut accepts
    hasPIDResponse: bool,  // the event provides a PID response
    tofMatched: bool,      // MatchTOF(track)
    p: real,               // total momentum
    pTPC: real,            // momentum at the TPC inner wall
    nSigmaTPC: real,       // signed TPC deviation for the hypothesis
    nSigmaTOF: real)       // signed TOF deviation for the hypothesis

  /** A maximum allowed deviation, or an unconditional rejection. */
  datatype Threshold = Max(limit: real) | Reject

  function Abs(x: real): (r: real)
    ensures r >= 0.0
    ensures r == x || r == -x
  {
    if x < 0.0 then -x else x
  }

  /** The constructor: PID on, fixed-threshold mode, every maximum 3 sigma. */
  function NewCut(pid: Species): (c: CutConfig)
    ensures c.pid == pid && !c.noPID && !c.ptDependent
    ensures c.pionTPCMax == c.kaonTPCMax == c.pionTOFMax == c.kaonTOFMax == 3.0
  {
    CutConfig(false, pid, 3.0, 3.0, 3.0, 3.0, false)
  }

  /** Fixed mode: the species' TPC maximum, or the 1E20 start value for another species. */
  function FixedMaxTPC(c: CutConfig): real
  {
    match c.pid
    case Pion => c.pionTPCMax
    case Kaon => c.kaonTPCMax
    case OtherSpecies => NoLimit
  }

  /** Fixed mode: the species' TOF maximum, or the 1E20 start value for another species. */
  function FixedMaxTOF(c: CutConfig): real
  {
    match c.pid
    case Pion => c.pionTOFMax
    case Kaon => c.kaonTOFMax
    case OtherSpecies => NoLimit
  }

  /** Momentum-dependent mode with TOF: 3 sigma strictly below 1.5 GeV, 2 sigma from 1.5 GeV on. */
  function PtDepMaxTOF(p: real): (m: real)
    ensures m == 2.0 || m == 3.0
    ensures m == 3.0 <==> p < 1.5
  {
    if p < 1.5 then 3.0 else 2.0
  }

  /** Momentum-dependent mode without TOF: the TPC threshold for a TPC momentum. */
  function PtDepMaxTPC(pid: Species, pTPC: real): (t: Threshold)
    ensures t.Reject? <==> pid == Kaon && pTPC > 0.7
    ensures t.Max? && pid != OtherSpecies ==> 2.0 <= t.limit <= 5.0
    ensures t.Max? && t.limit > 5.0 ==> pid == OtherSpecies && pTPC > 0.5
  {
    if pTPC <= 0.35 then Max(5.0)
    else if pTPC > 0.35 && pTPC <= 0.5 then Max(3.0)
    else
      match pid
      case Pion => Max(2.0)
      case Kaon => if pTPC <= 0.7 then Max(2.0) else Reject
      case OtherSpecies => Max(NoLimit)
  }

  /** The PID part of the gate, on the absolute deviations. */
  function PIDAccepts(c: CutConfig, tof: bool, p: real, pTPC: real, nsTPC: real, nsTOF: real): bool
  {
    if !c.ptDependent then
      if tof then nsTPC <= FixedMaxTPC(c) && nsTOF <= FixedMaxTOF(c)
      else nsTPC <= FixedMaxTPC(c)
    else if tof then
      if nsTPC > 5.0 then false else nsTOF <= PtDepMaxTOF(p)
    else
      match PtDepMaxTPC(c.pid, pTPC)
      case Reject => false
      case Max(m) => nsTPC <= m
  }

  /** Every check before the PID decision passes. */
  predicate PassesPrechecks(t: Candidate)
  {
    t.targetOK && t.isTrack && t.tpcIn && t.tpcRefit && t.itsRefit && t.qualityOK
  }

  /** `AliRsnCutDaughterD0::IsSelected`. */
  function IsSelected(c: CutConfig, t: Candidate): (ok: bool)
    ensures ok ==> PassesPrechecks(t)
    ensures PassesPrechecks(t) && c.noPID ==> ok
    ensures ok && !c.noPID ==> t.hasPIDResponse
    ensures ok && !c.noPID && c.ptDependent && t.tofMatched ==> Abs(t.nSigmaTPC) <= 5.0
    ensures ok && !c.noPID && c.ptDependent && !t.tofMatched && c.pid == Kaon ==> t.pTPC <= 0.7
  {
    if !t.targetOK then false
    else if !t.isTrack then false
    else if !t.tpcIn then false
    else if !t.tpcRefit then false
    else if !t.itsRefit then false
    else if !t.qualityOK then false
    else if c.noPID then true
    else if !t.hasPIDResponse then false
    else
      var nsTPC := Abs(t.nSigmaTPC);
      var nsTOF := if t.tofMatched then Abs(t.nSigmaTOF) else NoLimit;
      PIDAccepts(c, t.tofMatched, t.p, t.pTPC, nsTPC, nsTOF)
  }

  /** Reaches the PID decision with PID required. */
  predicate ReachesPID(c: CutConfig, t: Candidate)
  {
    PassesPrechecks(t) && t.hasPIDResponse && !c.noPID
  }

  // ---------------------------------------------------------------------
  // The decision table, bucket by bucket
  // ---------------------------------------------------------------------

  lemma MissingStatusBitRejects(c: CutConfig, t: Candidate)
    requires !t.tpcIn || !t.tpcRefit || !t.itsRefit
    ensures !IsSelected(c, t)
  {
  }

  lemma NoPIDAcceptsAnySigma(c: CutConfig, t: Candidate)
    requires PassesPrechecks(t) && c.noPID
    ensures IsSelected(c, t)
    ensures forall x, y :: IsSelected(c, t.(nSigmaTPC := x, nSigmaTOF := y))
  {
  }

  lemma FixedModeWithTOF(c: CutConfig, t: Candidate)
    requires ReachesPID(c, t) && !c.ptDependent && t.tofMatched
    ensures c.pid == Pion ==>
      (IsSelected(c, t) <==> Abs(t.nSigmaTPC) <= c.pionTPCMax && Abs(t.nSigmaTOF) <= c.pionTOFMax)
    ensures c.pid == Kaon ==>
      (IsSelected(c, t) <==> Abs(t.nSigmaTPC) <= c.kaonTPCMax && Abs(t.nSigmaTOF) <= c.kaonTOFMax)
    ensures c.pid == OtherSpecies ==>
      (IsSelected(c, t) <==> Abs(t.nSigmaTPC) <= NoLimit && Abs(t.nSigmaTOF) <= NoLimit)
  {
  }

  lemma FixedModeWithoutTOF(c: CutConfig, t: Candidate, otherTOF: real)
    requires ReachesPID(c, t) && !c.ptDependent && !t.tofMatched
    ensures c.pid == Pion ==> (IsSelected(c, t) <==> Abs(t.nSigmaTPC) <= c.pionTPCMax)
    ensures c.pid == Kaon ==> (IsSelected(c, t) <==> Abs(t.nSigmaTPC) <= c.kaonTPCMax)
    ensures c.pid == OtherSpecies ==> (IsSelected(c, t) <==> Abs(t.nSigmaTPC) <= NoLimit)
    ensures IsSelected(c, t) == IsSelected(c, t.(nSigmaTOF := otherTOF))
  {
  }

  /** With the constructor's settings a pion or kaon passes iff every matched deviation is within 3 sigma. */
  lemma DefaultCutIsThreeSigma(s: Species, t: Candidate)
    requires ReachesPID(NewCut(s), t) && s != OtherSpecies
    ensures IsSelected(NewCut(s), t) <==>
      Abs(t.nSigmaTPC) <= 3.0 && (t.tofMatched ==> Abs(t.nSigmaTOF) <= 3.0)
  {
  }

  lemma PtDepWithTOF(c: CutConfig, t: Candidate)
    requires ReachesPID(c, t) && c.ptDependent && t.tofMatched
    ensures Abs(t.nSigmaTPC) > 5.0 ==> !IsSelected(c, t)
    ensures IsSelected(c, t) <==>
      Abs(t.nSigmaTPC) <= 5.0 && Abs(t.nSigmaTOF) <= (if t.p < 1.5 then 3.0 else 2.0)
  {
  }

  lemma PtDepWithoutTOF(c: CutConfig, t: Candidate)
    requires ReachesPID(c, t) && c.ptDependent && !t.tofMatched
    ensures t.pTPC <= 0.35 ==> (IsSelected(c, t) <==> Abs(t.nSigmaTPC) <= 5.0)
    ensures 0.35 < t.pTPC <= 0.5 ==> (IsSelected(c, t) <==> Abs(t.nSigmaTPC) <= 3.0)
    ensures 0.5 < t.pTPC && c.pid == Pion ==> (IsSelected(c, t) <==> Abs(t.nSigmaTPC) <= 2.0)
    ensures 0.5 < t.pTPC <= 0.7 && c.pid == Kaon ==> (IsSelected(c, t) <==> Abs(t.nSigmaTPC) <= 2.0)
    ensures 0.7 < t.pTPC && c.pid == Kaon ==> !IsSelected(c, t)
    ensures 0.5 < t.pTPC && c.pid == OtherSpecies ==> (IsSelected(c, t) <==> Abs(t.nSigmaTPC) <= NoLimit)
  {
  }

  /** The decision reads each deviation only through its absolute value. */
  lemma SignOfDeviationIrrelevant(c: CutConfig, t: Candidate)
    ensures IsSelected(c, t) == IsSelected(c, t.(nSigmaTPC := -t.nSigmaTPC))
    ensures IsSelected(c, t) == IsSelected(c, t.(nSigmaTOF := -t.nSigmaTOF))
  {
  }

  /** A candidate that passes still passes with deviations no larger in magnitude. */
  lemma SmallerDeviationStaysAccepted(c: CutConfig, t: Candidate, tpc: real, tof: real)
    requires IsSelected(c, t)
    requires Abs(tpc) <= Abs(t.nSigmaTPC) && Abs(tof) <= Abs(t.nSigmaTOF)
    ensures IsSelected(c, t.(nSigmaTPC := tpc, nSigmaTOF := tof))
  {
  }

  /** Threshold a is at least as strict as b. */
  predicate AtLeastAsStrict(a: Threshold, b: Threshold)
  {
    a.Reject? || (b.Max? && a.limit <= b.limit)
  }

  /** For pions and kaons a higher TPC momentum never loosens the TPC cut. */
  lemma PtDepMaxTPCNonIncreasing(s: Species, p1: real, p2: real)
    requires s != OtherSpecies && p1 <= p2
    ensures AtLeastAsStrict(PtDepMaxTPC(s, p2), PtDepMaxTPC(s, p1))
  {
  }

  /** Another species falls through to the 1E20 start value above 0.5 GeV, so the cut loosens. */
  lemma OtherSpeciesLoosensAboveHalfGeV()
    ensures PtDepMaxTPC(OtherSpecies, 0.4) == Max(3.0)
    ensures PtDepMaxTPC(OtherSpecies, 0.6) == Max(NoLimit)
    ensures !AtLeastAsStrict(PtDepMaxTPC(OtherSpecies, 0.6), PtDepMaxTPC(OtherSpecies, 0.4))
  {
  }

  /** The boundary values: 5 sigma TPC inclusive, TOF at exactly 1.5 GeV already 2 sigma, kaons at 0.7 GeV still accepted. */
  lemma BoundaryExamples(c: CutConfig, t: Candidate)
    requires ReachesPID(c, t) && c.ptDependent
    ensures t.tofMatched && t.nSigmaTPC == 5.0 && t.nSigmaTOF == 0.0 ==> IsSelected(c, t)
    ensures t.tofMatched && t.nSigmaTPC == 5.001 ==> !IsSelected(c, t)
    ensures t.tofMatched && t.nSigmaTPC == 0.0 && t.nSigmaTOF == 2.5 && t.p == 1.5 ==> !IsSelected(c, t)
    ensures t.tofMatched && t.nSigmaTPC == 0.0 && t.nSigmaTOF == 2.5 && t.p == 1.49 ==> IsSelected(c, t)
    ensures !t.tofMatched && c.pid == Kaon && t.pTPC == 0.7 && t.nSigmaTPC == -2.0 ==> IsSelected(c, t)
    ensures !t.tofMatched && c.pid == Kaon && t.pTPC == 0.70001 ==> !IsSelected(c, t)
  {
  }
}
