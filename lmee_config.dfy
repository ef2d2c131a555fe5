/**
 * The dielectron configuration macro for the 2011 Pb-Pb low-mass analysis
 * (ConfigLMEEPbPb2011): a cut-definition index selects a PID cut set, a
 * centrality cut set and whether a rejection (pre-filter) step is used; the
 * macro then wires cuts from the shared cut library into the filters of a
 * new analysis container, registers histogram classes and, on request, a
 * correction-framework (CF) manager with a fixed list of Monte-Carlo signal
 * rules.
 *
 * The cut library's objects are represented by tags naming the library call
 * and its arguments; the container is a record of what was registered.
 */
module ConfigLMEE {
  import opened Wrappers
  import opened LMEENames

  // ---------------------------------------------------------------------
  // Index -> (PID set, centrality set, rejection step)
  // ---------------------------------------------------------------------

  /** The PID cut sets of the cut library this macro selects from. */
  datatype PIDSet = TPCandTOFwide | TPCandTOF

  /** The centrality classes of the cut library. */
  datatype CentralitySet = Central | SemiCentral | Peripheral

  /**
   * The three locals the branch table assigns; `None` is the -1 they start
   * at. `invalidConfiguration` records that the INVALID CONFIGURATION
   * banner was printed.
   */
  datatype Selection = Selection(
    pid: Option<PIDSet>,
    centrality: Option<CentralitySet>,
    rejectionStep: bool,
    invalidConfiguration: bool)

  /** Centrality cycles Central, SemiCentral, Peripheral within each group of three indices (1-3, 4-6, 9-11, 12-14). */
  function CentralityCycle(cut: int): CentralitySet
  {
    var k := if cut <= 6 then cut - 1 else cut;
    if k % 3 == 0 then Central else if k % 3 == 1 then SemiCentral else Peripheral
  }

  /** The branch table of the macro. */
  function Select(cut: int): (s: Selection)
    ensures s.invalidConfiguration <==> !(0 <= cut <= 14)
    ensures s.pid.Some? <==> 1 <= cut <= 14
    ensures s.centrality.Some? <==> 1 <= cut <= 14
    ensures s.rejectionStep <==> cut == 4 || cut == 5 || cut == 6 || cut == 8
    ensures 1 <= cut <= 14 ==>
      s.pid.value == (if cut == 7 || cut == 8 then TPCandTOF else TPCandTOFwide)
    ensures 1 <= cut <= 14 ==>
      s.centrality.value == (if cut == 7 || cut == 8 then Central else CentralityCycle(cut))
  {
    if cut == 0 then Selection(None, None, false, false)  // not yet implemented
    else if cut == 1 then Selection(Some(TPCandTOFwide), Some(Central), false, false)
    else if cut == 2 then Selection(Some(TPCandTOFwide), Some(SemiCentral), false, false)
    else if cut == 3 then Selection(Some(TPCandTOFwide), Some(Peripheral), false, false)
    else if cut == 4 then Selection(Some(TPCandTOFwide), Some(Central), true, false)
    else if cut == 5 then Selection(Some(TPCandTOFwide), Some(SemiCentral), true, false)
    else if cut == 6 then Selection(Some(TPCandTOFwide), Some(Peripheral), true, false)
    else if cut == 7 then Selection(Some(TPCandTOF), Some(Central), false, false)
    else if cut == 8 then Selection(Some(TPCandTOF), Some(Central), true, false)
    else if cut == 9 then Selection(Some(TPCandTOFwide), Some(Central), false, false)
    else if cut == 10 then Selection(Some(TPCandTOFwide), Some(SemiCentral), false, false)
    else if cut == 11 then Selection(Some(TPCandTOFwide), Some(Peripheral), false, false)
    else if cut == 12 then Selection(Some(TPCandTOFwide), Some(Central), false, false)
    else if cut == 13 then Selection(Some(TPCandTOFwide), Some(SemiCentral), false, false)
    else if cut == 14 then Selection(Some(TPCandTOFwide), Some(Peripheral), false, false)
    else Selection(None, None, false, true)
  }

  // ---------------------------------------------------------------------
  // Filter wiring
  // ---------------------------------------------------------------------

  /** A cut object of the cut library, named by the call that produced it. */
  datatype CutTag =
    | PIDCutsAna(pid: Option<PIDSet>)
    | PairCuts(pid: Option<PIDSet>)
      // GetPairCuts2(pid, flag): the flag is false for the *PhiV variants, true for the *OA ones
    | PairCuts2(pid: Option<PIDSet>, flag: bool)
    | CentralityCuts(centrality: Option<CentralitySet>)

  /** The cuts added to each filter of the container, in order. */
  datatype Filters = Filters(
    track: seq<CutTag>,
    pairPreFilterLegs: seq<CutTag>,
    pairPreFilter: seq<CutTag>,
    pair: seq<CutTag>,
    event: seq<CutTag>)

  /** The filter-wiring policy for a cut definition and its selection. */
  function WireFilters(cut: int, s: Selection): (f: Filters)
    ensures f.track == [PIDCutsAna(s.pid)]
    ensures f.event == [CentralityCuts(s.centrality)]
    ensures f.pairPreFilterLegs != [] || f.pairPreFilter != [] <==> s.rejectionStep
    ensures s.rejectionStep ==>
      f.pairPreFilterLegs == [PIDCutsAna(s.pid)] && f.pairPreFilter == [PairCuts(s.pid)]
    ensures f.pair != [] <==> !s.rejectionStep && 9 <= cut <= 14
    ensures f.pair != [] ==> f.pair == [PairCuts2(s.pid, cut >= 12)]
  {
    var track := [PIDCutsAna(s.pid)];
    var event := [CentralityCuts(s.centrality)];
    if s.rejectionStep then
      Filters(track, [PIDCutsAna(s.pid)], [PairCuts(s.pid)], [], event)
    else
      var pair :=
        if 9 <= cut <= 11 then [PairCuts2(s.pid, false)]
        else if 12 <= cut <= 14 then [PairCuts2(s.pid, true)]
        else [];
      Filters(track, [], [], pair, event)
  }

  /** Over the table: pre-filters exactly for indices 4, 5, 6 and 8; a pair filter exactly for 9-14. */
  lemma WiringByIndex(cut: int)
    ensures var f := WireFilters(cut, Select(cut));
      (f.pairPreFilter != [] <==> cut in {4, 5, 6, 8}) &&
      (f.pair == [PairCuts2(Some(TPCandTOFwide), false)] <==> 9 <= cut <= 11) &&
      (f.pair == [PairCuts2(Some(TPCandTOFwide), true)] <==> 12 <= cut <= 14) &&
      (f.pair == [] <==> !(9 <= cut <= 14)) &&
      !(f.pair != [] && f.pairPreFilter != [])
  {
  }

  // ---------------------------------------------------------------------
  // Histogram classes
  // ---------------------------------------------------------------------

  /** The reserved prefixes of histogram class names; Track, Pre and RejTrack take a track class, Pair and RejPair a pair class. */
  datatype Prefix = Track | Pair | Pre | RejTrack | RejPair

  /** A histogram class: the event class, or a prefix with a track or pair class index. */
  datatype HistClass = EventClass | Cls(prefix: Prefix, index: nat)

  /** The classes `prefix_0` .. `prefix_(n-1)`. */
  function Run(prefix: Prefix, n: nat): (r: seq<HistClass>)
    ensures |r| == n
    ensures forall i :: 0 <= i < n ==> r[i] == Cls(prefix, i)
  {
    seq(n, i requires 0 <= i => Cls(prefix, i))
  }

  /** The pair classes registered for a mixing handler: the mixed-event classes. */
  const MixedEventClasses: seq<HistClass> := [Cls(Pair, 3), Cls(Pair, 4), Cls(Pair, 6), Cls(Pair, 7)]

  /** The classes InitHistograms registers, in order. */
  function HistogramClasses(hasMixing: bool, hasRotator: bool): (classes: seq<HistClass>)
    ensures |classes| == 13 + (if hasMixing then 4 else 0) + (if hasRotator then 1 else 0)
    ensures classes[0] == EventClass
    ensures forall k: nat :: Cls(Pair, k) in classes <==>
      k < 3 || (hasMixing && (k == 3 || k == 4 || k == 6 || k == 7)) || (hasRotator && k == 10)
  {
    var classes :=
      [EventClass] + Run(Track, 2) + Run(Pair, 3)
      + (if hasMixing then MixedEventClasses else [])
      + (if hasRotator then [Cls(Pair, 10)] else [])
      + Run(Pre, 2) + Run(RejTrack, 2) + Run(RejPair, 3);
    assert forall k: nat :: Cls(Pair, k) in Run(Pair, 3) <==> k < 3 by {
      forall k: nat ensures Cls(Pair, k) in Run(Pair, 3) <==> k < 3 {
        if k < 3 { assert Run(Pair, 3)[k] == Cls(Pair, k); }
      }
    }
    classes
  }

  /** No class is registered twice. */
  lemma HistogramClassesDistinct(hasMixing: bool, hasRotator: bool)
    ensures var classes := HistogramClasses(hasMixing, hasRotator);
      forall i, j :: 0 <= i < j < |classes| ==> classes[i] != classes[j]
  {
  }

  /** Appends `prefix_0` .. `prefix_(n-1)`, as each `for` loop of InitHistograms does. */
  method AddClasses(classes: seq<HistClass>, prefix: Prefix, n: nat) returns (r: seq<HistClass>)
    ensures r == classes + Run(prefix, n)
  {
    r := classes;
    for i := 0 to n
      invariant r == classes + Run(prefix, i)
    {
      assert Run(prefix, i + 1) == Run(prefix, i) + [Cls(prefix, i)];
      r := r + [Cls(prefix, i)];
    }
  }

  /** InitHistograms: the histogram classes registered, given whether a mixing handler and a track rotator are attached. */
  method InitHistograms(hasMixing: bool, hasRotator: bool) returns (classes: seq<HistClass>)
    ensures classes == HistogramClasses(hasMixing, hasRotator)
  {
    classes := [EventClass];
    classes := AddClasses(classes, Track, 2);
    classes := AddClasses(classes, Pair, 3);
    if hasMixing {
      classes := classes + MixedEventClasses;
    }
    if hasRotator {
      classes := classes + [Cls(Pair, 10)];
    }
    classes := AddClasses(classes, Pre, 2);
    classes := AddClasses(classes, RejTrack, 2);
    classes := AddClasses(classes, RejPair, 3);
  }

  // ---------------------------------------------------------------------
  // Correction framework and Monte-Carlo signals
  // ---------------------------------------------------------------------

  /** The variables the CF manager is given. */
  datatype Variable =
    | P | Pt | M | Y | DeltaEta | DeltaPhi | PairType | Centrality | OpeningAngle | PsiPair
    | ITSsignal | TPCsignal | HaveSameMother | PdgCode | PdgCodeMother

  /** A CF variable, as a pair variable or (`leg`) as a variable of each leg. */
  datatype CFVariable = CFVariable(v: Variable, leg: bool)

  /** What InitCF configures on the CF manager (binning left out). */
  datatype CFManager = CFManager(
    variables: seq<CFVariable>,
    stepForMCtruth: bool,
    stepsForMCtruthOnly: bool,
    stepsForEachCut: bool,
    stepForAfterAllCuts: bool,
    stepsForSignal: bool)

  const PairCFVariables: seq<CFVariable> := [
    CFVariable(P, false), CFVariable(Pt, false), CFVariable(M, false), CFVariable(Y, false),
    CFVariable(DeltaEta, false), CFVariable(DeltaPhi, false), CFVariable(PairType, false),
    CFVariable(Centrality, false), CFVariable(OpeningAngle, false), CFVariable(PsiPair, false)]

  const LegCFVariables: seq<CFVariable> := [
    CFVariable(P, true), CFVariable(Pt, true), CFVariable(ITSsignal, true),
    CFVariable(TPCsignal, true), CFVariable(Y, true)]

  const MCTruthCFVariables: seq<CFVariable> := [
    CFVariable(HaveSameMother, false), CFVariable(PdgCode, true), CFVariable(PdgCodeMother, true)]

  /** The CF manager InitCF builds, given the macro's MC flag at that moment. */
  function InitCF(mcEnabled: bool): (cf: CFManager)
    ensures cf.stepForMCtruth == mcEnabled && cf.stepsForMCtruthOnly == mcEnabled
    ensures forall x :: x in MCTruthCFVariables ==> (x in cf.variables <==> mcEnabled)
    ensures |cf.variables| >= 15 && cf.variables[..15] == PairCFVariables + LegCFVariables
    ensures |cf.variables| == 15 + (if mcEnabled then 3 else 0)
    ensures mcEnabled ==> cf.variables[15..] == MCTruthCFVariables
    ensures cf.stepsForEachCut && cf.stepForAfterAllCuts && cf.stepsForSignal
  {
    var common := PairCFVariables + LegCFVariables;
    assert |common| == 15 && |MCTruthCFVariables| == 3;
    CFManager(
      if mcEnabled then common + MCTruthCFVariables else common,
      mcEnabled, mcEnabled, true, true, true)
  }

  /** Production source a signal rule requires of each leg. */
  datatype Source = Secondary | FinalState

  /** Relation required between the two mothers; `AnyRelation` when the rule sets none. */
  datatype MothersRelation = AnyRelation | SameMother

  /** A Monte-Carlo signal rule. */
  datatype SignalMC = SignalMC(
    name: string,
    title: string,
    legPDGs: (int, int),
    checkBothChargesLegs: (bool, bool),
    legSources: (Source, Source),
    motherPDGs: (int, int),
    mothersRelation: MothersRelation,
    fillPureMCStep: bool)

  /** The signal rules InitCF adds, in order. */
  const MCSignals: seq<SignalMC> := [
    SignalMC("eleFromConversions", "conversion electrons", (11, -11), (true, true),
      (Secondary, Secondary), (22, 22), AnyRelation, false),
    SignalMC("dalitzDecays", "dalitz Pairs", (11, -11), (true, true),
      (Secondary, Secondary), (111, 111), AnyRelation, true),
    SignalMC("PhiDecays", "Phi Pairs", (11, -11), (true, true),
      (FinalState, FinalState), (333, 333), SameMother, true),
    SignalMC("OmegaDecays", "Omega Pairs", (11, -11), (true, true),
      (FinalState, FinalState), (223, 223), SameMother, true)]

  /** Every rule asks for an e+e- pair with both charges checked; same mother exactly for phi and omega. */
  lemma MCSignalRules()
    ensures |MCSignals| == 4
    ensures forall r :: r in MCSignals ==> r.legPDGs == (11, -11) && r.checkBothChargesLegs == (true, true)
    ensures forall r :: r in MCSignals ==> (r.mothersRelation == SameMother <==> r.motherPDGs.0 in {333, 223})
    ensures forall r :: r in MCSignals ==> (r.legSources.0 == Secondary <==> r.motherPDGs.0 in {22, 111})
    ensures forall r :: r in MCSignals ==> (r.fillPureMCStep <==> r.motherPDGs.0 != 22)
  {
  }

  // ---------------------------------------------------------------------
  // The container
  // ---------------------------------------------------------------------

  /** What the macro registers on the analysis container it returns. */
  datatype Dielectron = Dielectron(
    name: string,
    title: string,
    hasMC: bool,
    preFilterAllSigns: bool,
    filters: Filters,
    hasTrackRotator: bool,
    hasMixingHandler: bool,
    histogramClasses: seq<HistClass>,
    cf: Option<CFManager>,
    signalsMC: seq<SignalMC>)

  /**
   * The container the macro returns for a cut definition, the `withMC` and
   * `CFenable` arguments and whether the cut library hands out a mixing
   * handler for the selected PID set.
   */
  function Configured(cut: int, withMC: bool, cfEnable: bool, mixingHandler: bool): (die: Dielectron)
    ensures die.name == DieName(cut) && die.title == "Track cuts: " + DieName(cut)
    ensures die.hasMC == withMC && die.preFilterAllSigns
    ensures die.filters == WireFilters(cut, Select(cut))
    ensures !die.hasTrackRotator && Cls(Pair, 10) !in die.histogramClasses
    ensures die.hasMixingHandler == mixingHandler
    ensures forall c :: c in MixedEventClasses ==> (c in die.histogramClasses <==> mixingHandler)
    ensures die.cf.Some? <==> cfEnable
    ensures cfEnable ==> die.cf.value.stepForMCtruth == withMC && die.signalsMC == MCSignals
    ensures !cfEnable ==> die.signalsMC == []
    ensures die.cf == (if cfEnable then Some(InitCF(withMC)) else None)
    ensures die.histogramClasses == HistogramClasses(mixingHandler, false)
  {
    var name := DieName(cut);
    var s := Select(cut);
    Dielectron(
      name, "Track cuts: " + name, withMC, true,
      WireFilters(cut, s),
      false, mixingHandler,
      HistogramClasses(mixingHandler, false),
      if cfEnable then Some(InitCF(withMC)) else None,
      if cfEnable then MCSignals else [])
  }

  /**
   * An index of 15 or more is reported, yet a container with unset PID and
   * centrality cuts is still built. A negative index gets the same container
   * only under the corrected name lookup `DieName`; as written the macro
   * fails on the name before it gets here (`DieNameAsWritten`).
   */
  lemma InvalidIndexStillConfigures(cut: int, withMC: bool, cfEnable: bool, mixingHandler: bool)
    requires !(0 <= cut <= 14)
    ensures Select(cut).invalidConfiguration
    ensures var die := Configured(cut, withMC, cfEnable, mixingHandler);
      die.filters.track == [PIDCutsAna(None)] && die.filters.event == [CentralityCuts(None)] &&
      die.filters.pairPreFilter == [] && die.filters.pair == [] &&
      die.name == FormatIndex(cut)
  {
  }

  /**
   * The macro file's global state: the `MCenabled` flag that `EnableMC`
   * sets and that InitCF reads.
   */
  class Macro {
    var mcEnabled: bool

    constructor ()
      ensures !mcEnabled
    {
      mcEnabled := false;
    }

    method EnableMC()
      modifies this
      ensures mcEnabled
    {
      mcEnabled := true;
    }

    /**
     * ConfigLMEEPbPb2011: overwrites the MC flag with `withMC`, so the
     * container does not depend on the flag's earlier value. `withMC` and
     * `cfEnable` default to false, as in the macro's signature.
     */
    method ConfigLMEEPbPb2011(cutDefinition: int, mixingHandler: bool, withMC: bool := false, cfEnable: bool := false)
      returns (die: Dielectron)
      modifies this
      ensures mcEnabled == withMC
      ensures die == Configured(cutDefinition, withMC, cfEnable, mixingHandler)
    {
      mcEnabled := withMC;
      var name := DieName(cutDefinition);
      var s := Select(cutDefinition);
      var filters := WireFilters(cutDefinition, s);
      var hasRotator := false;  // the track rotator stays null
      var classes := InitHistograms(mixingHandler, hasRotator);
      var cf: Option<CFManager> := None;
      var signals: seq<SignalMC> := [];
      if cfEnable {
        cf := Some(InitCF(mcEnabled));
        signals := MCSignals;
      }
      die := Dielectron(name, "Track cuts: " + name, mcEnabled, true, filters,
                        hasRotator, mixingHandler, classes, cf, signals);
    }
  }

  /** Calling EnableMC before the macro changes nothing when `withMC` is false. */
  method EnableMCThenConfigure(m: Macro, cutDefinition: int, cfEnable: bool, mixingHandler: bool)
    returns (die: Dielectron)
    modifies m
    ensures !die.hasMC && !m.mcEnabled
    ensures cfEnable ==> die.cf == Some(InitCF(false))
  {
    m.EnableMC();
    die := m.ConfigLMEEPbPb2011(cutDefinition, mixingHandler, cfEnable := cfEnable);
  }
}
