# D0 daughter cut and LMEE Pb-Pb 2011 configuration, modelled in Dafny

This project models two small decision units of an ALICE physics-analysis
repository and proves what they promise.

* **`AliRsnCutDaughterD0::IsSelected`** (module `RsnCutDaughterD0`,
  `d0_daughter_cut.dfy`). This is the gate applied to each D0 daughter track.
  It first requires the kTPCin, kTPCrefit and kITSrefit status bits and the
  quality sub-cut. It accepts at once when `fNoPID` is set. Otherwise it
  compares the absolute TPC and TOF sigma deviations against maxima. Which
  maxima apply depends on the TOF match, the species hypothesis (pion, kaon
  or another species) and the mode flag `fPtDepPIDCut`. In the
  momentum-dependent mode they also depend on momentum buckets: 0.35, 0.5 and
  0.7 GeV on the TPC momentum, and 1.5 GeV on the total momentum. The
  function is pure and works over reals. The constructor becomes `NewCut`,
  which builds the configuration record.
* **`ConfigLMEEPbPb2011` with `InitHistograms` and `InitCF`** (modules
  `LMEENames`, `ConfigLMEE`, and `Wrappers` for `Option`). The cut-definition
  index picks a (PID set, centrality set, rejection flag) triple and a
  container name. The filter wiring puts library cuts into the track filter,
  the pair pre-filter legs, the pair pre-filter, the pair filter and the event
  filter. The macro registers the histogram classes and, when `CFenable` is
  set, a CF manager and four Monte-Carlo signal rules. The cut library's
  objects are tags that name the library call and its arguments. The
  container is a record of what was registered. The global `MCenabled` flag
  is the field of class `Macro`, which `EnableMC` and the macro update.
  `InitHistograms` keeps its `for` loops as a method, `AddClasses`. That
  method is proved equal to the declarative class list `HistogramClasses`.

Three behaviours of the code are easy to misread:

* In momentum-dependent mode with a TOF match, the TOF threshold at exactly
  p = 1.5 GeV is 2 sigma (`p < 1.5` selects 3 sigma). The 1.5 GeV breakpoint
  is therefore not inclusive on the lower side, unlike the others
  (`BoundaryExamples`, `PtDepWithTOF`).
* An index of 15 or more prints the banner, but the macro still builds and
  returns a container. Its PID and centrality stay at -1 and its rejection
  flag stays false (`InvalidIndexStillConfigures`). Index 0 gets the same
  defaults with no banner at all.
* The Monte-Carlo signal rules are registered whenever `CFenable` is set,
  whatever the MC flag. An earlier `EnableMC()` has no effect, because the
  macro overwrites the flag with `withMC` (`Macro.ConfigLMEEPbPb2011`,
  `EnableMCThenConfigure`).

## Model

| member | source | states |
|---|---|---|
| `RsnCutDaughterD0.NewCut` | PWGLF/RESONANCES/AliRsnCutDaughterD0.cxx:18-27 | The constructor leaves PID on and fixed-threshold mode selected, and sets all four maxima to 3 sigma. |
| `RsnCutDaughterD0.Abs` | PWGLF/RESONANCES/AliRsnCutDaughterD0.cxx:91-92 | The deviation magnitude is non-negative and equals the value or its negation. |
| `RsnCutDaughterD0.PtDepMaxTOF` | PWGLF/RESONANCES/AliRsnCutDaughterD0.cxx:113-114 | The TOF maximum is 3 exactly when p < 1.5 and 2 otherwise. |
| `RsnCutDaughterD0.PtDepMaxTPC` | PWGLF/RESONANCES/AliRsnCutDaughterD0.cxx:117-136 | An unconditional rejection happens exactly for kaons above 0.7 GeV. Pion and kaon maxima lie between 2 and 5. A maximum above 5 only arises for another species above 0.5 GeV. |
| `RsnCutDaughterD0.IsSelected` | PWGLF/RESONANCES/AliRsnCutDaughterD0.cxx:48-139 | Acceptance implies every pre-check passed. With `fNoPID`, passing the pre-checks means acceptance. With PID, acceptance needs a PID response. Momentum-dependent mode with TOF never accepts \|nsTPC\| > 5. It never accepts a kaon without TOF above 0.7 GeV. |
| `RsnCutDaughterD0.MissingStatusBitRejects` | PWGLF/RESONANCES/AliRsnCutDaughterD0.cxx:63-65 | A candidate lacking kTPCin, kTPCrefit or kITSrefit is rejected. |
| `RsnCutDaughterD0.NoPIDAcceptsAnySigma` | PWGLF/RESONANCES/AliRsnCutDaughterD0.cxx:68-74 | With `fNoPID` set, a candidate past the status bits and the quality cut is accepted for any sigma values. |
| `RsnCutDaughterD0.FixedModeWithTOF` | PWGLF/RESONANCES/AliRsnCutDaughterD0.cxx:93-102 | In fixed mode with TOF, a candidate is accepted iff \|nsTPC\| and \|nsTOF\| are within the species' maxima, both inclusive. Another species uses 1E20 for both. |
| `RsnCutDaughterD0.FixedModeWithoutTOF` | PWGLF/RESONANCES/AliRsnCutDaughterD0.cxx:103-106 | In fixed mode without TOF, a candidate is accepted iff \|nsTPC\| is within the species' TPC maximum (1E20 for another species). The TOF value plays no role. |
| `RsnCutDaughterD0.DefaultCutIsThreeSigma` | PWGLF/RESONANCES/AliRsnCutDaughterD0.cxx:23-27 | With constructor defaults, a pion or kaon is accepted iff \|nsTPC\| <= 3 and, when TOF matched, \|nsTOF\| <= 3. |
| `RsnCutDaughterD0.PtDepWithTOF` | PWGLF/RESONANCES/AliRsnCutDaughterD0.cxx:110-115 | In momentum-dependent mode with TOF, a candidate is accepted iff \|nsTPC\| <= 5 and \|nsTOF\| <= 3 for p < 1.5, or <= 2 for p >= 1.5. |
| `RsnCutDaughterD0.PtDepWithoutTOF` | PWGLF/RESONANCES/AliRsnCutDaughterD0.cxx:116-137 | Without TOF the TPC bucket maxima are 5 up to 0.35, 3 up to 0.5, then 2 for pions and 2 up to 0.7 for kaons. Kaons above 0.7 are rejected. Another species above 0.5 gets 1E20. |
| `RsnCutDaughterD0.SignOfDeviationIrrelevant` | PWGLF/RESONANCES/AliRsnCutDaughterD0.cxx:91-92 | Negating either sigma deviation never changes the decision. |
| `RsnCutDaughterD0.SmallerDeviationStaysAccepted` | PWGLF/RESONANCES/AliRsnCutDaughterD0.cxx:97-137 | An accepted candidate stays accepted with deviations of no larger magnitude. |
| `RsnCutDaughterD0.PtDepMaxTPCNonIncreasing` | PWGLF/RESONANCES/AliRsnCutDaughterD0.cxx:123-135 | For pions and kaons, a higher TPC momentum never gives a looser TPC threshold. |
| `RsnCutDaughterD0.OtherSpeciesLoosensAboveHalfGeV` | PWGLF/RESONANCES/AliRsnCutDaughterD0.cxx:127-136 | For another species the threshold goes from 3 at 0.4 GeV to the 1E20 start value at 0.6 GeV. |
| `RsnCutDaughterD0.BoundaryExamples` | PWGLF/RESONANCES/AliRsnCutDaughterD0.cxx:110-135 | \|nsTPC\| = 5 is accepted and 5.001 rejected. At p = 1.5 a TOF deviation of 2.5 is rejected, while at 1.49 it is accepted. A kaon at 0.7 GeV with \|nsTPC\| = 2 is accepted, and at 0.70001 GeV it is rejected. |
| `LMEENames.TokenizeJoin` | PWGDQ/dielectron/macrosLMEE/ESDonlyTasks/ConfigLMEEPbPb2011.C:5-6 | Splitting a `;`-joined list of non-empty, `;`-free tokens gives the list back. |
| `LMEENames.ArrNamesAreNameTokens` | PWGDQ/dielectron/macrosLMEE/ESDonlyTasks/ConfigLMEEPbPb2011.C:5-7 | `arrNames` is exactly the fifteen variant names in order, so `nDie` is 15. |
| `LMEENames.Digits` | PWGDQ/dielectron/macrosLMEE/ESDonlyTasks/ConfigLMEEPbPb2011.C:27 | The decimal digits of a number are non-empty, all digits, with no leading zero. |
| `LMEENames.DigitsRoundTrip` | PWGDQ/dielectron/macrosLMEE/ESDonlyTasks/ConfigLMEEPbPb2011.C:27 | Reading the digits back gives the number. |
| `LMEENames.FormatIndex` | PWGDQ/dielectron/macrosLMEE/ESDonlyTasks/ConfigLMEEPbPb2011.C:27 | The `%02d` text has at least two characters. It starts with `-` exactly for negatives and is all digits otherwise. |
| `LMEENames.FormatIndexReadsBack` | PWGDQ/dielectron/macrosLMEE/ESDonlyTasks/ConfigLMEEPbPb2011.C:27 | The `%02d` text of a non-negative index reads back as that index, that of a negative index is `-` followed by exactly `Digits` of its magnitude (no pad zero, since the width counts the sign), and a leading `0` pad appears only on a two-character text. |
| `LMEENames.FormatIndexInjective` | PWGDQ/dielectron/macrosLMEE/ESDonlyTasks/ConfigLMEEPbPb2011.C:27 | Distinct indices get distinct `%02d` texts. |
| `LMEENames.DieName` | PWGDQ/dielectron/macrosLMEE/ESDonlyTasks/ConfigLMEEPbPb2011.C:27-30 | Indices 0..14 get a variant name (starting with a letter). Every other index gets its `%02d` text (no leading letter). |
| `LMEENames.DieNameLooksUpArrNames` | PWGDQ/dielectron/macrosLMEE/ESDonlyTasks/ConfigLMEEPbPb2011.C:27-30 | The name is the index-th token of `arrNames` when 0 <= index < 15, else the `%02d` text. |
| `LMEENames.DieNameInjective` | PWGDQ/dielectron/macrosLMEE/ESDonlyTasks/ConfigLMEEPbPb2011.C:5-30 | Different cut definitions give containers different names. |
| `LMEENames.DieNameAsWritten` | PWGDQ/dielectron/macrosLMEE/ESDonlyTasks/ConfigLMEEPbPb2011.C:27-30 | As written, the lookup yields no name (a null object) exactly for negative indices. |
| `LMEENames.NegativeIndexReachesNullName` | PWGDQ/dielectron/macrosLMEE/ESDonlyTasks/ConfigLMEEPbPb2011.C:28-29 | Index -1 passes the `< 15` guard and reaches the null lookup. For non-negative indices the as-written and corrected names agree. |
| `ConfigLMEE.Select` | PWGDQ/dielectron/macrosLMEE/ESDonlyTasks/ConfigLMEEPbPb2011.C:15-126 | PID and centrality are set iff 1 <= index <= 14, and the banner appears iff the index is outside 0..14. Rejection is on exactly for 4, 5, 6 and 8. Indices 7 and 8 use TPCandTOF and Central. The rest use TPCandTOFwide, with centrality cycling Central/SemiCentral/Peripheral per group of three. |
| `ConfigLMEE.WireFilters` | PWGDQ/dielectron/macrosLMEE/ESDonlyTasks/ConfigLMEEPbPb2011.C:132-151 | The track filter always gets the analysis PID cuts and the event filter the centrality cuts. The pre-filter legs and pre-filter are filled iff rejection is on. The pair filter is filled iff there is no rejection and the index is 9..14, with `GetPairCuts2(pid, index >= 12)`. |
| `ConfigLMEE.WiringByIndex` | PWGDQ/dielectron/macrosLMEE/ESDonlyTasks/ConfigLMEEPbPb2011.C:47-151 | Over the table, there is a pre-filter exactly for 4, 5, 6 and 8. Pair cut variant false is used exactly for 9..11 and true for 12..14. No index gets both a pre-filter and a pair filter. |
| `ConfigLMEE.HistogramClasses` | PWGDQ/dielectron/macrosLMEE/ESDonlyTasks/ConfigLMEEPbPb2011.C:189-231 | Event comes first and there are 13 classes plus 4 with mixing plus 1 with a rotator. Pair class k is present iff k < 3, or k is 3, 4, 6 or 7 with a mixing handler, or k = 10 with a rotator. |
| `ConfigLMEE.HistogramClassesDistinct` | PWGDQ/dielectron/macrosLMEE/ESDonlyTasks/ConfigLMEEPbPb2011.C:193-231 | No histogram class is registered twice. |
| `ConfigLMEE.AddClasses` | PWGDQ/dielectron/macrosLMEE/ESDonlyTasks/ConfigLMEEPbPb2011.C:197-199 | Each `for` loop appends the classes prefix_0 .. prefix_(n-1) in order. |
| `ConfigLMEE.InitHistograms` | PWGDQ/dielectron/macrosLMEE/ESDonlyTasks/ConfigLMEEPbPb2011.C:178-231 | The loops register exactly the `HistogramClasses` list. |
| `ConfigLMEE.InitCF` | PWGDQ/dielectron/macrosLMEE/ESDonlyTasks/ConfigLMEEPbPb2011.C:345-385 | The MC-truth steps are set and the MC-truth variables added iff MC is enabled. The 15 pair and leg variables always come first. The per-cut, after-all-cuts and signal steps are always set. |
| `ConfigLMEE.MCSignalRules` | PWGDQ/dielectron/macrosLMEE/ESDonlyTasks/ConfigLMEEPbPb2011.C:415-456 | There are four rules, all e+e- legs with both charges checked. Same mother applies exactly for mothers 333 and 223, secondary legs exactly for 22 and 111, and the pure-MC step for all but conversions. |
| `ConfigLMEE.Configured` | PWGDQ/dielectron/macrosLMEE/ESDonlyTasks/ConfigLMEEPbPb2011.C:12-173 | The name and title come from the index and the MC flag equals `withMC`. The filters follow the wiring policy. No rotator is attached, so pair class 10 is never registered. Mixed-event classes appear iff a mixing handler is attached. CF and the four signal rules are present iff `CFenable`. The CF manager is `InitCF(withMC)` and the classes are `HistogramClasses` without a rotator. |
| `ConfigLMEE.InvalidIndexStillConfigures` | PWGDQ/dielectron/macrosLMEE/ESDonlyTasks/ConfigLMEEPbPb2011.C:122-126 | An index of 15 or more is reported and still yields a container with unset PID/centrality cuts, no pre-filter, no pair filter and a `%02d` name; a negative index does so only under the corrected name lookup (see Findings). |
| `ConfigLMEE.Macro.constructor` | PWGDQ/dielectron/macrosLMEE/ESDonlyTasks/ConfigLMEEPbPb2011.C:9 | `MCenabled` starts false. |
| `ConfigLMEE.Macro.EnableMC` | PWGDQ/dielectron/macrosLMEE/ESDonlyTasks/ConfigLMEEPbPb2011.C:463-465 | `EnableMC` sets the flag. |
| `ConfigLMEE.Macro.ConfigLMEEPbPb2011` | PWGDQ/dielectron/macrosLMEE/ESDonlyTasks/ConfigLMEEPbPb2011.C:12-174 | The flag becomes `withMC`, and the container returned is `Configured(...)`, independent of the flag's earlier value. `withMC` and `cfEnable` default to false. |
| `ConfigLMEE.EnableMCThenConfigure` | PWGDQ/dielectron/macrosLMEE/ESDonlyTasks/ConfigLMEEPbPb2011.C:463-465 | `EnableMC()` followed by the macro with `withMC` false yields a container without MC and a CF manager without MC-truth steps. |

## Findings

| source | as written | input that shows it | evidently intended | confidence | as-written member | corrected member |
|---|---|---|---|---|---|---|
| PWGDQ/dielectron/macrosLMEE/ESDonlyTasks/ConfigLMEEPbPb2011.C:28-29 | The guard `cutDefinition < arrNames->GetEntriesFast()` has no lower bound. A negative index reaches `arrNames->At(cutDefinition)`, which answers a null object out of range, and then `->GetName()` is called on it. | `cutDefinition = -1` | Guard `0 <= cutDefinition < 15`, with the `%02d` text ("-1") as the name | medium (relies on the array lookup answering null out of range); not executed | `LMEENames.NegativeIndexReachesNullName` | `LMEENames.DieName` |

## Left out

- Framework calls are inputs: `TargetOK`, the track cast, the status word, the quality sub-cut, the PID response service, `MatchTOF`, `NumberOfSigmasTPC/TOF`, and the momenta. The status word is reduced to the three bits the gate tests.
- `AliFatal` on a missing PID response is modelled only by its `return kFALSE`. Debug logging and the `cout` banners are left out; the banner is the `invalidConfiguration` flag.
- The quality sub-cut's constructor settings (AliRsnCutDaughterD0.cxx:33-44) configure an external class and are left out.
- AliRsnCutDaughterD0.h (the setters of `fNoPID`, the maxima and `fPtDepPIDCut`) is not part of this model. Any `CutConfig` value is allowed.
- Species: every AliPID species other than pion and kaon is one case, `OtherSpecies`, because the gate treats them alike.
- Floating point: momenta and sigmas are reals. Only comparisons are involved, so no rounding is modelled.
- The unreachable tail of `IsSelected` after the if/else (lines 141-143) has no behaviour.
- Cut library objects (`LMEECutLib`, the cut sets, the mixing handler, the track rotator) are tags. Whether the library returns a mixing handler is the `mixingHandler` parameter. What the library does with the -1 selectors is not modelled.
- Histogram axis definitions (`UserHistogram`), the reserved-word list and the CF binning are declarative registrations. Only the class names and the CF variable names are recorded.
- The names string is written as the `;`-join of the fifteen names, which is the same text as line 5. `Tokenize` follows the tokenizer's rule of dropping empty tokens.
- The malformed `else Semi{` (line 122) is read as the invalid-configuration `else`. The `0.0.,` arguments (lines 367-368) are binning and are left out.
- `Configured`: for a negative index the macro-level model (`Configured`, `Macro.ConfigLMEEPbPb2011`, `InvalidIndexStillConfigures`) uses the corrected name lookup `DieName`. As written, the macro dereferences the null result of `arrNames->At(cut)` at line 29 and returns nothing; that path is modelled only by `DieNameAsWritten`.
- `SetPreFilterAllSigns` is recorded as a flag. `SetHasMC` is recorded as the container's MC flag.
