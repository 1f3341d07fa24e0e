/** The small mechanisms of biocrnpyler/mechanisms_txtl.py: one-step
    expression, simple transcription and translation, the two Hill-regulated
    transcriptions, and the carrier checks, output selection and parameter
    fetching of the Michaelis-Menten subclasses. */
module Mechanisms {
  import opened Wrappers
  import opened Chemistry
  import opened Reactions
  import opened Parameters

  /** An optional participant as the Python value passed on: the species, or None. */
  function Obj(o: Option<Species>): PyObj {
    match o
    case Some(s) => PySpecies(s)
    case None => PyOther
  }

  function OptList(o: Option<Species>): seq<Species> {
    match o
    case Some(s) => [s]
    case None => []
  }

  /** The expression-only configuration: no transcript, but a protein. */
  predicate ExpressionOnly(transcript: Option<Species>, protein: Option<Species>) {
    transcript.None? && protein.Some?
  }

  /** What a transcription step produces (`tx_output`): the protein in the
      expression-only configuration, otherwise the transcript, possibly None. */
  function TxOutput(transcript: Option<Species>, protein: Option<Species>): Option<Species> {
    if ExpressionOnly(transcript, protein) then protein else transcript
  }

  /** `r` consumes one `t` and releases `t` together with one `p`. */
  ghost predicate Catalytic(r: Reaction, t: Species, p: Species) {
    Bag(r.inputs) == multiset{t} && Bag(r.outputs) == multiset{t, p}
      && SpeciesOf(r.inputs) == {t} && SpeciesOf(r.outputs) == {t, p}
  }

  /** The reaction `t --> t + p` with propensity `prop`, as the mechanisms build
      it with `Reaction(inputs=[t], outputs=[t, p], ...)`; a None participant
      makes the constructor raise a TypeError. */
  function Step(t: Option<Species>, p: Option<Species>, prop: Propensity): (r: Result<Reaction>)
    ensures r.Success? <==> t.Some? && p.Some?
    ensures r.Failure? ==> r.error == TypeError
    ensures r.Success? ==> Catalytic(r.value, t.value, p.value) && r.value.propensity == prop
    ensures r.Success? ==> r.value == ReactionOf([t.value], [t.value, p.value], prop)
  {
    if t.Some? && p.Some? then
      StepBuilt(t.value, p.value, prop);
      NewReaction([Obj(t)], [Obj(t), Obj(p)], prop)
    else
      StepRejected(t, p, prop);
      NewReaction([Obj(t)], [Obj(t), Obj(p)], prop)
  }

  lemma StepBuilt(t: Species, p: Species, prop: Propensity)
    ensures NewReaction([PySpecies(t)], [PySpecies(t), PySpecies(p)], prop)
            == Success(ReactionOf([t], [t, p], prop))
    ensures Catalytic(ReactionOf([t], [t, p], prop), t, p)
  {
    assert [PySpecies(t)] == AsObjects([t]);
    assert [PySpecies(t), PySpecies(p)] == AsObjects([t, p]);
    FromSpeciesLists([t], [t, p], prop);
    StepCatalytic(t, p, prop);
  }

  lemma StepCatalytic(t: Species, p: Species, prop: Propensity)
    ensures Catalytic(ReactionOf([t], [t, p], prop), t, p)
  {
    var r := ReactionOf([t], [t, p], prop);
    FromSpeciesLists([t], [t, p], prop);
    assert Bag(r.outputs) == multiset([t, p]) == multiset{t, p};
    assert SpeciesOf(r.outputs) == (set x | x in [t, p]) == {t, p};
  }

  lemma StepRejected(t: Option<Species>, p: Option<Species>, prop: Propensity)
    requires t.None? || p.None?
    ensures NewReaction([Obj(t)], [Obj(t), Obj(p)], prop) == Failure(TypeError)
  {
    assert !AllSpecies([Obj(t)]) || !AllSpecies([Obj(t), Obj(p)]) by {
      if t.None? { assert ![Obj(t)][0].PySpecies?; } else { assert ![Obj(t), Obj(p)][1].PySpecies?; }
    }
    assert !AllWeighted([Obj(t)]) by { assert ![Obj(t)][0].PyWeighted?; }
    assert !AllWeighted([Obj(t), Obj(p)]) by { assert ![Obj(t), Obj(p)][0].PyWeighted?; }
  }

  /** The species `Step` mentions are its two participants and those of the
      propensity. */
  lemma StepSpecies(t: Option<Species>, p: Option<Species>, prop: Propensity, s: Species)
    requires Step(t, p, prop).Success? && s in SpeciesList(Step(t, p, prop).value)
    ensures s == t.value || s == p.value || s in PropensitySpecies(prop)
  {
    ContainsAgreesWithSpeciesList(Step(t, p, prop).value, s);
  }

  /** The rate given directly, else fetched from the component; a ValueError
      when neither is given. */
  function ResolveRate(component: Option<Params>, direct: Option<real>, name: string): (r: Result<real>)
    ensures direct.Some? ==> r == Success(direct.value)
    ensures direct.None? && component.None? ==> r == Failure(ValueError)
    ensures direct.None? && component.Some? ==> r == GetParameter(component.value, name)
  {
    if direct.None? && component.Some? then GetParameter(component.value, name)
    else if component.None? && direct.None? then Failure(ValueError)
    else Success(direct.value)
  }

  // ---------------------------------------------------------------------
  // OneStepGeneExpression

  function OneStepSpecies(dna: Species, protein: Option<Species>): seq<Species> {
    [dna] + OptList(protein)
  }

  /** `OneStepGeneExpression.update_reactions`: `dna --> dna + protein` at
      `kexpress`, nothing without a protein, and a ValueError when neither a
      component nor `kexpress` is given, even without a protein. */
  function OneStepReactions(dna: Species, component: Option<Params>, kexpress: Option<real>, protein: Option<Species>)
    : (r: Result<seq<Reaction>>)
    ensures r.Failure? <==> ResolveRate(component, kexpress, "kexpress").Failure?
    ensures kexpress.None? && component.None? ==> r == Failure(ValueError)
    ensures r.Success? ==> (r.value == [] <==> protein.None?) && |r.value| <= 1
    ensures r.Success? && protein.Some? ==>
      Catalytic(r.value[0], dna, protein.value)
      && r.value[0].propensity == MassAction(ResolveRate(component, kexpress, "kexpress").value, None)
  {
    var k :- ResolveRate(component, kexpress, "kexpress");
    if protein.Some? then
      Success([Step(Some(dna), protein, MassAction(k, None)).value])
    else
      Success([])
  }

  /** The species `update_species` declares cover every species of the reactions. */
  lemma OneStepCovers(dna: Species, component: Option<Params>, kexpress: Option<real>, protein: Option<Species>)
    requires OneStepReactions(dna, component, kexpress, protein).Success?
    ensures Covers(OneStepSpecies(dna, protein), OneStepReactions(dna, component, kexpress, protein).value)
  {
    var rxns := OneStepReactions(dna, component, kexpress, protein).value;
    var species := OneStepSpecies(dna, protein);
    if protein.Some? {
      assert |rxns| == 1;
      assert Catalytic(rxns[0], dna, protein.value) && rxns[0].propensity.MassAction?;
      assert species == [dna, protein.value];
      CatalyticCovers(rxns[0], dna, protein.value, species);
      assert rxns == [rxns[0]];
    } else {
      assert rxns == [];
    }
  }

  // ---------------------------------------------------------------------
  // SimpleTranscription

  function SimpleTranscriptionSpecies(dna: Species, transcript: Option<Species>, protein: Option<Species>): seq<Species> {
    [dna] + OptList(transcript) + OptList(protein)
  }

  /** `SimpleTranscription.update_reactions`. In the expression-only
      configuration it emits `dna --> dna + protein` at `ktx * ktl`, fetching
      `ktl` from the component (an AttributeError when there is none);
      otherwise `dna --> dna + transcript` at `ktx`, a TypeError when the
      transcript is None. */
  function SimpleTranscriptionReactions(dna: Species, component: Option<Params>, ktx: Option<real>,
                                        transcript: Option<Species>, protein: Option<Species>)
    : (r: Result<seq<Reaction>>)
    ensures r.Success? <==> ResolveRate(component, ktx, "ktx").Success?
                            && (ExpressionOnly(transcript, protein) ==> component.Some? && "ktl" in component.value)
                            && (!ExpressionOnly(transcript, protein) ==> transcript.Some?)
    ensures ResolveRate(component, ktx, "ktx").Failure? ==> r.Failure? && r.error == ResolveRate(component, ktx, "ktx").error
    ensures (ResolveRate(component, ktx, "ktx").Success? && ExpressionOnly(transcript, protein)
             && component.Some? && "ktl" !in component.value) ==> r == Failure(MissingParameter("ktl"))
    ensures ResolveRate(component, ktx, "ktx").Success? && transcript.None? && protein.None? ==> r == Failure(TypeError)
    ensures ExpressionOnly(transcript, protein) && ktx.Some? && component.None? ==> r == Failure(AttributeError)
    ensures r.Success? ==> |r.value| == 1
    ensures r.Success? && ExpressionOnly(transcript, protein) ==>
      component.Some? && "ktl" in component.value
      && Catalytic(r.value[0], dna, protein.value)
      && r.value[0].propensity == MassAction(ResolveRate(component, ktx, "ktx").value * component.value["ktl"], None)
    ensures r.Success? && !ExpressionOnly(transcript, protein) ==>
      transcript.Some? && Catalytic(r.value[0], dna, transcript.value)
      && r.value[0].propensity == MassAction(ResolveRate(component, ktx, "ktx").value, None)
    ensures transcript.None? && protein.None? ==> r.Failure?
  {
    var k :- ResolveRate(component, ktx, "ktx");
    if ExpressionOnly(transcript, protein) then
      if component.None? then Failure(AttributeError)
      else
        var ktl :- GetParameter(component.value, "ktl");
        Success([Step(Some(dna), protein, MassAction(k * ktl, None)).value])
    else
      var rxn :- Step(Some(dna), transcript, MassAction(k, None));
      Success([rxn])
  }

  lemma SimpleTranscriptionCovers(dna: Species, component: Option<Params>, ktx: Option<real>,
                                  transcript: Option<Species>, protein: Option<Species>)
    requires SimpleTranscriptionReactions(dna, component, ktx, transcript, protein).Success?
    ensures Covers(SimpleTranscriptionSpecies(dna, transcript, protein),
                   SimpleTranscriptionReactions(dna, component, ktx, transcript, protein).value)
  {
    var rxns := SimpleTranscriptionReactions(dna, component, ktx, transcript, protein).value;
    var output := TxOutput(transcript, protein);
    var species := SimpleTranscriptionSpecies(dna, transcript, protein);
    assert Catalytic(rxns[0], dna, output.value) && rxns[0].propensity.MassAction?;
    assert dna in species && output.value in species;
    CatalyticCovers(rxns[0], dna, output.value, species);
  }

  /** A mass-action reaction `t --> t + p` mentions only `t` and `p`. */
  lemma CatalyticCovers(r: Reaction, t: Species, p: Species, species: seq<Species>)
    requires Catalytic(r, t, p) && r.propensity.MassAction? && t in species && p in species
    ensures forall s :: s in SpeciesList(r) ==> s in species
    ensures Covers(species, [r])
  {
    forall s | s in SpeciesList(r) ensures s in species {
      ContainsAgreesWithSpeciesList(r, s);
    }
  }

  // ---------------------------------------------------------------------
  // SimpleTranslation

  /** `SimpleTranslation.update_species`: without a protein, a new protein
      species named after the transcript is declared. */
  function SimpleTranslationSpecies(transcript: Species, protein: Option<Species>): (species: seq<Species>)
    ensures |species| == 2 && species[0] == transcript
    ensures protein.Some? ==> species[1] == protein.value
    ensures protein.None? ==> species[1] == Basic(transcript.name, "protein")
  {
    [transcript, if protein.Some? then protein.value else Basic(transcript.name, "protein")]
  }

  /** `SimpleTranslation.update_reactions`: nothing in the expression-only
      configuration, otherwise `transcript --> transcript + protein` at `ktl`;
      a missing protein is passed on as None and the constructor raises a
      TypeError (no protein is invented here, unlike in `update_species`). */
  function SimpleTranslationReactions(transcript: Option<Species>, component: Option<Params>, ktl: Option<real>,
                                      protein: Option<Species>)
    : (r: Result<seq<Reaction>>)
    ensures r.Success? <==> ResolveRate(component, ktl, "ktl").Success? && protein.Some?
    ensures ResolveRate(component, ktl, "ktl").Failure? ==> r.Failure? && r.error == ResolveRate(component, ktl, "ktl").error
    ensures r.Success? && ExpressionOnly(transcript, protein) ==> r.value == []
    ensures r.Success? && !ExpressionOnly(transcript, protein) ==>
      |r.value| == 1 && transcript.Some? && protein.Some?
      && Catalytic(r.value[0], transcript.value, protein.value)
      && r.value[0].propensity == MassAction(ResolveRate(component, ktl, "ktl").value, None)
    ensures ResolveRate(component, ktl, "ktl").Success? && protein.None? ==> r == Failure(TypeError)
  {
    var k :- ResolveRate(component, ktl, "ktl");
    if ExpressionOnly(transcript, protein) then
      Success([])
    else
      var rxn :- Step(transcript, protein, MassAction(k, None));
      Success([rxn])
  }

  lemma SimpleTranslationCovers(transcript: Species, component: Option<Params>, ktl: Option<real>, protein: Option<Species>)
    requires SimpleTranslationReactions(Some(transcript), component, ktl, protein).Success?
    ensures Covers(SimpleTranslationSpecies(transcript, protein),
                   SimpleTranslationReactions(Some(transcript), component, ktl, protein).value)
  {
    var rxns := SimpleTranslationReactions(Some(transcript), component, ktl, protein).value;
    var species := SimpleTranslationSpecies(transcript, protein);
    assert |rxns| == 1 && protein.Some?;
    assert Catalytic(rxns[0], transcript, protein.value) && rxns[0].propensity.MassAction?;
    assert species[0] == transcript && species[1] == protein.value;
    CatalyticCovers(rxns[0], transcript, protein.value, species);
    assert rxns == [rxns[0]];
  }

  /** In the expression-only configuration the compound rate of simple
      transcription stands for both steps: transcription emits
      `dna --> dna + protein` at `ktx * ktl` and translation emits nothing. */
  lemma ExpressionOnlyHandOff(dna: Species, component: Params, protein: Species)
    requires "ktx" in component && "ktl" in component
    ensures SimpleTranslationReactions(None, Some(component), None, Some(protein)) == Success([])
    ensures var tx := SimpleTranscriptionReactions(dna, Some(component), None, None, Some(protein));
      tx.Success? && |tx.value| == 1 && Catalytic(tx.value[0], dna, protein)
      && tx.value[0].propensity == MassAction(component["ktx"] * component["ktl"], None)
  {
    assert ResolveRate(Some(component), None, "ktx") == Success(component["ktx"]);
    assert ResolveRate(Some(component), None, "ktl") == Success(component["ktl"]);
    assert GetParameter(component, "ktl") == Success(component["ktl"]);
    var step := Step(Some(dna), Some(protein), MassAction(component["ktx"] * component["ktl"], None));
    assert step.Success?;
  }

  // ---------------------------------------------------------------------
  // PositiveHillTranscription and NegativeHillTranscription

  function HillSpecies(dna: Species, regulator: Species, transcript: Option<Species>, protein: Option<Species>): seq<Species> {
    [dna, regulator] + OptList(transcript) + OptList(protein)
  }

  /** `update_reactions` of the two Hill transcriptions (`sign` tells which):
      `k`, `n`, `K` and `kleak` are all fetched, in that order, whether or not
      there is a leak; then one reaction `dna --> dna + output` with the
      proportional Hill propensity, and with `leak` a second, mass-action one
      at `kleak` with the same inputs and outputs. */
  function HillTranscription(sign: HillSign, dna: Species, regulator: Species, component: Params,
                             transcript: Option<Species>, leak: bool, protein: Option<Species>)
    : (r: Result<seq<Reaction>>)
    ensures r.Success? <==> "k" in component && "n" in component && "K" in component && "kleak" in component
                            && TxOutput(transcript, protein).Some?
    ensures "k" !in component ==> r == Failure(MissingParameter("k"))
    ensures "k" in component && "n" !in component ==> r == Failure(MissingParameter("n"))
    ensures "k" in component && "n" in component && "K" !in component ==> r == Failure(MissingParameter("K"))
    ensures ("k" in component && "n" in component && "K" in component && "kleak" !in component)
            ==> r == Failure(MissingParameter("kleak"))
    ensures r.Success? ==> |r.value| == (if leak then 2 else 1)
    ensures r.Success? ==>
      (TxOutput(transcript, protein).Some?
       && Catalytic(r.value[0], dna, TxOutput(transcript, protein).value)
       && r.value[0].propensity == ProportionalHill(sign, component["k"], component["K"], component["n"], regulator, dna))
    ensures r.Success? && leak ==>
      (r.value[1].inputs == r.value[0].inputs && r.value[1].outputs == r.value[0].outputs
       && r.value[1].propensity == MassAction(component["kleak"], None))
    ensures TxOutput(transcript, protein).None? ==> r.Failure?
  {
    var k :- GetParameter(component, "k");
    var n :- GetParameter(component, "n");
    var bigK :- GetParameter(component, "K");
    var kleak :- GetParameter(component, "kleak");
    var output := TxOutput(transcript, protein);
    var hill :- Step(Some(dna), output, ProportionalHill(sign, k, bigK, n, regulator, dna));
    if leak then
      Success([hill, Step(Some(dna), output, MassAction(kleak, None)).value])
    else
      Success([hill])
  }

  /** The reactions of a successful Hill transcription are the `Step`s it
      is built from. */
  lemma HillShape(sign: HillSign, dna: Species, regulator: Species, component: Params,
                  transcript: Option<Species>, leak: bool, protein: Option<Species>)
    requires HillTranscription(sign, dna, regulator, component, transcript, leak, protein).Success?
    ensures var rxns := HillTranscription(sign, dna, regulator, component, transcript, leak, protein).value;
      var output := TxOutput(transcript, protein);
      rxns[0] == Step(Some(dna), output, ProportionalHill(sign, component["k"], component["K"], component["n"], regulator, dna)).value
      && (leak ==> rxns[1] == Step(Some(dna), output, MassAction(component["kleak"], None)).value)
  {
  }

  lemma HillCovers(sign: HillSign, dna: Species, regulator: Species, component: Params,
                   transcript: Option<Species>, leak: bool, protein: Option<Species>)
    requires HillTranscription(sign, dna, regulator, component, transcript, leak, protein).Success?
    ensures Covers(HillSpecies(dna, regulator, transcript, protein),
                   HillTranscription(sign, dna, regulator, component, transcript, leak, protein).value)
  {
    var rxns := HillTranscription(sign, dna, regulator, component, transcript, leak, protein).value;
    var output := TxOutput(transcript, protein);
    var hill := ProportionalHill(sign, component["k"], component["K"], component["n"], regulator, dna);
    var mass := MassAction(component["kleak"], None);
    HillShape(sign, dna, regulator, component, transcript, leak, protein);
    forall i, s | 0 <= i < |rxns| && s in SpeciesList(rxns[i])
      ensures s in HillSpecies(dna, regulator, transcript, protein)
    {
      if i == 0 {
        StepSpecies(Some(dna), output, hill, s);
      } else {
        StepSpecies(Some(dna), output, mass, s);
      }
    }
  }

  /** The positive and the negative variant differ only in the sign of the
      Hill propensity: same success, same count, same inputs and outputs. */
  lemma HillVariantsAgree(dna: Species, regulator: Species, component: Params,
                          transcript: Option<Species>, leak: bool, protein: Option<Species>)
    ensures HillTranscription(Positive, dna, regulator, component, transcript, leak, protein).Success?
      == HillTranscription(Negative, dna, regulator, component, transcript, leak, protein).Success?
    ensures HillTranscription(Positive, dna, regulator, component, transcript, leak, protein).Success? ==>
      (var pos := HillTranscription(Positive, dna, regulator, component, transcript, leak, protein).value;
       var neg := HillTranscription(Negative, dna, regulator, component, transcript, leak, protein).value;
       |pos| == |neg|
       && (forall i :: 0 <= i < |pos| ==> pos[i].inputs == neg[i].inputs && pos[i].outputs == neg[i].outputs)
       && pos[0].propensity.sign == Positive && neg[0].propensity.sign == Negative)
  {
    var pos := HillTranscription(Positive, dna, regulator, component, transcript, leak, protein);
    var neg := HillTranscription(Negative, dna, regulator, component, transcript, leak, protein);
    if pos.Success? {
      HillShape(Positive, dna, regulator, component, transcript, leak, protein);
      HillShape(Negative, dna, regulator, component, transcript, leak, protein);
    }
  }

  // ---------------------------------------------------------------------
  // Michaelis-Menten subclasses: carrier checks, output selection, parameters

  /** A call to the Michaelis-Menten base mechanism's species discovery,
      which is not part of this model. */
  datatype SpeciesCall = SpeciesCall(enzyme: Species, substrate: Option<Species>, product: Option<Species>)

  /** A call to the Michaelis-Menten base mechanism's reaction construction,
      which is not part of this model: the roles and the fetched rates. */
  datatype CatalysisCall = CatalysisCall(enzyme: Species, substrate: Option<Species>, product: Option<Species>,
                                         complex: Option<Species>, kb: real, ku: real, kcat: real)

  /** What `update_species` declares itself, and what it delegates. */
  datatype SpeciesPlan = SpeciesPlan(listed: seq<Species>, delegated: Option<SpeciesCall>)

  datatype TranscriptionMM = TranscriptionMM(rnap: Species)
  datatype TranslationMM = TranslationMM(ribosome: Species)
  datatype DegradationMM = DegradationMM(nuclease: Species)

  /** The constructors' `isinstance(carrier, Species)` check. */
  function CarrierSpecies(carrier: PyObj): (r: Result<Species>)
    ensures r.Success? <==> carrier.PySpecies?
    ensures r.Success? ==> r.value == carrier.species
    ensures r.Failure? ==> r.error == ValueError
  {
    if carrier.PySpecies? then Success(carrier.species) else Failure(ValueError)
  }

  function NewTranscriptionMM(rnap: PyObj): (r: Result<TranscriptionMM>)
    ensures r.Success? <==> rnap.PySpecies?
    ensures r.Success? ==> r.value.rnap == rnap.species
    ensures r.Failure? ==> r.error == ValueError
  {
    var s :- CarrierSpecies(rnap);
    Success(TranscriptionMM(s))
  }

  function NewTranslationMM(ribosome: PyObj): (r: Result<TranslationMM>)
    ensures r.Success? <==> ribosome.PySpecies?
    ensures r.Success? ==> r.value.ribosome == ribosome.species
    ensures r.Failure? ==> r.error == ValueError
  {
    var s :- CarrierSpecies(ribosome);
    Success(TranslationMM(s))
  }

  function NewDegradationMM(nuclease: PyObj): (r: Result<DegradationMM>)
    ensures r.Success? <==> nuclease.PySpecies?
    ensures r.Success? ==> r.value.nuclease == nuclease.species
    ensures r.Failure? ==> r.error == ValueError
  {
    var s :- CarrierSpecies(nuclease);
    Success(DegradationMM(s))
  }

  /** `Transcription_MM.update_species`: the DNA, then what the base
      mechanism declares for polymerase, DNA and the transcription output. */
  function TranscriptionMMSpecies(m: TranscriptionMM, dna: Species, transcript: Option<Species>, protein: Option<Species>)
    : (plan: SpeciesPlan)
    ensures plan.listed == [dna]
    ensures plan.delegated == Some(SpeciesCall(m.rnap, Some(dna), TxOutput(transcript, protein)))
  {
    SpeciesPlan([dna], Some(SpeciesCall(m.rnap, Some(dna), TxOutput(transcript, protein))))
  }

  /** `Transcription_MM.update_reactions`: `ktx`, `kb`, `ku` are fetched in
      that order; the base mechanism is called with the polymerase as enzyme,
      the DNA as substrate, the transcription output as product and `ktx` as
      catalytic rate. */
  function TranscriptionMMReactions(m: TranscriptionMM, dna: Species, component: Params, complex: Option<Species>,
                                    transcript: Option<Species>, protein: Option<Species>)
    : (r: Result<CatalysisCall>)
    ensures r.Success? <==> "ktx" in component && "kb" in component && "ku" in component
    ensures "ktx" !in component ==> r == Failure(MissingParameter("ktx"))
    ensures r.Success? ==> r.value == CatalysisCall(m.rnap, Some(dna), TxOutput(transcript, protein), complex,
                                                    component["kb"], component["ku"], component["ktx"])
  {
    var ktx :- GetParameter(component, "ktx");
    var kb :- GetParameter(component, "kb");
    var ku :- GetParameter(component, "ku");
    Success(CatalysisCall(m.rnap, Some(dna), TxOutput(transcript, protein), complex, kb, ku, ktx))
  }

  /** `Translation_MM.update_species`: only the protein in the
      expression-only configuration, otherwise what the base mechanism
      declares for ribosome, transcript and protein. */
  function TranslationMMSpecies(m: TranslationMM, transcript: Option<Species>, protein: Option<Species>)
    : (plan: SpeciesPlan)
    ensures ExpressionOnly(transcript, protein) ==> plan == SpeciesPlan([protein.value], None)
    ensures !ExpressionOnly(transcript, protein) ==> plan == SpeciesPlan([], Some(SpeciesCall(m.ribosome, transcript, protein)))
  {
    if ExpressionOnly(transcript, protein) then SpeciesPlan([protein.value], None)
    else SpeciesPlan([], Some(SpeciesCall(m.ribosome, transcript, protein)))
  }

  /** `Translation_MM.update_reactions`: `ktl`, `kb`, `ku` are fetched first
      in every configuration; then no call at all in the expression-only
      configuration, otherwise the base mechanism with the ribosome. */
  function TranslationMMReactions(m: TranslationMM, transcript: Option<Species>, protein: Option<Species>,
                                  component: Params, complex: Option<Species>)
    : (r: Result<Option<CatalysisCall>>)
    ensures r.Success? <==> "ktl" in component && "kb" in component && "ku" in component
    ensures r.Success? ==> (r.value.None? <==> ExpressionOnly(transcript, protein))
    ensures r.Success? && r.value.Some? ==>
      r.value.value == CatalysisCall(m.ribosome, transcript, protein, complex, component["kb"], component["ku"], component["ktl"])
  {
    var ktl :- GetParameter(component, "ktl");
    var kb :- GetParameter(component, "kb");
    var ku :- GetParameter(component, "ku");
    if ExpressionOnly(transcript, protein) then Success(None)
    else Success(Some(CatalysisCall(m.ribosome, transcript, protein, complex, kb, ku, ktl)))
  }

  /** `Degredation_mRNA_MM.update_species`: the RNA, the nuclease when asked
      for, then the base mechanism's species for a product-free catalysis. */
  function DegradationMMSpecies(m: DegradationMM, rna: Species, returnNuclease: bool): (plan: SpeciesPlan)
    ensures plan.listed == if returnNuclease then [rna, m.nuclease] else [rna]
    ensures plan.delegated == Some(SpeciesCall(m.nuclease, Some(rna), None))
  {
    SpeciesPlan([rna] + (if returnNuclease then [m.nuclease] else []), Some(SpeciesCall(m.nuclease, Some(rna), None)))
  }

  /** `Degredation_mRNA_MM.update_reactions`: `kdeg`, `kb`, `ku` fetched in
      that order; the base mechanism is called without a product. */
  function DegradationMMReactions(m: DegradationMM, rna: Species, component: Params, complex: Option<Species>)
    : (r: Result<CatalysisCall>)
    ensures r.Success? <==> "kdeg" in component && "kb" in component && "ku" in component
    ensures "kdeg" !in component ==> r == Failure(MissingParameter("kdeg"))
    ensures "kdeg" in component && "kb" !in component ==> r == Failure(MissingParameter("kb"))
    ensures r.Success? ==> r.value == CatalysisCall(m.nuclease, Some(rna), None, complex,
                                                    component["kb"], component["ku"], component["kdeg"])
  {
    var kdeg :- GetParameter(component, "kdeg");
    var kb :- GetParameter(component, "kb");
    var ku :- GetParameter(component, "ku");
    Success(CatalysisCall(m.nuclease, Some(rna), None, complex, kb, ku, kdeg))
  }

  /** In the expression-only configuration the Michaelis-Menten
      transcription produces the protein itself and the translation hands
      nothing to the base mechanism, so the protein is made exactly once. */
  lemma MichaelisMentenHandOff(tx: TranscriptionMM, tl: TranslationMM, dna: Species, protein: Species,
                               component: Params, complex: Option<Species>)
    requires "ktx" in component && "ktl" in component && "kb" in component && "ku" in component
    ensures TranscriptionMMReactions(tx, dna, component, complex, None, Some(protein)).value.product == Some(protein)
    ensures TranslationMMReactions(tl, None, Some(protein), component, complex) == Success(None)
    ensures TranslationMMSpecies(tl, None, Some(protein)).delegated.None?
  {
  }
}
