# BioCRNpyler core in Dafny

This project models three files of BioCRNpyler, a Python library that
compiles a description of a biological circuit into a chemical reaction
network (CRN):

- `biocrnpyler/reaction.py`: the `Reaction` value. It holds input and output
  lists of species with stoichiometries, normalised on construction, and a
  propensity. The model covers its checks, equality, containment, its list
  of species, and species replacement.
- `biocrnpyler/mechanisms_txtl.py`: the transcription and translation
  mechanisms. Each one turns a DNA, transcript or protein into species and
  reactions. The model covers:
  - one-step gene expression, simple transcription and simple translation;
  - positive and negative Hill transcription;
  - the three Michaelis–Menten mechanisms, up to their hand-off to the
    generic Michaelis–Menten builder;
  - the multi-occupancy mechanisms `multi_tx` and `multi_tl`. These give
    every occupancy state of a template (DNA, or mRNA) by carriers (RNA
    polymerases, or ribosomes) its own complex.
- `biocrnpyler/chemical_reaction_network.py`: the `ChemicalReactionNetwork`
  container. It is a list of species without duplicates and a list of
  reactions, both filled in place.

Modules:

| file | module | contents |
|---|---|---|
| `wrappers.dfy` | `Wrappers` | `Option`; `Result`; the Python exceptions raised, with `MissingParameter` for a failed parameter lookup |
| `species.dfy` | `Chemistry` | `Species` (a basic species or a complex of parts), `Weighted`, occurrence counts, substitution |
| `reaction.dfy` | `Reactions` | `Reaction`, `Propensity`, `PyObj` (any Python argument, so that `isinstance` checks have their error paths), normalisation, and the reaction operations |
| `parameters.dfy` | `Parameters` | parameter lookup as a partial map; Python `int()` on a number |
| `decimal.dfy` | `Decimal` | `str(n)` for naturals and its inverse, for complex names |
| `mechanisms.dfy` | `Mechanisms` | the one-step, simple, Hill and Michaelis–Menten mechanisms |
| `occupancy.dfy` | `Occupancy` | the network that `multi_tx` and `multi_tl` share, the two mechanisms, and conservation and stoichiometry lemmas |
| `crn.dfy` | `Networks` | class `ChemicalReactionNetwork` and its operations |

How the two forms are used:

- Pure code is written as functions.
- Code that loops or updates state is written as methods.
  - Where the loop computes a value, the method is proved equal to a
    function. `UpdateReactions` follows the loops and comprehensions of
    `multi_tx.update_reactions` and is proved equal to
    `OccupancyReactions`. `ConvertComplexList`, `BuildStates`,
    `SubstituteEach` and `ReplaceInEach` are proved the same way.
  - Where the method changes the network, its contract states the new
    fields in terms of the old ones. `AddSpecies` is proved against
    `Extend`. `AddReactions`, `AddReactionSpecies`, `Create`,
    `InitialConditionVector` and `ChemicalReactionNetwork.ReplaceSpecies`
    have relational contracts: they pin the prefix, the set of species,
    the reaction list and the array entries, rather than equating the
    result with one function.

The multi-occupancy network is built once over `Roles`: template, carrier
and product. `multi_tx` supplies (DNA, polymerase, transcript), and
`multi_tl` supplies (mRNA, ribosome, protein).

The code and the class docstring disagree on what the closed states hold.
The docstring says `DNA:RNAp_n_c` holds n open carriers and one closed
carrier. A `Layout` parameter selects which composition is used:

- `AsWritten` follows the code: the closed state n ≥ 1 holds n carriers.
- `Corrected` follows the docstring: it holds n+1 carriers.

Conservation of template and carrier is proved for `Corrected`. The
reactions that break it under `AsWritten` are proved in
`AsWrittenCarrierImbalance` (see Findings).

## Model

| member | source | states |
|---|---|---|
| Reactions.CheckAndConvert | biocrnpyler/reaction.py:126-142 | Succeeds iff the list is all Species or all WeightedSpecies, else TypeError; the result lists each species once, with the same species set and the same total stoichiometry per species as the input; stoichiometries stay positive when they were |
| Reactions.ConvertComplexList | biocrnpyler/reaction.py:126-142 | The converting method returns exactly what `CheckAndConvert` specifies |
| Reactions.TallyFacts | biocrnpyler/reaction.py:137-140 | Counting duplicates preserves every weighted sum over the list and the set of species, and leaves no species twice |
| Reactions.NewReaction | biocrnpyler/reaction.py:63-72 | Construction converts inputs then outputs; it fails with TypeError exactly when a list is neither all Species nor all WeightedSpecies; the result's lists are the converted lists, so each species keeps its summed stoichiometry (for Species and WeightedSpecies lists alike); the propensity is kept |
| Reactions.FromMassAction | biocrnpyler/reaction.py:90-103 | The constructor with a mass-action propensity: same failure condition, the converted lists with each species' summed stoichiometry and the same totals, and the propensity `MassAction(k_forward, k_reverse)` |
| Reactions.NewReactionByAmounts | biocrnpyler/reaction.py:63-72 | Reactions built from lists, Species or WeightedSpecies, that give every species the same total stoichiometry on each side compare equal |
| Reactions.FromSpeciesLists | biocrnpyler/reaction.py:126-142 | Lists of plain species always convert; each species appears once with its multiplicity in the list as stoichiometry; totals equal list lengths; the multiset of each side is the list's multiset |
| Reactions.Equals | biocrnpyler/reaction.py:211-220 | TypeError against a non-Reaction; otherwise true exactly when the list lengths agree, the sets of input entries and of output entries agree, and the propensities agree |
| Reactions.EqualsComparesAmounts | biocrnpyler/reaction.py:211-220 | For normalised reactions with positive stoichiometries, `__eq__` holds exactly when every species has the same stoichiometry among the inputs and among the outputs and the propensities agree |
| Reactions.EqualsReflexiveSymmetric | biocrnpyler/reaction.py:211-220 | `__eq__` is reflexive and symmetric |
| Reactions.OrderInsensitive | biocrnpyler/reaction.py:211-220 | Reactions built from permuted species lists are equal |
| Reactions.SpeciesList | biocrnpyler/reaction.py:240-254 | The `species` property lists input species, then output species, then propensity species, position by position |
| Reactions.Contains | biocrnpyler/reaction.py:222-238 | `__contains__` raises NotImplementedError for a non-Species and answers otherwise |
| Reactions.ContainsAgreesWithSpeciesList | biocrnpyler/reaction.py:222-254 | For a species, `s in r` holds exactly when s is in `r.species` |
| Reactions.ReplaceSpecies | biocrnpyler/reaction.py:152-180 | ValueError unless both arguments are Species; otherwise a normalised reaction with the same total stoichiometry on each side |
| Reactions.ReplaceBySelf | biocrnpyler/reaction.py:152-180 | Replacing a species by itself gives back the same (normalised) reaction |
| Reactions.ReplaceRemoves | biocrnpyler/reaction.py:152-180 | Replacing a basic species by one that does not contain it leaves no input or output mentioning it |
| Reactions.ConvertSubstituted | biocrnpyler/reaction.py:161-169 | The substituted lists pass the constructor's check unchanged and keep their totals |
| Chemistry.SubstituteRemoves | biocrnpyler/chemical_reaction_network.py:187-190 | After replacing basic `a` by a `b` that does not contain it, no part mentions `a` |
| Chemistry.SubstituteSelf | biocrnpyler/chemical_reaction_network.py:187-190 | Replacing a species by itself is the identity |
| Parameters.GetParameter | biocrnpyler/mechanisms_txtl.py:396-400 | A parameter lookup succeeds iff the name is present, else fails naming the parameter |
| Parameters.Truncate | biocrnpyler/mechanisms_txtl.py:400 | `int()` truncates toward zero: bounds on both signs |
| Decimal.NatToString | biocrnpyler/mechanisms_txtl.py:406-413 | `str(n)` is a non-empty string of digits with no leading zero |
| Decimal.ParseNatToString | biocrnpyler/mechanisms_txtl.py:406-413 | Reading back `str(n)` gives n |
| Decimal.NatToStringInjective | biocrnpyler/mechanisms_txtl.py:406-413 | Distinct numbers give distinct names |
| Mechanisms.Step | biocrnpyler/mechanisms_txtl.py:33 | `t --> t + p` consumes one t and releases t and one p, with the given propensity; a None participant is a TypeError |
| Mechanisms.ResolveRate | biocrnpyler/mechanisms_txtl.py:27-30 | A given rate wins; otherwise the component's parameter; with neither, ValueError |
| Mechanisms.OneStepReactions | biocrnpyler/mechanisms_txtl.py:24-35 | ValueError exactly when no rate can be resolved (even without a protein); no reaction without a protein; else one catalytic `dna --> dna + protein` at kexpress |
| Mechanisms.OneStepCovers | biocrnpyler/mechanisms_txtl.py:17-35 | Every species of the reactions is among `update_species` |
| Mechanisms.SimpleTranscriptionReactions | biocrnpyler/mechanisms_txtl.py:56-70 | Succeeds exactly when ktx resolves and, in the expression-only configuration (no transcript, a protein), the component holds ktl, otherwise the transcript is given; then one `dna --> dna + protein` at ktx·ktl, or one `dna --> dna + transcript` at ktx. The failures: the rate error, AttributeError without component, MissingParameter("ktl"), TypeError without transcript and protein |
| Mechanisms.SimpleTranscriptionCovers | biocrnpyler/mechanisms_txtl.py:46-70 | The reactions mention only species `update_species` lists |
| Mechanisms.SimpleTranslationSpecies | biocrnpyler/mechanisms_txtl.py:80-84 | Transcript and protein, the protein defaulting to a protein species named after the transcript |
| Mechanisms.SimpleTranslationReactions | biocrnpyler/mechanisms_txtl.py:86-99 | Succeeds exactly when ktl resolves and a protein is given; rate errors first; no reaction in the expression-only configuration; otherwise one catalytic `transcript --> transcript + protein` at ktl, TypeError when protein is None |
| Mechanisms.SimpleTranslationCovers | biocrnpyler/mechanisms_txtl.py:80-99 | The reactions mention only species `update_species` lists |
| Mechanisms.ExpressionOnlyHandOff | biocrnpyler/mechanisms_txtl.py:63-95 | Without a transcript, translation emits nothing and transcription alone makes the protein at ktx·ktl |
| Mechanisms.HillTranscription | biocrnpyler/mechanisms_txtl.py:130-153 | Succeeds exactly when k, n, K and kleak are present and there is an output species; they are fetched in that order, the first missing one being reported; one catalytic reaction with the proportional Hill propensity on the regulator and DNA, plus with `leak` a mass-action one at kleak on the same species |
| Mechanisms.HillCovers | biocrnpyler/mechanisms_txtl.py:117-153 | The reactions (regulator included through the propensity) mention only listed species |
| Mechanisms.HillVariantsAgree | biocrnpyler/mechanisms_txtl.py:130-204 | Positive and negative Hill transcription succeed together and build the same reactions up to the sign of the Hill propensity |
| Mechanisms.NewTranscriptionMM | biocrnpyler/mechanisms_txtl.py:212-219 | A non-Species RNAP is a ValueError; otherwise it is stored |
| Mechanisms.NewTranslationMM | biocrnpyler/mechanisms_txtl.py:261-267 | A non-Species ribosome is a ValueError; otherwise it is stored |
| Mechanisms.NewDegradationMM | biocrnpyler/mechanisms_txtl.py:304-310 | A non-Species nuclease is a ValueError; otherwise it is stored |
| Mechanisms.TranscriptionMMSpecies | biocrnpyler/mechanisms_txtl.py:221-231 | The DNA, then the Michaelis–Menten species of RNAP, DNA and the transcription output |
| Mechanisms.TranscriptionMMReactions | biocrnpyler/mechanisms_txtl.py:233-253 | Succeeds iff ktx, kb, ku are present (ktx reported first); hands RNAP, DNA, output, complex and kb, ku, kcat = ktx to the builder |
| Mechanisms.TranslationMMSpecies | biocrnpyler/mechanisms_txtl.py:269-278 | Expression-only: just the protein; otherwise the Michaelis–Menten species of ribosome, transcript, protein |
| Mechanisms.TranslationMMReactions | biocrnpyler/mechanisms_txtl.py:280-297 | Parameters fetched even when unused; no builder call exactly in the expression-only configuration; otherwise kcat = ktl |
| Mechanisms.DegradationMMSpecies | biocrnpyler/mechanisms_txtl.py:312-317 | The RNA, the nuclease when asked for, then the builder's species with no product |
| Mechanisms.DegradationMMReactions | biocrnpyler/mechanisms_txtl.py:319-331 | Succeeds iff kdeg, kb, ku are present, kdeg being fetched first and then kb; the builder gets the nuclease as enzyme, the RNA as substrate, no product, the given complex, kb, ku and kcat = kdeg |
| Mechanisms.MichaelisMentenHandOff | biocrnpyler/mechanisms_txtl.py:221-297 | Without a transcript, transcription's product is the protein and translation adds neither species call nor reactions |
| Occupancy.OccupancySpecies | biocrnpyler/mechanisms_txtl.py:364-381 | The open states 0..max_occ−1 in order, the closed states 0..max_occ−1 in order, then carrier, template, product |
| Occupancy.BuildStates | biocrnpyler/mechanisms_txtl.py:405-413 | The complex-instantiation loop produces exactly `Open(0..m-1)` and `Closed(0..m-1)` |
| Occupancy.UpdateSpecies | biocrnpyler/mechanisms_txtl.py:364-381 | `update_species` returns `OccupancySpecies` |
| Occupancy.Plan | biocrnpyler/mechanisms_txtl.py:417-441 | IndexError exactly when max_occ ≤ 0 (the loading step indexes an empty list); otherwise 5·max_occ − 1 reactions |
| Occupancy.OccupancyReactions | biocrnpyler/mechanisms_txtl.py:383-443 | Same failure and length as the plan it realises |
| Occupancy.RealizeIsFromMassAction | biocrnpyler/mechanisms_txtl.py:418-439 | Each planned step is exactly what `Reaction.from_massaction` builds from its species lists |
| Occupancy.ReleasesFromOpen | biocrnpyler/mechanisms_txtl.py:425-429 | The open-release loop builds the open releases, in order |
| Occupancy.ReleasesFromClosed | biocrnpyler/mechanisms_txtl.py:431-434 | The closed-release loop builds the closed releases for n = 1 .. max_occ−1, in order |
| Occupancy.BindingComprehension | biocrnpyler/mechanisms_txtl.py:418 | The binding comprehension builds the bindings n = 0 .. max_occ−2 |
| Occupancy.UnbindingComprehension | biocrnpyler/mechanisms_txtl.py:419 | The unbinding comprehension builds the unbindings n = 0 .. max_occ−2 |
| Occupancy.IsomerisationComprehension | biocrnpyler/mechanisms_txtl.py:422 | The isomerisation comprehension builds the isomerisations n = 0 .. max_occ−1 |
| Occupancy.RealizePlan | biocrnpyler/mechanisms_txtl.py:441 | The result is the concatenation of the five blocks and the two loading reactions, in that order |
| Occupancy.UpdateReactions | biocrnpyler/mechanisms_txtl.py:383-443 | `update_reactions` returns `OccupancyReactions` |
| Occupancy.PlanBlocks | biocrnpyler/mechanisms_txtl.py:418-441 | Reaction i is the step the block layout assigns to i (bindings, unbindings, isomerisations, open releases, closed releases, loading, unloading) |
| Occupancy.ReversePairs | biocrnpyler/mechanisms_txtl.py:418-439 | Each unbinding reverses the binding with the same n, and unloading reverses loading, at the forward and reverse rates |
| Occupancy.NamesDistinct | biocrnpyler/mechanisms_txtl.py:406-413 | Open names are distinct, closed names are distinct, and no open name is a closed name |
| Occupancy.StatesDistinct | biocrnpyler/mechanisms_txtl.py:364-381 | The 2·max_occ complexes are pairwise distinct and differ from template and carrier |
| Occupancy.StateContents | biocrnpyler/mechanisms_txtl.py:405-413 | Open state n holds n+1 carriers, closed state n holds `Carriers(n)`; each holds one template |
| Occupancy.CarrierCounts | biocrnpyler/mechanisms_txtl.py:418-439 | Carriers on each side of every kind of step |
| Occupancy.TemplateCounts | biocrnpyler/mechanisms_txtl.py:418-439 | One template on each side of every kind of step |
| Occupancy.TemplateConserved | biocrnpyler/mechanisms_txtl.py:383-443 | Every reaction conserves the template, under both compositions |
| Occupancy.CarrierConserved | biocrnpyler/mechanisms_txtl.py:340-348 | With the documented composition every reaction conserves carriers |
| Occupancy.AsWrittenCarrierImbalance | biocrnpyler/mechanisms_txtl.py:408-413 | As written, closed states 0 and 1 hold the same parts; binding to open state k loses a carrier and its unbinding creates one, and the isomerisation and the release of every closed state n ≥ 1 each create one |
| Occupancy.OccupancyCovers | biocrnpyler/mechanisms_txtl.py:364-443 | Every species of every reaction is among `update_species` |
| Occupancy.OpenReleaseStoichiometry | biocrnpyler/mechanisms_txtl.py:425-429 | Open state n releases n+1 carriers, n+1 products and the template |
| Occupancy.ClosedReleaseStoichiometry | biocrnpyler/mechanisms_txtl.py:431-434 | Closed state n releases n carriers, n products and closed state 0 |
| Occupancy.MaxOccupancy | biocrnpyler/mechanisms_txtl.py:400 | `max_occ` must be present and is truncated by `int()` |
| Occupancy.NewMultiTx | biocrnpyler/mechanisms_txtl.py:354-361 | A non-Species polymerase is a ValueError; otherwise it is stored |
| Occupancy.NewMultiTl | biocrnpyler/mechanisms_txtl.py:467-478 | A non-Species ribosome is a ValueError; otherwise it is stored |
| Occupancy.MultiTxSpecies | biocrnpyler/mechanisms_txtl.py:364-381 | Fails without max_occ; otherwise the occupancy species for (DNA, polymerase, transcript) |
| Occupancy.MultiTxReactions | biocrnpyler/mechanisms_txtl.py:383-443 | k1 is fetched first; succeeds iff all five parameters are present and int(max_occ) ≥ 1; the occupancy network at (k1, k2, k_iso, ktx_solo); 5·max_occ − 1 reactions |
| Occupancy.MultiTlSpecies | biocrnpyler/mechanisms_txtl.py:481-499 | Fails without max_occ; otherwise the occupancy species for (mRNA, ribosome, protein) |
| Occupancy.MultiTlReactions | biocrnpyler/mechanisms_txtl.py:501-560 | kbr is fetched first; succeeds iff all five parameters are present and int(max_occ) ≥ 1; the occupancy network at (kbr, kur, k_iso_r, ktl_solo) |
| Occupancy.MultiTxRates | biocrnpyler/mechanisms_txtl.py:385-394 | Bindings and loading run at k1, unbindings and unloading at k2, isomerisations at k_iso, releases at ktx_solo |
| Occupancy.MultiConserved | biocrnpyler/mechanisms_txtl.py:340-348 | With the documented composition, multi_tx conserves polymerase and DNA and multi_tl ribosome and mRNA |
| Networks.ExtendFacts | biocrnpyler/chemical_reaction_network.py:45-49 | Adding species keeps the old list as a prefix, yields exactly old ∪ added, and keeps the list free of duplicates |
| Networks.ExtendPresent | biocrnpyler/chemical_reaction_network.py:48 | Species already listed are not added again |
| Networks.ExtendIdempotent | biocrnpyler/chemical_reaction_network.py:39-53 | Adding the same species twice is the same as adding them once |
| Networks.ExtendFirstOccurrence | biocrnpyler/chemical_reaction_network.py:45-49 | Species are placed in the order of their first occurrence |
| Networks.ChemicalReactionNetwork.AddSpecies | biocrnpyler/chemical_reaction_network.py:39-53 | The new list is `Extend` of the old with the species before the first non-Species, which raises ValueError; reactions unchanged; no duplicates introduced |
| Networks.ChemicalReactionNetwork.AddReactionSpecies | biocrnpyler/chemical_reaction_network.py:72-73 | The reaction's input and output species, in some order, are added: old list a prefix, contents grow by exactly those species |
| Networks.ChemicalReactionNetwork.AddReactions | biocrnpyler/chemical_reaction_network.py:57-75 | Reactions before the first non-Reaction are appended (duplicates kept), then ValueError; the species list grows, as a prefix extension without duplicates, by exactly their input and output species |
| Networks.ChemicalReactionNetwork.Create | biocrnpyler/chemical_reaction_network.py:31-37 | ValueError iff some species or reaction argument has the wrong kind; the reactions are the given ones; the given species come first in first-occurrence order; the species set is given ∪ reaction species; only propensity species can be reported unlisted |
| Networks.CheckCrnValidity | biocrnpyler/chemical_reaction_network.py:79-116 | ValueError for a non-Reaction, then for a non-Species; otherwise both lists back, the species without reactions and the unlisted ones, which partition the symmetric difference |
| Networks.ValidityConsistent | biocrnpyler/chemical_reaction_network.py:105-114 | No warning is due exactly when the species set equals the reactions' species |
| Networks.UnlistedArePropensitySpecies | biocrnpyler/chemical_reaction_network.py:57-116 | When all input and output species are listed, every unlisted species is a propensity species |
| Networks.ChemicalReactionNetwork.InitialConditionVector | biocrnpyler/chemical_reaction_network.py:152-157 | A fresh array, one entry per species, the given initial value or 0 |
| Networks.ChemicalReactionNetwork.GetAllSpeciesContaining | biocrnpyler/chemical_reaction_network.py:159-173 | ValueError for a non-Species; otherwise `Containing` of the species list |
| Networks.ContainingFacts | biocrnpyler/chemical_reaction_network.py:159-173 | The result keeps the list order, and holds exactly the listed species that are or contain the item |
| Networks.ChemicalReactionNetwork.ReplaceSpecies | biocrnpyler/chemical_reaction_network.py:175-197 | ValueError unless both are Species; this network is untouched; a new network whose reactions are the replaced reactions, one for one, whose species start with the replaced species, and whose species set is exactly the replaced species plus the species the new reactions consume or produce |
| Networks.SubstituteEach | biocrnpyler/chemical_reaction_network.py:187-190 | The species loop produces each species with the replacement applied |
| Networks.ReplaceInEach | biocrnpyler/chemical_reaction_network.py:192-195 | The reaction loop produces `replace_species` of each reaction |

## Left out

- Occupancy.MultiTxSpecies, Occupancy.MultiTxReactions, Occupancy.MultiTlSpecies, Occupancy.MultiTlReactions: the product (transcript or protein) is typed as a Species, so the path where it is None is not modelled. With a None transcript or protein, `update_species` (biocrnpyler/mechanisms_txtl.py:377-380, 497-499) returns a list whose last entry is None. In the same case `update_reactions` raises a TypeError at the first open release reaction (biocrnpyler/mechanisms_txtl.py:426-429, through biocrnpyler/reaction.py:127-132) whenever int(max_occ) >= 1.
- `Species.flatten_list`: lists are taken as already flat. `biocrnpyler/species.py` is not part of this model. Species are reduced to a name, a material type and, for complexes, their parts. `Species.replace_species` and `get_species(recursive=True)` are modelled as structural substitution and structural containment, the species itself included. The sorting of complex parts is not modelled.
- Reactions.Contains: `__contains__` tests `item in self.inputs`, a Species against a list of WeightedSpecies. `WeightedSpecies.__eq__` is not part of this model; it is taken to count a WeightedSpecies as equal to the Species it wraps, so membership is "some entry wraps the species".
- Reactions.EqualsComparesAmounts: stated for reactions whose stoichiometries are positive, as `CheckAndConvert` makes them for Species lists and positive WeightedSpecies lists. An entry of stoichiometry 0 would count in `__eq__`'s sets but not in the amounts. Whether `WeightedSpecies` admits 0 is decided in `biocrnpyler/species.py`, which is not part of this model.
- `Reaction.replace_species` prints the new propensity's dictionary. The print is output only and is left out.
- `WeightedSpecies._count_weighted_species` is not in the modelled files. It is taken to sum stoichiometries per species in first-occurrence order.
- The propensity classes are reduced to mass action and proportional Hill, with the species they mention. Their validity checks, `from_dict`/`propensity_dict`, and other kinds are left out. So `Reaction.replace_species` substitutes propensity species directly.
- `Reaction.old_interface`, the `propensity_type` setter check, `is_reversible`, `__repr__`, `pretty_print`, and warnings (empty reactions, duplicates, unused or unlisted species) are left out. The warnings have no effect on results. `check_crn_validity` returns the two sets it would warn about.
- Parameter lookup by part id and mechanism (`component.get_parameter` and its defaults) is a partial map from names to values. `return_numerical` is implied.
- `MichaelisMenten` and `MichaelisMentenCopy` are not part of this model. The Michaelis–Menten mechanisms return the call they make to the builder (`SpeciesCall`, `CatalysisCall`).
- Mechanisms.HillTranscription: `part_id` and the `Mechanism` base class are not modelled. `ProportionalHillPositive` and `ProportionalHillNegative` are one propensity constructor with a sign.
- Occupancy.MultiTxReactions, Occupancy.MultiTxSpecies, Occupancy.MultiTlSpecies and Occupancy.MultiTlReactions: these take the `Layout` as a parameter. `AsWritten` is the code; `Corrected` is the documented composition.
- The `multi_tl` constructor's warnings and the mechanism name and type strings are left out.
- The `multi_tx` docstring (`biocrnpyler/mechanisms_txtl.py:340-343`) lets n range over 0..max_occ in every reaction scheme, five reactions per n. The code builds binding and unbinding for n < max_occ − 1, isomerisation and open release for n < max_occ, closed release for 1 ≤ n < max_occ, and the loading pair: 5·max_occ − 1 reactions, 14 for `max_occ` = 3. The model follows the code.
- Networks.ChemicalReactionNetwork.AddReactions: `list(set(...))` has no defined order, so the order in which one reaction's species are added is a nondeterministic choice. The contract fixes the resulting set and prefix, not that order.
- `add_species` and `add_reactions` deep-copy their arguments. Species and reactions are values here, so the copies are equal values.
- `initial_condition_vector` with string keys, `get_all_species_containing(return_as_strings=True)`, `__repr__`, `pretty_print`, SBML generation and writing, and simulation (bioscrape, libroadrunner) are left out. They are I/O, text formatting or calls into other libraries.
- `show_warnings` arguments are left out: warnings are not modelled.

## Findings

| source | as written | input that shows it | evidently intended | confidence | as-written member | corrected member |
|---|---|---|---|---|---|---|
| biocrnpyler/mechanisms_txtl.py:408-413 (and 525-531 in `multi_tl`) | the closed state n ≥ 1 is built with n carriers, so `..._closed_0` and `..._closed_1` have the same parts | `max_occ` = 2: binding 0, `pol + polxdna_1 --> polxdna_closed_1`, consumes 2 polymerases and produces 1; isomerisation 1, `polxdna_closed_1 --> polxdna_2`, creates one | the docstring's "n open and one closed" carriers, n+1, which conserves carriers in every reaction | not executed | Occupancy.AsWrittenCarrierImbalance | Occupancy.CarrierConserved |
