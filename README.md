# pawpyseed projection bookkeeping, modelled in Dafny

pawpyseed projects the Kohn–Sham bands of one VASP calculation onto the bands of another.
It uses the PAW (projector augmented wave) method. This project models the bookkeeping
around the numerical kernels, in Python and C:

- **PAW datasets** (`Pseudopotentials`).
  - Reading one dataset of a POTCAR text into a `Pseudopotential`: every `split`, every fallback
    for a missing kinetic energy density or partial core density, and every error a malformed
    text raises.
  - `CoreRegion`, one dataset per element.
- **Element labels** (`Labels`).
  - The labels `make_c_projectors`, `setup_bases` and `setup_multiple_projections` give to
    elements.
  - The per-site label and coordinate arrays.
- **The hand-over to C** (`Packing`).
  - The packing of labelled datasets into flat arrays (`get_c_projectors_from_pps`).
  - C rebuilding one record per element from those arrays (`get_projector_list`).
  - Proved as a round trip: element `u` that C builds is the dataset labelled `u`.
- **Site lists** (`Sites`). `make_site_lists` builds the identical-site pairs, the unmatched
  sites and the overlapping augmentation spheres.
- **k-points** (`Kpoints`). `get_nosym_kpoints`, `get_kpt_mapping` and the symmetry
  operation arrays of `make_c_ops`.
- **`Projector.__init__`** (`Session`). The projector's consistency checks and the state it
  leaves on the wavefunctions.
- **The C projection kernels**.
  - `Projection`: `pseudoprojection`, `vc_pseudoprojection`, `compensation_terms`.
    `onto_projector` itself is a given function; only the `setup_projections` sweep over
    its calls is modelled, in `SiteProjectors`.
  - `SiteProjectors`: `setup_projections`, `projector_values`, `overlap_setup`.
  - `OverlapMatrices`: `make_pwave_overlap_matrices`.
  - `Fft`: the grid index arithmetic of `fft3d` and `trilinear_interpolate_values`.
- **The band analyses** (`Analysis`). `proportion_conduction` and `defect_band_analysis`, on
  both the `Wavefunction` and the `Projector` side.

The remaining modules hold generic building blocks:

- `Seqs`: sequences.
- `Numbers`: C integer casts and remainders, complex numbers, flat indices.
- `Text`: Python string splitting.
- `Dicts`: insertion-ordered dictionaries.
- `Errors`: Python exceptions as a `Result`.

## How the source is modelled

- **Floating point** values are exact reals.
- **Python exceptions** are a `Result` whose error names the exception (`ValueError`,
  `IndexError`, `KeyError`, `AttributeError`).
- **Python dictionaries** keep insertion order (`Dicts.Dict`).
- **Foreign code becomes parameters.** This covers numpy's `fromstring`, `float()`, `int()`,
  pymatgen's periodic distance and symmetry operations, and the C numerical helpers
  (radial integrals, spherical harmonics, splines).
- **The C kernels** are methods over `array`s and `seq`s, with the same loops, cursors and
  flat index arithmetic as the C code. Integer truncation (`(int)`) and C's `%` on negative
  operands are written out (`Numbers.Trunc`, `Numbers.CMod`).
- **`norm(x) < 1e-10`** is stated on the squared norm (`< 1e-20`). The two are equivalent on
  reals.

## Behaviour worth knowing

- **Site matching.** When a basis site matches several subject sites, the code
  (`pawpyseed/core/projector.py:197-201`) has no tie-break: it appends every matching
  `(i, j)` pair to `M_R` and `M_S`. `Sites.MatchSites` does the same, and
  `Sites.MatchesMeaning` states that every matching pair is listed.
- **k-point desymmetrisation.** Every caller unpacks the wrong number of values:
  - `get_nosym_kpoints` returns four values (`pawpyseed/core/wavefunction.py:657`), and
    every caller unpacks five (`pawpyseed/core/projector.py:70,340,407`);
  - `get_kpt_mapping` returns three (`pawpyseed/core/wavefunction.py:679`), and its callers
    unpack four (`pawpyseed/core/projector.py:72,84,92`).

  So every desymmetrising path raises `ValueError` once the helper has returned. The model
  keeps that behaviour (`Session.DesymmetrisingFails`, `Session.MappingFails`).

## Model

| member | source | states |
|---|---|---|
| Text.Find | pawpyseed/core/wavefunction.py:66 | `str.find`: -1 exactly when the separator does not occur, otherwise the first position where it occurs |
| Text.SplitOnce | pawpyseed/core/wavefunction.py:100 | `str.split(sep, 1)` gives two pieces exactly when the separator occurs, otherwise the whole text alone |
| Text.SplitAll | pawpyseed/core/wavefunction.py:67 | `str.split(sep)` gives at least one piece, and exactly one when the separator does not occur |
| Text.SplitAllJoin | pawpyseed/core/wavefunction.py:104 | splitting loses nothing: the pieces joined by the separator give the text back |
| Text.SplitAllPieces | pawpyseed/core/wavefunction.py:123 | no piece of a split holds the separator |
| Text.SplitOnceJoin | pawpyseed/core/wavefunction.py:100 | when the separator occurs, the two pieces joined by it give the text back, and the first piece holds no occurrence |
| Text.WordsAreTokens | pawpyseed/core/wavefunction.py:126 | every word of `str.split()` is non-empty and holds no white space |
| Text.TokenLength | pawpyseed/core/wavefunction.py:126 | a word runs up to the first white space character |
| Text.SliceBound | pawpyseed/core/wavefunction.py:106 | a Python slice bound, negative or too large, lands in `[0, len]` |
| Text.PySlice | pawpyseed/core/wavefunction.py:106 | a slice such as `topstr[-22:-4]` is never longer than the text |
| Text.PyPrefix | pawpyseed/core/wavefunction.py:107 | `topstr[:-22]` is a prefix of the text |
| Pseudopotentials.Split2 | pawpyseed/core/wavefunction.py:66 | `a, b = s.split(sep, 1)` succeeds exactly when `sep` occurs; then `s == a + sep + b` and `a` holds no `sep`; otherwise ValueError |
| Pseudopotentials.SplitPair | pawpyseed/core/wavefunction.py:133 | `a, b = s.split(sep)` succeeds exactly when `sep` occurs once; then `s == a + sep + b` and neither piece holds `sep`; otherwise ValueError |
| Pseudopotentials.WithoutKinetic | pawpyseed/core/wavefunction.py:84-86 | the `except` branch: the kinetic energy density is the placeholder "0 0", and the text is cut at "pspotential" or the branch raises |
| Pseudopotentials.KineticSplit | pawpyseed/core/wavefunction.py:81-86 | the try/except around the kinetic energy density can only fail with ValueError |
| Pseudopotentials.KineticAbsent | pawpyseed/core/wavefunction.py:81-86 | without "kinetic energy-density" the placeholder is read, and the pseudopotential is cut from the core charge text at "pspotential" |
| Pseudopotentials.KineticPresent | pawpyseed/core/wavefunction.py:82-83 | with both markers in order, the try branch succeeds, and the core charge, kinetic energy density and pseudopotential texts joined by the markers give the text back |
| Pseudopotentials.KineticWithoutPotential | pawpyseed/core/wavefunction.py:81-86 | a kinetic marker with no "pspotential" after it: the fallback re-splits the text the first split already shortened, so it succeeds exactly when "pspotential" occurs before the kinetic marker |
| Pseudopotentials.WithoutPartialCore | pawpyseed/core/wavefunction.py:111-113 | the `except` branch: the partial core density is the placeholder, and the settings and local part are cut at "local part" |
| Pseudopotentials.PartialCoreSplit | pawpyseed/core/wavefunction.py:108-113 | without "core charge-density (partial)" the result is the fallback on the whole text; with it, success exactly when "local part" occurs before it, and the three pieces joined by the markers give the text back; failure is ValueError |
| Pseudopotentials.SplitLocal | pawpyseed/core/wavefunction.py:116-118 | `localnum` is the first number of the local part and `localpart` the rest; an empty local part raises IndexError |
| Pseudopotentials.Linspace | pawpyseed/core/wavefunction.py:144 | `np.linspace(0, stop, n, False)`: n points from 0, evenly spaced by stop/n and below stop; a negative n raises ValueError |
| Pseudopotentials.PartialWavesAt | pawpyseed/core/wavefunction.py:99-102 | the partial waves fail with IndexError exactly when some piece lacks "ae wavefunction"; otherwise pseudo wave t and all-electron wave t are the numbers before and after that marker in piece t |
| Pseudopotentials.ReadPartialWaves | pawpyseed/core/wavefunction.py:99-102 | the partial-wave loop computes `PartialWaves` |
| Pseudopotentials.ParseBlock | pawpyseed/core/wavefunction.py:133-135 | a projector block parses exactly when it holds "Real Space Part" once, otherwise ValueError |
| Pseudopotentials.BlocksOf | pawpyseed/core/wavefunction.py:132-135 | one reciprocal-space and one real-space projector per block |
| Pseudopotentials.SectionFields | pawpyseed/core/wavefunction.py:123-136 | a parsed section has one projector pair per block; l is the first number of its head; the non-local values are the numbers after the first two; the radius text is the head's third word, and `rmax` is its first number |
| Pseudopotentials.ReadBlocks | pawpyseed/core/wavefunction.py:132-136 | the block loop computes `BlocksOf` |
| Pseudopotentials.ReadSection | pawpyseed/core/wavefunction.py:123-136 | one iteration of the section loop computes `ParseSection` |
| Pseudopotentials.ParseSections | pawpyseed/core/wavefunction.py:122-136 | one parsed section per "Non local Part" piece |
| Pseudopotentials.ParseSectionsAt | pawpyseed/core/wavefunction.py:122-136 | the sections parse exactly when each one does, and section t is the one its own text gives |
| Pseudopotentials.GatherLengths | pawpyseed/core/wavefunction.py:131-136 | one l per projector pair (`ls`, `recipprojs` and `realprojs` have equal lengths) and one non-local entry per section |
| Pseudopotentials.GatherAt | pawpyseed/core/wavefunction.py:125-131 | section u's non-local values sit at position u, and the radius left is the last section's |
| Pseudopotentials.ReadProjectors | pawpyseed/core/wavefunction.py:122-136 | the section loop fails exactly when some section does, with the first section's error, and otherwise leaves the gathered lists of all sections |
| Pseudopotentials.CutPotentials | pawpyseed/core/wavefunction.py:78-87 | cutting the radial text at "grid", "aepotential", "core charge-density", the kinetic markers and "core charge-density (pseudized)" can only fail with ValueError |
| Pseudopotentials.CutPotentialsWithoutKinetic | pawpyseed/core/wavefunction.py:81-86 | a dataset without a kinetic energy density gets the placeholder text in its place |
| Pseudopotentials.AugText | pawpyseed/core/wavefunction.py:95-96 | the augmentation charges are the text between "augmentation charges (non sperical)" and "uccopancies in atom"; a missing marker raises ValueError |
| Pseudopotentials.RadialShape | pawpyseed/core/wavefunction.py:66-102 | one pseudo and one all-electron partial wave per "pseudo wavefunction" piece, and the placeholder's numbers for a missing kinetic energy density |
| Pseudopotentials.ParseRadial | pawpyseed/core/wavefunction.py:78-102 | reading the radial part computes `RadialOf` |
| Pseudopotentials.CutTop | pawpyseed/core/wavefunction.py:104-115 | T is `float(topstr[-22:-4])`; a failing `float()`, `int()` or missing marker raises ValueError |
| Pseudopotentials.CutTopWithoutPartialCore | pawpyseed/core/wavefunction.py:108-113 | a dataset without a partial core density gets the placeholder text in its place |
| Pseudopotentials.GridSettings | pawpyseed/core/wavefunction.py:138-142 | the settings hold "STEP   =" exactly once, and `step` is the first two numbers between it and "END" |
| Pseudopotentials.ProjectorsShape | pawpyseed/core/wavefunction.py:122-136 | the projector lists line up; one non-local entry per section; a radius exactly when there is a section, and it is the first number of its text |
| Pseudopotentials.NonradialParts | pawpyseed/core/wavefunction.py:104-136 | T and the settings come from the text before the first "Non local Part", and the projectors from the sections after it |
| Pseudopotentials.NonradialShape | pawpyseed/core/wavefunction.py:104-136 | the projector shape of `ProjectorsShape`, one entry per "Non local Part", and the placeholder for a missing partial core density |
| Pseudopotentials.ParseNonradial | pawpyseed/core/wavefunction.py:104-142 | reading the part before "PAW radial sets" computes `NonradialOf` |
| Pseudopotentials.Parse | pawpyseed/core/wavefunction.py:65-144 | the constructor computes `PseudopotentialOf` |
| Pseudopotentials.PseudopotentialShape | pawpyseed/core/wavefunction.py:65-144 | a constructed dataset has: matching pseudo and all-electron waves, one per "pseudo wavefunction"; one l per projector; one non-local entry per section; a radius text exactly when there is a section (rmax is then its first number, otherwise the argument); a projector grid laid out from the argument's rmax even when a section replaced it; the placeholder for a missing kinetic or partial core density |
| Pseudopotentials.CoreRegionContents | pawpyseed/core/wavefunction.py:158-161 | `pps` has the distinct elements as keys, in order of first appearance; an element occurring twice holds the dataset of its last entry |
| Pseudopotentials.CoreRegionStep | pawpyseed/core/wavefunction.py:160-161 | a failing entry makes the whole CoreRegion fail with its error; a parsed one is inserted under its element |
| Pseudopotentials.CoreRegionDone | pawpyseed/core/wavefunction.py:158-161 | once every entry is read, the loop's dict is the CoreRegion |
| Pseudopotentials.CoreRegion | pawpyseed/core/wavefunction.py:158-161 | the CoreRegion loop computes `CoreRegionOf` |
| Sites.MatchSites | pawpyseed/core/projector.py:195-201 | the first double loop leaves `M_R` and `M_S` holding both halves of every matching pair, in loop order |
| Sites.UnmatchedIndices | pawpyseed/core/projector.py:202-210 | both unmatched-index loops, including the subject's redundant test against the list being built, compute `Unmatched` |
| Sites.UnmatchedStep | pawpyseed/core/projector.py:204-210 | one more index joins the unmatched list exactly when it is not matched, and it was not there before |
| Sites.OverlapRow | pawpyseed/core/projector.py:213-215 | the inner overlap loop for one basis site fails with KeyError exactly when a radius lookup fails; otherwise it keeps the overlapping subject sites in order |
| Sites.OverlapPairs | pawpyseed/core/projector.py:212-216 | the overlap double loop fails with KeyError exactly when a visited pair lacks a radius; otherwise it gives the overlapping pairs of `N_R × N_S` in loop order |
| Sites.MakeSiteLists | pawpyseed/core/projector.py:173-217 | `make_site_lists` computes `SiteListsOf` |
| Sites.ProductLex | pawpyseed/core/projector.py:212-216 | the pairs of two ascending index lists in nested-loop order are in lexicographic order |
| Sites.FilterLex | pawpyseed/core/projector.py:212-216 | keeping only some pairs keeps lexicographic order |
| Sites.MatchesMeaning | pawpyseed/core/projector.py:197-201 | `M_R` and `M_S` have equal lengths; (i, j) is listed exactly when the sites are within 0.02 Å with the same element; every such pair is listed once, in i-major order (no first-match tie-break) |
| Sites.UnmatchedMeaning | pawpyseed/core/projector.py:202-210 | `N_R` (`N_S`) is ascending and holds exactly the indices not in `M_R` (`M_S`) |
| Sites.OverlapsMeaning | pawpyseed/core/projector.py:212-216 | the lists fail with KeyError exactly when an unmatched pair lacks a radius; otherwise `N_RS` is ordered and holds exactly the pairs of `N_R × N_S` closer than the sum of their radii |
| Sites.UnzipRoundTrip | pawpyseed/core/projector.py:257-261 | `N_RS_R` and `N_RS_S` have one entry per pair and zip back to `N_RS` (two empty lists when there is none) |
| Sites.SiteCat | pawpyseed/core/projector.py:262 | `site_cat` holds six lists: `M_R, M_S, N_R, N_S, N_RS_R, N_RS_S` |
| Labels.Step | pawpyseed/core/projector.py:357-361 | after one pass of the loop body the element has a label, and both dicts stay well formed |
| Labels.StepFirstSeen | pawpyseed/core/projector.py:357-361 | one pass of the loop body keeps the labelling dense and first-seen |
| Labels.TableFacts | pawpyseed/core/projector.py:356-361 | labelling (element, dataset) pairs in order: the labelled elements are the distinct ones, in order of first appearance; element number u gets label u; the labels in use are exactly 0 .. label-1; label u holds the dataset met with its element's first appearance |
| Labels.LabelCount | pawpyseed/core/projector.py:372 | `num_proj_els = len(pps)` equals the final `label` and the number of distinct elements |
| Labels.TableAt | pawpyseed/core/projector.py:356-361 | label u names an element that occurs among the pairs, and holds the dataset of that element's first pair |
| Labels.LabelElement | pawpyseed/core/projector.py:358-361 | the loop body: an unlabelled element gets the next label and its dataset; a labelled one is skipped |
| Labels.FreshStep | pawpyseed/core/projector.py:358-361 | meeting an element that has no label always labels it with the next label |
| Labels.LabelNext | pawpyseed/core/projector.py:357-361 | one pass of the inner loop extends the labelling by the CoreRegion's next element |
| Labels.LabelCoreRegion | pawpyseed/core/projector.py:357-361 | the inner loop over one CoreRegion continues the labelling by its elements, in its order |
| Labels.LabelAll | pawpyseed/core/projector.py:353-361 | the labelling loop of `setup_bases` (and of `setup_multiple_projections`, lines 417-425) labels every element of every CoreRegion in turn |
| Labels.LabelOwnNext | pawpyseed/core/wavefunction.py:380-383 | one pass of the first loop of `make_c_projectors` extends the labelling by the wavefunction's next element |
| Labels.LabelOwn | pawpyseed/core/wavefunction.py:377-383 | the first loop, which has no membership test, labels exactly as the loop with the membership test would |
| Labels.OwnStep | pawpyseed/core/wavefunction.py:380-383 | the wavefunction's element j gets label j and its own dataset |
| Labels.FreshKey | pawpyseed/core/wavefunction.py:380-383 | walking a dict's own keys never meets a labelled key, which is why the first loop needs no membership test |
| Labels.MakeLabels | pawpyseed/core/wavefunction.py:377-390 | `make_c_projectors` labels the wavefunction's elements, then the basis's new elements when there is a basis |
| Labels.MakeLabelsKeys | pawpyseed/core/wavefunction.py:377-390 | the labelled elements are the wavefunction's, then the basis's others, in the basis's order |
| Labels.OwnLabel | pawpyseed/core/wavefunction.py:380-383 | the wavefunction's u-th element gets label u and its own dataset |
| Labels.OwnLabels | pawpyseed/core/wavefunction.py:380-383 | the same for every element of the wavefunction |
| Labels.BasisLabel | pawpyseed/core/wavefunction.py:385-390 | an element only the basis has gets a label after the wavefunction's and holds the basis's dataset |
| Labels.BasisLabels | pawpyseed/core/wavefunction.py:385-390 | the same for every element only the basis has |
| Labels.MakeLabelsOrder | pawpyseed/core/wavefunction.py:377-390 | all of the above together: the labels handed to C are the wavefunction's elements in their own order, then the basis's others |
| Labels.SiteNumsMeaning | pawpyseed/core/wavefunction.py:394 | the `nums` array exists exactly when every site's element is labelled; then entry i is site i's label; otherwise KeyError |
| Labels.SiteNumsCovered | pawpyseed/core/projector.py:365 | for a structure whose elements all occur in the labelled CoreRegions, the lookup cannot fail and every label is below `num_proj_els` |
| Labels.FlatCoords | pawpyseed/core/wavefunction.py:403-404 | three coordinates per site |
| Labels.FlatCoordsAt | pawpyseed/core/wavefunction.py:403-404 | entries 3i, 3i+1 and 3i+2 are site i's fractional coordinates |
| Labels.FlattenCoords | pawpyseed/core/wavefunction.py:403-404 | the `np.append` loop computes `FlatCoords` |
| Packing.InsertSorted | pawpyseed/core/wavefunction.py:329 | inserting into an ascending list keeps it ascending and adds exactly the new key |
| Packing.Sorted | pawpyseed/core/wavefunction.py:329 | `sorted(pps.keys())` is ascending and holds exactly the keys |
| Packing.SortedRange | pawpyseed/core/wavefunction.py:329 | sorting the dense labels 0 .. n-1, inserted in any order, gives 0 .. n-1 |
| Packing.PackElement | pawpyseed/core/wavefunction.py:331-346 | one element's iteration appends its chunk to the running arrays, or raises AttributeError (no `rmaxstr`) or IndexError (too few projectors or partial waves) |
| Packing.PackWaves | pawpyseed/core/wavefunction.py:340-346 | the projector loop succeeds exactly when there are at least `len(pp.ls)` projectors and partial waves of each kind (otherwise IndexError), and appends the first `len(pp.ls)` of each |
| Packing.Pack | pawpyseed/core/wavefunction.py:317-347 | the packing loop of `get_c_projectors_from_pps` computes `PackOf` |
| Packing.PackError | pawpyseed/core/wavefunction.py:329-346 | packing fails only with AttributeError (no `rmaxstr`) or IndexError (too few projectors or partial waves) |
| Packing.ShapedTablePacks | pawpyseed/core/wavefunction.py:377-392 | the datasets `make_c_projectors` labels always pack when every one is shaped |
| Packing.PackOk | pawpyseed/core/wavefunction.py:329-346 | packing succeeds exactly when every dataset can be packed |
| Packing.PackChunks | pawpyseed/core/wavefunction.py:329-346 | a packing of shaped datasets is the join of their chunks in ascending label order, one chunk per dataset |
| Packing.ChunkOfShaped | pawpyseed/core/wavefunction.py:332-346 | a shaped dataset packs, and its four `clabels` entries describe its own arrays |
| Packing.JoinCounts | pawpyseed/core/wavefunction.py:332-334 | four `clabels` entries and one radius per element |
| Packing.CursorsMono | pawpyseed/projector.c:109-160 | the five cursors of `get_projector_list` only move forward |
| Packing.CursorsBetween | pawpyseed/projector.c:114-160 | element i's slices lie between its cursors and those past it |
| Packing.ElementFits | pawpyseed/projector.c:114-160 | when the arrays fit, element i's grids and channels lie inside them (no read out of bounds) |
| Packing.CopySlice | pawpyseed/projector.c:125-133 | a copy loop copies exactly the n values from the cursor on |
| Packing.ReadWaves | pawpyseed/projector.c:143-148 | the partial-wave loop copies both waves and fills in their difference |
| Packing.ReadChannel | pawpyseed/projector.c:135-156 | one iteration of the channel loop builds channel k |
| Packing.ReadChannels | pawpyseed/projector.c:135-157 | the channel loop builds every channel of the element, and `total_projs` is the sum of 2l + 1 over its l values |
| Packing.ReadElement | pawpyseed/projector.c:114-160 | one iteration of the element loop builds element i's record and moves the cursors past it |
| Packing.GetProjectorList | pawpyseed/projector.c:105-162 | `get_projector_list` allocates `num_els` records, record i being element i read off the arrays |
| Packing.DatasetChannels | pawpyseed/projector.c:134-157 | a dataset's channels: one per l value, with its projector, both partial waves and their difference |
| Packing.JoinCursors | pawpyseed/core/wavefunction.py:329-346 | reading a whole packing moves every C cursor exactly to the end of its array |
| Packing.JoinFits | pawpyseed/core/wavefunction.py:329-353 | what Python packs always fits what `get_projector_list` reads |
| Packing.JoinChunkAt | pawpyseed/core/wavefunction.py:329-346 | the cursors at element t are the lengths of the chunks before it |
| Packing.ElementMatches | pawpyseed/projector.c:114-160 | element t that C builds is the record of the dataset packed as chunk t |
| Packing.PackUnpack | pawpyseed/core/wavefunction.py:303-353 | round trip: when every dataset is shaped, packing succeeds, the arrays fit, and element i that C builds is the record of the dataset with the i-th smallest label |
| Packing.PackUnpackDense | pawpyseed/core/wavefunction.py:329-353 | with dense labels 0 .. n-1, element u that C builds is the dataset labelled u |
| Packing.TableShaped | pawpyseed/core/projector.py:356-361 | the labelling's datasets are shaped, and its keys are the dense labels 0 .. label-1 |
| Packing.LabelledUnpack | pawpyseed/core/projector.py:353-363 | for any labelling loop, C gets one element per label, element u being the dataset labelled u |
| Packing.MakeCProjectorsUnpack | pawpyseed/core/wavefunction.py:377-392 | `make_c_projectors` end to end: the element C builds for label u < len(own) is the wavefunction's u-th element's dataset |
| Packing.MakeCProjectorsUnpackBasis | pawpyseed/core/wavefunction.py:385-392 | an element only the basis has is built by C, under its label, from the basis's dataset |
| Kpoints.CandidatesStep | pawpyseed/core/wavefunction.py:640-642 | one more k-point adds its images after those of the earlier ones |
| Kpoints.CandidatesPrefix | pawpyseed/core/wavefunction.py:640-642 | the candidates of the first k-points come first |
| Kpoints.CandidatesLength | pawpyseed/core/wavefunction.py:640-642 | one candidate per (k-point, operation) pair |
| Kpoints.CandidatesAt | pawpyseed/core/wavefunction.py:640-642 | each candidate is the image of its k-point under its operation |
| Kpoints.CandidatesOrder | pawpyseed/core/wavefunction.py:640-642 | the candidates come in nested-loop order: k-points outside, operations inside |
| Kpoints.CandidatesCover | pawpyseed/core/wavefunction.py:640-642 | every (k-point, operation) pair is a candidate |
| Kpoints.KeepSnoc | pawpyseed/core/wavefunction.py:643-652 | one more candidate is appended exactly when it does not repeat a kept point |
| Kpoints.KeepPrefix | pawpyseed/core/wavefunction.py:643-652 | what is kept from the first candidates stays kept, at the front |
| Kpoints.KeepSub | pawpyseed/core/wavefunction.py:643-652 | everything kept is a candidate |
| Kpoints.KeepInOrder | pawpyseed/core/wavefunction.py:643-652 | the kept candidates stay in loop order |
| Kpoints.KeepNoRepeats | pawpyseed/core/wavefunction.py:643-648 | no kept point repeats an earlier kept point |
| Kpoints.KeepDropped | pawpyseed/core/wavefunction.py:643-652 | a candidate is dropped exactly when it repeats a point kept before it was reached |
| Kpoints.KeptOrRepeated | pawpyseed/core/wavefunction.py:643-652 | a candidate is kept, or lies in the unit box within 1e-10 of a kept point |
| Kpoints.KeepLength | pawpyseed/core/wavefunction.py:640-652 | no more points are kept than there are candidates |
| Kpoints.IsUnique | pawpyseed/core/wavefunction.py:643-648 | the innermost loop: `unique` is false exactly when the new point is within 1e-10 of a kept point and inside the unit box |
| Kpoints.GetNosymKpoints | pawpyseed/core/wavefunction.py:633-657 | `get_nosym_kpoints` returns the kept points, their k-point and operation numbers, and the operations |
| Kpoints.NosymKpointsMeaning | pawpyseed/core/wavefunction.py:640-657 | at most one kept point per pair; each kept point is the image of its k-point under its operation; loop order; no repeats; every pair's image is kept or repeats a kept point |
| Kpoints.KeepGenuine | pawpyseed/core/wavefunction.py:640-652 | every kept point is the image of its own k-point under its own operation |
| Kpoints.KeepCovers | pawpyseed/core/wavefunction.py:640-652 | every (k-point, operation) image is kept or repeats a kept point |
| Kpoints.FirstMatchMeaning | pawpyseed/core/wavefunction.py:666-676 | the search finds no match exactly when no candidate is within 1e-10; otherwise it finds the earliest such candidate |
| Kpoints.FirstMatchAppend | pawpyseed/core/wavefunction.py:666-676 | the first match of a concatenation is the first part's, if it has one |
| Kpoints.FirstMatchPrefix | pawpyseed/core/wavefunction.py:666-676 | a match among the first candidates is the overall match |
| Kpoints.FindMatch | pawpyseed/core/wavefunction.py:666-676 | the two inner loops with their `break`s find the first k-point and first operation, in loop order, whose image is within 1e-10 of the target |
| Kpoints.GetKptMapping | pawpyseed/core/wavefunction.py:659-679 | `get_kpt_mapping` returns the k-point and operation of each target's first match, and the operations; a target without a match raises |
| Kpoints.KptMappingMeaning | pawpyseed/core/wavefunction.py:665-679 | the mapping succeeds exactly when every target has a candidate within 1e-10; then it holds one pair per target, the first in loop order whose image matches; otherwise PAWpyError |
| Kpoints.MappingOk | pawpyseed/core/wavefunction.py:665-678 | every target's lookup succeeds exactly when every target has a candidate within 1e-10 |
| Kpoints.MappingError | pawpyseed/core/wavefunction.py:677-678 | the only error the mapping raises is PAWpyError |
| Kpoints.MakeCOps | pawpyseed/core/projector.py:12-20 | `make_c_ops` fails with IndexError exactly when an operation number is past the end; otherwise block i of `ops` is the row-major rotation of operation `op_nums[i]`, and block i of `drs` its translation |
| Kpoints.COpsRoundTrip | pawpyseed/core/projector.py:14-19 | reading block i back gives the operation's rotation matrix and translation |
| Session.DesymmetrisingFails | pawpyseed/core/projector.py:69-96 | every desymmetrising branch fails. With both flags, the five-name unpacking of `get_nosym_kpoints`' four values raises ValueError. With one flag, `get_kpt_mapping` raises PAWpyError when a k-point cannot be mapped, and otherwise its three values are unpacked into four names (ValueError). Only the non-desymmetrising path passes |
| Session.MappingFails | pawpyseed/core/wavefunction.py:665-679 | `get_kpt_mapping` of the other side's k-points raises exactly when some target cannot be mapped |
| Session.Broadcast | pawpyseed/core/projector.py:98-101 | numpy broadcasting of the leading axis of `a - b`: equal lengths, or a length of 1 stretched to the other; any other pair raises ValueError |
| Session.PointGapSq | pawpyseed/core/projector.py:98 | a squared k-point distance is not negative |
| Session.WeightGapSq | pawpyseed/core/projector.py:100 | a squared weight difference is not negative |
| Session.GapSqSame | pawpyseed/core/projector.py:98-101 | an array minus itself has norm 0 |
| Session.GapSqBounds | pawpyseed/core/projector.py:98-101 | the squared norm bounds every row's squared distance |
| Session.CompareSame | pawpyseed/core/projector.py:98-101 | an array compared with itself passes |
| Session.CompareMeaning | pawpyseed/core/projector.py:98-101 | the comparison raises ValueError exactly when the shapes do not broadcast; passing means every pair of broadcast rows lies within 1e-10 |
| Session.SameGridsPass | pawpyseed/core/projector.py:98-101 | with the grid check reading both sides' k-points, two wavefunctions on the same k-points and weights pass |
| Session.ChecksMeaning | pawpyseed/core/projector.py:69-101 | passing the checks means neither side is desymmetrised, both arrays broadcast, and every k-point and weight lies within 1e-10 of its counterpart |
| Session.InitAsWrittenNeverPasses | pawpyseed/core/projector.py:69-101 | as written, no Projector can be built: a desymmetrising branch fails, and otherwise `basis.kpts`, an attribute no Wavefunction has, raises AttributeError, even for identical grids |
| Session.TableShape | pawpyseed/core/wavefunction.py:377-390 | the labelling's keys are the distinct elements; `label` counts them; the labels are dense |
| Session.LabelledElements | pawpyseed/core/wavefunction.py:377-390 | the labelled elements are exactly the two CoreRegions' elements |
| Session.LabelBelow | pawpyseed/core/wavefunction.py:400 | every label is below `num_proj_els` |
| Session.SiteNumsKnown | pawpyseed/core/wavefunction.py:394-397 | a structure's site labels exist exactly when each site's element is in one of the CoreRegions (otherwise KeyError), and each is below `num_proj_els` |
| Session.CProjectorsMeaning | pawpyseed/core/wavefunction.py:356-410 | `make_c_projectors` first packs the labelled datasets: a dataset that does not pack raises AttributeError or IndexError, and shaped datasets always pack. Once they pack, it succeeds exactly when every site of both structures has a known element, otherwise KeyError; `num_proj_els` is the number of distinct elements; one label below it per site and three coordinates per site, for both structures |
| Session.MakeCProjectors | pawpyseed/core/wavefunction.py:377-409 | the labelling, packing and site lookups of `make_c_projectors`, in its order, compute `CProjectorsOf` |
| Session.OwnProjectorsMeaning | pawpyseed/core/wavefunction.py:356-409 | `make_c_projectors()` with no basis, as `check_c_projectors` calls it: a dataset that does not pack raises AttributeError or IndexError first, and shaped datasets always pack; then it succeeds exactly when every site's element has a dataset, otherwise KeyError; each site's label is its element's position in the POTCAR, and the coordinates are the sites' own |
| Session.OwnTable | pawpyseed/core/wavefunction.py:377-383 | labelled on their own, the labelled elements are exactly those with a dataset, each labelled by its POTCAR position |
| Session.OwnShaped | pawpyseed/core/wavefunction.py:377-392 | shaped datasets labelled on their own always pack |
| Session.MakeOwnProjectors | pawpyseed/core/wavefunction.py:377-409 | the labelling, packing and site lookups of `make_c_projectors()`, in its order, compute `OwnProjectorsOf` |
| Session.Wavefunction.constructor | pawpyseed/core/wavefunction.py:234-252 | a new Wavefunction keeps its structure, CoreRegion and k-points and has half the FFT grid. It owns a projector list and has labels and coordinates exactly when `check_c_projectors` ran, and `num_proj_els` is None |
| Session.Wavefunction.Create | pawpyseed/core/wavefunction.py:223-252 | `Wavefunction(..., setup_projectors)`: by default `check_c_projectors` (wavefunction.py:496-507) labels the wavefunction's own sites and its error escapes `__init__`; it succeeds exactly when `make_c_projectors()` does; without it it always succeeds, nothing is labelled and no projector list is owned |
| Session.Wavefunction.Label | pawpyseed/core/projector.py:465-467 | `wf.nums`, `wf.coords` and `wf.num_proj_els` set from outside |
| Session.Halved | pawpyseed/core/wavefunction.py:242 | `np.array(ngf) // 2` halves each entry, rounding down |
| Session.Projector.Copy | pawpyseed/core/projector.py:112-129 | the projector copies the wavefunction's fields, owns its projector list, and stores the pseudo flag |
| Session.Projector.SetupProjection | pawpyseed/core/projector.py:218-262 | with `setup_basis`, the labels and coordinates of `make_c_projectors` are stored on both sides, or its error (AttributeError or IndexError from packing, KeyError for an unknown element) is raised with nothing changed. Then `site_cat` is the site lists of the basis against the projector |
| Session.Projector.Store | pawpyseed/core/projector.py:234-235 | the five-value unpacking of `make_c_projectors` into the projector and the basis, with the `num_proj_els` set on both |
| Session.Projector.KeepSiteLists | pawpyseed/core/projector.py:256-262 | `site_cat` holds the six lists of `make_site_lists`, or its KeyError is raised with `site_cat` unchanged |
| Session.GateLabels | pawpyseed/core/projector.py:103-107 | the labels `__init__` gives an unlabelled wavefunction: `basis.labels` of each site's element; AttributeError when the basis has no labels and the structure has sites, empty lists for an empty structure, KeyError for an unknown element; three coordinates per site |
| Session.Gate | pawpyseed/core/projector.py:103-110 | the block runs only when the wavefunction has no labels, projections are not pseudo-only and a projector list is handed in. It labels the wavefunction with the basis's labels and `num_proj_els`, or raises with the wavefunction unchanged |
| Session.NewProjector | pawpyseed/core/projector.py:38-129 | `Projector.__init__` (grid check on both sides' k-points). A failing check raises before any object changes. Then the wavefunction is labelled from the basis when the block applies. Then the fields are copied, and unless pseudo, `setup_projection` runs: a new projector list when none was handed in, and `site_cat` from `make_site_lists`. Once the checks pass and the block applies without error, pseudo projectors are always built; otherwise construction succeeds exactly when `make_c_projectors` succeeds (or a list was handed in) and `make_site_lists` succeeds, and it raises the first of their errors |
| Projection.OverlapSwap | pawpyseed/projector.c:93-96 | swapping the two coefficient lists conjugates the overlap |
| Projection.OverlapSelf | pawpyseed/projector.c:40-43 | a band's overlap with itself, the sum of `C1s[w] * conj(C2s[w])` with equal coefficient lists, is real and not negative |
| Projection.OverlapOf | pawpyseed/projector.c:93-96 | the innermost loop sums `C1s[w] * conj(C2s[w])` over the reference band's plane waves |
| Projection.BandOverlap | pawpyseed/projector.c:89-96 | the (b, k) body pairs band `BAND_NUM` of the projected wavefunction with reference band b at k-point k |
| Projection.Overlaps | pawpyseed/projector.c:85-100 | one overlap per (band, k-point) pair, band-major |
| Projection.Interleave | pawpyseed/projector.c:97-98 | two doubles per complex number |
| Projection.Reassemble | pawpyseed/core/wavefunction.py:203 | `res[::2] + 1j * res[1::2]` gives one complex number per two doubles |
| Projection.ReassembleInterleave | pawpyseed/core/wavefunction.py:202-203 | reassembling what C interleaves gives the complex overlaps back |
| Projection.InterleaveReassemble | pawpyseed/core/wavefunction.py:202-203 | interleaving reassembled numbers gives the doubles back |
| Projection.PseudoLayout | pawpyseed/projector.c:82 | the result holds `2 * NUM_BANDS * NUM_KPTS` doubles |
| Projection.LayoutSlot | pawpyseed/projector.c:97-98 | the (b, k) overlap's real and imaginary parts sit at `2*(b*NUM_KPTS+k)` and the next slot |
| Projection.FillBand | pawpyseed/projector.c:85-100 | one pass of the band loop fills band b's slots and keeps the earlier ones |
| Projection.Pseudoprojection | pawpyseed/projector.c:75-103 | `pseudoprojection` returns a fresh array holding every overlap of band `BAND_NUM` with every reference band at every k-point, in `PseudoLayout` |
| Projection.FillLegacyBand | projector.c:79-94 | one pass of the band loop of the older `pseudoprojection` fills band b's slots |
| Projection.LegacyPseudoprojection | projector.c:69-97 | the older `pseudoprojection` stores one complex number per (b, k) at `b*NUM_KPTS+k`, always taken with band 0 of the projected wavefunction, whatever `BAND_NUM` is |
| Projection.LegacyAgrees | projector.c:69-97 | for band 0, the older packed result is what the current interleaved one reassembles to |
| Projection.PwfPseudoprojectionAt | pawpyseed/core/wavefunction.py:186-203 | entry `b*NUM_KPTS+k` of `PseudoWavefunction.pseudoprojection` is the overlap of band `band_num` with basis band b at k-point k |
| Projection.Share | pawpyseed/projector.c:46-49 | `vband[k]` and `cband[k]` are sums of squared magnitudes, never negative |
| Projection.ShareSplit | pawpyseed/projector.c:46-49 | each band goes to exactly one side of the occupation cut (`occ > 0.5`), so `vband[k] + cband[k]` is the total squared overlap at k |
| Projection.TotalSplit | pawpyseed/projector.c:54-68 | the valence and conduction totals add up to the weighted squared overlap of band 0 with the whole reference |
| Projection.TotalNonnegative | pawpyseed/projector.c:54-58 | with weights that are not negative, neither total is negative |
| Projection.AccumulateBand | pawpyseed/projector.c:32-51 | one pass of the band loop adds band b's squared overlap to `vband[k]` or `cband[k]` at every k-point |
| Projection.WeightedTotals | pawpyseed/projector.c:54-59 | the k-point loop gives the weighted totals |
| Projection.VcPseudoprojection | pawpyseed/projector.c:20-73 | `results[0]` is the valence total and `results[1]` the conduction total; `BAND_NUM` is not read, band 0 is used |
| Projection.InterleaveAt | pawpyseed/projector.c:97-98 | entries 2q and 2q+1 of an interleaved array are number q's parts |
| Projection.ReassembleSum | pawpyseed/core/projector.py:321-322 | adding the compensation doubles to the interleaved overlaps adds complex number q of each |
| Projection.AddInPlace | pawpyseed/core/projector.py:321 | numpy's `res += ct` adds element by element |
| Projection.SingleBandProjection | pawpyseed/core/projector.py:274-322 | in pseudo mode the result is `PseudoWavefunction.pseudoprojection`; otherwise entry q is the pseudo overlap plus compensation term q; one entry per (band, k-point) |
| Projection.CompensationAsWrittenOverflows | pawpyseed/projector.c:466 | the loop stores twice the `NUM_KPTS * NUM_BANDS` doubles allocated: every iteration from half the allocation on, the last one included, writes at or past the end of the buffer |
| Projection.Compensations | pawpyseed/projector.c:479-566 | one sum per (band, k-point) pair |
| Projection.CompensationSlot | pawpyseed/projector.c:485-486 | iteration w handles k-point `w % NUM_KPTS` and band `w / NUM_KPTS`, so band b at k-point k sits at `b*NUM_KPTS+k`, with `NUM_BANDS` and `NUM_KPTS` the projected wavefunction's counts; `pseudoprojection` uses the same layout over the basis's counts |
| Projection.AccumulateTerms | pawpyseed/projector.c:480-565 | the body of iteration w stores that pair's four-part sum at `2w` and `2w+1` and touches nothing else |
| Projection.CompensationTerms | pawpyseed/projector.c:448-570 | with a `2 * NUM_BANDS * NUM_KPTS` buffer over the projected wavefunction's counts, the result is the interleaved sums, band b at k-point k at `b*NUM_KPTS+k`; this is what `single_band_projection` reads only when those counts equal the basis's |
| SiteProjectors.Ls | pawpyseed/projector.c:183-184 | one l per channel of the element |
| SiteProjectors.ChannelProjs | pawpyseed/projector.c:189-195 | channel j with angular momentum l has 2l + 1 projs |
| SiteProjectors.EnumerationLength | pawpyseed/projector.c:183-186 | a site has `total_projs` = sum of (2l + 1) projs, the size of the `projs` buffer |
| SiteProjectors.EnumerationAt | pawpyseed/projector.c:187-196 | projector m of channel j sits at the channels before j plus m + l, with l, m and `func_num = j` |
| SiteProjectors.EnumerationEntries | pawpyseed/projector.c:187-196 | every proj names a channel, carries that channel's l, and has -l <= m <= l |
| SiteProjectors.SiteProjs | pawpyseed/projector.c:183-196 | the `total_projs` loop and the `projs` loop with its running counter p build the enumeration |
| SiteProjectors.FillChannel | pawpyseed/projector.c:189-195 | the m loop for channel j writes its 2l + 1 projs from slot p on and keeps the slots before |
| SiteProjectors.PrefixEnumeration | pawpyseed/projector.c:187-196 | the projs of the first channels come first |
| SiteProjectors.DecodeFlat | pawpyseed/projector.c:208 | the flat index `i*fftg[1]*fftg[2] + j*fftg[2] + k` identifies its grid point |
| SiteProjectors.RecordedIsFilter | pawpyseed/projector.c:201-216 | a site's indices after n grid points are the first n flat indices that pass the 0.99 rmax test |
| SiteProjectors.RecordedMeaning | pawpyseed/projector.c:201-216 | a site's indices are ascending and inside the grid, and hold a point exactly when its minimum-image distance is below 0.99 rmax |
| SiteProjectors.VisitStep | pawpyseed/projector.c:205-216 | one site's test at one grid point extends its indices as the filter says |
| SiteProjectors.VisitPoint | pawpyseed/projector.c:205-217 | the site loop at grid point (i, j, k) records the point for every site close enough |
| SiteProjectors.BlankSites | pawpyseed/projector.c:171-197 | the first loop of `projector_values`: each site's index, label, element data, coordinates and projs, with no indices yet |
| SiteProjectors.VisitGrid | pawpyseed/projector.c:199-220 | the grid loop gives every site the indices of all grid points within 0.99 rmax |
| SiteProjectors.ProjectorValues | pawpyseed/projector.c:164-226 | `projector_values` returns, per site, its element data, its projs in (channel, m) order, and the grid points within 0.99 rmax of it |
| SiteProjectors.PairMatrix | pawpyseed/projector.c:421 | the block of an `N_RS` pair has `total_projs(R) * total_projs(S)` entries |
| SiteProjectors.PairMatrixEntry | pawpyseed/projector.c:432-437 | entry `p1*T2 + p2` couples proj p1 of the basis site with proj p2 of the subject site |
| SiteProjectors.PairMatrixAt | pawpyseed/projector.c:425-443 | the pair (channel j, m1) × (channel k, m2) has its own slot, and that entry holds its overlap |
| SiteProjectors.PairSlotsDistinct | pawpyseed/projector.c:425-443 | distinct (j, m1, k, m2) get distinct slots, so no overlap overwrites another |
| SiteProjectors.OverlapSetupAsWrittenMisses | pawpyseed/projector.c:424-443 | as written (`tj` per channel, `tk` reset per channel), a p-channel basis site against an s-channel subject site writes slot 0 three times and never writes slots 1 and 2 |
| SiteProjectors.FillPairRow | pawpyseed/projector.c:428-440 | the inner loops for row p1 fill that row and keep the earlier rows |
| SiteProjectors.PairOverlaps | pawpyseed/projector.c:421-443 | with counters that advance once per projector, the block of pair i is `PairMatrix` |
| SiteProjectors.PairLs | pawpyseed/projector.c:417-420 | the channel l values of the two sites of pair i are not negative |
| SiteProjectors.PairBlock | pawpyseed/projector.c:421 | a pair's block has `total_projs(R) * total_projs(S)` entries |
| SiteProjectors.OverlapSetup | pawpyseed/projector.c:409-446 | `overlap_setup` with the corrected counters returns one block per `N_RS` pair, in pair order |
| SiteProjectors.OverlapSetupSlots | pawpyseed/projector.c:425-443 | every (channel j, m1) × (channel k, m2) overlap of pair i sits in its own slot of the pair's block |
| SiteProjectors.SetupProjectionsAsWrittenMisses | pawpyseed/projector.c:400-405 | as written (band `w % NUM_BANDS`), with 2 bands and 2 k-points band 1 at k-point 0 is never projected, while (0, 0) and (1, 1) are projected twice each |
| SiteProjectors.SweepExactlyOnce | pawpyseed/projector.c:400-405 | the corrected sweep (band `w / NUM_KPTS`) visits each in-range (k-point, band) pair exactly once, at `w = b*NUM_KPTS + k` |
| SiteProjectors.SweepCovers | pawpyseed/projector.c:400-405 | every (k-point, band) pair is visited by the corrected sweep |
| SiteProjectors.SweepPrefixLayout | pawpyseed/projector.c:400-405 | the whole corrected sweep holds pair (k, b) at `b*NUM_KPTS + k` |
| SiteProjectors.SetupProjections | pawpyseed/projector.c:387-407 | the corrected loop hands `onto_projector` every (k-point, band) pair once, pair (k, b) at `b*NUM_KPTS + k` |
| OverlapMatrices.Integrand | pawpyseed/projector.c:358-360 | the integrand of entry (i, j) has one value per wave grid point: ps1*ps2, ae1*ae2 or (ae1-ps1)*(ae2-ps2) |
| OverlapMatrices.HalvesMakeTrapezoid | pawpyseed/projector.c:355-370 | the left-half-step pass and the right-half-step pass together are the trapezoid rule on the wave grid |
| OverlapMatrices.TwoPassIntegral | pawpyseed/projector.c:355-370 | the two k loops, accumulated from calloc's zero, compute the trapezoid integral of the integrand |
| OverlapMatrices.PairIntegral | pawpyseed/projector.c:347-370 | when channels i and j share their l, the two k loops leave entry (i, j) at its integral |
| OverlapMatrices.Matrix | pawpyseed/projector.c:340-343 | each matrix is a num_projs x num_projs buffer |
| OverlapMatrices.UpperMatrix | pawpyseed/projector.c:345-373 | the buffer after the first double loop has num_projs x num_projs entries |
| OverlapMatrices.UpperRowStart | pawpyseed/projector.c:341-346 | entries of row i left of the diagonal still hold calloc's zero after the first double loop, because j starts at i |
| OverlapMatrices.UpperAt | pawpyseed/projector.c:345-373 | after the first double loop, entry (i, j) holds its integral when j >= i and zero when j < i |
| OverlapMatrices.UpperEntryAt | pawpyseed/projector.c:346-371 | an entry on or above the diagonal holds its integral, and zero when the two channels' l differ |
| OverlapMatrices.IntegrandSwap | pawpyseed/projector.c:358-368 | the integrand of (i, j) equals that of (j, i) |
| OverlapMatrices.EntrySymmetric | pawpyseed/projector.c:347-370 | the integral of (i, j) equals that of (j, i), and the l test is symmetric too |
| OverlapMatrices.MatrixSymmetric | pawpyseed/projector.c:374-380 | each of the three finished matrices is symmetric |
| OverlapMatrices.MatrixEntries | pawpyseed/projector.c:345-380 | an entry coupling channels of different l is zero; any other entry is the trapezoid integral of the two waves' product, in either order |
| OverlapMatrices.FillUpperEntry | pawpyseed/projector.c:347-371 | one j step writes entry (i, j) its final upper value; entries before it stay final, entries after it stay zero |
| OverlapMatrices.FillUpperRow | pawpyseed/projector.c:346-372 | the j loop of row i makes the whole row final and leaves later rows zero |
| OverlapMatrices.FillUpper | pawpyseed/projector.c:341-373 | the first double loop turns three zeroed buffers into the upper-triangle matrix |
| OverlapMatrices.UpperRowEnd | pawpyseed/projector.c:374-379 | the mirror loop need not touch entries on or right of the diagonal: they already hold the final value |
| OverlapMatrices.MirrorSource | pawpyseed/projector.c:376-378 | the entry (j, i) that (i, j) copies already holds the value (i, j) must end with |
| OverlapMatrices.MirrorRow | pawpyseed/projector.c:375-379 | the j loop of row i copies (j, i) into (i, j) for j < i; the row is then final |
| OverlapMatrices.Mirror | pawpyseed/projector.c:374-380 | the second double loop turns the upper-triangle buffer into the full symmetric matrix |
| OverlapMatrices.OverlapMatrix | pawpyseed/projector.c:338-380 | make_pwave_overlap_matrices computes each matrix in a new buffer, equal to the symmetric integral matrix |
| OverlapMatrices.WithMatrices | pawpyseed/projector.c:382-384 | the element's pspw, aepw and diff matrices are set afterwards |
| OverlapMatrices.MakePwaveOverlapMatrices | pawpyseed/projector.c:338-385 | the element gets its three matrices, and nothing else about it changes |
| OverlapMatrices.SetupOverlapMatrices | pawpyseed/projector.c:391-394 | setup_projections gives every element its overlap matrices, and only those change |
| Fft.Cell | pawpyseed/fft.c:16-18 | for 0 <= frac < 1 on a positive grid, the truncated `(int) (frac * fftg)` is a cell of the grid |
| Fft.Next | pawpyseed/fft.c:19-21 | the neighbouring cell is again a cell of the grid |
| Fft.NextIsRemainder | pawpyseed/fft.c:19-21 | C's `(i+1) % fftg` is that neighbour: the next cell, wrapping past the last back to 0 |
| Fft.CornerIndex | pawpyseed/fft.c:24-31 | every corner index lies inside the buffer of f0*f1*f2 entries |
| Fft.Corners | pawpyseed/fft.c:23-31 | a cell has eight corners |
| Fft.CornersListed | pawpyseed/fft.c:24-31 | the eight corners are exactly the eight ind entries the source writes, in its order |
| Fft.CornersDistinct | pawpyseed/fft.c:24-31 | with at least two cells per axis, the eight corners are eight different grid points |
| Fft.WriteCorners | pawpyseed/fft.c:23-31 | the eight writes fill ind with the flattened indices of the eight corners, in order |
| Fft.CornersComputed | pawpyseed/fft.c:16-31 | the entries ind gets from the truncated indices and their neighbours are the corners of the cell holding frac |
| Fft.CornerIndices | pawpyseed/fft.c:16-31 | the first half of trilinear_interpolate_values fills ind with the eight corners |
| Fft.TrilinearInterpolateValues | pawpyseed/fft.c:14-33 | values[n] takes the value of grid point x at corner n, real and imaginary parts, for all eight corners; x is only read |
| Fft.WaveIndexBounds | pawpyseed/fft.c:45-47 | a plane wave whose shifted Miller indices lie in the grid has its index inside the buffer |
| Fft.WaveIndexInjective | pawpyseed/fft.c:45-47 | two plane waves inside the grid at the same buffer index have the same shifted Miller indices |
| Fft.Scatter | pawpyseed/fft.c:44-49 | the scatter keeps the buffer size |
| Fft.ScatterUntouched | pawpyseed/fft.c:44-49 | an entry no plane wave maps to keeps its earlier value |
| Fft.ScatterWritten | pawpyseed/fft.c:44-49 | a wave's entry holds that wave's coefficient unless a later wave maps to the same entry |
| Fft.ScatterDistinctWaves | pawpyseed/fft.c:44-49 | when the plane waves are distinct and inside the grid, each wave's entry holds its own coefficient |
| Fft.ScatterCoefficients | pawpyseed/fft.c:44-49 | the loop at the start of fft3d writes the buffer to the scatter of the coefficients, and changes nothing else in x |
| Analysis.FlatInRange | pawpyseed/core/wavefunction.py:440-444 | the flat index b*nspin*nwk + s*nwk + k of an in-range triple is in range, and `i%nwk` recovers its k-point |
| Analysis.FlatSumsPartition | pawpyseed/core/wavefunction.py:446-451 | each entry goes to exactly one of v and c, so v + c is the total over all entries |
| Analysis.FlatSumsNonnegative | pawpyseed/core/wavefunction.py:446-451 | with non-negative k-point weights, v and c are non-negative |
| Analysis.FlatSumsAllValence | pawpyseed/core/wavefunction.py:446-451 | when every occupation exceeds one half, c stays zero |
| Analysis.RowStep | pawpyseed/core/wavefunction.py:439-444 | one more k-point adds its entry's weighted square to v[s] when occupied and to c[s] otherwise |
| Analysis.SpinSums | pawpyseed/core/wavefunction.py:436 | the spin-resolved v and c have one entry per spin |
| Analysis.Shares | pawpyseed/core/wavefunction.py:452-454 | dividing by the total keeps one share per spin |
| Analysis.ProportionsAddUp | pawpyseed/core/wavefunction.py:446-454 | the valence and conduction proportions are numbers exactly when the total is not zero, then add up to 1, and lie in [0, 1] with non-negative weights |
| Analysis.SpinProportionsAddUp | pawpyseed/core/wavefunction.py:435-457 | per spin, the two proportions add up to 1 wherever that spin's total is not zero |
| Analysis.AllValenceProportion | pawpyseed/core/wavefunction.py:446-454 | a band lying wholly in occupied bulk states has valence proportion 1 and conduction 0 |
| Analysis.FlatLoop | pawpyseed/core/wavefunction.py:446-451 | the flat loop computes the valence and conduction sums entry by entry |
| Analysis.AddEntry | pawpyseed/core/wavefunction.py:440-444 | one k-point adds its entry to v[s] or to c[s], and the other spins are untouched |
| Analysis.SpinRow | pawpyseed/core/wavefunction.py:439-444 | the k loop for band b and spin s adds that row's sums to v[s] and c[s] only |
| Analysis.SpinBand | pawpyseed/core/wavefunction.py:438-444 | the spin loop of band b extends every spin's sums by band b |
| Analysis.SpinLoops | pawpyseed/core/wavefunction.py:436-444 | the nested band, spin and k loops produce the per-spin valence and conduction sums |
| Analysis.ProportionConductionLoops | pawpyseed/core/projector.py:512-535 | the loops and the optional division give proportion_conduction's result; a missing k-point weight raises IndexError |
| Analysis.WavefunctionProportionConduction | pawpyseed/core/wavefunction.py:411-458 | Wavefunction.proportion_conduction always divides by the total |
| Analysis.ProjectorProportionConduction | pawpyseed/core/projector.py:489-536 | Projector.proportion_conduction divides by the total only in pseudo mode |
| Analysis.VbmIsLastOccupied | pawpyseed/core/wavefunction.py:479-482 | the band found is the last one whose first occupation exceeds one half; it is 0 when no band is occupied |
| Analysis.FindVbm | pawpyseed/core/wavefunction.py:479-482 | the vbm loop finds that band, and raises IndexError when there are bands but no occupations |
| Analysis.BandWindow | pawpyseed/core/wavefunction.py:483-485 | the window is vbm - num_below_ef .. vbm + num_above_ef inside the bands; otherwise PAWpyError |
| Analysis.CollectOk | pawpyseed/core/wavefunction.py:487-492 | the results have exactly the window's bands as keys, each with its proportions, exactly when no band raises |
| Analysis.CollectError | pawpyseed/core/wavefunction.py:490-492 | otherwise the error is that of the first band that raises |
| Analysis.CollectErrorStays | pawpyseed/core/wavefunction.py:491-492 | once a band raises, the later bands change nothing |
| Analysis.CollectLoop | pawpyseed/core/wavefunction.py:490-492 | the loop over totest builds that dictionary |
| Analysis.WavefunctionDefectBandAnalysis | pawpyseed/core/wavefunction.py:460-494 | Wavefunction.defect_band_analysis returns the bulk's window's proportions or the first error |
| Analysis.SpinEnergyConstant | pawpyseed/core/projector.py:584-585 | a constant energy e over ns spins adds ns * e * kws[k] |
| Analysis.BandEnergySumConstant | pawpyseed/core/projector.py:583-585 | a constant energy e sums to nspin * e * sum(kws) over the k-points |
| Analysis.ConstantBandEnergy | pawpyseed/core/projector.py:582-586 | a band whose energy is e at every k-point and spin gets energy e, when the weights do not sum to zero |
| Analysis.BandEnergyLoops | pawpyseed/core/projector.py:582-586 | the k and spin loops compute the weighted mean energy of band b |
| Analysis.Energies | pawpyseed/core/projector.py:579-586 | the energies dictionary has exactly the window's bands as keys |
| Analysis.EnergiesSnoc | pawpyseed/core/projector.py:580-586 | each band adds its own energy and changes no other entry |
| Analysis.AnalyseWindowLoop | pawpyseed/core/projector.py:578-586 | the loop over totest builds the results and energies, or ends with the first error |
| Analysis.ProjectorDefectBandAnalysis | pawpyseed/core/projector.py:552-589 | Projector.defect_band_analysis takes the window from self's occupations, bounds it by the basis band count, and returns the results and energies |

## Left out

- File reading: POTCAR, POSCAR, OUTCAR, vasprun.xml and WAVECAR parsing belong to pymatgen or the C readers. The dataset text, structures, k-points, weights, occupations and plane-wave coefficients are inputs instead.
- pawpyseed/core/utils.py is not part of this model. cdouble_to_numpy, cfunc_call and the numpy reader calls (np.fromstring, float, int) are taken as exact conversions, and the number readers as parameters.
- SpacegroupAnalyzer, SymmOp.operate and pymatgen's minimum-image distance are foreign code. They become the parameters `operate` and `dist`, and a wavefunction carries its symmetry operations as data.
- Floating point: doubles, C floats and float complex are exact reals. Rounding, the single-precision coefficients and numpy nan/inf are not modelled, except numpy's division by zero in Analysis (the Ratio values).
- OpenMP parallel loops and `omp critical` sections run sequentially.
- Prints, the Timer accumulators and time.monotonic are observability only.
- Object lifetime: free_all, free_ppot_list, free_pswf and the other native frees are left out, because the model has no native pointers.
- Setup_multiple_projections: its generator, its try/except that counts errors and its frees are left out. Only its label-table loop is modelled.
- Wavefunction desymmetrisation: expand_symm_wf and copy_wf are C and Python calls reached only after the unpack of get_nosym_kpoints or get_kpt_mapping. That unpack always raises ValueError, so they cannot be reached and are not modelled.
- get_nosym_kpoints also stores nosym_kpts, orig_kptnums, op_nums and symmops on the wavefunction before returning. The model returns those lists, but does not model the stores, because Projector.__init__ raises right after.
- Projector.__init__ after the checks: setup_projection's C calls (setup_projections_no_rayleigh, overlap_setup_real) are left out. Their C counterparts are modelled on their own (SiteProjectors, OverlapMatrices, Projection).
- Session.MakeCProjectors: packs the datasets but does not keep the packed arrays. Packing.PackOk and Packing.PackUnpack state what packing gives and its round trip through get_projector_list.
- Session.Wavefunction.Create: the C call setup_projections_no_rayleigh of check_c_projectors is left out, and nband, nwk and nspin, which __init__ reads from the C wavefunction, are parameters.
- grid_encut, the tenth argument make_c_projectors passes to get_projector_list, is a floating-point energy cutoff. It is not modelled, and get_projector_list's nine modelled parameters do not include it.
- rmaxstrs is collected by get_c_projectors_from_pps but is not part of the packed arrays the model round-trips, because the C side reads rmax from it as text.
- spline_coeff, proj_value, offsite_wave_overlap, onto_projector, rayexp and min_cart_path are numerical kernels, taken as given functions.
- Projection.CompensationTerms: takes compensation_terms' four summed parts as a parameter `part`. The hard-coded mymat table, the Rayleigh expansion and the freopen of stdout are not modelled.
- Projection.CompensationTerms: numBands and numKpts are the projected wavefunction's nband and nwk*nspin (pawpyseed/projector.c:462-463), while single_band_projection reads 2*nband*nwk*nspin doubles over the basis's counts (pawpyseed/core/projector.py:297-311), as pseudoprojection lays them out (pawpyseed/projector.c:79-80). The model assumes the two wavefunctions have the same band, k-point and spin counts; the grid check compares only k-points and weights. With fewer projected bands the tail of the buffer is never written; with more, the parts read basis bands past its nband.
- Projection.Compensations: compensation_terms reads BAND_NUM only in a printf (pawpyseed/projector.c:460). Every part reads band w / NUM_KPTS of both wavefunctions, so the compensation added in single_band_projection is the same for every band_num. The model's `part` takes no band number, matching this.
- add_num_cart_gridpts is acos/sin lattice geometry. The indices buffer of projector_values is sized by its num_cart_gridpts, which the model takes as large enough.
- The MKL transform and the phase multiplication of fft3d (pawpyseed/fft.c:51-83) are left out; only the scatter that starts fft3d is modelled.
- pawpyseed/sbt.c (spherical Bessel transform) is left out.
- read_and_project in the older projector.c reads WAVECAR files through readers that are not part of this model.
- Element records are Dafny values rather than malloc'd C structs; pointer aliasing between them is not modelled.
- Fft.TrilinearInterpolateValues: requires 0 <= frac < 1 in every component and a positive grid. No caller of it is in the modelled files, so the model assumes frac lies in the unit cell; outside it, frac*fftg can truncate to fftg or below 0 and C reads x out of bounds.
- Analysis.ProportionConductionLoops: raises IndexError up front when a k-point weight is missing. Python raises at the first such entry, and the function's result is the same.
- Analysis.WavefunctionProportionConduction: takes the band's pseudoprojection onto the bulk (res) as an input. Projection models how it is computed.
- Analysis.ProjectorDefectBandAnalysis: always returns the results together with the energies. return_energies only decides whether the caller also gets the energies.
- Analysis.ProjectorDefectBandAnalysis: the get_energy calls are the parameter `energy`.

## Findings

| source | as written | input that shows it | evidently intended | confidence | as-written member | corrected member |
|---|---|---|---|---|---|---|
| pawpyseed/projector.c:424-443 | overlap_setup advances the row counter tj once per channel j of the basis site, and resets the column counter tk per channel, so an entry is written at `tj*total_projs(S) + tk` with tj counting channels, not projectors | a basis site with one p channel (l = 1, three projectors) against a subject site with one s channel: of the 3 slots only slot 0 is written | every projector pair (m of channel j, m' of channel k) gets its own slot, covering all `total_projs(R)*total_projs(S)` entries | not executed | SiteProjectors.OverlapSetupAsWrittenMisses | SiteProjectors.OverlapSetup |
| pawpyseed/projector.c:400-405 | setup_projections projects, in iteration w, band `w % NUM_BANDS` at k-point `w % NUM_KPTS` | 2 bands and 2 k-points: iterations visit (band 0, k 0) and (band 1, k 1) twice each, and never (band 0, k 1) | iteration w handles band `w / NUM_KPTS` at k-point `w % NUM_KPTS`, so every (band, k-point) pair is projected exactly once | not executed | SiteProjectors.SetupProjectionsAsWrittenMisses | SiteProjectors.SetupProjections |
| pawpyseed/projector.c:466 | compensation_terms allocates NUM_KPTS*NUM_BANDS doubles but writes overlap[2w] and overlap[2w+1] for every w < NUM_BANDS*NUM_KPTS | 1 band and 1 k-point: one double is allocated and overlap[1] is written past its end | allocate 2*NUM_KPTS*NUM_BANDS doubles, the interleaved layout single_band_projection reads | not executed | Projection.CompensationAsWrittenOverflows | Projection.CompensationTerms |
| pawpyseed/core/projector.py:98-101 | Projector.__init__ compares basis.kpts with wf.kpts, attributes no Wavefunction has (the k-points live in wf.pwf.kpts) | two identical wavefunctions with no desymmetrisation: the comparison raises AttributeError | compare the k-points and weights of the two pseudo-wavefunctions, which passes for matching grids | not executed | Session.InitAsWrittenNeverPasses | Session.SameGridsPass |
