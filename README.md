# SPARKX core in Dafny: particles, the JETSCAPE loader, reaction-plane flow

This project models three pieces of the SPARKX analysis package for
heavy-ion collision output.

- `Particle` (`particle.dfy`, module `Particles`) is one particle of an event. It has
  up to twenty-four optional quantities, filled from one of five positional
  column layouts (`Oscar2013`, `Oscar2013Extended`, `Oscar2013Extended_IC`,
  `Oscar2013Extended_Photons`, `JETSCAPE`). Getters raise when a quantity is
  unset; baryon number and strangeness return None instead. The derived
  kinematics have guards (the light cone for spatial rapidity and proper time,
  the near-zero shifts of the rapidities). PDG queries answer false or None
  for an invalid code. The particle object is a `class` whose setters update
  its fields in place. A `Record` value is the snapshot the loader and the
  flow code work on.
- `JetscapeLoader` (`jetscape_loader.dfy`, module `JetscapeLoading`) covers the
  loader. It validates `load`'s keyword options and runs an index pass over the
  `N_hadrons`/`N_partons` marker lines. From that index it computes how many
  lines to skip and how many to read. The bounded read groups particle lines
  into events at the `Event ... weight` headers and applies the optional
  filters when an event closes. It then reconciles the event table with the
  selection, and `get_sigmaGen` scans the last line. The loader is a `class`
  whose fields (options, particle type, marker keyword, event table, event
  count) are updated as in the source. Each of its methods is proved equal to
  a function that states its result. `jetscape_files.dfy` (module `JetscapeFiles`)
  proves what those functions do on a well-formed JETSCAPE file (header,
  event blocks, terminal `sigmaGen` line) and on its error cases.
- `ReactionPlaneFlow` (`reaction_plane.dfy`, module `ReactionPlane`) is the flow
  estimator. It checks the harmonic `n` and computes the integrated flow as the
  event loop over the particle loop, with its unconditional final division. It
  also computes the differential flow, binning particles into half-open bins of
  `pt`, rapidity or pseudorapidity, then a flat weighted average per bin with a
  zero-weight guard. The loops are `while` loops proved equal to recursive
  functions. The lemmas show that the event loop is a flat
  weighted mean, and that with increasing edges the bins select disjoint
  particles.
- `common.dfy` (module `Common`) holds the `Option`/`Result` wrappers and the
  Python values the argument checks inspect (`isinstance`). `text.dfy`
  (module `Text`) holds the string operations the loader relies on:
  substring test, `split` on one character, whitespace `split()`, `int()`
  and `float()` for decimal tokens.

Errors are values. Each error datatype maps to the Python exception class the
source raises (`ExceptionOf`). File contents are given as a sequence of lines
without their newlines. The particle-data table, the square root and the
transcendental functions are function parameters (`Lib`). So are the event
filters (`Cut`) and the complex factor `pt^n exp(i n phi) / pt^n` (`FlowLib.term`).

The model follows the code, including two behaviours that a reader might
not expect:

- `integrated_flow` divides by the weight sum without a guard, so a data set
  without particles raises ZeroDivisionError rather than giving 0
  (`ReactionPlane.NoParticlesRaises`).
- `differential_flow` does not check that the bin edges are numbers in
  increasing order. Edges that are not increasing simply give empty or
  overlapping bins; the partition lemmas assume increasing edges.

Four defects of the code are listed under Findings. Each one is modelled twice:
once as written and once corrected. The as-written version is a `...With`
function called with its flag off:
- `Particles.FromArrayWith(..., false)`
- `JetscapeLoading.LoadWith(..., false, false)`
- `ReactionPlane.ContributionOf(n, fl, false)`

The named functions `Particles.FromArray`, `JetscapeLoading.LoadFile` and
`ReactionPlane.IntegratedFlowOf` use the corrected version, and the class
methods built on them do too. "## Left out" names each member that does this.

## Model

| member | source | states |
|---|---|---|
| Common.AsInt | src/sparkx/flow/ReactionPlaneFlow.py:61-62 | `isinstance(v, int)` holds exactly for ints and bools, and an int reads as itself |
| Text.Split | src/sparkx/Loader/JetscapeLoader.py:244 | `str.split(sep)` always gives at least one part |
| Text.JoinSplit | src/sparkx/Loader/JetscapeLoader.py:244 | joining the parts of a split gives back the line, and no part contains the separator |
| Text.SplitJoin | src/sparkx/Loader/JetscapeLoader.py:244-246 | splitting the join of separator-free parts gives back exactly those parts, so token `k` of a marker line is the `k`-th field written |
| Text.ReplaceChar | src/sparkx/Loader/JetscapeLoader.py:244 | replacing tabs by spaces keeps the length of the line |
| Text.Words | src/sparkx/Loader/JetscapeLoader.py:285 | `str.split()` gives non-empty words without whitespace, and at least one when the line starts with a visible character |
| Text.WordsVisible | src/sparkx/Loader/JetscapeLoader.py:285 | the words, concatenated, are exactly the visible characters of the line |
| Text.ContainsIff | src/sparkx/Loader/JetscapeLoader.py:36 | the substring test holds iff the pattern occurs at some position |
| Text.ContainsInConcat | src/sparkx/Loader/JetscapeLoader.py:187 | a substring of either part is a substring of the concatenation |
| Text.MissingCharExcludes | src/sparkx/Loader/JetscapeLoader.py:243 | a line lacking a character of the pattern does not contain the pattern |
| Text.ParseInt | src/sparkx/Loader/JetscapeLoader.py:203 | `int(s)` succeeds only on a non-empty token |
| Text.IntToStringRoundTrip | src/sparkx/Loader/JetscapeLoader.py:245-247 | `int(str(i)) == i` for every integer |
| Text.NatToDigitsCorrect | src/sparkx/Loader/JetscapeLoader.py:245-247 | the decimal digits of a natural number are digits and read back as the number |
| Text.IntToStringParsesAsFloat | src/sparkx/Loader/JetscapeLoader.py:289 | `float(str(i)) == i` for every integer |
| Text.DigitsParseAsFloat | src/sparkx/Loader/JetscapeLoader.py:289 | an optional minus sign followed only by digits reads as their value under `float()` |
| Particles.LayoutNamed | src/sparkx/Particle.py:369 | a format is supported iff it is one of the five layout names |
| Particles.ColumnAt | src/sparkx/Particle.py:269-366 | column `i` of each layout is found again at index `i` by the column lookup |
| Particles.JetscapeColumnAt | src/sparkx/Particle.py:357-365 | the seven JETSCAPE columns are ID, PDG, status, E, px, py, pz at 0..6 |
| Particles.CommonColumnAt | src/sparkx/Particle.py:270-282 | the twelve OSCAR2013 columns `t x y z mass E px py pz pdg ID charge` at 0..11 are shared by every OSCAR layout |
| Particles.ExtendedColumnAt | src/sparkx/Particle.py:283-356 | the extended layouts' columns 12.. are found at their index |
| Particles.HistoryColumnAt | src/sparkx/Particle.py:295-302 | the collision-history columns 12..19 are common to the extended layouts |
| Particles.ColumnsIndexed | src/sparkx/Particle.py:269-366 | the column list and the column lookup describe the same table, in both directions |
| Particles.FieldAt | src/sparkx/Particle.py:269-366 | a quantity the lookup finds sits in the column the lookup names |
| Particles.ColumnsDistinct | src/sparkx/Particle.py:269-366 | no quantity appears in two columns of a layout |
| Particles.AssignedLookup | src/sparkx/Particle.py:372-376 | after the column loop a quantity is set iff its column lies within the row, and then holds that column's value |
| Particles.ColumnAssigned | src/sparkx/Particle.py:372-376 | a visited column within the row sets its quantity to its value |
| Particles.AcceptedRowCovers | src/sparkx/Particle.py:370-376 | every accepted row length covers the PDG column, and for JETSCAPE the energy and momentum |
| Particles.JetscapeRowCovers | src/sparkx/Particle.py:357-365 | a seven-column JETSCAPE row sets ID, PDG, status, E, px, py, pz |
| Particles.FromArrayLength | src/sparkx/Particle.py:370-382 | construction succeeds iff the row has the layout's width (or, for the two extended layouts, up to two columns fewer); otherwise it raises "corrupted" |
| Particles.AssignedColumns | src/sparkx/Particle.py:372-376 | after the column loop of an accepted row a quantity is set iff the layout has it within the row |
| Particles.FromArrayFields | src/sparkx/Particle.py:372-376 | an OSCAR row sets each quantity of its layout present in the row to that column's value and sets nothing else |
| Particles.JetscapeAssigned | src/sparkx/Particle.py:357-365 | the seven JETSCAPE columns are read in order into their quantities |
| Particles.FromArrayJetscape | src/sparkx/Particle.py:377-379 | a JETSCAPE row sets its seven columns, the mass computed from its energy and momentum columns and, for a valid PDG code, the charge from the PDG table (the charge with the corrected order, see Findings) |
| Particles.JetscapeChargeNeverSetAsWritten | src/sparkx/Particle.py:377-385 | as written the charge lookup runs before the validity flag is set, so no JETSCAPE particle gets a charge; the corrected order sets it for every valid code |
| Particles.Get | src/sparkx/Particle.py:839-929 | a getter returns the value when set; when unset it raises "not set" except for baryon number and strangeness, which give None |
| Particles.Require | src/sparkx/Particle.py:392-408 | a quantity a computation needs is read iff it is set, and raises "not set" otherwise |
| Particles.SetThenGet | src/sparkx/Particle.py:409-412 | a value set through a setter is what the getter returns, and every other getter is unchanged |
| Particles.PAbs | src/sparkx/Particle.py:977-987 | `|p|` needs px, py, pz and is the square root of their squares |
| Particles.PtAbs | src/sparkx/Particle.py:988-998 | `pT` needs px, py and is the square root of their squares |
| Particles.Phi | src/sparkx/Particle.py:999-1012 | the azimuth is 0 when both transverse components are below 1e-6, else `atan2(py, px)` |
| Particles.Theta | src/sparkx/Particle.py:1013-1026 | the polar angle is 0 when `|p|` is 0, else `arccos(pz / |p|)` |
| Particles.Shifted | src/sparkx/Particle.py:970-973 | the rapidity denominator is never zero: a difference below 1e-10 in size is shifted into `(0, 2e-10)` |
| Particles.MomentumRapidity | src/sparkx/Particle.py:961-976 | the momentum rapidity needs E and pz and is `ln((E + pz) / (E - pz)) / 2` with the shifted denominator |
| Particles.Pseudorapidity | src/sparkx/Particle.py:1027-1042 | the pseudorapidity needs the momentum and is `ln((|p| + pz) / (|p| - pz)) / 2` with the shifted denominator |
| Particles.SpatialRapidity | src/sparkx/Particle.py:1043-1056 | defined iff `t > |z|`, then `ln((t + z) / (t - z)) / 2` of a positive ratio; outside the light cone it raises |
| Particles.ProperTime | src/sparkx/Particle.py:1057-1070 | defined iff `t > |z|`, then the square root of a positive `t^2 - z^2` |
| Particles.InsideLightCone | src/sparkx/Particle.py:1066-1067 | inside the light cone `t^2 - z^2` is positive |
| Particles.MassFromEnergyMomentum | src/sparkx/Particle.py:1071-1085 | the mass is the square root of `E^2 - |p|^2` when that exceeds 1e-6, else 0 |
| Particles.ChargeFromPdg | src/sparkx/Particle.py:1086-1101 | the charge is None unless the validity flag is set, then the PDG table's charge |
| Particles.Classify | src/sparkx/Particle.py:1102-1170 | meson, baryon, hadron, strange and heavy-flavour (charm, bottom or top) are false for an invalid code, raise for a valid flag without a code, and are each the PDG table's own answer otherwise |
| Particles.Spin | src/sparkx/Particle.py:1171-1183 | the total spin is None for an invalid code, else the table's `J` |
| Particles.SpinDegeneracy | src/sparkx/Particle.py:1184-1195 | the spin degeneracy is None for an invalid code, else the table's `2J + 1` |
| Particles.Particle.Empty | src/sparkx/Particle.py:195-227 | a new particle has every quantity unset |
| Particles.Particle.New | src/sparkx/Particle.py:229-236 | the constructor raises when only one of format and row is given, otherwise its state is the row read in the layout by `FromArray` (the corrected charge order, see Left out) |
| Particles.Particle.InitializeFromArray | src/sparkx/Particle.py:239-390 | the column loop in place: unsupported formats and wrong lengths raise, otherwise the state is exactly the row read in the layout by `FromArray` (the corrected charge order, see Left out) |
| Particles.Particle.Set | src/sparkx/Particle.py:409-412 | a setter changes only its quantity (None unsets it) and not the validity flag |
| Particles.Particle.SetPdg | src/sparkx/Particle.py:607-615 | the PDG setter stores the code and recomputes the validity flag from it |
| JetscapeLoading.ValidateOptions | src/sparkx/Loader/JetscapeLoader.py:46-66 | unknown keywords raise ValueError; an events tuple raises, in this order, for a non-integer, for fewer than two entries, for a reversed range and for a negative number, and a negative integer raises; with the events accepted, a particletype string other than "hadron" or "parton" raises ValueError and a non-string raises TypeError; a validated selection has non-negative ordered event numbers; the particle type becomes "parton" only when asked for |
| JetscapeLoading.ValidatedSelection | src/sparkx/Loader/JetscapeLoader.py:50-58 | after validation the event selection is a valid single event or range |
| JetscapeLoading.ToInt32 | src/sparkx/Loader/JetscapeLoader.py:251 | a marker token converts iff it is an integer within 32 bits, and then to its value |
| JetscapeLoading.SkipBefore | src/sparkx/Loader/JetscapeLoader.py:98-106 | the lines to skip are the header plus every line of the events before the start; a start beyond the table raises IndexError |
| JetscapeLoading.ReadLinesAgree | src/sparkx/Loader/JetscapeLoader.py:116-136 | a single event reads as many lines as the range of just that event, and a full load as many as the range of all events |
| JetscapeLoading.ApplyCutsFails | src/sparkx/Loader/JetscapeLoader.py:138-172 | a filter mapping fails iff one of its names is not a known cut, with "the cut is unknown" |
| JetscapeLoading.ParseAll | src/sparkx/Loader/JetscapeLoader.py:212-213 | converting the tokens of a particle line keeps their number |
| JetscapeLoading.Reconcile | src/sparkx/Loader/JetscapeLoader.py:216-231 | the events are returned unchanged with one table row per event; a full load succeeds iff it found as many events as the index |
| JetscapeLoading.NumbersPrefix | src/sparkx/Loader/JetscapeLoader.py:288-295 | stopping the scan early keeps the numbers of the words scanned so far |
| JetscapeLoading.SigmaGenOfTerminalLine | src/sparkx/Loader/JetscapeLoader.py:275-297 | the file-terminal line `# sigmaGen x sigmaErr y` yields the float values of its two number tokens, whatever decimal spelling they have |
| JetscapeLoading.SigmaGenOfIntegerLine | src/sparkx/Loader/JetscapeLoader.py:275-297 | integer values written in decimal on the terminal line are read back exactly |
| JetscapeLoading.SigmaGenTooFew | src/sparkx/Loader/JetscapeLoader.py:254-297 | a last line with fewer than two numbers, or a file too short for the backwards scan, raises |
| JetscapeLoading.KeywordsDiffer | src/sparkx/Loader/JetscapeLoader.py:68-71 | the hadron and parton marker keywords differ |
| JetscapeLoading.MarkerTokensFailureSticks | src/sparkx/Loader/JetscapeLoader.py:239-247 | once a marker line is too short the index pass has failed, whatever follows |
| JetscapeLoading.ConvertFailureSticks | src/sparkx/Loader/JetscapeLoader.py:251 | one unconvertible marker row makes the whole table conversion fail |
| JetscapeLoading.CutFailureSticks | src/sparkx/Loader/JetscapeLoader.py:169-170 | once a filter name is unknown the filters fail, whatever names follow |
| JetscapeLoading.RunFailureSticks | src/sparkx/Loader/JetscapeLoader.py:183-214 | an error in the first lines read is the error of the whole read |
| JetscapeLoading.RunPrefixFailure | src/sparkx/Loader/JetscapeLoader.py:183-214 | the read loop stops at the first line that raises |
| JetscapeLoading.JetscapeLoader.constructor | src/sparkx/Loader/JetscapeLoader.py:16-40 | a new loader on a `.dat` path has particle type "hadron", no options and an empty table |
| JetscapeLoading.JetscapeLoader.New | src/sparkx/Loader/JetscapeLoader.py:36-37 | construction succeeds iff the path contains ".dat", and raises FileNotFoundError otherwise |
| JetscapeLoading.JetscapeLoader.ParticleTypeDefiningString | src/sparkx/Loader/JetscapeLoader.py:299-308 | before a load the keyword raises AttributeError; after one it is `N_hadrons` or `N_partons`, the one of the particle type, which `KeywordMatchesType` keeps tied to it from construction through every load (the keyword is set at lines 68-71) |
| JetscapeLoading.JetscapeLoader.GetParticleType | src/sparkx/Loader/JetscapeLoader.py:310-319 | the particle type reads "hadron" iff the loader is set to hadrons, and "parton" iff it is set to partons |
| JetscapeLoading.JetscapeLoader.SetNumOutputPerEvent | src/sparkx/Loader/JetscapeLoader.py:235-252 | the index pass stores the table of marker rows and its length, or raises and changes nothing |
| JetscapeLoading.JetscapeLoader.GetNumSkipLines | src/sparkx/Loader/JetscapeLoader.py:77-111 | the skip count equals `NumSkipLines`: the header line plus every line of the events before the window |
| JetscapeLoading.JetscapeLoader.GetNumReadLines | src/sparkx/Loader/JetscapeLoader.py:116-136 | the read count equals `NumReadLines`: the lines of the events in the window plus the closing line |
| JetscapeLoading.JetscapeLoader.ApplyKwargsFilters | src/sparkx/Loader/JetscapeLoader.py:138-172 | the filter loop applies the cuts in order, equal to `ApplyFilters` |
| JetscapeLoading.JetscapeLoader.ReadLoop | src/sparkx/Loader/JetscapeLoader.py:183-214 | the bounded read loop equals `ReadWindow`, the window read line by line with `Step` |
| JetscapeLoading.JetscapeLoader.SetParticleList | src/sparkx/Loader/JetscapeLoader.py:176-233 | the read returns the events and stores the reconciled table and count, or raises the error `ReadEvents` gives with the table and count unchanged (the corrected read, see Left out) |
| JetscapeLoading.JetscapeLoader.Load | src/sparkx/Loader/JetscapeLoader.py:42-74 | `load` returns what `LoadFile` gives (the corrected load, see Left out) and records the options; a validation error leaves the particle type, keyword, table and count as they were; after validation the keyword is the new particle type's; a failing index pass leaves the table, and a failing read leaves the index pass's table; on success the stored table and count are the returned ones |
| JetscapeLoading.JetscapeLoader.GetSigmaGen | src/sparkx/Loader/JetscapeLoader.py:275-297 | the scan stops after two numbers and returns the first two numbers of the last line |
| JetscapeFiles.Table | src/sparkx/Loader/JetscapeLoader.py:235-252 | a file's announced table has one row per event block |
| JetscapeFiles.EventsOf | src/sparkx/Loader/JetscapeLoader.py:183-214 | the events of a run of blocks, one per block |
| JetscapeFiles.BlockTokens | src/sparkx/Loader/JetscapeLoader.py:239-247 | the lines of one block yield exactly its marker's token pair |
| JetscapeFiles.MarkerTokensOfBody | src/sparkx/Loader/JetscapeLoader.py:239-247 | the marker scan of a file body yields one token pair per block, in order |
| JetscapeFiles.ConvertTokenRows | src/sparkx/Loader/JetscapeLoader.py:251 | the token pairs of well-formed markers convert to the announced table |
| JetscapeFiles.IndexPassWellFormed | src/sparkx/Loader/JetscapeLoader.py:235-252 | the index pass of a well-formed file yields the table its markers announce |
| JetscapeFiles.DataRun | src/sparkx/Loader/JetscapeLoader.py:211-214 | particle lines add their particles to the open event |
| JetscapeFiles.BlockCloses | src/sparkx/Loader/JetscapeLoader.py:205-210 | a later block's header closes the event before it and opens its own |
| JetscapeFiles.BlockOpens | src/sparkx/Loader/JetscapeLoader.py:203-204 | the first block's header of the window opens the event read |
| JetscapeFiles.WindowBody | src/sparkx/Loader/JetscapeLoader.py:183-214 | reading the blocks of a window leaves the last of their events open and all the others closed |
| JetscapeFiles.WindowRun | src/sparkx/Loader/JetscapeLoader.py:183-214 | reading the blocks and the closing line yields exactly their events with the table untouched |
| JetscapeFiles.ReadRange | src/sparkx/Loader/JetscapeLoader.py:179-214 | the window that the skip and read counts select for events `a..b` yields exactly those events |
| JetscapeFiles.StepBlock | src/sparkx/Loader/JetscapeLoader.py:192-214 | on a well-formed block the loader's step reads its particles, opens the first event of the window and closes the others |
| JetscapeFiles.StepEnds | src/sparkx/Loader/JetscapeLoader.py:187-191 | the line after the window's last event closes it |
| JetscapeFiles.StepReadsWindow | src/sparkx/Loader/JetscapeLoader.py:183-214 | the loader's step reads every block of the window and ends on the following line |
| JetscapeFiles.ReadWellFormed | src/sparkx/Loader/JetscapeLoader.py:176-214 | reading events `a..b` of a well-formed file without filters yields exactly their events |
| JetscapeFiles.EventsMatchTable | src/sparkx/Loader/JetscapeLoader.py:216-231 | the events read have the particle counts of their table rows |
| JetscapeFiles.ReadEventsFrom | src/sparkx/Loader/JetscapeLoader.py:176-233 | after the window is read, the load's result is the reconciliation of the events read |
| JetscapeFiles.SelectedWindow | src/sparkx/Loader/JetscapeLoader.py:77-136 | a selection of events `a..b` skips the header and the events before, and reads their lines and one more |
| JetscapeFiles.LoadSelected | src/sparkx/Loader/JetscapeLoader.py:42-233 | loading a selection `a..b` of a well-formed file returns those events, their count and their table slice, consistent with each other |
| JetscapeFiles.RangeOptions | src/sparkx/Loader/JetscapeLoader.py:50-55 | the options `events=(a, b)` validate and select the range |
| JetscapeFiles.SingleOptions | src/sparkx/Loader/JetscapeLoader.py:56-58 | the option `events=k` validates and selects the event |
| JetscapeFiles.LoadRangeWellFormed | src/sparkx/Loader/JetscapeLoader.py:226-231 | loading a range of a well-formed file returns its events, their count `b - a + 1` and their table slice |
| JetscapeFiles.LoadSingleWellFormed | src/sparkx/Loader/JetscapeLoader.py:222-225 | loading one event returns it, count 1 and its own row |
| JetscapeFiles.LoadAllWellFormed | src/sparkx/Loader/JetscapeLoader.py:217-221 | with converted tokens, loading a whole well-formed file returns every event and the full table |
| JetscapeFiles.LoadAllWithoutEvents | src/sparkx/Loader/JetscapeLoader.py:116-121 | a full load of a file without events raises IndexError |
| JetscapeFiles.LoadBeyondLastEvent | src/sparkx/Loader/JetscapeLoader.py:122-131 | asking for an event at or beyond the event count, alone or as a range end, raises IndexError |
| JetscapeFiles.ParticleTokensCount | src/sparkx/Loader/JetscapeLoader.py:212-213 | a particle line that converts has the seven JETSCAPE columns |
| JetscapeFiles.StringTokensStep | src/sparkx/Loader/JetscapeLoader.py:212-213 | handing a particle line's tokens over as strings fails with arithmetic on a string |
| JetscapeFiles.LoadWithReads | src/sparkx/Loader/JetscapeLoader.py:42-74 | after validation and the index pass a load is its read, whichever conversion and row choice |
| JetscapeFiles.LoadStringTokensAsWritten | src/sparkx/Loader/JetscapeLoader.py:212-213 | as written, a full load of a well-formed file with a particle line finds the index and then raises TypeError |
| JetscapeFiles.FilteredRowAsWritten | src/sparkx/Loader/JetscapeLoader.py:188-190 | as written, the first filtered event of a window starting at `a > 0` writes its count to row 0 and leaves its own row `a` stale |
| JetscapeFiles.FilteredRowCorrected | src/sparkx/Loader/JetscapeLoader.py:188-190 | with the row offset by the window's start, the filtered count goes to row `a` and to no other |
| ReactionPlane.Harmonic | src/sparkx/flow/ReactionPlaneFlow.py:61-66 | `n` is accepted iff it is an int (bools included) and positive; a non-int raises TypeError, a non-positive one ValueError |
| ReactionPlane.Lift | src/sparkx/flow/ReactionPlaneFlow.py:88-89 | a particle getter's error is raised unchanged through the flow code |
| ReactionPlane.UnsetWeightAsWritten | src/sparkx/flow/ReactionPlaneFlow.py:87 | as written an unset weight raises instead of counting as 1; both agree on a set weight |
| ReactionPlane.AccumulateAppend | src/sparkx/flow/ReactionPlaneFlow.py:86-91 | accumulating two runs of particles adds their sums and weights, and fails with the first error |
| ReactionPlane.FlattenAppend | src/sparkx/flow/ReactionPlaneFlow.py:84-91 | the particles of two runs of events are those of the first followed by those of the second |
| ReactionPlane.NonNegativeSigned | src/sparkx/flow/ReactionPlaneFlow.py:90-91 | particles without negative weights contribute non-negative weights, and zero contribution at zero weight |
| ReactionPlane.ZeroWeightSumsToZero | src/sparkx/flow/ReactionPlaneFlow.py:90-91 | with such contributions the weight sum is non-negative, and a zero sum has a zero numerator |
| ReactionPlane.IntegratedRunIsFlat | src/sparkx/flow/ReactionPlaneFlow.py:82-95 | the event loop fails iff the flat particle accumulation does; its weight is the flat weight sum and, with signed contributions, its numerator the flat sum |
| ReactionPlane.IntegratedFlowIsFlatMean | src/sparkx/flow/ReactionPlaneFlow.py:68-97 | `integrated_flow` is the flat weighted mean of all particles' contributions, and raises ZeroDivisionError exactly when the weights sum to 0 |
| ReactionPlane.NoParticlesRaises | src/sparkx/flow/ReactionPlaneFlow.py:92-96 | with no particles at all, the final division raises ZeroDivisionError |
| ReactionPlane.UnweightedCount | src/sparkx/flow/ReactionPlaneFlow.py:87-91 | unweighted particles count once each in the weight sum |
| ReactionPlane.UnweightedIntegratedAsWritten | src/sparkx/flow/ReactionPlaneFlow.py:87 | as written, an unweighted first particle makes `integrated_flow` raise "weight not set" |
| ReactionPlane.UnweightedIntegratedCorrected | src/sparkx/flow/ReactionPlaneFlow.py:87-96 | with an unset weight counting as 1, unweighted particles give the plain mean of their contributions |
| ReactionPlane.IntegratedRunPrefixFails | src/sparkx/flow/ReactionPlaneFlow.py:84-91 | an error in the first events is the error of the whole event loop |
| ReactionPlane.VariableNamed | src/sparkx/flow/ReactionPlaneFlow.py:119-122 | the variable is accepted iff it is one of the strings "pt", "rapidity", "pseudorapidity"; a non-string raises TypeError, another string ValueError |
| ReactionPlane.Select | src/sparkx/flow/ReactionPlaneFlow.py:129-139 | the reference selection of the particles with a value in `[lo, hi)` is no longer than the event |
| ReactionPlane.SelectSnoc | src/sparkx/flow/ReactionPlaneFlow.py:129-139 | selecting from a run plus one particle adds that particle iff its value is in the bin |
| ReactionPlane.BinEventSelects | src/sparkx/flow/ReactionPlaneFlow.py:128-140 | the particle loop of one bin succeeds iff every particle has a value, and then keeps exactly the particles in `[bins[k], bins[k+1])`, in event order |
| ReactionPlane.SelectMembers | src/sparkx/flow/ReactionPlaneFlow.py:138-139 | a particle is selected iff it is in the event and its value is in the bin |
| ReactionPlane.SelectSplit | src/sparkx/flow/ReactionPlaneFlow.py:138 | splitting a half-open interval splits the selection's size |
| ReactionPlane.EmptySelect | src/sparkx/flow/ReactionPlaneFlow.py:138 | an empty interval selects nothing |
| ReactionPlane.BinsPartition | src/sparkx/flow/ReactionPlaneFlow.py:125-141 | with increasing edges the bin sizes add up to the particles in `[bins[0], bins[m])`, never more than the event |
| ReactionPlane.OneBinAtMost | src/sparkx/flow/ReactionPlaneFlow.py:138 | with increasing edges a value lies in at most one bin, and in none outside the edges |
| ReactionPlane.BinEventsShape | src/sparkx/flow/ReactionPlaneFlow.py:127-140 | one bin over all events succeeds iff every particle has a value, and then has one list per event |
| ReactionPlane.BinnedSucceeds | src/sparkx/flow/ReactionPlaneFlow.py:124-141 | the binning fails iff there is a bin and some particle has no value |
| ReactionPlane.BinnedShape | src/sparkx/flow/ReactionPlaneFlow.py:124-141 | the binning gives `len(bins) - 1` bins with one list per event, list `e` of bin `k` being the selection of event `e` |
| ReactionPlane.BinFlow | src/sparkx/flow/ReactionPlaneFlow.py:147-163 | a bin's flow fails iff its flat accumulation does, and is 0 when its weights sum to 0 |
| ReactionPlane.BinFlowsShape | src/sparkx/flow/ReactionPlaneFlow.py:145-164 | one flow per bin, in bin order, each the flow of its bin |
| ReactionPlane.EmptyBinFlow | src/sparkx/flow/ReactionPlaneFlow.py:159-162 | a bin no particle falls into has flow 0 |
| ReactionPlane.DifferentialFlowOf | src/sparkx/flow/ReactionPlaneFlow.py:117-122 | bins that are not a list raise TypeError first, then the variable's check raises its error |
| ReactionPlane.ReactionPlaneFlow.constructor | src/sparkx/flow/ReactionPlaneFlow.py:65-66 | the estimator stores its harmonic |
| ReactionPlane.ReactionPlaneFlow.New | src/sparkx/flow/ReactionPlaneFlow.py:52-66 | without an argument the harmonic is the default 2; with one, construction succeeds iff the harmonic check does, with that harmonic, and raises its error otherwise |
| ReactionPlane.ReactionPlaneFlow.IntegratedFlow | src/sparkx/flow/ReactionPlaneFlow.py:68-97 | the method equals `IntegratedFlowOf`: the event loop over the particle loop, then the unguarded division (with the corrected weight reading, see Left out) |
| ReactionPlane.ReactionPlaneFlow.IntegratedFlowLoop | src/sparkx/flow/ReactionPlaneFlow.py:82-97 | the event and particle loops and the final division equal `IntegratedFlowWith` |
| ReactionPlane.ReactionPlaneFlow.DifferentialFlow | src/sparkx/flow/ReactionPlaneFlow.py:99-143 | the method equals `DifferentialFlowOf`: the argument checks, then the binning and one flow per bin (with the corrected weight reading, see Left out) |
| ReactionPlane.ReactionPlaneFlow.BinParticles | src/sparkx/flow/ReactionPlaneFlow.py:124-141 | the three nested loops build `Bin`, or raise the first particle's error |
| ReactionPlane.ReactionPlaneFlow.DifferentialFlowCalculation | src/sparkx/flow/ReactionPlaneFlow.py:145-164 | the list filled bin by bin equals the per-bin flows |
| ReactionPlane.ReactionPlaneFlow.BinFlowLoop | src/sparkx/flow/ReactionPlaneFlow.py:147-163 | one bin's event and particle loops equal `BinFlow` |
| ReactionPlane.BinFlowFails | src/sparkx/flow/ReactionPlaneFlow.py:150-157 | a particle whose reads raise, met in a bin, is the bin's error |
| ReactionPlane.AccumulatePrefixFails | src/sparkx/flow/ReactionPlaneFlow.py:86-91 | an error in the first particles is the error of the whole accumulation |
| ReactionPlane.BinEventPrefixFails | src/sparkx/flow/ReactionPlaneFlow.py:129-139 | an error in the first particles is the error of one bin's particle loop |
| ReactionPlane.BinEventsPrefixFails | src/sparkx/flow/ReactionPlaneFlow.py:127-140 | an error in the first events is the error of one bin's event loop |
| ReactionPlane.BinnedFails | src/sparkx/flow/ReactionPlaneFlow.py:125-141 | a bin whose event loop raises makes every longer run of bins raise that error |
| ReactionPlane.BinParticleFails | src/sparkx/flow/ReactionPlaneFlow.py:129-136 | the first particle without a value, in bin, event and particle order, is the binning's error |
| ReactionPlane.BinFlowsPrefixFails | src/sparkx/flow/ReactionPlaneFlow.py:147-163 | an error in the first bins is the error of the whole calculation |

## Left out

- File I/O: the loader's file is given as its lines without newlines. Opening, seeking and reading are not modelled. The backwards scan for the last line is reduced to "at least two lines, then the last one".
- The base loader class (`_skip_lines`, `_check_that_tuple_contains_integers_only`) is not part of this model. Its two checks are modelled from their observable behaviour: skip the first lines, and reject tuples holding non-integers.
- The event filters (`charged_particles`, `pt_cut` and the rest) are a `Cut` parameter. Only the dispatch on their names and the unknown-name error are modelled.
- The PDG table (`particle.PDGID`), `sqrt`, `atan2`, `arccos` and `log` are function parameters. Floating point is modelled as exact reals: no NaN, no infinities, no rounding. `float()` accepts decimal literals only, not "nan" or "inf".
- `ParseInt`, `ParseFloat` and `Words` are modelled on ASCII decimal tokens and ASCII whitespace. Other Unicode digits and spaces are not modelled.
- numpy: the event table is a sequence of integer pairs. Its 32-bit storage is modelled as a range check on conversion, and conversion overflow raises OverflowError.
- `ReactionPlane.ReactionPlaneFlow.DifferentialFlow`: bins are a list of real numbers or not a list at all (`Option<seq<real>>`). Lists holding non-numbers are not modelled.
- `ReactionPlane.IntegratedFlowIsFlatMean`: needs non-negative weights. With negative weights the numerator reset at a zero running weight can drop contributions, and only the weight sum and failure parts of `IntegratedRunIsFlat` hold.
- `ReactionPlane.BinsPartition`: assumes increasing bin edges, which `differential_flow` does not check.
- The complex factor `pt^n exp(i n phi) / pt^n` is an uninterpreted function. Its 0/0 for `pt = 0` is not modelled.
- The debug `print(val)` in the binning loop and the PDG-validity warning are output only and left out.
- `Particle.print_particle` and `angular_momentum` are outside the modelled core.
- `JetscapeLoading.JetscapeLoader.GetNumReadLines`: requires a validated selection, which `load` establishes before it calls it.
- Particles.FromArray: models the corrected JETSCAPE reading, with the charge looked up after the validity flag is set. As written, no JETSCAPE particle gets a charge; that is `FromArrayWith(..., false)`, see `Particles.JetscapeChargeNeverSetAsWritten`.
- Particles.FromArguments: reads the row with `FromArray`, so it has the corrected charge order too.
- Particles.Particle.New: its state is `FromArguments`, so the JETSCAPE charge is set for valid codes. The constructor as written never sets it.
- Particles.Particle.InitializeFromArray: looks up the charge after the validity flag, as corrected. The source's order is not modelled in the class.
- JetscapeLoading.LoadFile: is `LoadWith` with both corrections. It converts particle tokens with `float()`, and it writes a filtered event's count to its row in the file. As written, a full load of a well-formed file with a particle line raises TypeError (`JetscapeFiles.LoadStringTokensAsWritten`). A filtered count lands in the window's row (`JetscapeFiles.FilteredRowAsWritten`).
- JetscapeLoading.ReadEvents: is `ReadEventsWith` with both corrections, as for `LoadFile`.
- JetscapeLoading.JetscapeLoader.SetParticleList: reads with both corrections, so its result is `ReadEvents`, not the source's TypeError on the first particle line.
- JetscapeLoading.JetscapeLoader.SetParticleList: on failure the table keeps its rows. The source writes filtered counts into the table during the read, so a later IndexError leaves those rows already rewritten; the model commits the table only on success.
- JetscapeLoading.JetscapeLoader.Load: returns `LoadFile`, the corrected load, not the as-written `LoadWith(..., false, false)`.
- ReactionPlane.IntegratedFlowOf: reads an unset weight as 1, as corrected. As written, the weight getter raises on an unset weight; that is `ContributionOf(n, fl, false)`, see `ReactionPlane.UnweightedIntegratedAsWritten`.
- ReactionPlane.DifferentialFlowOf: uses the corrected weight reading, as `IntegratedFlowOf` does.
- ReactionPlane.ReactionPlaneFlow.IntegratedFlow: equals `IntegratedFlowOf`, so it has the corrected weight reading.
- ReactionPlane.ReactionPlaneFlow.DifferentialFlow: equals `DifferentialFlowOf`, so it has the corrected weight reading.
- ReactionPlane.ReactionPlaneFlow.DifferentialFlowCalculation: passes the corrected weight reading to the per-bin loop.
- Particles.Particle.SetPdg: takes a real code. The source setter also accepts None, storing it and asking the PDG table about None; the table here is a function of real codes, so that path is not modelled.
- The `event_end_lines` accessor returns a list that this loader never fills, so it is left out.

## Findings

| source | as written | input that shows it | evidently intended | confidence | as-written member | corrected member |
|---|---|---|---|---|---|---|
| src/sparkx/Loader/JetscapeLoader.py:212-213 | the string tokens of a particle line are handed to the JETSCAPE particle constructor, which squares the energy (src/sparkx/Particle.py:1080) | any well-formed file with at least one particle line, loaded in full | convert the tokens with `float()` first | not executed | JetscapeFiles.LoadStringTokensAsWritten | JetscapeFiles.LoadAllWellFormed |
| src/sparkx/Particle.py:377-385 | the JETSCAPE charge is looked up before the PDG validity flag is set, and the lookup returns None while the flag is unset | a JETSCAPE row with a valid PDG code such as 211 | set the validity flag before the charge lookup | not executed | Particles.JetscapeChargeNeverSetAsWritten | Particles.FromArrayJetscape |
| src/sparkx/Loader/JetscapeLoader.py:188-190 | with filters, an event's filtered count is written to row `len(particle_list)`, its position in the window, while the table is later sliced by file event index (223, 229) | `events=(1, 1)` with any filter on a file of two events | write to row `start + len(particle_list)` | not executed | JetscapeFiles.FilteredRowAsWritten | JetscapeFiles.FilteredRowCorrected |
| src/sparkx/flow/ReactionPlaneFlow.py:87 | `particle.weight is None` is never true, because the weight getter raises when the weight is unset | an event whose first particle has no weight, such as any OSCAR2013 particle | read the stored weight and count an unset one as 1 | not executed | ReactionPlane.UnweightedIntegratedAsWritten | ReactionPlane.UnweightedIntegratedCorrected |
