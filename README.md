# Peakaboo core, modelled in Dafny

Peakaboo is an X-ray fluorescence analysis program. This project models its peak-identification core and the routines around it:

- the automatic peak-proposal engine (`PeakProposal`) and its weighted compound scorer;
- the two peak-table registries;
- Z-calibration profiles and their normaliser;
- the `element:type` serialisation of transition series;
- the fitting controller's list, annotation, highlight and parameter rules;
- the similar-points map selection: threshold match, flood fill, padding and merge;
- the reference-plot carry-forward fill;
- the composite map's invalid-point mask;
- the spectrum normalisation filter;
- the single-map model's visibility filters and titles.

Each Dafny module follows one source file:

| module | file | source |
|---|---|---|
| `Types` | types.dfy | shared values: elements, shells, transition series, NaN, Java list operations |
| `FittingSets` | fitting_sets.dfy | the fitting set as the rest of the core uses it |
| `CompoundScorer` | compound_scorer.dfy | CompoundFittingScorer |
| `PeakProposal` | peak_proposal.dfy | PeakProposal |
| `Calibration` | calibration.dfy | CalibrationProfile, CalibrationNormalizer |
| `PeakTables` | peak_table.dfy | both PeakTable classes |
| `SerializedSeries` | serialized_series.dfy | SerializedTransitionSeries |
| `FittingControl` | fitting_controller.dfy | FittingController |
| `Similar` | similar_selection.dfy | SimilarSelection |
| `ReferencePlots` | reference_plot.dfy | ReferencePlot |
| `CompositeMode` | composite_mode_data.dfy | CompositeModeData |
| `SpectrumNormalization` | spectrum_normalization.dfy | SpectrumNormalizationFilter |
| `SingleMap` | single_map_model.dfy | SingleMapModel |

Objects whose fields the source updates in place are classes:

- the fitting set, the scorer, the profile and the two tables;
- the serialised series, the controller, the selection and the plot;
- the map data, the filter and the map model.

Their methods carry `modifies` clauses. Loops are `for`/`while` loops proved against specification functions, whose properties are proved as lemmas. Pure code (lookups, filters, titles, the ranking stream) is functions and lemmas.

Collaborators whose code is not part of the model are parameters: the peak searcher, fitting solver, curve fitter, individual scorers, `TransitionSeries.summation`, energy calibration, `Element.valueOf`, `fromTypeString`, `compareTo`, `toElementString` and fava's `map`, `foldr` and `unique`; the last two are interpreted as the `SingleMap.DatasetTitle` and `SingleMap.ShortDatasetTitle` lines under "## Left out" say. The peak-proposal engine gathers its collaborators in a record, `PeakProposal.Engine`. Cancellation is an oracle `abort: nat -> bool`, polled at the code's checkpoints. Java floats are reals; NaN is an explicit tag (`Types.Float`) where the code tests for it.

## Model

| member | source | states |
|---|---|---|
| `PeakProposal.RemoveExplained` | CurveFit/src/main/java/peakaboo/curvefit/peak/search/PeakProposal.java:83-96 | the in-place removal loop leaves exactly the detected channels that no transition explains; a transition explains a channel when its relative intensity is at least 0.1 and the channel's energy lies strictly inside its half-width window. Each removal takes out the first remaining occurrence |
| `PeakProposal.WeakLinesNeverDrop` | CurveFit/src/main/java/peakaboo/curvefit/peak/search/PeakProposal.java:86 | fitted transitions with relative intensity below 0.1 never remove a channel |
| `PeakProposal.RemoveFirstSelect` | CurveFit/src/main/java/peakaboo/curvefit/peak/search/PeakProposal.java:92 | removing a value from the kept channels clears the first kept occurrence of that value |
| `PeakProposal.SelectFilter` | CurveFit/src/main/java/peakaboo/curvefit/peak/search/PeakProposal.java:83-96 | keeping exactly the channels a predicate accepts is that predicate's filter |
| `PeakProposal.SelectAll` | CurveFit/src/main/java/peakaboo/curvefit/peak/search/PeakProposal.java:83 | keeping every channel leaves the list as it was |
| `PeakProposal.FirstKept` | CurveFit/src/main/java/peakaboo/curvefit/peak/search/PeakProposal.java:92 | the index of the first kept occurrence of a value, or the length when there is none |
| `PeakProposal.PairwiseMembers` | CurveFit/src/main/java/peakaboo/curvefit/peak/search/PeakProposal.java:266-272 | the summation list holds sum(a, b) for every ordered pair of candidates, and nothing else |
| `PeakProposal.Row` | CurveFit/src/main/java/peakaboo/curvefit/peak/search/PeakProposal.java:268-271 | the inner loop's summations of one series with each candidate, in order |
| `PeakProposal.SummationPairs` | CurveFit/src/main/java/peakaboo/curvefit/peak/search/PeakProposal.java:266-272 | the nested loop appends exactly the pairwise summations, row by row |
| `PeakProposal.CandidatesAreFresh` | CurveFit/src/main/java/peakaboo/curvefit/peak/search/PeakProposal.java:256-288 | every candidate is the re-suggested series (when it was in use) or is neither fitted nor proposed |
| `PeakProposal.CandidatesAreComplete` | CurveFit/src/main/java/peakaboo/curvefit/peak/search/PeakProposal.java:256-288 | every registry series and every pairwise summation that is neither fitted nor proposed is a candidate, and so is the re-suggested series when it was in use |
| `PeakProposal.CandidatesNonEmpty` | CurveFit/src/main/java/peakaboo/curvefit/peak/search/PeakProposal.java:256-272 | with a registry of non-empty series and a summation that keeps series non-empty, every candidate is non-empty |
| `PeakProposal.ZeroSubScoreZeroesBoth` | CurveFit/src/main/java/peakaboo/curvefit/peak/search/PeakProposal.java:292-302 | a zero or NaN fast sub-score makes both the fast and the good compound score 0 |
| `PeakProposal.Scored` | CurveFit/src/main/java/peakaboo/curvefit/peak/search/PeakProposal.java:309 | each candidate paired with its negated score, in order |
| `PeakProposal.ScoredMember` | CurveFit/src/main/java/peakaboo/curvefit/peak/search/PeakProposal.java:309 | every scored pair is a candidate with its own negated score |
| `PeakProposal.SortedScored` | CurveFit/src/main/java/peakaboo/curvefit/peak/search/PeakProposal.java:309-310 | sorting the scored pairs keeps one pair per candidate, ascending by negated score |
| `PeakProposal.ShortlistMembers` | CurveFit/src/main/java/peakaboo/curvefit/peak/search/PeakProposal.java:307-312 | the shortlist holds only candidates |
| `PeakProposal.TakeSortedBest` | CurveFit/src/main/java/peakaboo/curvefit/peak/search/PeakProposal.java:310-311 | in a sorted list, every entry of the taken prefix has a key no larger than any entry left out |
| `PeakProposal.ShortlistBest` | CurveFit/src/main/java/peakaboo/curvefit/peak/search/PeakProposal.java:307-312 | a shortlisted candidate scores at least as high (fast) as any candidate left out |
| `PeakProposal.Shortlist` | CurveFit/src/main/java/peakaboo/curvefit/peak/search/PeakProposal.java:307-312 | the shortlist has min(guessCount, candidates) entries, all candidates, and none scores below a candidate left out |
| `PeakProposal.RankKeepsShortlist` | CurveFit/src/main/java/peakaboo/curvefit/peak/search/PeakProposal.java:315-318 | re-ranking by the good score keeps every shortlisted series |
| `PeakProposal.RankCorrect` | CurveFit/src/main/java/peakaboo/curvefit/peak/search/PeakProposal.java:307-318 | the ranked guesses number min(guessCount, candidates), are ascending by negated good score, carry their own good score, and every candidate left out scores no higher (fast) than a returned one |
| `PeakProposal.ReinsertedSameMembers` | CurveFit/src/main/java/peakaboo/curvefit/peak/search/PeakProposal.java:239-249 | removing the re-suggested series and adding it back keeps the proposed set's members and size |
| `PeakProposal.GuessesFresh` | CurveFit/src/main/java/peakaboo/curvefit/peak/search/PeakProposal.java:235-322 | fromChannel returns at most guessCount guesses, sorted by descending good score, each either the re-suggested series or neither fitted nor proposed |
| `PeakProposal.FirstGuessFresh` | CurveFit/src/main/java/peakaboo/curvefit/peak/search/PeakProposal.java:235-322 | without a re-suggested series every guess is a non-empty series neither fitted nor proposed |
| `PeakProposal.FromChannel` | CurveFit/src/main/java/peakaboo/curvefit/peak/search/PeakProposal.java:202-323 | solves without a used re-suggested series and returns the ranked guesses. The proposed set keeps its members, the re-suggested series moving to the end; its parameters lie outside what the method may change |
| `PeakProposal.CandidateList` | CurveFit/src/main/java/peakaboo/curvefit/peak/search/PeakProposal.java:256-288 | the candidate list is the registry and the pairwise summations of fitted and proposed series (without the re-suggested one), minus fitted and proposed, plus the re-suggested series when it was in use, without duplicates |
| `PeakProposal.NewFastScorer` | CurveFit/src/main/java/peakaboo/curvefit/peak/search/PeakProposal.java:292-296 | the fast scorer weighs proximity 10, fast fitting 10, no-complex-pileup 2 and pileup source 1 |
| `PeakProposal.NewGoodScorer` | CurveFit/src/main/java/peakaboo/curvefit/peak/search/PeakProposal.java:300-302 | the good scorer weighs the fast compound scorer 23 and curve fitting 10 |
| `PeakProposal.FastPass` | CurveFit/src/main/java/peakaboo/curvefit/peak/search/PeakProposal.java:309 | every candidate scored by the fast compound scorer, negated |
| `PeakProposal.GoodPass` | CurveFit/src/main/java/peakaboo/curvefit/peak/search/PeakProposal.java:315 | every shortlisted candidate scored by the good compound scorer, negated |
| `PeakProposal.RankCandidates` | CurveFit/src/main/java/peakaboo/curvefit/peak/search/PeakProposal.java:307-318 | the stream computes the specified ranking |
| `PeakProposal.ContainsGuess` | CurveFit/src/main/java/peakaboo/curvefit/peak/search/PeakProposal.java:172-179 | true exactly when some guessed series is already among the new proposals |
| `PeakProposal.RawGuesses` | CurveFit/src/main/java/peakaboo/curvefit/peak/search/PeakProposal.java:182-195 | one guess list per peak channel, keyed by channel, each the five-guess fromChannel result with no re-suggested series |
| `PeakProposal.MakeGuesses` | CurveFit/src/main/java/peakaboo/curvefit/peak/search/PeakProposal.java:182-195 | the loop builds exactly those raw guesses and leaves the proposals as they were |
| `PeakProposal.Search` | CurveFit/src/main/java/peakaboo/curvefit/peak/search/PeakProposal.java:66-159 | the search job equals its specification: stage-1 filter, abort check, raw guesses, greedy stage 2. An abort at the first poll gives no result |
| `PeakProposal.SecondStage` | CurveFit/src/main/java/peakaboo/curvefit/peak/search/PeakProposal.java:121-158 | the stage-2 loop. A channel whose raw guesses hold an accepted series is skipped without a work unit. Otherwise the loop polls abort, then appends the top guess to the new fits and the proposals and completes one work unit |
| `PeakProposal.AbortOnlyWhenRequested` | CurveFit/src/main/java/peakaboo/curvefit/peak/search/PeakProposal.java:135-138 | stage 2 ends aborted only if abort was requested at some poll |
| `PeakProposal.NoAbortNoAbortedResult` | CurveFit/src/main/java/peakaboo/curvefit/peak/search/PeakProposal.java:98-101 | a search that is never asked to abort never returns the aborted (null) result |
| `PeakProposal.Stage2Accepts` | CurveFit/src/main/java/peakaboo/curvefit/peak/search/PeakProposal.java:122-154 | stage 2 extends the new fits with distinct series that are not fitted, and completes exactly one work unit per accepted series |
| `PeakProposal.AcceptFresh` | CurveFit/src/main/java/peakaboo/curvefit/peak/search/PeakProposal.java:141-147 | a channel's first guess is new to the accepted list, so adding it appends it, and the longer list is still duplicate-free and free of fitted series |
| `PeakProposal.SearchProposesFreshSeries` | CurveFit/src/main/java/peakaboo/curvefit/peak/search/PeakProposal.java:121-158 | a completed search proposes distinct series none of which is already fitted, with one work unit per proposal |
| `CompoundScorer.Clean` | LibPeakaboo/src/main/java/org/peakaboo/curvefit/peak/search/scoring/CompoundFittingScorer.java:23-26 | NaN is read as 0; a number is kept |
| `CompoundScorer.Unfold` | LibPeakaboo/src/main/java/org/peakaboo/curvefit/peak/search/scoring/CompoundFittingScorer.java:21-28 | the product over a non-empty scorer set takes some scorer first |
| `CompoundScorer.ProductPick` | LibPeakaboo/src/main/java/org/peakaboo/curvefit/peak/search/scoring/CompoundFittingScorer.java:21-28 | any scorer may be taken first: the product does not depend on the map's iteration order |
| `CompoundScorer.ZeroSubScore` | LibPeakaboo/src/main/java/org/peakaboo/curvefit/peak/search/scoring/CompoundFittingScorer.java:23-27 | a zero or NaN sub-score makes the compound score 0 |
| `CompoundScorer.SingleScorer` | LibPeakaboo/src/main/java/org/peakaboo/curvefit/peak/search/scoring/CompoundFittingScorer.java:19-29 | with one sub-scorer the score is its cleaned score times its weight share |
| `CompoundScorer.CompoundFittingScorer.constructor` | LibPeakaboo/src/main/java/org/peakaboo/curvefit/peak/search/scoring/CompoundFittingScorer.java:10-11 | no scorers and a total weight of 0 |
| `CompoundScorer.CompoundFittingScorer.Add` | LibPeakaboo/src/main/java/org/peakaboo/curvefit/peak/search/scoring/CompoundFittingScorer.java:13-16 | puts (or overwrites) the weight and adds it to the total every time |
| `CompoundScorer.CompoundFittingScorer.Score` | LibPeakaboo/src/main/java/org/peakaboo/curvefit/peak/search/scoring/CompoundFittingScorer.java:19-30 | the loop computes the product over scorers of cleaned score times weight / total; 1 with no scorers; 0 when some sub-score is 0 or NaN |
| `Calibration.Put` | LibPeakaboo/src/main/java/org/peakaboo/calibration/CalibrationProfile.java:76 | a LinkedHashMap put keeps the map's key list duplicate-free and in step with its contents |
| `Calibration.FitFactor` | LibPeakaboo/src/main/java/org/peakaboo/calibration/CalibrationProfile.java:60-76 | a fit yields a factor only when the reference has a non-zero concentration for its series and its strongest line lies below the fit's channel count. The factor is fitSum / concentration * 1000 and is at least 1 |
| `Calibration.BuildFromFacts` | LibPeakaboo/src/main/java/org/peakaboo/calibration/CalibrationProfile.java:58-77 | after the build loop every stored factor is at least 1 and is the factor of an accepted fit of its series, and every accepted fit's series is stored |
| `Calibration.BuiltFacts` | LibPeakaboo/src/main/java/org/peakaboo/calibration/CalibrationProfile.java:55-79 | a zero energy calibration stores nothing; otherwise the build loop's facts hold |
| `Calibration.PutAll` | LibPeakaboo/src/main/java/org/peakaboo/calibration/CalibrationProfile.java:95-98 | putting the interpolated values keeps the map well formed |
| `Calibration.PutAllKeys` | LibPeakaboo/src/main/java/org/peakaboo/calibration/CalibrationProfile.java:95-98 | merging keeps every key and adds exactly the interpolated series |
| `Calibration.DividedShell` | LibPeakaboo/src/main/java/org/peakaboo/calibration/CalibrationNormalizer.java:19-27 | normalize keeps the key set |
| `Calibration.Divided` | LibPeakaboo/src/main/java/org/peakaboo/calibration/CalibrationNormalizer.java:14-16 | dividing every factor keeps the key set |
| `Calibration.DividedAmongStep` | LibPeakaboo/src/main/java/org/peakaboo/calibration/CalibrationNormalizer.java:21-26 | one iteration of normalize divides the current key's factor exactly when its shell matches |
| `Calibration.ShellsDividedStep` | LibPeakaboo/src/main/java/org/peakaboo/calibration/CalibrationNormalizer.java:14-16 | normalizing one more shell divides that shell's factors |
| `Calibration.NormalizedFacts` | LibPeakaboo/src/main/java/org/peakaboo/calibration/CalibrationNormalizer.java:11-17 | the key set is unchanged. With an anchor, its factor becomes 1 and every factor is divided exactly once by the anchor's old factor. Without an anchor nothing changes |
| `Calibration.NormalizerProcess` | LibPeakaboo/src/main/java/org/peakaboo/calibration/CalibrationNormalizer.java:11-17 | the loop over the shells produces the normalised map, using the anchor value captured before any update |
| `Calibration.Normalize` | LibPeakaboo/src/main/java/org/peakaboo/calibration/CalibrationNormalizer.java:19-27 | the loop over the keys divides exactly the factors of the given shell |
| `Calibration.CalibrationProfile.Empty` | LibPeakaboo/src/main/java/org/peakaboo/calibration/CalibrationProfile.java:42-48 | the empty profile has no calibrations, no interpolated series, the empty-profile name, and is empty |
| `Calibration.CalibrationProfile.Copy` | LibPeakaboo/src/main/java/org/peakaboo/calibration/CalibrationProfile.java:108-114 | copies reference, map, key order, name and interpolated list; the creation date is the current one |
| `Calibration.CalibrationProfile.Build` | LibPeakaboo/src/main/java/org/peakaboo/calibration/CalibrationProfile.java:50-106 | the profile is the build loop's map, merged with the interpolated values, smoothed, then normalised; the interpolated list is the interpolated series |
| `Calibration.CalibrationProfile.BuildLoop` | LibPeakaboo/src/main/java/org/peakaboo/calibration/CalibrationProfile.java:58-77 | the loop over the fits computes the specified build |
| `Calibration.CalibrationProfile.BuildOne` | LibPeakaboo/src/main/java/org/peakaboo/calibration/CalibrationProfile.java:60-76 | one fit adds its factor to the map exactly when the fit yields one, and otherwise leaves the map as it was |
| `Calibration.CalibrationProfile.Merge` | LibPeakaboo/src/main/java/org/peakaboo/calibration/CalibrationProfile.java:95-98 | each interpolated series is appended to the interpolated list and put with its smoothed value |
| `Calibration.CalibrationProfile.Complete` | LibPeakaboo/src/main/java/org/peakaboo/calibration/CalibrationProfile.java:87-104 | after the build loop the map becomes the merge of the interpolated values, smoothed, then normalised against the anchor; the interpolated list grows by the interpolated series |
| `Calibration.CalibrationProfile.Finish` | LibPeakaboo/src/main/java/org/peakaboo/calibration/CalibrationProfile.java:100-104 | the light smoother and then the normaliser, which keep the map well formed |
| `Calibration.CalibrationProfile.PutFactor` | LibPeakaboo/src/main/java/org/peakaboo/calibration/CalibrationProfile.java:76 | put on the linked map: a new key goes to the end of the key order, an existing key keeps its place and takes the new value |
| `Calibration.CalibrationProfile.Smooth` | LibPeakaboo/src/main/java/org/peakaboo/calibration/CalibrationProfile.java:101 | the light smoother replaces the factors and keeps the key set |
| `Calibration.CalibrationProfile.Contains` | LibPeakaboo/src/main/java/org/peakaboo/calibration/CalibrationProfile.java:131-133 | true exactly for keys of the map |
| `Calibration.CalibrationProfile.IsEmpty` | LibPeakaboo/src/main/java/org/peakaboo/calibration/CalibrationProfile.java:170-172 | true exactly when the map is empty |
| `Calibration.CalibrationProfile.Calibrate` | LibPeakaboo/src/main/java/org/peakaboo/calibration/CalibrationProfile.java:149-156 | a value without a factor is unchanged; with one, the result times the factor is the value |
| `Calibration.CalibrationProfile.CalibrateMap` | LibPeakaboo/src/main/java/org/peakaboo/calibration/CalibrationProfile.java:162-168 | without a factor the same spectrum; otherwise each channel calibrated |
| `Calibration.CalibrationProfile.GetCalibrations` | LibPeakaboo/src/main/java/org/peakaboo/calibration/CalibrationProfile.java:127-129 | a well-formed copy holding exactly the profile's keys |
| `Calibration.CalibrationProfile.GetInterpolated` | LibPeakaboo/src/main/java/org/peakaboo/calibration/CalibrationProfile.java:187-189 | a copy of the interpolated list |
| `Calibration.CalibrationProfile.GetTransitionSeries` | LibPeakaboo/src/main/java/org/peakaboo/calibration/CalibrationProfile.java:177-185 | getTransitionSeries(shell) returns exactly the keys of that shell, ascending by element ordinal |
| `Calibration.CalibrationProfile.TransitionSeriesOfShell` | LibPeakaboo/src/main/java/org/peakaboo/calibration/CalibrationProfile.java:177-185 | getTransitionSeries(shell) returns exactly the keys of that shell, each once, sorted by element ordinal |
| `PeakTables.ForElement` | Peakaboo_DataTypes/src/peakaboo/datatypes/peaktable/PeakTable.java:87-98 | exactly the stored series of the element, in stored order |
| `PeakTables.Lookup` | Peakaboo_DataTypes/src/peakaboo/datatypes/peaktable/PeakTable.java:105-117 | none exactly when no stored series has that element and type; otherwise the first stored series that does |
| `PeakTables.FirstMatch` | CurveFit/src/main/java/peakaboo/curvefit/peaktable/PeakTable.java:97-99 | the head of the filtered list is the first matching stored series |
| `PeakTables.RoundedCompare` | Peakaboo_DataTypes/src/peakaboo/datatypes/peaktable/PeakTable.java:70-73 | the comparator as written: the proximity difference rounded half up to an int |
| `PeakTables.RoundedCompareTies` | CurveFit/src/main/java/peakaboo/curvefit/peaktable/PeakTable.java:68-71 | two proximities compare equal exactly when their difference lies in [-0.5, 0.5) |
| `PeakTables.RoundedCompareNotTransitive` | Peakaboo_DataTypes/src/peakaboo/datatypes/peaktable/PeakTable.java:70-73 | 0.0 ties 0.4 and 0.4 ties 0.8, yet 0.0 sorts before 0.8: the comparator breaks the Comparator contract |
| `PeakTables.NearestMatches` | Peakaboo_DataTypes/src/peakaboo/datatypes/peaktable/PeakTable.java:62-78 | the sort step of getNearestMatchesToEnergy: one pair per stored series, ascending by proximity |
| `PeakTables.NearestMatchesCorrect` | Peakaboo_DataTypes/src/peakaboo/datatypes/peaktable/PeakTable.java:58-77 | the nearest-match list is a permutation of the table paired with each series' own proximity, ascending by proximity |
| `PeakTables.PairWithProximity` | CurveFit/src/main/java/peakaboo/curvefit/peaktable/PeakTable.java:59-64 | the loop pairs each stored series with its proximity, in order |
| `PeakTables.PeakTable.constructor` | Peakaboo_DataTypes/src/peakaboo/datatypes/peaktable/PeakTable.java:31-34 | an empty table |
| `PeakTables.PeakTable.AddSeries` | Peakaboo_DataTypes/src/peakaboo/datatypes/peaktable/PeakTable.java:43-47 | a series without transitions is ignored; otherwise it is appended |
| `PeakTables.PeakTable.GetNearestMatchesToEnergy` | Peakaboo_DataTypes/src/peakaboo/datatypes/peaktable/PeakTable.java:58-77 | the sorted proximity list of the stored series |
| `PeakTables.PeakTable.GetTransitionSeriesForElement` | Peakaboo_DataTypes/src/peakaboo/datatypes/peaktable/PeakTable.java:87-98 | the element filter of the stored list |
| `PeakTables.PeakTable.GetAllTransitionSeries` | Peakaboo_DataTypes/src/peakaboo/datatypes/peaktable/PeakTable.java:100-103 | a list equal to the stored list |
| `PeakTables.PeakTable.GetTransitionSeries` | Peakaboo_DataTypes/src/peakaboo/datatypes/peaktable/PeakTable.java:105-117 | the first stored series of that element and type, or none |
| `PeakTables.StaticPeakTable.constructor` | CurveFit/src/main/java/peakaboo/curvefit/peaktable/PeakTable.java:31 | the static list starts empty |
| `PeakTables.StaticPeakTable.AddSeries` | CurveFit/src/main/java/peakaboo/curvefit/peaktable/PeakTable.java:41-45 | a series without transitions is ignored; otherwise it is appended |
| `PeakTables.StaticPeakTable.GetNearestMatchesToEnergy` | CurveFit/src/main/java/peakaboo/curvefit/peaktable/PeakTable.java:56-75 | the sorted proximity list of the stored series |
| `PeakTables.StaticPeakTable.GetTransitionSeriesForElement` | CurveFit/src/main/java/peakaboo/curvefit/peaktable/PeakTable.java:85-88 | the element filter of the stored list |
| `PeakTables.StaticPeakTable.GetAllTransitionSeries` | CurveFit/src/main/java/peakaboo/curvefit/peaktable/PeakTable.java:90-93 | a list equal to the stored list |
| `PeakTables.StaticPeakTable.GetTransitionSeries` | CurveFit/src/main/java/peakaboo/curvefit/peaktable/PeakTable.java:95-100 | the first stored series of that element and type, or none |
| `SerializedSeries.Component` | UIController/src/main/java/peakaboo/controller/settings/SerializedTransitionSeries.java:30 | a component is the element's name, a colon, and the type's name |
| `SerializedSeries.Components` | UIController/src/main/java/peakaboo/controller/settings/SerializedTransitionSeries.java:27-31 | one component per base series, in base order |
| `SerializedSeries.FirstColon` | UIController/src/main/java/peakaboo/controller/settings/SerializedTransitionSeries.java:49 | the position of the first ':' (or the length when none) |
| `SerializedSeries.SplitFirstRecovers` | UIController/src/main/java/peakaboo/controller/settings/SerializedTransitionSeries.java:30-49 | splitting name:type at the first ':' recovers (name, type) whenever the name has no ':' |
| `SerializedSeries.FailureSticks` | UIController/src/main/java/peakaboo/controller/settings/SerializedTransitionSeries.java:47-56 | once a component fails to decode, decoding more components keeps that failure |
| `SerializedSeries.SerializedTransitionSeries.constructor` | UIController/src/main/java/peakaboo/controller/settings/SerializedTransitionSeries.java:18-21 | no components, not visible |
| `SerializedSeries.SerializedTransitionSeries.FromSeries` | UIController/src/main/java/peakaboo/controller/settings/SerializedTransitionSeries.java:23-35 | the components of the series' base series, and its visible flag |
| `SerializedSeries.SerializedTransitionSeries.ToTS` | UIController/src/main/java/peakaboo/controller/settings/SerializedTransitionSeries.java:38-63 | the loop looks one series up per component, in order, and sums them with the visible flag restored. A component whose element or type does not parse is an error |
| `SerializedSeries.Looked` | UIController/src/main/java/peakaboo/controller/settings/SerializedTransitionSeries.java:53 | the table lookup of each base series' element and type |
| `SerializedSeries.DecodeEncoded` | UIController/src/main/java/peakaboo/controller/settings/SerializedTransitionSeries.java:27-56 | decoding a prefix of the encoded components looks up exactly the corresponding base series |
| `SerializedSeries.RoundTrip` | UIController/src/main/java/peakaboo/controller/settings/SerializedTransitionSeries.java:23-58 | decoding an encoding succeeds and looks up each base series by its own element and type |
| `FittingControl.MovedCorrect` | LibPeakaboo/src/main/java/peakaboo/controller/plotter/fitting/FittingController.java:107-115 | moving is a permutation with the moved series at the adjusted index, the others in their old order |
| `FittingControl.RemoveAt` | LibPeakaboo/src/main/java/peakaboo/controller/plotter/fitting/FittingController.java:114 | in a duplicate-free list, removing an element's value removes its position |
| `FittingControl.MoveInPlace` | LibPeakaboo/src/main/java/peakaboo/controller/plotter/fitting/FittingController.java:111 | moving to its own index or the next one leaves the list unchanged |
| `FittingControl.AddedAllMembers` | LibPeakaboo/src/main/java/peakaboo/controller/plotter/fitting/FittingController.java:122-130 | adding all keeps the old list as a prefix and adds exactly the non-empty new series |
| `FittingControl.TrimStartBlank` | LibPeakaboo/src/main/java/peakaboo/controller/plotter/fitting/FittingController.java:497 | stripping leading characters up to ' ' empties a string exactly when it is blank |
| `FittingControl.TrimEndEmpty` | LibPeakaboo/src/main/java/peakaboo/controller/plotter/fitting/FittingController.java:497 | stripping trailing blanks from a string that starts with a visible character leaves it non-empty |
| `FittingControl.TrimEmptyIffBlank` | LibPeakaboo/src/main/java/peakaboo/controller/plotter/fitting/FittingController.java:486-497 | String.trim is empty exactly when every character is at most ' ' |
| `FittingControl.SelectTransitionSeriesAtChannel` | LibPeakaboo/src/main/java/peakaboo/controller/plotter/fitting/FittingController.java:293-315 | none exactly when there are no results or no in-bounds fit value exceeds 1. Otherwise it is the first fit with the largest in-bounds value at the channel |
| `FittingControl.TransitionSeriesIntensity` | LibPeakaboo/src/main/java/peakaboo/controller/plotter/fitting/FittingController.java:176-190 | 0 without results or without a matching fit; otherwise the first matching fit's maximum, NaN read as 0 |
| `FittingControl.ProposalsProposable` | LibPeakaboo/src/main/java/peakaboo/controller/plotter/fitting/FittingController.java:277-286 | the proposed series number at most the guess count and are each the re-suggested series or neither fitted nor proposed |
| `FittingControl.FittingController.constructor` | LibPeakaboo/src/main/java/peakaboo/controller/plotter/fitting/FittingController.java:51 | empty selections and proposals with the same parameters, no annotations, nothing highlighted |
| `FittingControl.FittingController.AddTransitionSeries` | LibPeakaboo/src/main/java/peakaboo/controller/plotter/fitting/FittingController.java:98-104 | null changes nothing; otherwise the series is added to the selections |
| `FittingControl.FittingController.MoveTransitionSeries` | LibPeakaboo/src/main/java/peakaboo/controller/plotter/fitting/FittingController.java:107-120 | the selections after the remove-and-insert move |
| `FittingControl.FittingController.AddAllTransitionSeries` | LibPeakaboo/src/main/java/peakaboo/controller/plotter/fitting/FittingController.java:122-130 | each series added to the selections in turn |
| `FittingControl.FittingController.ClearTransitionSeries` | LibPeakaboo/src/main/java/peakaboo/controller/plotter/fitting/FittingController.java:132-138 | the selections become empty |
| `FittingControl.FittingController.RemoveTransitionSeries` | LibPeakaboo/src/main/java/peakaboo/controller/plotter/fitting/FittingController.java:140-146 | the series is removed from the selections |
| `FittingControl.FittingController.UnfittedTransitionSeries` | LibPeakaboo/src/main/java/peakaboo/controller/plotter/fitting/FittingController.java:153-157 | exactly the registry series that are not selected |
| `FittingControl.FittingController.AddProposedTransitionSeries` | LibPeakaboo/src/main/java/peakaboo/controller/plotter/fitting/FittingController.java:220-224 | the series is added to the proposals |
| `FittingControl.FittingController.RemoveProposedTransitionSeries` | LibPeakaboo/src/main/java/peakaboo/controller/plotter/fitting/FittingController.java:226-230 | the series is removed from the proposals |
| `FittingControl.FittingController.ClearProposedTransitionSeries` | LibPeakaboo/src/main/java/peakaboo/controller/plotter/fitting/FittingController.java:232-236 | the proposals become empty |
| `FittingControl.FittingController.CommitProposedTransitionSeries` | LibPeakaboo/src/main/java/peakaboo/controller/plotter/fitting/FittingController.java:243-248 | every proposal is added to the selections, which then hold exactly the old selections and proposals; the proposals become empty |
| `FittingControl.FittingController.ProposeTransitionSeriesFromChannel` | LibPeakaboo/src/main/java/peakaboo/controller/plotter/fitting/FittingController.java:272-287 | null without a data set, leaving the proposals as they were. Otherwise it returns the series of the six fromChannel guesses, all proposable. The proposals keep their members and parameters, with the re-suggested series moved to the end |
| `FittingControl.FittingController.SetEscapeType` | LibPeakaboo/src/main/java/peakaboo/controller/plotter/fitting/FittingController.java:256-265 | the same escape type in the selection and proposal parameters |
| `FittingControl.FittingController.SetFittingParameters` | LibPeakaboo/src/main/java/peakaboo/controller/plotter/fitting/FittingController.java:323-335 | the same calibration in both parameter sets, and the proposals take the selections' escape type |
| `FittingControl.FittingController.SetMaxEnergy` | LibPeakaboo/src/main/java/peakaboo/controller/plotter/fitting/FittingController.java:337-342 | the calibration keeps its minimum and takes the new maximum and the data width, in both parameter sets. Everything else in the selections' parameters is unchanged. The proposals also take the selections' escape type |
| `FittingControl.FittingController.SetMinEnergy` | LibPeakaboo/src/main/java/peakaboo/controller/plotter/fitting/FittingController.java:349-353 | the calibration keeps its maximum and takes the new minimum and the data width, in both parameter sets. Everything else in the selections' parameters is unchanged. The proposals also take the selections' escape type |
| `FittingControl.FittingController.SetFWHMBase` | LibPeakaboo/src/main/java/peakaboo/controller/plotter/fitting/FittingController.java:413-418 | the same FWHM base in both parameter sets |
| `FittingControl.FittingController.SetFittingFunction` | LibPeakaboo/src/main/java/peakaboo/controller/plotter/fitting/FittingController.java:420-425 | the same fitting function in both parameter sets |
| `FittingControl.FittingController.SetHighlightedTransitionSeries` | LibPeakaboo/src/main/java/peakaboo/controller/plotter/fitting/FittingController.java:400-407 | the new highlight is stored; listeners are told unless the old highlight was non-null and equal |
| `FittingControl.FittingController.HasAnnotation` | LibPeakaboo/src/main/java/peakaboo/controller/plotter/fitting/FittingController.java:481-490 | true exactly when an annotation is present and not blank |
| `FittingControl.FittingController.GetAnnotation` | LibPeakaboo/src/main/java/peakaboo/controller/plotter/fitting/FittingController.java:492-494 | the stored annotation, or null |
| `FittingControl.FittingController.SetAnnotation` | LibPeakaboo/src/main/java/peakaboo/controller/plotter/fitting/FittingController.java:496-503 | a blank annotation removes the entry, any other is stored; afterwards hasAnnotation holds exactly when the annotation was not blank |
| `FittingControl.FittingController.ClearAnnotations` | LibPeakaboo/src/main/java/peakaboo/controller/plotter/fitting/FittingController.java:509-512 | no annotations remain |
| `FittingSets.FittingSet.constructor` | LibPeakaboo/src/main/java/peakaboo/controller/plotter/fitting/FittingController.java:51 | an empty set with the given parameters |
| `FittingSets.FittingSet.Add` | LibPeakaboo/src/main/java/peakaboo/controller/plotter/fitting/FittingController.java:101 | appends a series that is non-empty and absent, and otherwise changes nothing; no duplicates |
| `FittingSets.FittingSet.Remove` | LibPeakaboo/src/main/java/peakaboo/controller/plotter/fitting/FittingController.java:114 | removes the series if present; afterwards it is absent |
| `FittingSets.FittingSet.Insert` | LibPeakaboo/src/main/java/peakaboo/controller/plotter/fitting/FittingController.java:115 | inserts a new non-empty series at the index |
| `FittingSets.FittingSet.Clear` | LibPeakaboo/src/main/java/peakaboo/controller/plotter/fitting/FittingController.java:135 | no series remain |
| `FittingSets.FittingSet.SetParameters` | LibPeakaboo/src/main/java/peakaboo/controller/plotter/fitting/FittingController.java:258-259 | the parameters are replaced |
| `Similar.IndexInGrid` | LibPeakaboo/src/main/java/org/peakaboo/controller/mapper/selection/SimilarSelection.java:101 | a clicked point inside the grid has an index inside the data |
| `Similar.Neighbours` | LibPeakaboo/src/main/java/org/peakaboo/controller/mapper/selection/SimilarSelection.java:139 | four neighbours (north, south, east, west), each -1 or an index inside the grid |
| `Similar.NeighboursInGrid` | LibPeakaboo/src/main/java/org/peakaboo/controller/mapper/selection/SimilarSelection.java:139-142 | a neighbour step stays inside the grid whenever the point is not on that edge |
| `Similar.Negated` | LibPeakaboo/src/main/java/org/peakaboo/controller/mapper/selection/SimilarSelection.java:107-109 | every value negated |
| `Similar.Indices` | LibPeakaboo/src/main/java/org/peakaboo/controller/mapper/selection/SimilarSelection.java:118-119 | the indices of the grid |
| `Similar.MatchingCorrect` | LibPeakaboo/src/main/java/org/peakaboo/controller/mapper/selection/SimilarSelection.java:116-128 | the non-contiguous result holds exactly the indices whose value passes the threshold test, in ascending (row-major) order |
| `Similar.AllMatching` | LibPeakaboo/src/main/java/org/peakaboo/controller/mapper/selection/SimilarSelection.java:116-128 | the nested loop over rows and columns computes that list |
| `Similar.Visit` | LibPeakaboo/src/main/java/org/peakaboo/controller/mapper/selection/SimilarSelection.java:139-156 | visiting a point appends exactly its matching neighbours not yet seen, and keeps the set in step with the list |
| `Similar.GrownStep` | LibPeakaboo/src/main/java/org/peakaboo/controller/mapper/selection/SimilarSelection.java:135-159 | after a visit, every added point still matches and neighbours an earlier point |
| `Similar.ClosedStep` | LibPeakaboo/src/main/java/org/peakaboo/controller/mapper/selection/SimilarSelection.java:135-159 | after a visit, the visited point's matching neighbours are all in the list |
| `Similar.FloodFill` | LibPeakaboo/src/main/java/org/peakaboo/controller/mapper/selection/SimilarSelection.java:129-161 | the contiguous result starts at the clicked point and has no duplicates. Every other point matches and neighbours an earlier point, and no matching neighbour of a selected point is left out |
| `Similar.Grow` | LibPeakaboo/src/main/java/org/peakaboo/controller/mapper/selection/SimilarSelection.java:192-214 | padding keeps every point |
| `Similar.GrowInGrid` | LibPeakaboo/src/main/java/org/peakaboo/controller/mapper/selection/SimilarSelection.java:203-209 | padding adds only in-grid points |
| `Similar.PaddedGrows` | LibPeakaboo/src/main/java/org/peakaboo/controller/mapper/selection/SimilarSelection.java:164-167 | more rounds of padding select a superset |
| `Similar.PadSelection` | LibPeakaboo/src/main/java/org/peakaboo/controller/mapper/selection/SimilarSelection.java:192-217 | a duplicate-free list of the points and their in-grid neighbours |
| `Similar.AddNeighbours` | LibPeakaboo/src/main/java/org/peakaboo/controller/mapper/selection/SimilarSelection.java:203-211 | the point set gains exactly the neighbours that are not -1 |
| `Similar.Oriented` | LibPeakaboo/src/main/java/org/peakaboo/controller/mapper/selection/SimilarSelection.java:101-111 | on a ratio map clicked at a negative value the data is negated and the clicked value becomes positive; otherwise the data is unchanged |
| `Similar.Orient` | LibPeakaboo/src/main/java/org/peakaboo/controller/mapper/selection/SimilarSelection.java:106-111 | the loop negates the map's own values in place exactly when the ratio map was clicked at a negative value, and yields the clicked value the test runs on |
| `Similar.SimilarSelection.constructor` | LibPeakaboo/src/main/java/org/peakaboo/controller/mapper/selection/SimilarSelection.java:41-46 | threshold 1.2 and padding 0, both valid, and no selection |
| `Similar.SimilarSelection.ClearSelection` | LibPeakaboo/src/main/java/org/peakaboo/controller/mapper/selection/SimilarSelection.java:61-63 | the selection becomes empty |
| `Similar.SimilarSelection.SetPoints` | LibPeakaboo/src/main/java/org/peakaboo/controller/mapper/selection/SimilarSelection.java:70-73 | the selection becomes the given list |
| `Similar.SimilarSelection.PadAll` | LibPeakaboo/src/main/java/org/peakaboo/controller/mapper/selection/SimilarSelection.java:164-167 | the found points padded exactly `padding` times |
| `Similar.SimilarSelection.Merge` | LibPeakaboo/src/main/java/org/peakaboo/controller/mapper/selection/SimilarSelection.java:171-187 | modify mode with the clicked point selected gives the old selection minus the new points. Modify mode otherwise gives their duplicate-free union. Without modify the new points replace the selection |
| `Similar.SimilarSelection.SelectPoint` | LibPeakaboo/src/main/java/org/peakaboo/controller/mapper/selection/SimilarSelection.java:75-190 | for a grid no larger than the data, the new selection is the merge of the padded result of the threshold match (contiguous or not) on the oriented data. A ratio map clicked at a negative value is left negated |
| `Types.ListOf` | LibPeakaboo/src/main/java/org/peakaboo/controller/mapper/selection/SimilarSelection.java:214 | a list of a set's members, each once |
| `ReferencePlots.ProfileKeys` | SwingUI/src/main/java/peakaboo/ui/swing/calibration/referenceplot/ReferencePlot.java:126-127 | the series of each ordinal in the range, for the given type |
| `ReferencePlots.LatestIsLastPresent` | SwingUI/src/main/java/peakaboo/ui/swing/calibration/referenceplot/ReferencePlot.java:128-131 | a missing ordinal carries the value of the most recent present one |
| `ReferencePlots.LatestNone` | SwingUI/src/main/java/peakaboo/ui/swing/calibration/referenceplot/ReferencePlot.java:125 | before any present ordinal the value is 0 |
| `ReferencePlots.ProfileToSpectrum` | SwingUI/src/main/java/peakaboo/ui/swing/calibration/referenceplot/ReferencePlot.java:122-138 | a new buffer of stop - start + 1 entries. Entry k holds the concentration of ordinal start + k, or the last one seen before it |
| `ReferencePlots.PlotRange` | SwingUI/src/main/java/peakaboo/ui/swing/calibration/referenceplot/ReferencePlot.java:43-50 | [0, 1] with fewer than two series, else the first and last series' ordinals |
| `ReferencePlots.PlotRangeCovers` | SwingUI/src/main/java/peakaboo/ui/swing/calibration/referenceplot/ReferencePlot.java:43-50 | for series sorted by ordinal the range covers every series' ordinal |
| `ReferencePlots.ReferencePlot.constructor` | SwingUI/src/main/java/peakaboo/ui/swing/calibration/referenceplot/ReferencePlot.java:41-52 | the plot range and the carried-forward profile over it |
| `CompositeMode.CompositeModeData.constructor` | LibPeakaboo/src/main/java/org/peakaboo/display/map/modes/composite/CompositeModeData.java:19-28 | the mask has the data's length and is 1 exactly at the listed invalid indices, 0 elsewhere |
| `CompositeMode.CompositeModeData.HasBackingData` | LibPeakaboo/src/main/java/org/peakaboo/display/map/modes/composite/CompositeModeData.java:50-54 | false for a negative index or a listed invalid index, true otherwise |
| `CompositeMode.CompositeModeData.ValueAtCoord` | LibPeakaboo/src/main/java/org/peakaboo/display/map/modes/composite/CompositeModeData.java:36-44 | "-" exactly when out of bounds, without backing data or past the data; otherwise the data value at the index |
| `CompositeMode.CompositeModeData.BackingMatchesMask` | LibPeakaboo/src/main/java/org/peakaboo/display/map/modes/composite/CompositeModeData.java:24-27 | inside the data, a point has backing data exactly when its mask entry is 0 |
| `SpectrumNormalization.MaxIsMaximum` | Filter/src/main/java/peakaboo/filter/plugins/advanced/SpectrumNormalizationFilter.java:73 | the maximum is an entry no smaller than any entry |
| `SpectrumNormalization.Zeros` | Filter/src/main/java/peakaboo/filter/plugins/advanced/SpectrumNormalizationFilter.java:81 | an all-zero spectrum of the given size |
| `SpectrumNormalization.Divided` | Filter/src/main/java/peakaboo/filter/plugins/advanced/SpectrumNormalizationFilter.java:82 | every channel divided by the ratio |
| `SpectrumNormalization.SumDivided` | Filter/src/main/java/peakaboo/filter/plugins/advanced/SpectrumNormalizationFilter.java:76-82 | dividing every channel divides the sum |
| `SpectrumNormalization.MaxDivided` | Filter/src/main/java/peakaboo/filter/plugins/advanced/SpectrumNormalizationFilter.java:73-82 | dividing by a positive number divides the maximum |
| `SpectrumNormalization.DivMono` | Filter/src/main/java/peakaboo/filter/plugins/advanced/SpectrumNormalizationFilter.java:82 | dividing by a positive number keeps order |
| `SpectrumNormalization.ScaledToHeight` | Filter/src/main/java/peakaboo/filter/plugins/advanced/SpectrumNormalizationFilter.java:80-82 | all zeros when the statistic is 0, else every channel divided by statistic / height |
| `SpectrumNormalization.FilterApplyTo` | Filter/src/main/java/peakaboo/filter/plugins/advanced/SpectrumNormalizationFilter.java:56-86 | range mode returns the data unchanged when the 0-based start is past the end or the 0-based end is at most 0. Otherwise the data is scaled by the mode's statistic (range mean, maximum, or sum) |
| `SpectrumNormalization.FilterApplyToIntended` | Filter/src/main/java/peakaboo/filter/plugins/advanced/SpectrumNormalizationFilter.java:67-68 | the same filter with a range skipped only when it ends before channel 1 |
| `SpectrumNormalization.GuardsDifferOnlyAtFirstChannel` | Filter/src/main/java/peakaboo/filter/plugins/advanced/SpectrumNormalizationFilter.java:67-68 | for valid parameters the two guards disagree exactly on a range ending at channel 1 of non-empty data |
| `SpectrumNormalization.RatioNonZero` | Filter/src/main/java/peakaboo/filter/plugins/advanced/SpectrumNormalizationFilter.java:80-81 | a non-zero statistic over a positive height gives a non-zero ratio |
| `SpectrumNormalization.Rescaled` | Filter/src/main/java/peakaboo/filter/plugins/advanced/SpectrumNormalizationFilter.java:80-82 | a statistic divided by (statistic / height) is the height |
| `SpectrumNormalization.RescaledMean` | Filter/src/main/java/peakaboo/filter/plugins/advanced/SpectrumNormalizationFilter.java:69-82 | the mean of the rescaled range is the height |
| `SpectrumNormalization.NonZeroNumerator` | Filter/src/main/java/peakaboo/filter/plugins/advanced/SpectrumNormalizationFilter.java:70 | a non-zero mean has a non-zero sum |
| `SpectrumNormalization.MeanToHeight` | Filter/src/main/java/peakaboo/filter/plugins/advanced/SpectrumNormalizationFilter.java:69-82 | in range mode the scaled range's mean is the height |
| `SpectrumNormalization.MaxToHeight` | Filter/src/main/java/peakaboo/filter/plugins/advanced/SpectrumNormalizationFilter.java:73-82 | in max mode the scaled spectrum's maximum is the height |
| `SpectrumNormalization.SumToHeight` | Filter/src/main/java/peakaboo/filter/plugins/advanced/SpectrumNormalizationFilter.java:76-82 | in sum mode the scaled spectrum's sum is the height |
| `SpectrumNormalization.NormalizedToHeight` | Filter/src/main/java/peakaboo/filter/plugins/advanced/SpectrumNormalizationFilter.java:65-82 | after scaling, the chosen statistic equals the height (for max mode, when the maximum is positive) |
| `SpectrumNormalization.SingleChannelMean` | Filter/src/main/java/peakaboo/filter/plugins/advanced/SpectrumNormalizationFilter.java:69-70 | the mean of the range of channel 1 alone is that channel |
| `SpectrumNormalization.FirstChannelRangeUnchanged` | Filter/src/main/java/peakaboo/filter/plugins/advanced/SpectrumNormalizationFilter.java:60-68 | as written, the range of channel 1 alone leaves the data unchanged, so channel 1 does not become the height |
| `SpectrumNormalization.FirstChannelRangeNormalized` | Filter/src/main/java/peakaboo/filter/plugins/advanced/SpectrumNormalizationFilter.java:60-82 | with the corrected guard, the range of channel 1 alone brings a non-zero channel 1 to the height |
| `SpectrumNormalization.SpectrumNormalizationFilter.constructor` | Filter/src/main/java/peakaboo/filter/plugins/advanced/SpectrumNormalizationFilter.java:33-47 | range mode over channels 1 to 10 with height 10, a valid parameter set |
| `SpectrumNormalization.SpectrumNormalizationFilter.Validate` | Filter/src/main/java/peakaboo/filter/plugins/advanced/SpectrumNormalizationFilter.java:113-133 | the channel parameters are enabled exactly in range mode. It accepts exactly start ≥ 1, end ≥ 1, end ≥ start and 1 ≤ height ≤ 1000000 |
| `SingleMap.Join` | Peakaboo_UIController/src/peakaboo/controller/mapper/SingleMapModel.java:135 | folding names with ", " gives nothing exactly for an empty list |
| `SingleMap.JoinAppend` | Peakaboo_UIController/src/peakaboo/controller/mapper/SingleMapModel.java:135 | the join of two non-empty lists is their joins separated by ", " |
| `SingleMap.Title` | Peakaboo_UIController/src/peakaboo/controller/mapper/SingleMapModel.java:135-138 | "-" for no names; a single name is the title |
| `SingleMap.Names` | Peakaboo_UIController/src/peakaboo/controller/mapper/SingleMapModel.java:128-133 | each series' element string, in order |
| `SingleMap.DatasetTitle` | Peakaboo_UIController/src/peakaboo/controller/mapper/SingleMapModel.java:124-140 | getDatasetTitle: "-" for no series; a single series gives its element string as the title |
| `SingleMap.ShortDatasetTitle` | Peakaboo_UIController/src/peakaboo/controller/mapper/SingleMapModel.java:143-163 | getShortDatasetTitle: "-" for no series; a single series gives its element name as the title |
| `SingleMap.ShortTitleNames` | Peakaboo_UIController/src/peakaboo/controller/mapper/SingleMapModel.java:143-163 | the short title is "-" for no series; it names each element of the list exactly once |
| `SingleMap.SingleMapModel.constructor` | Peakaboo_UIController/src/peakaboo/controller/mapper/SingleMapModel.java:32-51 | no resultant data, composite mode; every result-set series is on ratio side 1, red and visible, and no other series has an entry |
| `SingleMap.SingleMapModel.AllTransitionSeries` | Peakaboo_UIController/src/peakaboo/controller/mapper/SingleMapModel.java:54-62 | every series of the model once each, in sorted order |
| `SingleMap.SingleMapModel.VisibleTransitionSeries` | Peakaboo_UIController/src/peakaboo/controller/mapper/SingleMapModel.java:64-73 | exactly the series whose visible flag is set, once each, in the sorted order of all the series |
| `SingleMap.SingleMapModel.TransitionSeriesForRatioSide` | Peakaboo_UIController/src/peakaboo/controller/mapper/SingleMapModel.java:180-193 | exactly the visible series on the given side, once each, in sorted order |
| `SingleMap.SingleMapModel.RatioSidesPartition` | Peakaboo_UIController/src/peakaboo/controller/mapper/SingleMapModel.java:180-193 | when every side is 1 or 2, each visible series is on exactly one of the two side lists |
| `SingleMap.SingleMapModel.TransitionSeriesForColour` | Peakaboo_UIController/src/peakaboo/controller/mapper/SingleMapModel.java:166-178 | exactly the resultant entries whose series has that colour and is visible |
| `SingleMap.SingleMapModel.MapLongTitle` | Peakaboo_UIController/src/peakaboo/controller/mapper/SingleMapModel.java:99-116 | in ratio mode the side-1 title, " ∶ ", and the side-2 title; otherwise the title of the visible series |
| `SingleMap.SingleMapModel.Discard` | Peakaboo_UIController/src/peakaboo/controller/mapper/SingleMapModel.java:195-203 | the resultant data and the three maps are empty and the result set is dropped |

## Left out

- The cache-invalidation, undo-point and listener calls are not modelled. The exception is the listener notification count, which the annotation, highlight, escape-type and energy setters keep.
- Integer and float widths are not modelled: floats are reals, infinities are not modelled, and NaN appears only where the code tests for it.
- Division by zero is excluded by preconditions: the normaliser's anchor factor, `calibrate`, `calibrateMap` and the compound scorer's total weight must be non-zero.
- The smoothers and interpolator of the calibration profile are parameters. The light smoother must keep the key set and leave the anchor's factor non-zero.
- `PeakProposal.CandidateList`: the source deduplicates with `new ArrayList<>(new HashSet<>(...))` (PeakProposal.java:288), so its candidates come in hash order. The model keeps first occurrences instead. The order matters only among candidates with equal scores: the stable sorts keep it as the tie-break, so it decides which of them survive `limit(guessCount)`. The exact result stated by `PeakProposal.FromChannel` and `PeakProposal.RankCandidates` therefore rests on this choice of order. The guarantees that hold for any order (size, freshness, score order and dominance) do not depend on it.
- The HashSet order of padSelection and the modify-merge is left open.
- TimSort is not modelled: sorting is specified by its result (sorted, a permutation), with stable insertion sort as the definition.
- `PeakTables.NearestMatches`, and through it `PeakTables.PeakTable.GetNearestMatchesToEnergy` and `PeakTables.StaticPeakTable.GetNearestMatchesToEnergy`: sorts by exact proximity, the evidently intended order, instead of the rounded comparator (see Findings).
- GridPerspective is not part of this model: indices are row-major and a missing neighbour is -1.
- `Similar.SimilarSelection.SelectPoint`: the ratio map's invalid-point list (SimilarSelection.java:90-95) is computed by the source and never used, so it is not modelled. Display modes other than composite and ratio are excluded by a precondition, because the source then has no data.
- CompositeModeData's `SigDigits` formatting is left out: a value reads as the number itself. `getIndex` and `isPointInBounds` are taken as row-major and inside the grid.
- `FittingControl.FittingController.TransitionSeriesIntensity`: the source compares series by reference (`==`); the model compares them structurally.
- setTransitionSeriesVisibility, getVisibleTransitionSeries and getTransitionSeriesVisibility in FittingController are not modelled: the visible flag is not part of the series value.
- moveTransitionSeriesUp/Down, canMap and autodetectPeaks in FittingController delegate to FittingSet or the UI and are not modelled.
- FittingModel is not part of this model: the controller starts from empty selections and proposals, no annotations and no highlight.
- `getAnnotations` is not modelled separately: maps are values, so every read is a copy.
- `SpectrumNormalization.FilterApplyTo`: Spectrum.subSpectrum is not part of this model. The range is taken as inclusive at both ends and must end inside the data, and the maximum of an empty spectrum is taken as 0.
- `SpectrumNormalization.SpectrumNormalizationFilter.Validate`: the source sets the channel fields' enabled flags with `mode == MODE_RANGE` (SpectrumNormalizationFilter.java:120-121), a String reference comparison, while filterApplyTo compares the mode with equals semantics. The model compares modes by value. So it does not capture a range-mode string that is not the interned constant, which would leave range mode active with both channel fields disabled.
- The filter's Parameter framework is not modelled: the filter is applied only to parameters its validator accepts.
- `SingleMap.SingleMapModel.Discard`: requires resultant data, because the source calls `clear()` on it.
- `SingleMap.SingleMapModel.TransitionSeriesForColour`: requires resultant data, and requires every entry of the colour to have a visibility flag. Without them the source throws a NullPointerException, from `filter` on a null list or from unboxing a missing flag, and that exception path is not modelled.
- `FittingControl.FittingController.MoveTransitionSeries`: requires both indices inside the list. Out of range, `get(from)` or `insertTransitionSeries(to, ts)` throws IndexOutOfBoundsException (FittingController.java:113-115), and that exception path is not modelled.
- `CompositeMode.CompositeModeData.constructor`: requires every invalid point to be an index of the data. Otherwise `invalidMask.set(i, 1f)` fails (CompositeModeData.java:25-26), and that exception path is not modelled.
- `SingleMap.SingleMapModel.AllTransitionSeries`: TransitionSeries.compareTo is not part of this model. The order is an integer rank, and series of equal rank come in an unspecified order.
- `SingleMap.DatasetTitle`: fava `foldr(names, strcat(", "))` is taken to be the join of the names with ", ", which gives null exactly for an empty list.
- `SingleMap.ShortDatasetTitle`: Element.toString is taken to be the constant's name, and fava `unique` to keep first occurrences. The join is the same as for `SingleMap.DatasetTitle`.
- The saving, loading and `main` of CalibrationProfile are file and YAML I/O and are not modelled.
- `PeakProposal.Search`: progress reporting (ExecutorSet and DummyExecutor states) is reduced to the stage-2 work-unit count.

## Findings

| source | as written | input that shows it | evidently intended | confidence | as-written member | corrected member |
|---|---|---|---|---|---|---|
| Peakaboo_DataTypes/src/peakaboo/datatypes/peaktable/PeakTable.java:70-73 and CurveFit/src/main/java/peakaboo/curvefit/peaktable/PeakTable.java:68-71 | the comparator returns `(int) Math.round(a - b)`, so proximities less than 0.5 apart compare equal | proximities 0.0, 0.4, 0.8: 0.0 ties 0.4 and 0.4 ties 0.8, yet 0.0 sorts before 0.8. The comparator is not transitive, which the sort's contract forbids | ascending order of exact proximity | medium, not executed | `PeakTables.RoundedCompareNotTransitive` | `PeakTables.NearestMatchesCorrect` |
| Filter/src/main/java/peakaboo/filter/plugins/advanced/SpectrumNormalizationFilter.java:68 | range mode returns the data unnormalised when the 0-based end channel is `<= 0`. The validator already rejects an end channel below 1, so this fires only for a range ending at channel 1 | mode range, start 1, end 1, height 10, data [2.0, 4.0]: returned unchanged, so channel 1 stays 2.0 instead of becoming 10 | skip only a range ending before the first channel (`< 0`) and normalise the range of channel 1 alone | medium, not executed | `SpectrumNormalization.FirstChannelRangeUnchanged` | `SpectrumNormalization.FirstChannelRangeNormalized` |
