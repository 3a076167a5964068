# Pitgun experiment engine, catalog tooling and replay loader: a verified model

This project models the part of Pitgun that decides what is simulated, what is selected and what is
published, and proves what those decisions promise. It is written in Dafny; `dafny verify
dfyconfig.toml` checks all of it.

| module | subject |
|---|---|
| `Apportionment` | largest-remainder split of a development budget, and the equal-split fast form |
| `Triplets` | controlled budget triplets: the builder, and the separate checker of what it wrote |
| `Halton`, `HaltonBoxes` | the radical-inverse sampler, in one dimension and in several at once |
| `ThermalSearch`, `Anchors` | adaptive, refined and interpolated thermal parameter sets, and the choice of refinement anchors |
| `DriverProfiles` | sampled driver-control profiles and their two validators, rounding included |
| `Pareto` | dominance, the frontier and the retained sets |
| `TrackProfile`, `ElevationComparison` | circular smoothing, slopes, gain and loss; comparison of two elevation sources |
| `Resampling`, `Geometry` | piecewise-linear resampling, the request grid, and the geometry validator that guards it |
| `Screening` | probes on a thread pool, collected in any completion order, then sorted, summarized and ranked |
| `WinnerTables` | within-driver and global winner tables, and the two universal-winner checks |
| `CatalogFormat`, `CatalogSite`, `CatalogGenerator` | the digest chain of a catalog release: validator and generator |
| `Stints`, `Telemetry` | stint partition of a race; the canonical JSON-lines loader |
| `Results`, `Binary`, `Integers`, `Reals`, `Sums`, `Ordering`, `Filtering`, `Counting` | shared definitions and lemmas |

How the model reads the program:

- Floating-point numbers are `real`; `round(x, 8)` is round-half-even at eight decimals.
  Root mean squares and the correlation are stated by their squares, so no square root is needed.
- `sorted` and `list.sort` are one stable insertion sort. Loops that update variables are methods with
  loops; dictionaries are maps, `Counter` is a multiset, the files of the repository are a mutable map.
- A raised exception is an `Err` (or a listed issue); a contract of the form `r.Ok? <==> ...` states
  exactly when none is raised.
- The thread pool is a loop that completes any pending probe next; a directory listing is a loop that
  takes any remaining file next.
- JSON encoders, parsers and SHA-256 are function parameters. Where a theorem needs an encoder to be
  injective, a round trip to be lossless or a digest to be free of collisions, that is a named
  hypothesis of the lemma (`CanonicalInjective`, `CollisionFree`, `PrettyParses`, `Lossless`,
  `Fingerprints`, `PlainEncoder`).

Where a promise needs a condition, the condition is exact and can be read off the input:

- An opponent whose exact share is above 20 points on one axis can be built and is then refused by the
  checker (`Triplets.OneAxisOpponentRefused`). `Triplets.BuiltManifestPasses` says exactly which plans
  pass; a share between 20 and 21 still passes when enough axes outrank it (`Apportionment.WithinCapIff`).
- More budget can cost an axis a point, and never more than one (`Apportionment.BudgetNotMonotone`);
  `Apportionment.MoreBudgetFewerIff` says exactly when.
- The Pareto frontier is an antichain, and the least cover, exactly when every set dominated under its own
  id is also dominated under another id (`Pareto.FrontierAntichainIff`, `Pareto.FrontierLeastIff`).
  Distinct ids meet this; `Pareto.RepeatedIdDominated` is an input that does not.
- "No universal mode" implies "no universal driver and mode" for every driver id with the three modes the
  campaign runs. For arbitrary rosters it holds exactly when pairs that print alike as `driver:mode` have
  one mode (`WinnerTables.RosterExact`).
- A screening report exists exactly when its arguments are admissible, every probe succeeds and no
  candidate id is shared; a shared id doubles its surface and is refused (`Screening.BuildReport`).
- Every sampled driver profile passes its validator at every index exactly when the baseline error is at
  most 0.005 (`DriverProfiles.AllSamplesValidIff`).
- Interpolation divides by zero exactly when the first step of the distances is zero and the target is not
  beyond it, whatever the other distances are (`Resampling.InterpolationFailsIff`).

## Model

| member | source | states |
|---|---|---|
| `Apportionment.ProportionalPoints` | experiments/budget_effect_v2/build_campaign.py:71-87 | The loop returns the largest-remainder allocation, described without the loop: the budget is spent exactly, each axis gets the floor of its exact share or one more, and no axis is rounded up before one with a larger remainder or an equal remainder and smaller index. It fails exactly when the total weight is not positive. |
| `Apportionment.PriorityIndices` | experiments/budget_effect_v2/build_campaign.py:81-84 | The sort yields every axis once, in strict priority order. |
| `Apportionment.HamiltonUnique` | experiments/budget_effect_v2/build_campaign.py:71-87 | Exactly one allocation meets that description. |
| `Apportionment.HamiltonOptimal` | experiments/budget_effect_v2/build_campaign.py:71-87 | No integer allocation with the same sum has a smaller total absolute deviation from the exact proportional shares. |
| `Apportionment.LeftoverBalance` | experiments/budget_effect_v2/build_campaign.py:78-80 | The leftover count times the total weight is the sum of the remainders. |
| `Apportionment.LeftoverFits` | experiments/budget_effect_v2/build_campaign.py:80-86 | The leftover is not negative and, when positive, strictly below the number of axes with a nonzero remainder, so the slice of the order always suffices. |
| `Apportionment.ExactShareKept` | experiments/budget_effect_v2/build_campaign.py:78-87 | An axis with an integer share gets exactly that share; a zero-weight axis gets zero. |
| `Apportionment.RoundedUpIff` | experiments/budget_effect_v2/build_campaign.py:81-86 | An axis is rounded up if and only if fewer axes have priority over it than points are left over. |
| `Apportionment.WithinCapIff` | experiments/budget_effect_v2/build_campaign.py:71-87 | Closed form, for any cap, of when the rounded allocation of an axis stays within it. |
| `Apportionment.LargerWeightNoFewer` | experiments/budget_effect_v2/build_campaign.py:71-87 | A larger weight never gets fewer points. |
| `Apportionment.MoreBudgetFewerIff` | experiments/budget_effect_v2/build_campaign.py:71-87 | For a nonnegative weight, a larger budget costs the axis at most one point, and does so if and only if its whole share is unchanged, it was rounded up before and is outranked now. |
| `Apportionment.BudgetNotMonotone` | experiments/budget_effect_v2/build_campaign.py:71-87 | Weights 6, 6, 2, 0 give the third axis two points at budget 10 and one at budget 11. |
| `Apportionment.EqualWeightsClose` | experiments/budget_effect_v2/build_campaign.py:81-86 | Equal weights differ by at most one point, in favour of the earlier axis. |
| `Apportionment.ScaleInvariant` | experiments/budget_effect_v2/build_campaign.py:71-87 | Scaling all weights by a positive constant changes nothing. |
| `Apportionment.ReapportionFixed` | experiments/budget_effect_v2/build_campaign.py:71-87 | Apportioning an allocation at its own total returns it. |
| `Apportionment.EqualWeightsBalanced` | experiments/budget_effect_v2/build_campaign.py:63-87 | For equal positive weights the fast form is the largest-remainder allocation. |
| `Apportionment.BalancedTotal` | experiments/budget_effect_v2/build_campaign.py:63-68 | The balanced split spends the budget exactly, for any number of axes. |
| `Triplets.ControlledPlayer` | experiments/budget_effect_v2/build_campaign.py:90-94 | Finds the one player with id "player", and fails exactly when there is not exactly one such player. |
| `Triplets.TripletControlled` | experiments/budget_effect_v2/build_campaign.py:97-103 | All treatments of one base have one invariant projection; any two agree everywhere except the player's budget and four point fields. |
| `Triplets.PrepareBase` | experiments/budget_effect_v2/build_campaign.py:137-146 | Accepts exactly the sources with one player and nine opponents of positive weight; every opponent is then at the reference budget with its largest-remainder points and otherwise unchanged. |
| `Triplets.Treat` | experiments/budget_effect_v2/build_campaign.py:179-187 | With a controlled player and the digest of the base the guard never refuses; whatever it lets through is the base with the treated player and has the given digest. |
| `Triplets.RunKeyInjective` | experiments/budget_effect_v2/build_campaign.py:187-187 | Run keys determine triplet and treatment. |
| `Triplets.BuildRuns` | experiments/budget_effect_v2/build_campaign.py:165-211 | Succeeds exactly when every source builds, so the guard inside the triplet loop never fires; yields three runs per source in order, with one resource per run that no later one overwrites. |
| `Triplets.LoadSources` | experiments/budget_effect_v2/build_campaign.py:129-134 | Loads every source scenario, exactly when all recorded digests match and all bytes parse. |
| `Triplets.EconomyBackedMatrix` | experiments/budget_effect_v2/build_campaign.py:149-154 | Each row loses its player budget and gains its progression's reference; fails exactly on an unknown progression or a missing player budget. |
| `Triplets.BuildManifest` | experiments/budget_effect_v2/build_campaign.py:157-263 | Succeeds exactly on intact, buildable sources, a scenario directory without unplanned files and a usable matrix; leaves exactly the planned files and the header of the plan. Every run records, field by field, its stored source, treatment, budgets and digests, and its file holds the scenario made of that source: player and opponents as stated, all else unchanged. |
| `Triplets.CheckScenario` | experiments/budget_effect_v2/build_campaign.py:330-386 | Decides the per-run scenario demands: identities, player treatment, nine opponents with exact sums under the cap, invariant digest. |
| `Triplets.CheckCampaign` | experiments/budget_effect_v2/build_campaign.py:320-406 | Decides the demands on runs and triplets: counts, distinct keys matching the resources, every run, every triplet complete with one digest and three budgets. |
| `Triplets.ValidateManifest` | experiments/budget_effect_v2/build_campaign.py:266-406 | Decides the whole manifest: header, provenance, matrix, governance and the campaign. |
| `Triplets.TreatedPasses` | experiments/budget_effect_v2/build_campaign.py:165-187 | A built scenario passes the per-run tests if and only if its source names the catalog's model and data pack and no opponent axis is rounded above 20. |
| `Triplets.BuiltCampaignPasses` | experiments/budget_effect_v2/build_campaign.py:320-406 | The checker accepts the built runs if and only if every source fits, a condition on the source alone. |
| `Triplets.BuiltManifestPasses` | experiments/budget_effect_v2/build_campaign.py:409-416 | Building and then checking, as the command does, succeeds if and only if the planned count is met, the matrix has one row per progression and every source fits. |
| `Triplets.OneAxisOpponentRefused` | experiments/budget_effect_v2/build_campaign.py:373-382 | A built campaign with a late one-axis opponent is refused by the checker. |
| `Triplets.OneAxisBuildable` | experiments/budget_effect_v2/build_campaign.py:137-146 | Such a source exists: one player and nine one-axis opponents are buildable. |
| `Triplets.AcceptedTripletsExact` | experiments/budget_effect_v2/build_campaign.py:388-406 | In any accepted campaign, whoever wrote it, each triplet has exactly one run per treatment, although the checker only compares sets and counts. |
| `Triplets.AcceptedTripletControlled` | experiments/budget_effect_v2/build_campaign.py:383-402 | Any two runs of a triplet of an accepted campaign carry scenarios that differ in the player's balanced budget alone. |
| `Triplets.AcceptedTripletBudgets` | experiments/budget_effect_v2/build_campaign.py:388-406 | All runs of an accepted triplet have one progression and exactly its budgets, although the checker looks at the progression of the first run only. |
| `Triplets.AcceptedRunSound` | experiments/budget_effect_v2/build_campaign.py:325-387 | An accepted run has an intact file whose player and opponents carry exactly the recorded budgets, points and sums, none above 20. |
| `Triplets.AcceptedBudgetsDiffer` | experiments/budget_effect_v2/build_campaign.py:403-406 | Different runs of an accepted triplet have different player budgets. |
| `Triplets.AcceptedFiles` | experiments/budget_effect_v2/build_campaign.py:320-324 | An accepted campaign has the planned number of runs, one file per run and no key twice. |
| `Halton.Sample` | experiments/databricks/build_v3_driver_control_manifest.py:54-61 | The loop terminates on the shrinking index and computes the recursive radical inverse, in [0, 1). |
| `Halton.HaltonChecked` | experiments/racing_v3_thermal/screen_local.py:91-102 | The same, failing exactly for an index below 1 or a base below 2. |
| `Halton.InverseInUnit` | experiments/racing_v3_thermal/screen_local.py:91-102 | Every value lies in [0, 1). |
| `Halton.InCellIff` | experiments/racing_v3_thermal/screen_local.py:91-102 | A sample lies in [j/b^k, (j+1)/b^k) if and only if its k lowest digits, mirrored, spell j. |
| `Halton.UncellHits` | experiments/racing_v3_thermal/screen_local.py:91-102 | Mirroring j gives the residue modulo b^k of all indices that fall into cell j. |
| `Halton.SameCellCongruent` | experiments/racing_v3_thermal/screen_local.py:91-102 | Indices that share a cell are congruent modulo b^k. |
| `Halton.Stratified` | experiments/racing_v3_thermal/screen_local.py:91-102 | Among any b^k consecutive indices exactly one sample lies in each of the b^k cells, for every base and every k. |
| `Halton.SamplesDistinct` | experiments/racing_v3_thermal/screen_local.py:91-102 | No two indices give one value. |
| `HaltonBoxes.BoxesStratified` | experiments/racing_v3_thermal/screen_local.py:91-102 | In any number of dimensions with pairwise coprime bases, among as many consecutive indices as the grid has boxes exactly one index has all its samples in a given box. |
| `ThermalSearch.AdaptiveProfile` | experiments/racing_v3_thermal/screen_local.py:152-177 | Each active axis gets its own prime and its scaled sample, all else is unchanged, shape and knee width follow the next two dimensions; the prime table is never overrun. |
| `ThermalSearch.AdaptiveProfiles` | experiments/racing_v3_thermal/screen_local.py:146-184 | For any count, every sampled set is in range, with knee width 0 exactly for the linear shape and in [2, 20] otherwise; it holds every active axis, and is complete for interpolation exactly when every axis but static cooling, and the shape, is searched. |
| `ThermalSearch.AdaptiveDistinct` | experiments/racing_v3_thermal/screen_local.py:158-160 | Different sample indices never agree on an active axis. |
| `ThermalSearch.AdaptiveSetsDistinct` | experiments/racing_v3_thermal/screen_local.py:146-184 | No two adaptive sets coincide once a numeric axis is active. |
| `ThermalSearch.SearchFillsSpace` | experiments/racing_v3_thermal/screen_local.py:152-177 | The draws of the search over its prime table do so: every box of every such grid is drawn exactly once per period, in all dimensions together. |
| `ThermalSearch.AdaptiveFillsRanges` | experiments/racing_v3_thermal/screen_local.py:152-160 | Cut every active axis into equal parts, a power of its prime many: among as many consecutive samples as there are boxes exactly one has all its values in a given box. |
| `ThermalSearch.RefinedInRange` | experiments/racing_v3_thermal/screen_local.py:235-239 | A refined value is in its range, and within 12 percent of the range around an in-range centre. |
| `ThermalSearch.RefineProfile` | experiments/racing_v3_thermal/screen_local.py:228-273 | Refines each active axis of the anchor and toggles or keeps the shape; fails exactly when the anchor lacks an active axis. |
| `Anchors.AnchorsClosest` | experiments/racing_v3_thermal/screen_local.py:199-221 | Up to four healthy and four hot sets, none left out for one farther from its target, and some anchor whenever there is any aggregate. |
| `Anchors.AnchorsNearest` | experiments/racing_v3_thermal/screen_local.py:199-221 | In degrees: no set left out is closer to 120 than a healthy anchor, and none has fewer bad executions than a hot anchor, or as many and is closer to 150. |
| `Anchors.AnchorsOrderFree` | experiments/racing_v3_thermal/screen_local.py:199-221 | With distinct ids the anchors do not depend on the order of the aggregates. |
| `ThermalSearch.RefinementProfiles` | experiments/racing_v3_thermal/screen_local.py:187-282 | The chosen anchors are visited in turn and every refined set is in range again; fails exactly without aggregates or on a visited anchor that is unknown or lacks an active axis. |
| `ThermalSearch.AdaptiveAnchorsRefine` | experiments/racing_v3_thermal/screen_local.py:187-282 | On profiles that hold every active axis, as adaptive ones do, refinement never fails. |
| `ThermalSearch.InterpolateParameters` | experiments/databricks/build_v3_thermal_manifest.py:119-136 | The mix of two sets, with the shape of the nearer one; defined exactly when both hold the needed values. |
| `ThermalSearch.InterpolationInRange` | experiments/databricks/build_v3_thermal_manifest.py:119-136 | A mix of two in-range sets stays in every declared range. |
| `ThermalSearch.TransitionKnee` | experiments/databricks/build_v3_thermal_manifest.py:128-133 | At one and two thirds a surviving knee is in [4/3, 20], and below 2 exactly when the other set has no knee and the own knee is below 3. |
| `ThermalSearch.TransitionSets` | experiments/databricks/build_v3_thermal_manifest.py:139-161 | Eight steps, the j-th between healthy and hot anchor j/2 at the stated fraction; fails exactly on a wrong anchor count, an unknown anchor or a missing value. |
| `ThermalSearch.TransitionThirds` | experiments/databricks/build_v3_thermal_manifest.py:119-161 | Three times each value is two parts of the nearer anchor and one of the other, a missing static cooling counting as one; the shape is the nearer anchor's. |
| `ThermalSearch.TransitionInRange` | experiments/databricks/build_v3_thermal_manifest.py:139-161 | Every step between complete in-range sets is complete, in range, and has a knee exactly for the smooth shape. |
| `DriverProfiles.RoundError` | experiments/databricks/build_v3_driver_control_manifest.py:98-105 | Rounding moves a value by at most half of 1e-8. |
| `DriverProfiles.RoundMonotone` | experiments/databricks/build_v3_driver_control_manifest.py:98-105 | Rounding is monotone. |
| `DriverProfiles.RoundTies` | experiments/databricks/build_v3_driver_control_manifest.py:98-105 | A value halfway between two eight-decimal numbers goes to the even one. |
| `DriverProfiles.SampledProfile` | experiments/databricks/build_v3_driver_control_manifest.py:94-105 | Sampling and rounding field by field gives a profile that passes either validator exactly when base error plus its own gain is at most 0.25. |
| `DriverProfiles.SearchesGoverned` | experiments/databricks/build_v3_driver_control_manifest.py:94-105 | The sampled intervals of both manifests meet the bounds under which the following results are stated. |
| `DriverProfiles.ValidateControlProfile` | experiments/databricks/build_v3_driver_control_manifest.py:118-139 | The sequence of tests accepts exactly the profiles within all bounds. |
| `DriverProfiles.ValidateModeProfile` | experiments/databricks/build_v3_driver_mode_manifest.py:89-100 | The same for the mode manifest, which tests fewer fields. |
| `DriverProfiles.SampleValidIff` | experiments/databricks/build_v3_driver_control_manifest.py:84-139 | At every index, after rounding, the only check a sampled profile can fail is the combined control error, and it passes exactly when base error plus rounded gain is at most 0.25. |
| `DriverProfiles.GainReachesTop` | experiments/databricks/build_v3_driver_control_manifest.py:103-103 | Some index rounds the gain to the very end of its interval. |
| `DriverProfiles.AllSamplesValidIff` | experiments/databricks/build_v3_driver_mode_manifest.py:89-140 | All sampled profiles at all indices pass both validators if and only if the baseline error is at most 0.005. |
| `DriverProfiles.ParameterSets` | experiments/databricks/build_v3_driver_control_manifest.py:84-115 | Returns the baseline and one profile per index, exactly when the baseline and every combined error pass. |
| `Pareto.DominanceStrictPartialOrder` | experiments/racing_v3_thermal/screen_local.py:731-739 | Dominance is irreflexive, asymmetric and transitive. |
| `Pareto.DominanceMinimizes` | experiments/racing_v3_thermal/screen_local.py:731-739 | Dominance holds if and only if no objective is larger and their sum is smaller; lowering any one objective dominates. |
| `Pareto.ClassesPartition` | experiments/racing_v3_thermal/screen_local.py:743-757 | The three classes are a partition of all sets, with multiplicity. |
| `Pareto.ClassesAre` | experiments/racing_v3_thermal/screen_local.py:743-757 | Membership in each class, by executions and temperature. |
| `Pareto.FrontierMembers` | experiments/racing_v3_thermal/screen_local.py:752-767 | The frontier holds exactly the eligible sets that no eligible set of another id dominates. |
| `Pareto.FrontierCovers` | experiments/racing_v3_thermal/screen_local.py:742-794 | Every eligible set is on the frontier or dominated by a frontier member. |
| `Pareto.FrontierNoWorse` | experiments/racing_v3_thermal/screen_local.py:742-794 | Every eligible set has a frontier member no worse in time, derated fraction and cooling effect. |
| `Pareto.FrontierAntichainIff` | experiments/racing_v3_thermal/screen_local.py:742-794 | No frontier member dominates another if and only if every eligible set dominated under its own id is also dominated under another id. |
| `Pareto.RepeatedIdDominated` | experiments/racing_v3_thermal/screen_local.py:742-794 | An input with a repeated id whose frontier holds a dominated set. |
| `Pareto.DistinctIdsScreened` | experiments/racing_v3_thermal/screen_local.py:742-794 | Distinct ids meet that condition. |
| `Pareto.FrontierLeastIff` | experiments/racing_v3_thermal/screen_local.py:742-794 | Every covering selection contains the frontier if and only if the same condition holds. |
| `Pareto.FrontierRetained` | experiments/databricks/build_v3_thermal_manifest.py:98-116 | The retained sets are exactly the eligible ones in id order, and the frontier is sorted by id and contained in them. |
| `Pareto.FrontierOrderFree` | experiments/racing_v3_thermal/screen_local.py:742-794 | The members of the frontier never depend on the order of the aggregates, nor does its published order unless two different members share an id. |
| `TrackProfile.CircularMean` | experiments/racing_tracks/build_spa_elevation_prototype.py:116-124 | Defined exactly for at least two samples; keeps the length, closes exactly, and every value times the window size is the sum of the cyclic window around it. |
| `TrackProfile.CircularMeanLaws` | experiments/racing_tracks/build_spa_elevation_prototype.py:116-124 | The closed result keeps the sum of a lap and the bounds, enlarges no cyclic step limit, no total travel and no gain, and gains as much as it loses. |
| `TrackProfile.NeighbourMean` | experiments/racing_tracks/build_spa_elevation_prototype.py:116-130 | With radius one three times a value is the sum of the sample and its two cyclic neighbours. |
| `TrackProfile.SmoothConserves` | experiments/racing_tracks/build_spa_elevation_prototype.py:116-124 | The sum over one lap is preserved, for every radius and lap length, windows longer than the lap included. |
| `TrackProfile.SmoothWithin` | experiments/racing_tracks/build_spa_elevation_prototype.py:116-124 | Smoothing stays within the input's bounds. |
| `TrackProfile.SmoothContracts` | experiments/racing_tracks/build_spa_elevation_prototype.py:116-124 | The largest cyclic step never grows. |
| `TrackProfile.SmoothTravel` | experiments/racing_tracks/build_spa_elevation_prototype.py:116-124 | The total up-and-down travel of the lap never grows. |
| `TrackProfile.SmoothGain` | experiments/racing_tracks/build_spa_elevation_prototype.py:116-138 | On the smoothed loop total gain equals total loss, and does not exceed the raw gain. |
| `TrackProfile.NetClimb` | experiments/racing_tracks/build_spa_elevation_prototype.py:137-138 | Gain minus loss up to any sample is the height difference. |
| `TrackProfile.RiseTelescopes` | experiments/racing_tracks/build_spa_elevation_prototype.py:132-136 | Slope times spacing adds up to the height difference. |
| `TrackProfile.BuildProfile` | experiments/racing_tracks/build_spa_elevation_prototype.py:127-173 | Fails exactly on fewer than two points or equal neighbouring distances; otherwise each height is the mean of three samples, slopes span the heights, slope times spacing sums to zero, gain equals loss, their sum is the travel of the heights and at most that of the samples, and the closure error is zero. |
| `ElevationComparison.CompareShifted` | experiments/racing_tracks/compare_spa_elevation_sources.py:185-212 | How adding one constant per source changes every reported number, error cases included. |
| `ElevationComparison.DatumInvariance` | experiments/racing_tracks/compare_spa_elevation_sources.py:174-217 | A change of vertical datum of either source leaves correlation, bias-removed error, range difference and the verdict unchanged. |
| `ElevationComparison.ErrorDecomposition` | experiments/racing_tracks/compare_spa_elevation_sources.py:131-132 | Mean squared error is squared mean bias plus mean squared bias-removed error. |
| `ElevationComparison.CauchySchwarz` | experiments/racing_tracks/compare_spa_elevation_sources.py:135-146 | The squared correlation numerator never exceeds the squared denominator. |
| `ElevationComparison.CorrelationBounded` | experiments/racing_tracks/compare_spa_elevation_sources.py:135-146 | Whenever a comparison is produced the denominator is positive and the correlation lies in [-1, 1]. |
| `ElevationComparison.ComparisonMeans` | experiments/racing_tracks/compare_spa_elevation_sources.py:149-212 | A comparison exists exactly when the sources share a grid of distinct neighbours and neither smoothed profile is constant; then every reported number is the stated mean, sum, attained extreme, range difference, climb or steepest slope of the smoothed samples. |
| `ElevationComparison.CorroboratedMeans` | experiments/racing_tracks/compare_spa_elevation_sources.py:213-217 | For the two roots the original reports, the verdict is correlation numerator at least 0.98 of the denominator, error at most 5 and range difference within 10. |
| `Resampling.Interpolate` | experiments/racing_tracks/build_spa_elevation_prototype.py:37-45 | On any two lists the loop finds the first reaching sample and interpolates, with index error and division by zero as failures; on strictly increasing distances it never fails and equals the piecewise-linear curve. |
| `Resampling.InterpolationFailsIff` | experiments/racing_tracks/build_spa_elevation_prototype.py:37-45 | On lists of one length it fails if and only if the first two distances are equal and the target is not beyond them. |
| `Resampling.InterpolationKnot` | experiments/racing_tracks/build_spa_elevation_prototype.py:37-45 | The curve passes through every sample. |
| `Resampling.InterpolationBetween` | experiments/racing_tracks/build_spa_elevation_prototype.py:37-45 | Inside the sampled range the value lies between the two bracketing samples. |
| `Resampling.InterpolationFloor` | experiments/racing_tracks/build_spa_elevation_prototype.py:37-45 | A nonpositive lower slope bound of every segment holds for the whole curve, across segments. |
| `Resampling.InterpolationMonotone` | experiments/racing_tracks/build_spa_elevation_prototype.py:37-45 | Monotone data give a monotone curve. |
| `Resampling.InterpolationLipschitz` | experiments/racing_tracks/build_spa_elevation_prototype.py:37-45 | Any Lipschitz bound of the samples holds for the whole curve. |
| `Resampling.GridCovers` | experiments/racing_tracks/build_spa_elevation_prototype.py:59-61 | The request grid exists exactly for nonnegative lengths, and then holds the multiples of 25 in strict order from 0, ends at the length and has no gap above 25. |
| `Resampling.RequestedPoints` | experiments/racing_tracks/build_spa_elevation_prototype.py:56-70 | One projected sample per grid distance, the last position replaced by the first; succeeds exactly when there is a nonnegative length and every grid distance can be interpolated. |
| `Resampling.SamplableIff` | experiments/racing_tracks/build_spa_elevation_prototype.py:56-70 | On channels of one length that is exactly when the first step is not zero or lies before the origin. |
| `Geometry.ValidateGeometry` | experiments/racing_tracks/audit_catalog_geometry.py:88-216 | The issues are listed in the original order and number, early returns included; an issue is listed if and only if its condition on the data holds, and no error is listed if and only if the track is sound. |
| `Geometry.SoundTrackResamples` | experiments/racing_tracks/audit_catalog_geometry.py:139-158 | A track without errors meets everything the resampler demands. |
| `WinnerTables.GroupRows` | experiments/racing_v3_driver_control/review_v11_shortlist.py:64-75 | Both dictionaries split exactly the full-factorial rows by their keys. |
| `WinnerTables.CountDriverWinners` | experiments/racing_v3_driver_control/review_v11_shortlist.py:77-84 | Each counter holds every mode as often as a group is won with it, in total, per horizon and per driver. |
| `WinnerTables.CountGlobalWinners` | experiments/racing_v3_driver_control/screen_local.py:403-417 | The counters hold the outright winners of the contexts, by printed pair and by mode. |
| `WinnerTables.WinnerCounts` | experiments/racing_v3_driver_control/review_v11_shortlist.py:63-107 | The tables are those of the set of full-factorial rows. |
| `WinnerTables.TablesMean` | experiments/racing_v3_driver_control/review_v11_shortlist.py:77-107 | Every number of the report counts the groups or contexts whose fastest row, ties resolved by the stated names, has that mode, horizon, driver or printed pair. |
| `WinnerTables.TablesOrderFree` | experiments/racing_v3_driver_control/review_v11_shortlist.py:63-107 | No permutation of the rows changes any table. |
| `WinnerTables.Marginals` | experiments/racing_v3_driver_control/review_v11_shortlist.py:77-107 | For every mode the counts over all drivers, and over all horizons, add up to the mode's total; all three tables have as many entries as there are groups, and the global table as many as there are contexts. |
| `WinnerTables.GlobalWinnerWinsOwnGroup` | experiments/racing_v3_driver_control/review_v11_shortlist.py:80-91 | A global winner is its own driver's winner in that context, ties included. |
| `WinnerTables.GlobalWinsBounded` | experiments/racing_v3_driver_control/review_v11_shortlist.py:63-107 | The global wins of a driver and mode never exceed that driver's own wins with the mode. |
| `WinnerTables.GlobalTableCounts` | experiments/racing_v3_driver_control/review_v11_shortlist.py:86-92 | The printed global table counts exactly those wins when driver ids, or modes, hold no colon. |
| `WinnerTables.PairKeyInjective` | experiments/racing_v3_driver_control/review_v11_shortlist.py:92-92 | The printed key determines the pair when driver ids hold no colon, and also when modes hold none. |
| `WinnerTables.UniversalWinnerChecks` | experiments/racing_v3_driver_control/screen_local.py:486-495 | Both checks decide whether some counter reaches the scenario count; with the campaign's three modes, and whenever keys tell modes, a passing mode check implies a passing pair check. |
| `WinnerTables.NoUniversalModeImpliesPair` | experiments/racing_v3_driver_control/screen_local.py:486-495 | If no mode wins everywhere, no driver and mode pair does, whenever pairs that print alike have one mode. |
| `WinnerTables.PlainRosters` | experiments/racing_v3_driver_control/screen_local.py:37-37 | That holds when driver ids, or modes, hold no colon. |
| `WinnerTables.RosterExact` | experiments/racing_v3_driver_control/screen_local.py:403-417 | For any roster of pairs, the implication holds on all rows drawn from it if and only if pairs that print alike have one mode. |
| `Screening.CollectPoints` | experiments/racing_response/coefficient_screening.py:306-348 | For every completion order the sorted points are those of the plan run in sequence; fails exactly when a planned probe fails. |
| `Screening.ScheduleFree` | experiments/racing_response/coefficient_screening.py:328-348 | For every candidate list, any permutation of the completed work sorts to the same points. |
| `Screening.OwnResponse` | experiments/racing_response/coefficient_screening.py:288-292 | With distinct ids every probe sees its own candidate's response file, although later files overwrite earlier ones of the same id. |
| `Screening.SharedIdRefused` | experiments/racing_response/coefficient_screening.py:181-184 | A candidate whose id another one shares is always refused as an incomplete surface, under every schedule. |
| `Screening.CircuitComplete` | experiments/racing_response/coefficient_screening.py:187-235 | On a complete surface the summary is never missing a point, and reports the least time, downforce and gearing over the whole grid, whether that downforce is an end of the scale, and how many of the four physical promises the probes break. |
| `Screening.CandidateComplete` | experiments/racing_response/coefficient_screening.py:178-268 | A complete run never reports an incomplete surface; failures are the broken promises of all circuits, and a candidate is eligible if and only if none is broken, some optimum is inside the scale, the optima differ pairwise and two of them lie 0.25 apart. |
| `Screening.BuildReport` | experiments/racing_response/coefficient_screening.py:271-361 | A report is produced exactly when seed, worker count and level count are admissible, every probe succeeds and no id is shared, and satisfies a description that mentions no schedule. |
| `Screening.ReportUnique` | experiments/racing_response/coefficient_screening.py:341-361 | Only one report satisfies that description: points, summaries and ranks are confluent. |
| `Screening.RankingSound` | experiments/racing_response/coefficient_screening.py:349-361 | The ranking holds every candidate once, assessed as above, ordered by eligibility, failures, variety, boundary optima, spread and id. |
| `CatalogFormat.VersionNames` | scripts/build-catalog-site.py:61-63 | Release names are exactly v and three decimal numerals with dots between them, and the version key is those numbers. |
| `CatalogSite.ValidateRelease` | scripts/build-catalog-site.py:58-130 | Succeeds exactly on releases whose identity, manifest, pack indexes and resource bytes agree; the pointer carries schema, id, version, both paths and the manifest's digest. |
| `CatalogSite.DigestBinding` | scripts/build-catalog-site.py:71-114 | Two accepted releases with one manifest digest have one domain and name, equal manifests, equal pack indexes and identical bytes at every listed resource path. |
| `CatalogSite.TamperedResourceRefused` | scripts/build-catalog-site.py:107-114 | Changing one listed resource of an accepted release in place makes the validator refuse it. |
| `CatalogGenerator.SimulationResources` | scripts/generate-racing-catalog.py:97-124 | For every listing order the index holds each resource file once, in id order; fails exactly when there is no file or two files share an id. |
| `CatalogGenerator.IndexedUnique` | scripts/generate-racing-catalog.py:117-124 | The index is a function of the files alone. |
| `CatalogGenerator.ResourceIdOf` | scripts/generate-racing-catalog.py:101-108 | The id of simulation/category/stem.json, for every category and stem. |
| `CatalogGenerator.IndexComplete` | scripts/generate-racing-catalog.py:97-124 | The index lists a path if and only if it is a resource file of the release, with its id and digest. |
| `CatalogGenerator.GenerateRelease` | scripts/generate-racing-catalog.py:213-295 | Succeeds exactly on governed, indexable releases with the supported presentation schema and accepted content, and depends on the input files only. |
| `CatalogGenerator.OutputsAreNotInputs` | scripts/generate-racing-catalog.py:223-226 | No generated path is one the generator reads. |
| `CatalogGenerator.GeneratedReleaseValid` | scripts/generate-racing-catalog.py:241-295 | A tree that carries its generated files passes the independent validator. |
| `CatalogGenerator.ManifestContents` | scripts/generate-racing-catalog.py:243-283 | The fields of the manifest that the validator does not read: schemas, pack ids and versions, contract and model versions. |
| `CatalogGenerator.GenerateArtifacts` | scripts/generate-racing-catalog.py:324-345 | The artifacts are three files per release and the six embedded tables; fails exactly when a release, LATEST or a table source is not acceptable. |
| `CatalogGenerator.SelectedMeans` | scripts/generate-racing-catalog.py:89-94 | The selected release is the existing one that LATEST names. |
| `CatalogGenerator.EntryNames` | scripts/generate-racing-catalog.py:306-318 | An embedded entry names the path below the pack and includes the file of its release. |
| `CatalogGenerator.ArtifactsUnique` | scripts/generate-racing-catalog.py:324-345 | A repository state has one artifact map. |
| `CatalogGenerator.GenerationFixpoint` | scripts/generate-racing-catalog.py:324-379 | The artifacts of the written state are the artifacts that were written. |
| `CatalogGenerator.ProducerMeetsChecker` | scripts/generate-racing-catalog.py:213-295 | After writing, every release of the repository passes the independent validator. |
| `CatalogGenerator.CheckedStateValid` | scripts/generate-racing-catalog.py:357-379 | A state in which the check finds nothing stale is valid as it stands. |
| `CatalogGenerator.Repository.Generate` | scripts/generate-racing-catalog.py:348-379 | Writing adds exactly the artifacts, checking names exactly the missing or different ones and changes nothing, and a refused state is left alone. |
| `CatalogGenerator.Repository.GenerateThenCheck` | scripts/generate-racing-catalog.py:348-379 | An immediate check after writing reports nothing stale, and every release is then valid. |
| `Stints.ExplicitStintStrategy` | experiments/racing_v3_validation/validate_local.py:112-121 | The pit laps are the cumulative lap counts before every stint but the first. |
| `Stints.PitLapsInside` | experiments/racing_v3_validation/validate_local.py:112-121 | For positive stints the pit laps rise strictly inside the race. |
| `Stints.StintPaceSummary` | experiments/racing_v3_validation/validate_local.py:256-281 | One entry per stint, computed from the clean laps between consecutive boundaries. |
| `Stints.SlicesPartition` | experiments/racing_v3_validation/validate_local.py:256-281 | The stint slices, joined in order, are the laps of the race. |
| `Stints.CleanCounts` | experiments/racing_v3_validation/validate_local.py:256-281 | The clean laps of an entry are the declared ones, and their counts give back the stint lengths, the first less one. |
| `Stints.StrategyPace` | experiments/racing_v3_validation/validate_local.py:112-281 | From strategy to summary: entry k is the pace over exactly the laps declared for stint k, and all laps but the opening one are counted. |
| `Stints.DriftOffsetFree` | experiments/racing_v3_validation/validate_local.py:264-280 | Adding a constant to all laps moves both window medians by it and leaves count and drift unchanged. |
| `Stints.SteadyDrift` | experiments/racing_v3_validation/validate_local.py:264-280 | Laps that each lose the same time drift by that time for every lap between the two windows. |
| `Stints.MedianOrderFree` | experiments/racing_v3_validation/validate_local.py:271-272 | The window median does not depend on the order of its laps. |
| `Telemetry.ParseCanonical` | apps/pitgun-cli/src/replay.rs:211-225 | Accepts exactly the bytes that parse to a value whose canonical encoding they are. |
| `Telemetry.LoadTelemetry` | apps/pitgun-cli/src/replay.rs:241-256 | Returns the records of the lines in order, and fails only when no list of records could be returned. |
| `Telemetry.RenderLines` | apps/pitgun-cli/src/replay.rs:241-256 | Splitting a terminated text and writing it out again is the identity. |
| `Telemetry.LinesRender` | apps/pitgun-cli/src/replay.rs:241-256 | Writing lines with LF or CRLF and splitting again is the identity. |
| `Telemetry.AcceptsExactly` | apps/pitgun-cli/src/replay.rs:241-256 | The accepted streams are exactly the concatenations of canonical records each ended by LF or one CRLF. |
| `Telemetry.RecordsDetermined` | apps/pitgun-cli/src/replay.rs:241-256 | One byte stream carries one list of records. |

## Left out

- The physics solver, race simulator, policy engine, runtime contracts and gateway: a probe is any function of its inputs.
- IEEE 754 rounding, infinities and NaN, except as the "not finite" samples of `Geometry`; the square roots of error and correlation; the WGS84 trigonometry, which is the `project` parameter of `Resampling.RequestedPoints`.
- JSON text, UTF-8 and SHA-256: function parameters with named hypotheses. JSON objects are maps, so the field order of pretty text is not modelled.
- Network access, retries, subprocesses, command-line parsing, printing, and the copying of the published site.
- Path normalisation (`..`, absolute paths, directories) in index and resource paths: a path is its text, and the empty path names no file.
- Fixed campaign sizes (45 triplets, 135 runs, 15 retained sets, 32 or 64 samples, circuit lists): loops are stated for any number. The checksum and pair count of the source campaign are not modelled.
- Triplets.ValidateManifest: nested constant header blocks are one text each and the fixed counts are a parameter, because they only add comparisons with constants.
- Triplets.BuildManifest: takes the stored sources in key order with distinct keys, as the dictionary of the original provides them; files written before a failure are not modelled.
- CatalogGenerator.GenerateRelease: the content rules for pack boundaries and opponent policies are one arbitrary test of the input files, so the theorems hold for every such rule.
- Geometry.ValidateGeometry: issue messages are left out.
- One-at-a-time activation profiles, narrative verdicts and threshold tests on probe outputs: single branches over data from other code.
