# GPX-Scaler, modelled in Dafny

GPX-Scaler rewrites cycling routes stored as GPX files. It gives a route a new start point and
multiplies the route's distances and climbs. It can also stamp every point with the time a rider
of a given power and weight would need to reach it.

This project models the logic of GPX-Scaler over exact `real` arithmetic and proves properties of
that model. It covers:

- the command-line scaler `gpxscaler.py`:
  - how a scale is chosen under a minimum-distance floor and a maximum-ascent cap;
  - the point-by-point walk that moves and stretches each segment;
  - the speed and duration model;
  - the two timing passes;
  - the configuration file;
  - output file names;
  - the interactive removal of old files.
- the web front end (`webapp/app.py`, `webapp/utils/gpx_integration.py`):
  - the route preview and the scaled preview;
  - the batch progress record and the progress stream;
  - the hourly expiry of uploads and outputs.
- the two elevation scripts `elevation_analysis.py` and `debug_elevation.py`.

Some operations are functions of the geometry that the model does not compute. These are:

- great-circle distance;
- bearing;
- the destination point.

Each one is a function-typed parameter. The only assumption kept about distance is that it is
never negative (`GpxModel.DistanceFn`). The assumption that links the three (`GpxModel.Consistent`)
is used only by the length-scaling lemmas.

Python exceptions that the code can raise become `Err` values of `Wrappers.Result`. These are
`ZeroDivisionError`, `ValueError` and `TypeError`.

Objects that the source updates in place are modelled as follows:

- The parsed GPX document is the class `GpxModel.Gpx`, whose `tracks` and `routes` the methods reassign.
- The web server's three dictionaries are the fields of `BatchProgress.AppState`.
- The in-place point walks work on an `array`.

Each such method is proved against a function that specifies it.

Modules, one per file:

| file | module | what it holds |
|---|---|---|
| wrappers.dfy | Wrappers | Option, Result, the Python exception kinds |
| gpxmodel.dfy | GpxModel | points, tracks, routes, the document object, leg lengths |
| realseq.dfy | RealSeq | min, max, sum and scaling of real sequences |
| text.dfy | Text | digits, decimal strings, strip, lower/upper case, split/join |
| scale_rules.dfy | ScaleRules | the minimum-distance and maximum-ascent scale rules |
| speed_model.dfy | SpeedModel | cycling speed bands, the Newton speed solver, the duration estimate |
| walk.dfy | PointWalk | a generic walk that rewrites each point from its predecessor |
| scale_walk.dfy | ScaleWalk | the walk of scale_gpx_file: new start, scaled legs and climbs |
| gpx_scaling.dfy | GpxScaling | the whole of scale_gpx_file on a document |
| timing.dfy | Timing | add_timing_data_to_gpx and the route-to-track conversion |
| original_timing.dfy | OriginalTiming | add_timing_data_based_on_original |
| scaler_config.dfy | ScalerConfig | load_config and save_config |
| file_names.dfy | FileNames | stage numbers, base and display names, output file names |
| file_selection.dfy | FileSelection | the "1,3,5-7" selection parser |
| file_removal.dfy | FileRemoval | which old files are removed, and in which order |
| route_preview.dfy | RoutePreview | the web preview: profile, ascent, bounds, scaled preview |
| batch_progress.dfy | BatchProgress | the batch progress record, progress stream and expiry |
| elevation_stats.dfy | ElevationStats | the two elevation scripts |

## Model

| member | source | states |
|---|---|---|
| GpxModel.PointDistance | gpxscaler.py:161-174 | the distance between two points is never negative |
| GpxModel.Legs | gpxscaler.py:792-797 | one leg per pair of consecutive points, each leg the distance between that pair |
| GpxModel.AllSegmentsSnoc | gpxscaler.py:334-338 | the segments of a list of tracks are those of its prefix followed by those of its last track |
| GpxModel.Gpx.constructor | gpxscaler.py:723-724 | the document object holds exactly the parsed tracks and routes |
| RealSeq.Min | webapp/app.py:122-126 | the minimum is at most every element and is one of them |
| RealSeq.Max | webapp/app.py:122-126 | the maximum is at least every element and is one of them |
| RealSeq.MinLeMax | elevation_analysis.py:78-83 | the minimum of the collected elevations is at most their maximum, 0 and 0 when there are none |
| RealSeq.Scaled | webapp/app.py:255-256 | the elementwise product keeps the length, and each entry is the original times the factor |
| RealSeq.SumScale | gpxscaler.py:792-811 | multiplying every entry by a factor multiplies the sum by it |
| Text.DigitChar | gpxscaler.py:905-907 | a digit value below 10 maps to a digit character whose value it is |
| Text.NatToString | gpxscaler.py:907 | the decimal form of a number is a non-empty string of digits |
| Text.DigitsValueOfNatToString | gpxscaler.py:102-103 | reading back the decimal form of n gives n |
| Text.Lower | gpxscaler.py:101 | lower-casing keeps the length and maps each character |
| Text.Upper | webapp/app.py:425 | upper-casing keeps the length and maps each character |
| Text.LowerPreservesDigits | gpxscaler.py:101 | lower-casing neither creates nor removes a digit |
| Text.SpacesOfStrip | gpxscaler.py:1014 | the space, tab, newline, no-break space and ideographic space are whitespace; letters, digits, '_' and the zero-width space are not |
| Text.StripLeft | gpxscaler.py:1014 | the result is a suffix of the input, starts with a non-whitespace character, and only whitespace (as `str.isspace` defines it) was dropped |
| Text.LeadingSpaces | gpxscaler.py:1014 | the number of leading whitespace characters: all of them whitespace, and the next one not |
| Text.StripRight | gpxscaler.py:1014 | the result is a prefix of the input, ends with a non-whitespace character, and only whitespace was dropped |
| Text.Strip | gpxscaler.py:1033 | the result is the slice of the input after its leading whitespace, followed only by whitespace, and it is empty or starts and ends with a non-whitespace character |
| Text.StripNoSpace | gpxscaler.py:1033 | stripping a string without whitespace leaves it unchanged |
| Text.IndexOf | gpxscaler.py:1032 | the first occurrence of the separator, or the length when there is none |
| Text.Split | gpxscaler.py:1032 | splitting gives at least one part, and no part contains the separator |
| Text.SplitAtFirst | gpxscaler.py:1032 | splitting cuts at the first separator and splits the rest |
| Text.JoinCons | gpxscaler.py:1032 | joining a part in front of other parts puts the separator between them |
| Text.JoinSplit | gpxscaler.py:1032 | joining the parts of a split gives back the string |
| Text.SplitWithoutSeparator | gpxscaler.py:1032 | a string without the separator splits into itself alone |
| Text.IndexOfAfter | gpxscaler.py:1032 | the first separator of `a + sep + b` is at the end of a when a has none |
| Text.SplitCons | gpxscaler.py:1032 | a separator-free part in front splits off as the first part |
| Text.SplitJoin | gpxscaler.py:1032 | splitting a join of separator-free parts gives back the parts |
| Text.SplitJoinedPair | gpxscaler.py:1035 | `a-b` with neither side holding '-' splits into exactly a and b |
| ScaleRules.AdjustedScale | gpxscaler.py:636-649 | the desired scale without a floor or when it already meets it; ZeroDivisionError exactly when the floor is positive and the original distance is 0; otherwise the scale that meets the floor exactly |
| ScaleRules.AdjustedScaleMeetsFloor | gpxscaler.py:643-649 | for a positive original distance the scaled distance reaches the floor; when the desired scale falls short the result is larger and lands exactly on the floor |
| ScaleRules.AdjustedScaleIdempotent | gpxscaler.py:636-649 | applying the rule to its own result changes nothing |
| ScaleRules.ElevationScale | gpxscaler.py:651-664 | the distance scale unless the scaled ascent exceeds the cap; ZeroDivisionError exactly for zero ascent under a negative cap; a successful capped result never exceeds the cap |
| ScaleRules.FlatRouteKeepsDistanceScale | gpxscaler.py:658-659 | a route without ascent keeps the distance scale under any non-negative cap |
| ScaleRules.ElevationScaleCaps | gpxscaler.py:660-664 | when the scaled ascent exceeds the cap, the result is strictly below the distance scale and lands exactly on the cap |
| ScaleRules.ElevationScaleIdempotent | gpxscaler.py:651-664 | applying the rule to its own result changes nothing |
| ScaleRules.MinimumDistanceExample | gpxscaler.py:636-649 | a 10 km route at scale 0.5 under an 8 km floor gets scale 0.8 |
| SpeedModel.SpeedFactor | gpxscaler.py:211-228 | the speed factor lies between 8.5 and 16 |
| SpeedModel.SpeedFactorBands | gpxscaler.py:211-228 | the factor of each power-to-weight band: above 4.0, 3.0, 2.2, 1.6 and 1.2, and at most 1.2 |
| SpeedModel.GradientAdjustment | gpxscaler.py:233-241 | the adjustment is 1 minus the scaled gradient, clamped to [0.3, 1.8], both clamps stated |
| SpeedModel.CyclingSpeed | gpxscaler.py:189-244 | the speed is at least 3.0 m/s and is either 3.0 or the adjusted speed |
| SpeedModel.NoGradientWithoutDistance | gpxscaler.py:232-243 | for a non-positive distance the elevation change is ignored: the speed is the floored base speed |
| SpeedModel.SteeperIsNotFaster | gpxscaler.py:233-244 | for a positive distance and grade factor, more climb never gives more speed |
| SpeedModel.CyclingSpeedIsFloored | gpxscaler.py:244 | the speed is the larger of 3.0 and the adjusted speed |
| SpeedModel.AdjustmentMonotone | gpxscaler.py:233-241 | the clamped adjustment does not increase with the elevation change |
| SpeedModel.NewtonStep | gpxscaler.py:61-69 | a successful Newton update is clamped to at least 1 |
| SpeedModel.NewtonIterate | gpxscaler.py:60-69 | after at least one successful update the speed is at least 1 |
| SpeedModel.EstimateSpeedPhysics | gpxscaler.py:55-70 | the loop makes exactly ten updates from 8.0 with no early exit, and a result is at least 1 |
| SpeedModel.NewtonNeverFails | gpxscaler.py:61-69 | for non-negative mass, gradient, rolling resistance and wind, and positive drag, the derivative never vanishes |
| SpeedModel.SegmentSeconds | gpxscaler.py:81-92 | a segment of positive length takes a positive time |
| SpeedModel.CyclingTimeHours | gpxscaler.py:72-97 | a successful duration estimate is never negative |
| SpeedModel.EstimateCyclingTimePhysics | gpxscaler.py:72-97 | the method computes the duration estimate, which is never negative |
| SpeedModel.AscentGradientIsOne | gpxscaler.py:80-83 | the ascent gradient ascent/((ascent/1000)·1000) is exactly 1 |
| SpeedModel.CyclingTimeSucceeds | gpxscaler.py:72-97 | for a non-negative weight the estimate never divides by zero |
| SpeedModel.ShortSteepRouteHasNoFlatTime | gpxscaler.py:76-97 | when the ascent distance covers the whole route only the ascent segment counts |
| SpeedModel.FlatRouteTime | gpxscaler.py:76-97 | without ascent the time is that of the flat segment alone, 0 for a non-positive distance |
| PointWalk.Walk | gpxscaler.py:785-821 | the walk keeps the point count and puts the given first point first |
| PointWalk.WalkPrefix | gpxscaler.py:800-821 | a prefix of the walk is the walk of the prefix |
| PointWalk.WalkStep | gpxscaler.py:800-821 | each later point is the step from the previous new point and the two original points |
| PointWalk.WalkTimes | gpxscaler.py:783-821 | a walk whose step keeps times keeps every point's time |
| PointWalk.WalkElevationsAt | gpxscaler.py:786-821 | a walk whose step keeps elevations gives each point an elevation |
| PointWalk.WalkElevations | gpxscaler.py:786-821 | a walk whose step keeps elevations gives every point an elevation |
| PointWalk.ClimbedScaled | gpxscaler.py:813-818 | the scaled climbs to point i add up to the original climb from point 0 times the factor |
| PointWalk.WalkElevationAt | gpxscaler.py:786-821 | point i's elevation is the first elevation plus the scaled climbs up to i |
| PointWalk.WalkElevationLinear | gpxscaler.py:786-821 | point i's elevation is the base plus the original climb from point 0 times the elevation scale |
| PointWalk.WalkElevation | gpxscaler.py:786-821 | every point's elevation is the first elevation plus the scaled climbs up to it |
| PointWalk.WalkElevationGap | gpxscaler.py:819-821 | where either original elevation is missing the point keeps the previous new elevation |
| PointWalk.LegScaleAt | gpxscaler.py:796-801 | a leg scaled by k is the original leg times k |
| PointWalk.LegsScale | gpxscaler.py:796-801 | legs that are each scaled by k form the original legs scaled by k |
| PointWalk.PathLengthScale | gpxscaler.py:796-801 | legs scaled by k give a path length scaled by k |
| PointWalk.WalkLegAt | gpxscaler.py:792-811 | a walk whose step scales legs makes leg i the original leg i times k |
| PointWalk.WalkLegs | gpxscaler.py:792-811 | a walk whose step scales legs scales every leg by k |
| PointWalk.WalkLength | gpxscaler.py:792-811 | a walk whose step scales legs scales the path length by k |
| ScaleWalk.FileScales | gpxscaler.py:727-739 | without statistics, or with neither a floor nor a cap, both scales are the scale factor; with statistics a positive distance meets the floor and the ascent never exceeds the cap; no floor keeps the scale factor, and no cap makes the elevation scale the distance scale |
| ScaleWalk.AdjustedFloorHolds | gpxscaler.py:736 | a successful floor rule on a route of positive length reaches the floor |
| ScaleWalk.FirstPointOf | gpxscaler.py:747-760 | the first point of the first non-empty list, and None exactly when every list is empty |
| ScaleWalk.RoutePoints | gpxscaler.py:757-760 | the point lists of the routes, one per route |
| ScaleWalk.BaseElevation | gpxscaler.py:767-774 | the given starting elevation, else the first point's elevation, else 0 |
| ScaleWalk.ScaledPoints | gpxscaler.py:778-821 | a segment keeps its point count; under two points it is untouched; otherwise its first point is the new start at the base elevation with its time kept |
| ScaleWalk.StepKeepsTime | gpxscaler.py:809-821 | the scaler's step leaves the time alone |
| ScaleWalk.StepKeepsElevation | gpxscaler.py:813-821 | the scaler's step never drops an elevation |
| ScaleWalk.StepHoldsElevation | gpxscaler.py:819-821 | the scaler's step holds the elevation across a gap |
| ScaleWalk.StepScalesClimbs | gpxscaler.py:813-818 | the scaler's step adds the original climb times the elevation scale |
| ScaleWalk.StepLength | gpxscaler.py:792-811 | the new leg is the original leg times the distance scale |
| ScaleWalk.StepScalesLegs | gpxscaler.py:792-811 | the scaler's step scales every leg by the distance scale |
| ScaleWalk.ScaledPointsTimes | gpxscaler.py:778-821 | every rewritten point keeps its time |
| ScaleWalk.ScaledPointsHaveElevations | gpxscaler.py:786-821 | every point of a rewritten segment of two or more points has an elevation |
| ScaleWalk.ScaledPointsLength | gpxscaler.py:778-821 | under a consistent geometry and a non-negative distance scale, a rewritten segment's path length is the original's times the distance scale |
| ScaleWalk.WalkedLength | gpxscaler.py:792-811 | the walk's path length is the original's times the distance scale |
| ScaleWalk.ShortPathLength | gpxscaler.py:779-780 | a segment of under two points has length 0 |
| ScaleWalk.ScaledElevationAt | gpxscaler.py:786-817 | with every original elevation present, point i of a rewritten segment sits at the base plus the original climb from point 0 times the elevation scale |
| ScaleWalk.ScalerWalkElevation | gpxscaler.py:786-817 | the same for the bare walk from a first point at the base elevation |
| ScaleWalk.ScaledPointsElevation | gpxscaler.py:786-817 | with all elevations present, every point sits at the base plus the scaled original climb |
| ScaleWalk.ScaledPointsElevationGap | gpxscaler.py:819-821 | a point next to a missing original elevation keeps the previous new elevation |
| ScaleWalk.UnitElevationScaleKeepsElevations | gpxscaler.py:767-817 | elevation scale 1 from the original base reproduces the original elevations |
| ScaleWalk.ScalePointsInPlace | gpxscaler.py:778-821 | rewriting a segment's points in place leaves exactly the rewritten segment |
| GpxScaling.ScaledLists | gpxscaler.py:777-821 | each point list is replaced by its rewrite, and the count is kept |
| GpxScaling.ScaledTracks | gpxscaler.py:777-821 | each track keeps its name and segment count, and each segment is rewritten |
| GpxScaling.ScaledRoutes | gpxscaler.py:824-873 | each route keeps its name, and its points are rewritten |
| GpxScaling.RewriteShape | gpxscaler.py:778-789 | the rewrite keeps the count, leaves short lists alone, and starts long ones at the new start and base |
| GpxScaling.RewriteScalesLengths | gpxscaler.py:792-811 | the rewrite scales every list's path length by the distance scale |
| GpxScaling.ScaledDocumentLengths | gpxscaler.py:777-873 | every segment and every route of the document is scaled in length |
| GpxScaling.ScaleList | gpxscaler.py:778-821 | the method computes the rewritten point list |
| GpxScaling.ScaleSegments | gpxscaler.py:778-821 | the method rewrites every segment of a track |
| GpxScaling.ScaleTracks | gpxscaler.py:777-821 | the method replaces the tracks by their rewrites and leaves the routes alone |
| GpxScaling.ScaleRoutes | gpxscaler.py:824-873 | the method replaces the routes by their rewrites and leaves the tracks alone |
| GpxScaling.RenamedTracks | gpxscaler.py:917-920 | every track takes the display name and keeps its segments |
| GpxScaling.RenameTracks | gpxscaler.py:917-920 | the method renames every track and leaves the routes alone |
| GpxScaling.RewriteGpx | gpxscaler.py:727-873 | the method fails exactly when scale selection or the first point fails; otherwise it leaves the rewritten document and reports its scales |
| GpxScaling.ScaleGpxFile | gpxscaler.py:715-971 | the method fails exactly when the whole scaling fails; otherwise it leaves the scaled document and returns the output name |
| GpxScaling.RewriteKeepsCounts | gpxscaler.py:778-821 | the rewrite never changes a list's length |
| GpxScaling.ScaledDocumentLegs | gpxscaler.py:777-873 | the scaled document has a leg exactly when the original has one, and as many non-empty routes |
| GpxScaling.ScaledRoutesCount | gpxscaler.py:824-873 | scaling keeps the number of non-empty routes |
| GpxScaling.ScaledFileFails | gpxscaler.py:715-971 | scaling fails exactly on a scale-rule error, a document without points, a zero weight with a leg to time, or a failed conversion |
| GpxScaling.ScaledFileName | gpxscaler.py:891-942 | the output name starts with the base filename and ends with the format's extension; with neither a floor nor a cap, or without statistics, it is exactly these two |
| GpxScaling.ScaledFileTrackNames | gpxscaler.py:891-920 | with a base name every track carries the display name; without one and without timing the tracks keep their names |
| GpxScaling.ScaledFileRoutesTimed | gpxscaler.py:876-879 | with timing the routes are gone and each non-empty route has become a track |
| GpxScaling.ScaledFileRoutesKept | gpxscaler.py:824-873 | without timing the routes keep their count and names |
| GpxScaling.ScaledFileStarts | gpxscaler.py:785-789 | without timing, every rewritten segment and route of two or more points starts at the new start, at the given starting elevation if any |
| GpxScaling.SavedLists | gpxscaler.py:917-944 | without timing the saved point lists are those of the rewrite |
| GpxScaling.RewrittenLengths | gpxscaler.py:777-873 | every segment and route of the rewrite is its original scaled in length by the distance scale |
| GpxScaling.ScaledFileLengths | gpxscaler.py:715-944 | without timing every saved segment and route is its original scaled in length by the chosen distance scale |
| Timing.RiderLegTime | gpxscaler.py:460-465 | a zero weight is the one rider that cannot time a leg; otherwise a leg takes distance over cycling speed |
| Timing.ElevationChange | gpxscaler.py:454-457 | the elevation difference when both elevations exist, else 0 |
| Timing.LegSeconds | gpxscaler.py:452-465 | a leg never takes negative time |
| Timing.LegSecondsIgnoresTime | gpxscaler.py:452-465 | a leg's time does not depend on the points' timestamps |
| Timing.Elapsed | gpxscaler.py:447-466 | the time elapsed to point i is non-negative, and 0 at point 0 |
| Timing.ElapsedMonotone | gpxscaler.py:447-466 | elapsed time never decreases along a segment |
| Timing.TimedPoints | gpxscaler.py:443-469 | timing keeps the point count and stamps point 0 with the start |
| Timing.TimedPointsStep | gpxscaler.py:447-469 | point i is stamped with the previous stamp plus the leg time |
| Timing.TimedPointsAt | gpxscaler.py:443-469 | point i is stamped with the start plus the elapsed time to i |
| Timing.TimedPointsProperties | gpxscaler.py:443-469 | positions and elevations are kept, every point is stamped no earlier than the start, and stamps never decrease |
| Timing.TimedSegment | gpxscaler.py:440-469 | ZeroDivisionError exactly for a zero weight on a segment of two or more points; short segments unchanged; the first and last points carry the start and end times |
| Timing.TimedRun | gpxscaler.py:443-469 | a timed segment runs from the start time to an end time no earlier |
| Timing.TimedLists | gpxscaler.py:439-469 | the segments of a track are timed one after another; the clock never goes back, and only a zero weight fails |
| Timing.TimedTracks | gpxscaler.py:438-469 | all tracks are timed one after another; the clock never goes back, and only a zero weight fails |
| Timing.TimedListsStep | gpxscaler.py:439-469 | timing one more segment continues from the previous clock |
| Timing.TimedTracksStep | gpxscaler.py:438-469 | timing one more track continues from the previous clock |
| Timing.TimedListsFails | gpxscaler.py:440-462 | timing fails exactly for a zero weight and some segment of two or more points |
| Timing.TimedTracksFails | gpxscaler.py:438-462 | the same over whole tracks |
| Timing.TimedListsAt | gpxscaler.py:439-469 | segment k is timed from the clock the first k segments left |
| Timing.ConvertedName | gpxscaler.py:419 | a route's own name when non-empty, else "Converted Route" |
| Timing.RouteTrack | gpxscaler.py:416-432 | a route becomes a one-segment track with the same positions and elevations and no times |
| Timing.NonEmptyCount | gpxscaler.py:414-416 | the number of routes with points is at most the number of routes |
| Timing.RouteTracks | gpxscaler.py:414-432 | one new track per non-empty route |
| Timing.RouteTrackPosition | gpxscaler.py:414-432 | the track of route j sits after the tracks of the non-empty routes before it |
| Timing.HasTimedSegmentAppend | gpxscaler.py:438-441 | a list of tracks has a segment to time exactly when one of its parts has |
| Timing.RouteTracksTimed | gpxscaler.py:414-441 | the converted routes have a segment to time exactly when some route has two or more points |
| Timing.NonEmptyCountPrefix | gpxscaler.py:414-416 | a prefix of the routes has no more non-empty routes than the whole |
| Timing.LegSecondsFromStamped | gpxscaler.py:444-465 | stamping a point does not change the time of the leg that leaves it |
| Timing.TimePointsInPlace | gpxscaler.py:443-469 | stamping an array in place leaves the timed segment and returns the end time |
| Timing.TimeSegment | gpxscaler.py:443-469 | the method returns the timed segment and its end time |
| Timing.TimeSegments | gpxscaler.py:439-469 | the method times a track's segments or reports the division by zero |
| Timing.ConvertRoutes | gpxscaler.py:413-435 | the method appends one track per non-empty route and empties the routes |
| Timing.AddTimingData | gpxscaler.py:387-469 | the method converts the routes, then times every track or fails with ZeroDivisionError; routes end empty |
| OriginalTiming.NonEmptyLists | gpxscaler.py:334-342 | the lists with points, each non-empty |
| OriginalTiming.NonEmptyListsOfFull | gpxscaler.py:334-342 | a list of non-empty lists is kept whole |
| OriginalTiming.NonEmptyListsAppend | gpxscaler.py:334-342 | collecting over two parts collects each in turn |
| OriginalTiming.OriginalLists | gpxscaler.py:334-342 | the original's point lists, track segments then routes, all non-empty |
| OriginalTiming.Retimed | gpxscaler.py:352-383 | the points take the times of a run where it reaches and keep their own beyond it |
| OriginalTiming.Common | gpxscaler.py:359 | the shorter of the two lengths |
| OriginalTiming.PairedSegment | gpxscaler.py:348-383 | ZeroDivisionError exactly for a zero weight and an original of two or more points; otherwise the count is kept, the clock never goes back and point 0 gets the current time |
| OriginalTiming.ElapsedPrefix | gpxscaler.py:359-380 | the elapsed time to point i depends only on the points up to i |
| OriginalTiming.PairedStamps | gpxscaler.py:359-383 | each scaled point the original reaches is stamped with the original's elapsed time |
| OriginalTiming.PairedUntouched | gpxscaler.py:359 | scaled points beyond the original keep their time |
| OriginalTiming.PairedClock | gpxscaler.py:359-380 | the clock advances by the original's elapsed time over the common points |
| OriginalTiming.PairedPointAt | gpxscaler.py:359-383 | point i of the paired segment is stamped with the original's elapsed time to i |
| OriginalTiming.PairedNext | gpxscaler.py:347-385 | one scaled segment is paired; the index advances by the pairing rule, and only a zero weight with a leg to time fails |
| OriginalTiming.PairedLists | gpxscaler.py:347-385 | a track's segments are paired in turn; the clock and index never go back |
| OriginalTiming.PairedTracks | gpxscaler.py:346-385 | all tracks are paired in turn; the clock never goes back |
| OriginalTiming.TimedFromOriginal | gpxscaler.py:282-385 | routes become tracks, and pairing yields one track per track and converted route |
| OriginalTiming.PairedWithItself | gpxscaler.py:348-383 | a segment paired with itself is timed as add_timing_data_to_gpx times it |
| OriginalTiming.WindowSplit | gpxscaler.py:334-356 | a window of originals that matches a concatenation matches each part at its offset |
| OriginalTiming.NextWithItself | gpxscaler.py:347-385 | pairing one segment with itself by position is timing it |
| OriginalTiming.PairedListsWithThemselves | gpxscaler.py:347-385 | pairing segments with themselves by position is timing them |
| OriginalTiming.OwnListsSplit | gpxscaler.py:334-338 | the non-empty segments of the tracks are those of the earlier tracks then those of the last |
| OriginalTiming.TracksStepWithThemselves | gpxscaler.py:346-385 | the step of PairedTracksWithThemselves for one more track |
| OriginalTiming.PairedTracksWithThemselves | gpxscaler.py:346-385 | pairing tracks with themselves by position is timing them |
| OriginalTiming.ByPositionTimesLikeOwnTiming | gpxscaler.py:282-385 | pairing by position, a document timed from itself gets exactly the times add_timing_data_to_gpx gives it |
| OriginalTiming.SinglePointRun | gpxscaler.py:348-349 | a one-point segment is skipped, and only the by-position rule moves the index |
| OriginalTiming.AsWrittenListsMisalign | gpxscaler.py:345-385 | as written, after a one-point segment the next segment is paired with that one point and gets no later times |
| OriginalTiming.OwnTimingStampsSecondPoint | gpxscaler.py:443-469 | own timing stamps every point of a two-point segment |
| OriginalTiming.OneTrackDocument | gpxscaler.py:346-385 | pairing one track is pairing its segments |
| OriginalTiming.OneTrackTimed | gpxscaler.py:438-469 | timing one track is timing its segments |
| OriginalTiming.OneTrackOriginalLists | gpxscaler.py:334-342 | a one-track original with non-empty segments contributes exactly its segments |
| OriginalTiming.AsWrittenMisalignsAfterSinglePoint | gpxscaler.py:282-385 | as written, a document timed from itself leaves a point untimed that its own timing stamps |
| OriginalTiming.PairedListsFailFrom | gpxscaler.py:347-385 | a failure in the first s segments fails the whole track |
| OriginalTiming.PairedTracksFailFrom | gpxscaler.py:346-385 | a failure in the first t tracks fails the whole document |
| OriginalTiming.AppendNonEmpty | gpxscaler.py:335-342 | the method appends exactly the non-empty candidates |
| OriginalTiming.CollectOriginalLists | gpxscaler.py:334-342 | the method collects exactly the original's non-empty lists |
| OriginalTiming.RetimeInPlace | gpxscaler.py:352-383 | stamping an array in place leaves exactly the paired segment and returns its clock |
| OriginalTiming.StampedArray | gpxscaler.py:352-383 | an array stamped as the loop leaves it is the paired segment |
| OriginalTiming.PairedSegmentOf | gpxscaler.py:352-383 | points stamped point by point as the loop does are the paired segment |
| OriginalTiming.PairNext | gpxscaler.py:347-385 | the method pairs one segment as PairedNext does |
| OriginalTiming.PairSegments | gpxscaler.py:347-385 | the method pairs a track's segments or reports the division by zero |
| OriginalTiming.AddTimingFromOriginal | gpxscaler.py:282-385 | the method converts the routes, then times from the original or fails with ZeroDivisionError |
| ScalerConfig.DefaultKeysAreTheDefaults | gpxscaler.py:23-34 | the ten default keys are exactly those of the default configuration |
| ScalerConfig.MergeDefaults | gpxscaler.py:36-44 | the merge has the file's keys plus the default keys; stored values win and missing keys take the defaults |
| ScalerConfig.LoadedConfig | gpxscaler.py:36-49 | the loaded configuration always holds every default key |
| ScalerConfig.LoadConfig | gpxscaler.py:21-49 | the method computes the loaded configuration, defaults for a missing or unreadable file |
| ScalerConfig.MergeDefaultsIdempotent | gpxscaler.py:41-43 | merging the defaults twice is merging once |
| ScalerConfig.CompleteFileLoadsUnchanged | gpxscaler.py:36-44 | a file holding every default key loads unchanged |
| ScalerConfig.OverriddenKeys | gpxscaler.py:109-129 | overriding keeps the set of keys |
| ScalerConfig.OverriddenStep | gpxscaler.py:109-129 | each override step writes its key when its argument is not None |
| ScalerConfig.Override | gpxscaler.py:110-111 | the method sets the key exactly when the argument is not None |
| ScalerConfig.SaveConfig | gpxscaler.py:106-134 | the method writes the loaded configuration with every non-None argument applied |
| ScalerConfig.DefaultKeysDistinct | gpxscaler.py:23-34 | the ten keys are distinct |
| ScalerConfig.OverriddenValue | gpxscaler.py:109-129 | each key holds its argument when that is not None, else its loaded value |
| ScalerConfig.OverriddenUntouched | gpxscaler.py:109-129 | keys that are not overridden keep their value |
| ScalerConfig.SavedConfigKeepsKeys | gpxscaler.py:106-134 | saving keeps the keys of the loaded configuration |
| ScalerConfig.SaveThenLoad | gpxscaler.py:21-134 | loading what was saved gives each argument that was not None, and the earlier value otherwise |
| ScalerConfig.SaveWithoutArgumentsIsIdentity | gpxscaler.py:109-129 | saving with no arguments changes nothing |
| FileNames.DigitRunLength | gpxscaler.py:101 | the length of the run of digits at p, with a non-digit or the end after it |
| FileNames.FirstStageAt | gpxscaler.py:101 | the first position from p where "stage-" and a digit start, or None when there is none |
| FileNames.ExtractStageNumber | gpxscaler.py:100-104 | a stage number exactly when the lowered name holds "stage-" and a digit, read at the first such place; otherwise the name itself |
| FileNames.DigitRunExact | gpxscaler.py:101 | a run of n digits ended by a non-digit has length n |
| FileNames.StageNumberOfName | gpxscaler.py:100-103 | "stage-", a number and a tail not starting with a digit give that number |
| FileNames.StageNumberExample | gpxscaler.py:100-103 | "Stage-12.gpx" gives stage 12 |
| FileNames.NoDigitsNoStage | gpxscaler.py:104 | a name without digits has no stage number and sorts by its own name |
| FileNames.LastIndexOf | gpxscaler.py:894-898 | the last occurrence of a character, or None when absent |
| FileNames.LastComponent | gpxscaler.py:894-898 | the final path component contains no '/' |
| FileNames.Stem | gpxscaler.py:894-898 | the stem is a prefix of the final path component |
| FileNames.SpacesToUnderscores | gpxscaler.py:901 | every space becomes an underscore, nothing else changes |
| FileNames.BaseFilename | gpxscaler.py:891-914 | the base name with spaces replaced, followed by the source stem; just the stem without a base name |
| FileNames.DisplayName | gpxscaler.py:904-915 | a display name exactly when a base name is given: the base name, a space and the stage number of the original file name (or of the input file's name without its folder), or the source stem when that name has no stage number |
| FileNames.DisplayNameOfStage | gpxscaler.py:905-907 | for a name with stage n the display name is the base name, a space and n |
| FileNames.DisplayNameWithoutStage | gpxscaler.py:905-909 | for a name without digits the display name is the base name, a space and the source stem |
| FileNames.DisplayNameIgnoresFolder | gpxscaler.py:905 | the folder of the input file plays no part in the display name |
| FileNames.DisplayNameInStageFolder | gpxscaler.py:905-909 | a file without digits inside a folder "stage-n" is titled with its stem, not with n |
| FileNames.Extension | gpxscaler.py:922-942 | a dot followed by three characters that are neither '.' nor '/' |
| FileNames.OutputFileName | gpxscaler.py:922-942 | equal scales give base plus extension; different scales insert "_elev_" and the elevation label |
| FileNames.StemOfOutputFileName | gpxscaler.py:922-942 | the stem of an output name is the base filename, with the elevation part when the scales differ |
| FileNames.LastIndexFound | gpxscaler.py:894-898 | the last occurrence found is the given position |
| FileNames.StemOfPlainName | gpxscaler.py:896 | the stem of "route.gpx" is "route" |
| FileNames.StemKeepsInnerSuffixes | gpxscaler.py:896 | the stem of "a.tar.gz" is "a.tar" |
| FileNames.StemOfDotFile | gpxscaler.py:896 | the stem of ".gpx" is ".gpx" |
| FileNames.StemOfTrailingDot | gpxscaler.py:896 | the stem of "d/f." is "f." |
| FileSelection.RemoveUnderscores | gpxscaler.py:1035-1038 | a string without underscores is unchanged |
| FileSelection.RemoveUnderscoresLeavesDigits | gpxscaler.py:1035-1038 | removing the underscores of digits and underscores leaves digits |
| FileSelection.ParseInt | gpxscaler.py:1035-1038 | int() raises ValueError exactly when the unsigned part is not a valid digit string |
| FileSelection.ParseIntNeedsADigit | gpxscaler.py:1035-1038 | a string without digits never parses |
| FileSelection.ParseIntOfNat | gpxscaler.py:1035-1038 | the decimal form of n parses as n |
| FileSelection.NegativeNumberRejected | gpxscaler.py:1034-1035 | "-n" splits into an empty start, which int() rejects |
| FileSelection.RangeSet | gpxscaler.py:1036 | range(lo, hi) holds exactly the integers from lo below hi |
| FileSelection.ParsePart | gpxscaler.py:1033-1038 | a part parses to a set of indices or fails with ValueError |
| FileSelection.IndicesOf | gpxscaler.py:1031-1038 | the union of the parts' indices, or ValueError |
| FileSelection.IndicesOfStep | gpxscaler.py:1032-1038 | one more part adds its indices to the set |
| FileSelection.IndicesOfFailureIsFinal | gpxscaler.py:1032-1038 | once a part fails the whole answer fails |
| FileSelection.IndicesOfStepErr | gpxscaler.py:1032-1038 | a failure stays a failure for one more part |
| FileSelection.ParseIndices | gpxscaler.py:1031-1038 | the loop computes the indices of the comma-separated parts |
| FileSelection.RangePartSelects | gpxscaler.py:1034-1036 | "a-b" selects the indices a-1 up to b-1 |
| FileSelection.NumberPartSelects | gpxscaler.py:1037-1038 | the number m+1 selects index m |
| FileSelection.Numbers | gpxscaler.py:1031-1038 | the one-based numbers of some indices |
| FileSelection.FormatIsJoin | gpxscaler.py:1031-1038 | a selection answer is its numbers joined by commas |
| FileSelection.Elements | gpxscaler.py:1031-1038 | the set of indices of a list |
| FileSelection.IndicesOfNumbers | gpxscaler.py:1031-1038 | parsing the numbers of indices gives back those indices |
| FileSelection.FormatThenParse | gpxscaler.py:1031-1038 | an answer written from indices parses back to exactly those indices |
| FileSelection.SplitExample | gpxscaler.py:1032 | "1,3,5-7" splits into "1", "3" and "5-7" |
| FileSelection.ParseSelection | gpxscaler.py:1024-1038 | 'all' in any case removes everything, an empty answer nothing; otherwise the answer is the parsed indices, and it fails exactly when they do, with ValueError |
| FileSelection.SelectionRoundTrip | gpxscaler.py:1024-1038 | an answer written from some indices is read back as exactly those indices |
| FileRemoval.SortedDescendingIsSorted | gpxscaler.py:1041 | sorting the selection in reverse keeps its elements and count and sorts them downwards |
| FileRemoval.InRange | gpxscaler.py:1042 | the entries of a list that index an existing file |
| FileRemoval.InRangeDescending | gpxscaler.py:1041-1042 | filtering a descending list keeps it descending |
| FileRemoval.InRangeSnoc | gpxscaler.py:1041-1044 | filtering one more entry adds it exactly when it is in range |
| FileRemoval.RemoveSelected | gpxscaler.py:1040-1045 | the loop removes the selected files in range, highest first, and counts them |
| FileRemoval.RemovalOrderIsExact | gpxscaler.py:1040-1044 | exactly the selected indices of existing files are removed, highest first, at most once each |
| FileRemoval.ParseChoice | gpxscaler.py:1014-1019 | "y"/"yes" removes everything and "s"/"selective" asks which, after stripping and lower-casing |
| FileRemoval.AllFiles | gpxscaler.py:1016-1017 | removing everything visits every file once, in order |
| FileRemoval.FilesRemovedExist | gpxscaler.py:1014-1044 | every removal names an existing file, and no file is removed twice |
| RoutePreview.Preview | webapp/app.py:71-75 | a preview point keeps the position and has elevation 0 where the point has none |
| RoutePreview.Elevations | webapp/app.py:76 | the elevation list has one entry per point, each that point's elevation |
| RoutePreview.AscentBounds | webapp/app.py:106-112 | the ascent is never negative and never less than the net climb |
| RoutePreview.AscentOfNonRising | webapp/app.py:106-112 | a profile that never rises, or has under two points, has no ascent |
| RoutePreview.AscentCountsEveryRise | webapp/app.py:109-111 | every rise counts towards the ascent |
| RoutePreview.ScaledRise | webapp/app.py:255 | a rise scales with the elevations |
| RoutePreview.AscentInRatio | webapp/app.py:106-112 | profiles whose rises are in a fixed ratio have their ascents in that ratio |
| RoutePreview.AscentScales | webapp/app.py:255-258 | multiplying the elevations by a non-negative factor multiplies the ascent by it |
| RoutePreview.CalculateTotalAscent | webapp/app.py:106-112 | the loop adds up exactly the rises |
| RoutePreview.Lats | webapp/app.py:121 | the latitudes of the points |
| RoutePreview.Lons | webapp/app.py:122 | the longitudes of the points |
| RoutePreview.CalculateBounds | webapp/app.py:114-127 | None exactly for no points; otherwise every point lies in the box and each bound is reached by a point |
| RoutePreview.Relocated | webapp/app.py:129-160 | relocation keeps the point count |
| RoutePreview.RelocatedSteps | webapp/app.py:136-158 | the first point is at the new start with its elevation; each later one is the previous plus the scaled original offset, elevation copied |
| RoutePreview.RelocatedIdentity | webapp/app.py:129-160 | scale 1 from the original start leaves the points unchanged |
| RoutePreview.ScaleRouteCoordinates | webapp/app.py:129-160 | the loop builds the relocated points |
| RoutePreview.WalkListMeasured | webapp/app.py:65-78 | walking a list keeps distances one per point, from 0 and never decreasing |
| RoutePreview.WalkSegmentsMeasured | webapp/app.py:62-78 | the same over a track's segments |
| RoutePreview.WalkTracksMeasured | webapp/app.py:62-78 | the same over all tracks |
| RoutePreview.WalkRoutesMeasured | webapp/app.py:81-94 | the same over the routes |
| RoutePreview.WalkListPoints | webapp/app.py:65-78 | a list's points are appended, in order, after those already collected |
| RoutePreview.RoutesIgnoredWithTrackPoints | webapp/app.py:80-81 | when the tracks give points, the routes make no difference |
| RoutePreview.NoTrackPointsWalksRoutes | webapp/app.py:80-94 | when the tracks give none, the result is the walk of the routes |
| RoutePreview.ExtractedConsistent | webapp/app.py:54-104 | route data is consistent: one elevation and distance per point, distances from 0 rising to the total, ascent and bounds those of the profile |
| RoutePreview.WalkPoints | webapp/app.py:65-78 | the loop appends a list's points, elevations and cumulative distances |
| RoutePreview.CollectRoute | webapp/app.py:61-94 | the loops collect the tracks' points, or the routes' when the tracks give none |
| RoutePreview.ExtractRouteData | webapp/app.py:54-104 | extract_route_data returns the consistent route data of the document |
| RoutePreview.ExtractRoutePreviewData | webapp/utils/gpx_integration.py:100-165 | the same, with the point count attached |
| RoutePreview.ScaledRising | webapp/app.py:256 | multiplying rising distances by a non-negative factor keeps them rising |
| RoutePreview.RescaledLengths | webapp/app.py:253-260 | the scaled profile keeps one elevation and distance per point |
| RoutePreview.RescaledEnds | webapp/app.py:256-257 | scaled distances still run from 0 to the scaled total |
| RoutePreview.RescaledRising | webapp/app.py:256 | scaled distances still rise |
| RoutePreview.RescaledAscent | webapp/app.py:255-258 | the scaled total ascent is the ascent of the scaled elevations |
| RoutePreview.RescaledConsistent | webapp/app.py:253-260 | rescaling onto as many points with their own bounds is consistent |
| RoutePreview.ScaledPreviewConsistent | webapp/app.py:249-260 | the scaled preview is consistent; points keep their elevations, and stay put for a start of (0, 0) |
| RoutePreview.GenerateScaledPreview | webapp/utils/gpx_integration.py:185-186 | input that is missing or has no points comes back unchanged |
| RoutePreview.GenerateScaledPreviewShape | webapp/utils/gpx_integration.py:188-210 | otherwise it has as many points, starting at the new start, with its own bounds and point count |
| RoutePreview.GenerateScaledPreviewConsistent | webapp/utils/gpx_integration.py:171-210 | the generated preview of consistent data is consistent |
| RoutePreview.PreviewMultipliesProfile | webapp/utils/gpx_integration.py:196-208 | both previews multiply each elevation and the total ascent by the ascent scale, and each distance and the total distance by the distance scale |
| RoutePreview.RescaledMultiplies | webapp/app.py:253-260 | the rescaled data is the original profile and totals multiplied elementwise |
| RoutePreview.ScaledTiming | webapp/app.py:262-294 | timing is reported exactly when an original duration is available; it keeps that duration, and each hours figure is its seconds over 3600 |
| RoutePreview.ScaledTimingProperties | webapp/app.py:279-285 | equal scales multiply the duration by that scale, and a larger scale never shortens it |
| BatchProgress.Verdict | webapp/app.py:406-464 | a file is completed exactly when the scaler succeeded with an output; otherwise it failed with an error, the exception's message when one was raised |
| BatchProgress.StepsNext | webapp/app.py:359-464 | one more requested id is one more step |
| BatchProgress.AdmittedStep | webapp/app.py:360-361 | an id counts as admitted exactly when it was uploaded |
| BatchProgress.StepsFiles | webapp/app.py:359-464 | the files entry gains exactly the admitted ids, the total never changes, and other entries are kept |
| BatchProgress.StepsSettled | webapp/app.py:406-464 | every file entry ends completed without error or failed with one |
| BatchProgress.StepsLatest | webapp/app.py:366-464 | a file's entry is the verdict on its last request |
| BatchProgress.StepsCursor | webapp/app.py:366-375 | current_file is the 1-based position of the last admitted id, and current_filename its name |
| BatchProgress.StepsProduced | webapp/app.py:406-425 | each produced output gets a fresh id and a report entry, and earlier outputs are kept |
| BatchProgress.BatchCompletes | webapp/app.py:347-469 | the batch ends completed with every admitted file settled, reports what it produced, and keeps earlier outputs |
| BatchProgress.BatchKeepsIdsFresh | webapp/app.py:415-416 | output ids never collide |
| BatchProgress.BatchFileOutcome | webapp/app.py:406-464 | a file's entry ends completed exactly when the scaler produced an output for it, and failed exactly when it did not |
| BatchProgress.NothingProduced | webapp/app.py:406-441 | when nothing succeeds nothing is produced |
| BatchProgress.StepsAllRaise | webapp/app.py:457-464 | when every call raises, every file ends failed with that message |
| BatchProgress.AsWrittenEveryFileFails | webapp/app.py:391-464 | as written every admitted file fails with the TypeError, and nothing is produced |
| BatchProgress.PollSemantics | webapp/app.py:307-321 | an unknown session ends the stream; otherwise the record is sent and removed exactly when completed |
| BatchProgress.PollAfterBatch | webapp/app.py:307-321 | polling a finished batch sends its final record and removes it |
| BatchProgress.RecentProperties | webapp/app.py:536-548 | cleanup keeps exactly the entries at most an hour old, unchanged, is idempotent, and later cleanups keep no more |
| BatchProgress.SweepExpired | webapp/app.py:536-548 | the loop keeps exactly the recent entries |
| BatchProgress.ProcessFile | webapp/app.py:359-464 | the loop body performs one step |
| BatchProgress.AppState.constructor | webapp/app.py:29-32 | the server starts with empty dictionaries |
| BatchProgress.AppState.StoreUpload | webapp/app.py:199-205 | an upload is stored under its id with the current time, nothing else changes |
| BatchProgress.AppState.ProcessFiles | webapp/app.py:327-469 | the session's record becomes the finished batch's record, and the stored outputs and id counter become those the batch leaves; uploads are untouched |
| BatchProgress.AppState.PollProgress | webapp/app.py:307-321 | one poll of the stream returns the snapshot and removes a completed session |
| BatchProgress.AppState.CleanupOldFiles | webapp/app.py:530-548 | uploads and outputs older than an hour are dropped, the rest kept |
| ElevationStats.Kept | debug_elevation.py:21-23 | at most one kept elevation per point |
| ElevationStats.Change | elevation_analysis.py:50-53 | a change exactly when both elevations exist, and it is their difference |
| ElevationStats.RawClimbNet | elevation_analysis.py:50-57 | raw ascent and descent are non-negative, and ascent minus descent is the sum of the counted changes |
| ElevationStats.NetTelescopes | debug_elevation.py:25-30 | with all elevations present the counted changes add up to last minus first |
| ElevationStats.ThresholdResidual | elevation_analysis.py:59-75 | the threshold totals plus the leftover accumulators equal the raw totals, and the leftovers stay below 3 m |
| ElevationStats.ThresholdBelowRaw | elevation_analysis.py:59-75 | threshold totals are at most the raw ones and less than 3 m below them |
| ElevationStats.AddSegmentBooked | elevation_analysis.py:31-75 | adding a segment keeps the per-segment bookkeeping |
| ElevationStats.SegmentTotalsBooked | elevation_analysis.py:31-75 | the same over a track's segments |
| ElevationStats.DocumentTotalsBooked | elevation_analysis.py:31-75 | the same over all tracks |
| ElevationStats.AnalysisRange | elevation_analysis.py:78-83 | the range is non-negative, 0 with no elevations, and threshold totals are between 0 and the raw ones |
| ElevationStats.AnalyzeSegment | elevation_analysis.py:44-75 | the loops collect a segment's elevations and its raw and threshold totals |
| ElevationStats.AnalyzeElevationDetailed | elevation_analysis.py:31-103 | the method computes the analysis of the document |
| ElevationStats.Summarized | debug_elevation.py:32-40 | min and max bound every kept elevation and are 0 with none; first and last are the ends, or None |
| ElevationStats.KeptAll | debug_elevation.py:21-23 | with all elevations present every point's elevation is kept, in order |
| ElevationStats.KeptFromPoints | debug_elevation.py:21-23 | the kept values are exactly the elevations the points have |
| ElevationStats.DebugSingleSegmentTelescopes | debug_elevation.py:18-40 | for one segment with all elevations, ascent minus descent is last minus first |
| ElevationStats.SegmentsAgree | debug_elevation.py:18-30 | the debug script's totals agree with the analysis script's raw totals segment by segment |
| ElevationStats.DebugAgreesWithAnalysis | debug_elevation.py:18-30 | the same over a whole document |
| ElevationStats.AddSegmentProfile | debug_elevation.py:20-30 | the loop appends a segment's kept elevations and adds its ascent and descent |
| ElevationStats.AnalyzeFile | debug_elevation.py:10-40 | the method computes the summary of the document |

## Left out

- Reading and writing GPX, TCX and FIT files is left out. This covers gpxpy parsing and XML output, temporary files, folder creation, the GPSBabel converters, and `create_garmin_activity_tcx`. A parsed document is a `GpxData` value. A failed conversion is the parameter `converted` of `GpxScaling.ScaledFile`.
- Great-circle distance, bearing and destination point are parameters of type `GpxModel.Geo`. Only their non-negative distance and the consistency used for leg lengths are assumed.
- The numeric values of the speed model and of the Newton solver are not computed. The model states their branches, clamps and iteration counts over `real`.
- The IP-location and elevation web lookups are left out; the starting elevation is a parameter.
- `datetime.now()` is left out. The start time of both timing passes is a parameter. The duration computed by `calculate_total_ride_duration` is used only to choose that start, so it is left out as well, together with gpxpy's own uphill and length figures.
- The Flask routes, uploads, downloads, zip files, threads, `progress_lock`, the SSE sleep and the five-minute cleanup period are left out. The web server's dictionaries are updated in sequence.
- `time.time()` is the `Clock` parameter of a batch and the `now` parameter of uploads and cleanup.
- `uuid4` output ids are a counter (`AppState.nextId`).
- Session directories and their two-hour removal are left out, as are the `os.unlink` calls.
- Running the scaler on one uploaded file is the oracle `BatchProgress.Scaler`.
- BatchProgress.Batch: the outer `except` of `process_files_async` (webapp/app.py:471-475) is left out. Every statement it guards is modelled as total, so it cannot trigger in the model.
- The interactive prompts, printed tables and argparse are left out. So are the float-formatted folder names and the three-decimal elevation label, which is the parameter `elevationLabel`.
- webapp/run.py is not part of this model.
- ScalerConfig.SaveConfig returns the dictionary it would write. A failed write, which the source only prints, is left out.
- ScalerConfig.SaveConfig: lines 135-142 of gpxscaler.py are stray code after the write. They refer to names that do not exist there, so the call raises after writing. The model stops after the write.
- ScalerConfig.LoadedConfig: a file that holds valid JSON but not an object is treated like an unreadable file. In the source, such a value fails in the merge and the exception handler returns the defaults, so the outcome is the same.
- SpeedModel.CyclingSpeed requires a non-zero weight. The callers that can meet a zero weight go through `Timing.Rider`, whose `ZeroWeight` case carries the ZeroDivisionError.
- Timing.TimedSegment and OriginalTiming.PairedSegment: a timestamp is a `real` number of seconds, not a `datetime`.
- RoutePreview.GenerateScaledPreviewShape does not restate the products of the totals. These are stated in `RoutePreview.PreviewMultipliesProfile`.
- RoutePreview.ScaledTiming: the original duration is a parameter. It would come from `calculate_total_ride_duration`, which is left out. The `int()` conversion of power and weight is left out too.
- RoutePreview.Preview: a present elevation of 0 and a missing one both give 0, as `point.elevation if point.elevation else 0` does.
- FileNames.Extension: a format other than "fit" or "tcx" gives ".gpx". The file conversion itself is left out.
- FileRemoval.RemoveSelected returns the indices it removes, in order. Deleting the files is left out.
- Text.Lower maps only the ASCII letters. Python's `str.lower` maps every Unicode letter that has a lower-case form.
- Text.Upper maps only the ASCII letters. Python's `str.upper` maps every Unicode letter, and some, like "ß" to "SS", change the length.
- FileNames.ExtractStageNumber reads only the ASCII digits 0-9. The `\d` of Python's regular expression matches every Unicode decimal digit, so a name such as "Stage-٣.gpx" has stage 3 in the source and no stage in the model.
- FileSelection.ParseInt accepts what Python's `int()` accepts for these answers: surrounding spaces, a sign, digits and single underscores between digits. Other Unicode digits are not modelled.
- The gpxpy point objects store floats. The model uses exact `real`s, so rounding is not modelled.

## Findings

| source | as written | input that shows it | evidently intended | confidence | as-written member | corrected member |
|---|---|---|---|---|---|---|
| gpxscaler.py:345-385 | `scaled_segment_index` advances only for scaled segments of two or more points. `original_segments` holds every segment with at least one point. After a one-point segment, every later segment is paired with the wrong original. | a track with segments `[p]` then `[p, p]`, timed from itself: the second segment is paired with the one-point original, so its second point gets no time | pair each scaled segment with the original at the same position, so timing a route from itself gives its own timing | not executed | OriginalTiming.AsWrittenMisalignsAfterSinglePoint | OriginalTiming.ByPositionTimesLikeOwnTiming |
| webapp/app.py:391-404 | `scale_gpx_file` is called with the keyword `ascent_scale`, which its signature (gpxscaler.py:715-720) does not accept. Every call raises TypeError. | any batch with an uploaded file: the file ends 'failed' with the TypeError message and no output is produced | the call runs the scaler, so a file ends completed exactly when the scaler produces an output | not executed | BatchProgress.AsWrittenEveryFileFails | BatchProgress.BatchFileOutcome |
