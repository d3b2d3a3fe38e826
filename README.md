# Steel-barn frame layout in Dafny

This project models the structural frame of a rectangular steel barn as the
configurator lays it out, and the small stores that hold the barn's doors and
windows. The model covers:

- the bays: how many compartments each wall gets for a maximum span of 5 m, and
  where the columns stand;
- the columns: which wall a column belongs to, and how a door splits it into a
  piece below and a piece above the door;
- the horizontal wall purlins: their heights per wall, and at each height the
  wall's span minus the doors that cross it. Above the gutter the front and
  back purlins narrow to fit inside the gable;
- the roof purlins on the rafter: a gutter purlin, evenly spaced intermediates
  at most 1.5 m apart along the slope, and two ridge purlins;
- the door frame: the beam the 3D door model extends up to;
- the item list of the page, the add menu and the item editor;
- the structure store (dimensions plus a list of openings) and the clickable
  structure view that adds a door where a wall is clicked.

Two variants of the layout are modelled side by side: the current page and the
older backup page. Lemmas state where the two agree and where they differ.

Lengths are exact reals. Item sizes are in millimetres and positions in metres,
as in the configurator. `Metres` converts between them. The page computes the roof
height with `tan` and the rafter length with `sqrt`. Here both are inputs:
`roofHeight` and a `slope` with `slope * slope == halfWidth² + roofHeight²`.

Modules, one per file:

| module | file | models |
|---|---|---|
| `Common` | common.dfy | walls, item types, item records, ceil, spread of a partial item |
| `Keyed` | keyed.dfy | the map-by-id and filter-by-id the stores use on their lists |
| `Intervals` | intervals.dfy | sort by start, and the cursor walk that subtracts spans from a wall |
| `Openings` | openings.dfy | items to door rectangles in scene coordinates |
| `Bays` | bays.dfy | compartments, spacing, column sites |
| `Columns` | columns.dfy | wall classification of a column and its split around a door |
| `WallPurlins` | wall_purlins.dfy | purlin heights, purlin runs, gable narrowing |
| `RoofPurlins` | roof_purlins.dfy | purlins along the rafter, current and backup layouts |
| `DoorFrame` | door_frame.dfy | the beam above a door |
| `HomeItems` | home_items.dfy | the page's item list (class `ItemList`) |
| `ItemsMenu` | items_menu.dfy | the add menu (class `ItemsMenu`) |
| `ItemEditor` | item_editor.dfy | the editor of a placed item (class `ItemEditor`) |
| `StructureStore` | structure_store.dfy | the structure provider (class `StructureProvider`) |
| `StructureViewer` | structure_viewer.dfy | wall clicks and opening placement of the structure view |

The React handlers become methods of classes whose fields are the component's
state. Each handler is one atomic state change. Callbacks to the parent are
recorded in a log field (`previews`, `added`, `events`). Date-based ids take
the timestamp as a `stamp` parameter.

Where the prose description of the system and the code disagree, the model
follows the code:

- Front and back wall purlin heights are bounded by the peak
  (app/page.tsx:909-914), not by the gutter. For a 3 m gutter and a roof higher
  than 0.6 m the front wall therefore also has a purlin at 3.6 m.
  `WallPurlins.DefaultBarnHeights` states this. An unused helper at
  app/page.tsx:564-575 still stops at the gutter.
- The roof purlin count of the current page is `max(0, ceil(slope/1.5) - 1)`
  intermediates. The backup page's component draws `numSpaces - 1`
  intermediates by straight-line interpolation. `RoofPurlins.LinearMatchesRafter`
  proves the two layouts are equal.

## Model

| member | source | states |
|---|---|---|
| Common.Ceil | app/page.tsx:621 | `Math.ceil`: the least integer not below x |
| Common.Override | app/page.tsx:196 | one field of a spread `{ ...item, ...data }`: the patch's value when present, else the current value |
| Keyed.UpdateById | app/page.tsx:196 | map by id: same length; elements with the id are merged, all others are unchanged |
| Keyed.RemoveById | app/page.tsx:201 | filter by id: no survivor has the id, and every survivor was in the list |
| Keyed.RemoveByIdKeepsOthers | components/structure-context.tsx:78 | every element with another id survives the filter |
| Keyed.RemoveByIdDistributes | components/structure-context.tsx:78 | filtering a concatenation filters each part, so survivors keep their order |
| Keyed.RemoveByIdAbsent | app/page.tsx:201 | filtering an id nobody has leaves the list unchanged |
| Keyed.RemoveByIdIdempotent | app/page.tsx:201 | deleting twice is deleting once |
| Keyed.AddThenRemove | app/page.tsx:185-201 | appending an element with a fresh id and then deleting that id restores the list |
| Keyed.RemoveAfterUpdate | components/structure-context.tsx:68-79 | when merging keeps ids, updating before removing changes nothing about the result |
| Intervals.InsertByStart | app/page.tsx:1079 | insertion into a list sorted by start keeps it sorted, is one longer, and starts with the new element or the old head |
| Intervals.SortByStart | app/page.tsx:1077-1079 | `.sort((a, b) => a.x1 - b.x1)`: sorted by start, same length as the input |
| Intervals.InsertByStartPermutes | app/page.tsx:1079 | insertion adds exactly the one element (multiset equality) |
| Intervals.SortByStartPermutes | app/page.tsx:1077-1079 | the sorted list is a permutation of the input (multiset equality) |
| Intervals.SortKeepsWellFormed | app/page.tsx:1079 | sorting keeps every span forwards and keeps the count |
| Intervals.SortKeepsInside | app/page.tsx:1079 | sorting keeps every span inside the wall |
| Intervals.SortKeepsDisjoint | app/page.tsx:1079 | sorting pairwise disjoint spans keeps them disjoint |
| Intervals.SortedDisjointIsOrdered | app/page.tsx:1079-1091 | disjoint spans sorted by start follow one another end-to-start |
| Intervals.SortDisjoint | app/page.tsx:1077-1079 | sorting disjoint spans gives an ordered list covering no point the input did not cover |
| Intervals.CursorRun | app/page.tsx:1085-1094 | the cursor walk emits only spans of positive length |
| Intervals.SubtractSpans | app/page.tsx:1082-1095 | the loop over the openings computes the cursor walk's segments |
| Intervals.Subtracted | app/page.tsx:1081-1094 | the segments the page computes for one wall: the whole span when no opening is left, else the cursor walk; SubtractedReconstructs states what they are |
| Intervals.CursorRunStartsAfter | app/page.tsx:1086-1091 | no segment starts before the cursor or the first opening |
| Intervals.CursorRunOrdered | app/page.tsx:1086-1094 | over openings sorted by start the segments are ordered |
| Intervals.CursorRunInside | app/page.tsx:1085-1094 | segments stay within the wall |
| Intervals.CursorRunCovers | app/page.tsx:1085-1094 | every point from the cursor to the wall's end is in a segment or in an opening |
| Intervals.CursorRunApart | app/page.tsx:1085-1094 | no segment overlaps an opening |
| Intervals.SubtractedReconstructs | app/page.tsx:1082-1095 | for ordered openings in the wall, segments plus openings cover the wall exactly, without overlap |
| Intervals.SortedSubtractionReconstructs | app/page.tsx:1075-1095 | the same for disjoint openings after the sort |
| Intervals.SubtractedOrdered | app/page.tsx:1082-1095 | for openings sorted by start, even overlapping ones, the segments are ordered spans |
| Intervals.StartingIn | app/page.tsx:1149 | keeps only the openings starting inside the narrowed band, each one from the input |
| Intervals.StartingInComplete | app/page.tsx:1149 | every opening starting inside the band is kept |
| Intervals.StartingInSorted | app/page.tsx:1147-1149 | the kept openings stay sorted |
| Intervals.Narrowed | app/page.tsx:1143-1158 | the narrowed segments: the whole band when the wall has no crossing opening, else the cursor walk over the openings whose start lies in the band; NarrowedInsideBand states what they are |
| Intervals.SubtractSpansInBand | app/page.tsx:1142-1159 | the narrowed loop computes the cursor walk over the openings starting in the band |
| Intervals.NarrowedInsideBand | app/page.tsx:1142-1159 | the narrowed segments are ordered spans inside the band |
| Openings.AllItems | app/page.tsx:644-647 | the items, then the preview under id "preview" when there is one |
| Openings.WallPlane | app/page.tsx:670-698 | the fixed coordinate of a wall's plane: z = length/2 for front, -length/2 for back, x = -width/2 for left, width/2 for right |
| Openings.ProjectItem | app/page.tsx:654-712 | the door rectangle: along-wall start at `-span/2 + position`, width in metres, from the floor to the door's height, on the wall's plane; flagged as preview exactly for id "preview" |
| Openings.Doors | app/page.tsx:653 | only sectional and walk doors, each from the input |
| Openings.DoorsComplete | app/page.tsx:653 | every door is kept |
| Openings.DoorsDistributes | app/page.tsx:653 | the door filter preserves order across concatenation |
| Openings.ProjectOpenings | app/page.tsx:652-713 | one rectangle per door of the items and the preview, in order |
| Openings.WindowsAddNoOpening | app/page.tsx:653 | adding a window adds no rectangle; adding a door appends its rectangle |
| Openings.OnlyThePreviewIsFlagged | app/page.tsx:711 | with a door preview, only the last rectangle is flagged as the preview |
| Openings.BackAndRightNotMirrored | app/page.tsx:676-699 | back and right are measured from the same end as front and left |
| Openings.ProjectItemBackup | app/backup-working-left-right.tsx:426-478 | the backup's rectangle: the same along the wall, with a 0.01 m depth on either side of the plane |
| Openings.ProjectOpeningsBackup | app/backup-working-left-right.tsx:421-482 | one backup rectangle per door, in the same order |
| Openings.BackupAgreesAlongWall | app/backup-working-left-right.tsx:437-466 | both variants agree on id, wall and extent along the wall and in height; the backup's rectangle is strictly thicker |
| Bays.Compartments | app/page.tsx:618-625 | `ceil(span/5)`: the fewest compartments of at most 5 m |
| Bays.Spacing | app/page.tsx:622-626 | a positive spacing of at most 5 m that divides the span exactly |
| Bays.Boundaries | app/page.tsx:629-630 | compartments + 1 column positions, at the computed boundaries |
| Bays.BoundariesSpanTheWall | app/page.tsx:1370 | from one end of the wall to the other, one spacing apart |
| Bays.BoundariesIncrease | app/page.tsx:1370 | the positions strictly increase |
| Bays.SideColumns | app/page.tsx:1369-1381 | two columns at every boundary along the length |
| Bays.FrontBackColumns | app/page.tsx:1384-1400 | two columns at every interior boundary of the width; the corners are skipped |
| Bays.ColumnSites | app/page.tsx:1369-1400 | the total column count |
| Bays.InteriorBoundary | app/page.tsx:1388 | interior boundaries lie strictly inside the wall |
| Bays.ColumnsOnTheirWalls | app/page.tsx:1369-1400 | every column stands on the wall it is drawn for |
| Bays.ColumnsDistinct | app/page.tsx:1387-1388 | no two columns share a position, because corners are drawn once |
| Bays.EveryFrontBoundaryHasAColumn | app/page.tsx:1369-1400 | every boundary of the front wall has a column, corners included |
| Bays.DefaultBarnBays | app/page.tsx:618-630 | an 8 m by 12 m barn has 2 by 3 bays of 4 m, and 10 columns |
| Columns.ClassifyWall | app/page.tsx:1019-1022 | front if within 0.1 of z = length/2, else back, else left, else right, in that order; right exactly when the first three tests fail and the fourth holds; none exactly when all four fail |
| Columns.Splits | app/page.tsx:933-961 | the per-opening test of checkBeamIntersectsOpening for a vertical beam: the column classifies onto the opening's wall, the test height lies within the opening's height range, and the column lies within the opening's span along the wall |
| Columns.FirstHit | app/page.tsx:933-961 | the first opening that splits the column, or none exactly when none splits it |
| Columns.ColumnPieces | app/page.tsx:1035-1063 | no hit gives the full column; a hit gives at most two pieces |
| Columns.ColumnMembers | app/page.tsx:1023-1063 | what a column is rendered as: the pieces around the first opening that splits it at half the gutter height; ColumnMembersCases states both cases |
| Columns.SplitReconstructs | app/page.tsx:1048-1061 | the pieces below and above the door are ordered and inside the column, miss the door, and together with the door cover the column |
| Columns.ColumnMembersCases | app/page.tsx:1025-1063 | the column is whole when no opening splits it at half the gutter height; otherwise it is split around the first such opening |
| Columns.CornersAreFrontAndBack | app/page.tsx:1019-1022 | corner columns classify as front or back, so side doors never split them |
| Columns.InteriorSpacingIsWide | app/page.tsx:1388 | with two or more bays the spacing exceeds 2.5 m |
| Columns.ColumnSitesClassified | app/page.tsx:1369-1400 | every column classifies as its own wall, except corners drawn for a side, which classify as front or back |
| Columns.SameWallBackup | app/backup-working-left-right.tsx:675-686 | the backup's same-wall test: within 0.1 of the opening's own plane coordinate (z1 on front and back, x1 on the sides), with no wall classification |
| Columns.SplitsBackup | app/backup-working-left-right.tsx:668-713 | the backup's per-opening test: the same-wall test, the height range, and the span along the wall |
| Columns.ColumnMembersBackup | app/backup-working-left-right.tsx:729-763 | what a column is rendered as in the backup: the pieces around the first opening its test accepts; CornerSplitOnlyInBackup and BackupSplitsTheSameWay relate it to ColumnMembers |
| Columns.CornerSplitOnlyInBackup | app/backup-working-left-right.tsx:668-726 | a side door covering a corner splits the corner column in the backup, but not on the current page |
| Columns.BackupSplitsTheSameWay | app/backup-working-left-right.tsx:729-763 | the backup splits around the first matching opening in the same way |
| WallPurlins.SteppedClosedForm | app/page.tsx:909-914 | the loop's heights are start + k·step, all strictly below the limit, and the last gap to the limit is at most one step |
| WallPurlins.SteppedIsTheGrid | app/page.tsx:911-913 | consecutive heights are exactly 1.5 m apart |
| WallPurlins.SteppedHeights | app/page.tsx:909-914 | the while loop computes those heights |
| WallPurlins.Stepped | app/page.tsx:909-914 | the heights the while loop pushes: start + step, start + 2·step, … while the next one stays below the limit; SteppedClosedForm gives them in closed form |
| WallPurlins.ExtraHeights | app/page.tsx:902-924 | front/back below the peak; sides below the gutter, plus the gutter itself |
| WallPurlins.WallHeights | app/page.tsx:899-924 | as written: the fixed heights 0, 0.9 and 2.1 always come first, whatever the gutter; the side list always ends with the gutter |
| WallPurlins.WallHeightsBounded | app/page.tsx:899-924 | for a gutter above 2.1 m: front heights lie below the peak; side heights lie at or below the gutter, ending at it |
| WallPurlins.LowGutterSidePurlinAboveTheWall | app/page.tsx:899-924 | as written: for a gutter above 0.9 m and at most 2.1 m (the dimension menu allows 2 m, components/dimension-menu.tsx:236-246), the side heights are 0, 0.9, 2.1 and the gutter, so a purlin lies above the wall's top and the heights do not increase |
| WallPurlins.SideHeightsFitTheWall | app/page.tsx:899-924 | corrected: only the fixed heights below the gutter are kept; all side heights lie within the wall, strictly increase and end at the gutter, and above 2.1 m they equal the page's heights |
| WallPurlins.DefaultBarnHeights | app/page.tsx:899-924 | a 3 m gutter gives front 0, 0.9, 2.1, 3.6 and sides 0, 0.9, 2.1, 3.0 |
| WallPurlins.BackupHeightLoop | app/backup-working-left-right.tsx:646-655 | the backup's loop steps 2.5 m from 0.9 while more than a step is left below the gutter |
| WallPurlins.BackupExtraHeights | app/backup-working-left-right.tsx:642-664 | the same heights for front/back and the sides |
| WallPurlins.BackupHeightsBelowGutter | app/backup-working-left-right.tsx:652-663 | all of them below the gutter, the last within a step of it |
| WallPurlins.RunFilter.Keeps | app/page.tsx:1077 | which openings a run subtracts: those whose height range contains the run's height; the backup's ground and gutter runs use every door, or the doors that reach the gutter |
| WallPurlins.WallSpans | app/page.tsx:1077-1078 | at most one span per opening |
| WallPurlins.WallSpansSound | app/page.tsx:1077-1078 | every span is that of an opening on the wall that passes the filter |
| WallPurlins.WallSpansComplete | app/page.tsx:1077-1078 | every such opening contributes its span |
| WallPurlins.WallSpansWellFormed | app/page.tsx:1077-1078 | the spans run forwards |
| WallPurlins.WallRun | app/page.tsx:1075-1116 | the base run of one wall: the wall's span minus the sorted spans of the kept openings; WallRunIsTheWallMinusItsDoors states what it is |
| WallPurlins.WallRunIsTheWallMinusItsDoors | app/page.tsx:1075-1116 | no crossing opening gives the full wall; otherwise the run and the openings cover the wall exactly, without overlap |
| WallPurlins.BackupFiltersMatch | app/backup-working-left-right.tsx:816 | for floor-standing doors, the backup's ground filter equals the height test at 0, and its gutter filter equals the test at the gutter |
| WallPurlins.FiltersAgree | app/backup-working-left-right.tsx:973-974 | filters that agree on every opening give the same spans |
| WallPurlins.ReducedWidth | app/page.tsx:1129-1131 | strictly between the gutter and the peak, the narrowed width is positive and below the wall's width |
| WallPurlins.GableBand | app/page.tsx:1138-1139 | the band is centred, as wide as the narrowed width, and strictly inside the wall |
| WallPurlins.TaperedRun | app/page.tsx:1124-1159 | as written: the gable band minus the crossing openings whose start lies inside the band |
| WallPurlins.PurlinRun | app/page.tsx:1075-1159 | the run drawn once per wall and height: the tapered run for front and back above the gutter, else the base run; PurlinRunFitsTheGable states what it is |
| WallPurlins.PurlinRunFitsTheGable | app/page.tsx:1124-1159 | above the gutter, the front/back run consists of ordered spans inside the gable band |
| WallPurlins.RenderedRunAsWritten | app/page.tsx:1120-1162 | as written: the narrowed run is emitted once per base segment |
| WallPurlins.RepeatInBand | app/page.tsx:1120-1162 | the map over the base segments repeats the narrowed run once per segment |
| WallPurlins.RunAsWritten | app/page.tsx:1120-1162 | as written: above the gutter on front and back, the tapered run repeated once per piece of the base run; elsewhere the base run; RunAsWrittenRepeatsTheTaper relates it to PurlinRun |
| WallPurlins.RunAsWrittenRepeatsTheTaper | app/page.tsx:1120-1126 | below the gutter, or on the sides, as-written equals the intended run; above it on front/back, the intended run is repeated once per base segment |
| WallPurlins.DuplicatedAboveGutter | app/page.tsx:1120-1162 | concrete case: a door splitting the base run yields the narrowed run twice |
| WallPurlins.RenderedRun | app/page.tsx:1075-1159 | the intended computation: one run per height and wall |
| WallPurlins.DoorReachingIntoTheGableIsIgnored | app/page.tsx:1143-1152 | as written: a door from -4 m to -2 m, 4 m high, on an 8 m front with a 3 m gutter and a 2 m roof starts left of the band [-2.8, 2.8] at 3.6 m, so the run there is the whole band and overlaps the door; clipping the door to the band gives [-2, 2.8] |
| WallPurlins.ClippedTaperAvoidsTheDoors | app/page.tsx:1124-1159 | corrected: with the crossing openings clipped to the band, the narrowed run is ordered inside the band, misses every opening, and with the openings covers the band |
| Intervals.ClippedRunAvoidsTheOpenings | app/page.tsx:1142-1159 | over openings clipped to a band, the cursor walk gives ordered spans inside the band that miss every opening and with them cover the band |
| WallPurlins.DoorOnDefaultFrontWall | app/page.tsx:1075-1095 | a 3 m door at 2.5 m on an 8 m front wall leaves [-4, -1.5] and [1.5, 4] at 0.9 m and at 2.1 m |
| RoofPurlins.IntermediateCount | app/page.tsx:640 | `max(0, ceil(slope/1.5) - 1)`: the fewest intermediates leaving gaps of at most 1.5 m |
| RoofPurlins.PurlinCount | app/page.tsx:641 | the count the page reports: gutter, intermediates and two ridge purlins; RafterPurlins has exactly that many |
| RoofPurlins.RafterPurlins | components/roof-purlins.tsx:14-76 | gutter + intermediates + two ridge purlins |
| RoofPurlins.ComputeRoofPurlins | components/roof-purlins.tsx:14-76 | the loop computes that layout |
| RoofPurlins.RafterPurlinClosedForm | components/roof-purlins.tsx:41-60 | the i-th purlin sits at i/(n+1) of the way from the gutter to the ridge |
| RoofPurlins.RafterSpacingAtMostMax | components/roof-purlins.tsx:17-21 | the spacing along the slope is at most 1.5 m, and one fewer purlin would exceed it |
| RoofPurlins.RafterLayout | components/roof-purlins.tsx:25-76 | gutter first, intermediates in order, ridge purlins 0.05 m either side of the centre |
| RoofPurlins.IntermediatesInsideTheRoof | components/roof-purlins.tsx:38-61 | intermediates lie strictly between the gutter and the ridge |
| RoofPurlins.EquallySpacedAlongTheRafter | components/roof-purlins.tsx:38-61 | consecutive purlins are equally spaced in x and y |
| RoofPurlins.StepIsTheActualSpacing | components/roof-purlins.tsx:38-61 | that step has length slope/(n+1) along the rafter |
| RoofPurlins.HeightsIncrease | components/roof-purlins.tsx:38-61 | heights strictly increase from the gutter upwards |
| RoofPurlins.MirrorSymmetric | components/roof-purlins.tsx:25-61 | each purlin is mirrored about the ridge at equal height |
| RoofPurlins.LinearPurlins | app/backup-working-left-right.tsx:1506-1549 | the backup layout has numSpaces + 2 purlins |
| RoofPurlins.BackupPurlinCount | app/backup-working-left-right.tsx:406-410 | the backup's count: gutter, numSpaces - 1 intermediates and two ridge purlins; LinearPurlins has exactly that many |
| RoofPurlins.BackupRoofPurlins | app/backup-working-left-right.tsx:1512-1534 | the backup loop computes it |
| RoofPurlins.LinearPurlinClosedForm | app/backup-working-left-right.tsx:1523-1534 | the i-th backup purlin sits at i/numSpaces of the rise |
| RoofPurlins.LinearMatchesRafter | app/backup-working-left-right.tsx:402-410 | with numSpaces = ceil(slope/1.5), the backup layout equals the current one |
| RoofPurlins.DefaultBarnRoof | app/page.tsx:636-641 | an 8 m wide roof 2 m high has 2 intermediates and 5 purlins |
| DoorFrame.FirstBeamAboveDoor | app/page.tsx:1562-1590 | as written: windows use the gutter; a door below 0.9 m uses 0.9; otherwise the next line of the 0.9 + 1.5k grid, capped at the gutter |
| DoorFrame.DoorTop | app/page.tsx:1571 | the door's top: elevation plus height, both converted from millimetres to metres |
| DoorFrame.FirstBeamOnTheDoorGrid | app/page.tsx:1576-1587 | that beam is the gutter or a line of the 0.9 + 1.5k grid |
| DoorFrame.ExtraHeight | app/page.tsx:1592 | the extension from a door's top to its beam; zero for windows |
| DoorFrame.ExtensionNonNegative | app/page.tsx:1585-1592 | under the gutter the extension is non-negative, and positive for a door below the gutter |
| DoorFrame.WalkDoorBeamMissesThePurlins | app/page.tsx:1576-1582 | a 2.3 m walk door under a 3 m gutter gets a beam at 2.4, where no wall has a purlin |
| DoorFrame.LeastAbove | app/page.tsx:1567-1587 | the least height above a bound, or the cap |
| DoorFrame.FirstPurlinAboveDoor | app/page.tsx:1567 | corrected beam: windows still use the gutter |
| DoorFrame.FirstPurlinIsTheNextPurlin | app/page.tsx:899-924 | the corrected beam is the lowest purlin of the wall above the door, or the gutter |
| HomeItems.UpdateItemsChangesOnlyThatId | app/page.tsx:195-197 | update keeps length and order, merges into the matching items only, and keeps ids for a patch without an id |
| HomeItems.DeleteItemsRemovesExactlyTheId | app/page.tsx:200-201 | delete drops exactly the id and keeps the rest in order |
| HomeItems.AddedItemDeletesCleanly | app/page.tsx:185-201 | add, optionally update, then delete restores the list |
| HomeItems.UpdateItems | app/page.tsx:195-197 | handleUpdateItem's map: the patch spread into each item with the id; UpdateItemsChangesOnlyThatId states what it does |
| HomeItems.DeleteItems | app/page.tsx:200-201 | handleDeleteItem's filter: the items with another id; DeleteItemsRemovesExactlyTheId states what it does |
| HomeItems.PageWalls | app/page.tsx:177-182 | the page's wall list: four entries, one per wall, each with the wall's own span (width for front and back, length for the sides) |
| HomeItems.ItemWallWidth | app/page.tsx:177-182 | zero without a selected item; else the width the page's wall list gives the item's wall (the lookup at lines 208-210): the width for front and back, the length for left and right |
| HomeItems.FindItem | app/page.tsx:208 | `find`: a found item has the id and is the first item with it; none exactly when no item has it |
| HomeItems.ItemList.constructor | app/page.tsx:185-205 | empty list, no selection, no preview |
| HomeItems.ItemList.AddItem | app/page.tsx:185-192 | appends the item with id "item-" + stamp and clears the preview |
| HomeItems.ItemList.UpdateItem | app/page.tsx:195-197 | the list becomes the update-by-id of the old list |
| HomeItems.ItemList.DeleteItem | app/page.tsx:200-205 | the list becomes the filter; the selection is cleared exactly when it was that id |
| HomeItems.ItemList.SetPreviewItem | app/page.tsx:58 | the preview setter declared here and handed to the items menu as onPreviewItem (line 410): only the preview changes |
| ItemsMenu.Counts.Inc | components/items-menu.tsx:157-160 | one more of that type; the other counts stay |
| ItemsMenu.NatToString | components/items-menu.tsx:55 | a non-empty string of digits |
| ItemsMenu.NatToStringRoundTrip | components/items-menu.tsx:55 | reading the digits back gives the number |
| ItemsMenu.GenerateItemName | components/items-menu.tsx:51-57 | the bare type name for count 1, else the type name, a space and the count |
| ItemsMenu.GeneratedNamesAreDistinct | components/items-menu.tsx:51-57 | equal names come from the same type and count |
| ItemsMenu.TypeName | components/items-menu.tsx:53-55 | the display name of a type: non-empty, with no space and no dash, so a generated name splits back into type and count |
| ItemsMenu.DefaultsStandDoorsOnTheFloor | components/items-menu.tsx:64-76 | doors default to elevation 0 and windows above it; all sizes are positive |
| ItemsMenu.Defaults | components/items-menu.tsx:64-76 | the menu's default size and elevation per type; DefaultsStandDoorsOnTheFloor states what they promise |
| ItemsMenu.FindWall | components/items-menu.tsx:101 | `find`: a found wall is the selected one and the first with that id; none exactly when no wall matches |
| ItemsMenu.WallWidth | components/items-menu.tsx:101-102 | `selectedWallData?.width \|\| 0`: the width of the first wall with the selected id, and 0 when no wall has it |
| ItemsMenu.MaxPosition | components/items-menu.tsx:105 | `max(0, wallWidth - width/1000)` |
| ItemsMenu.MiddlePosition | components/items-menu.tsx:112 | equal room to the left and to the right of the item |
| ItemsMenu.MiddleWithinRange | components/items-menu.tsx:105-112 | an item not wider than its wall is placed between 0 and the maximum position |
| ItemsMenu.CalculateDistances | components/items-menu.tsx:199-218 | none unless placed; left + item + right = wall; panel distances add the panel thickness |
| ItemsMenu.PlacedItemIsCentred | components/items-menu.tsx:108-218 | a placed item is as far from the left as from the right, with or without panels |
| ItemsMenu.ItemsMenu.constructor | components/items-menu.tsx:35-45 | sectional door 3000 × 3000 at 0, no wall, zero counts, not placed |
| ItemsMenu.ItemsMenu.CurrentDistances | components/items-menu.tsx:199-200 | none exactly when no wall is selected or the item is not placed |
| ItemsMenu.ItemsMenu.HandleItemTypeChange | components/items-menu.tsx:60-84 | the type's default size and elevation, the next name, not placed, preview cleared |
| ItemsMenu.ItemsMenu.HandlePlaceItem | components/items-menu.tsx:108-129 | without a wall, nothing; else centred, placed, and the preview sent |
| ItemsMenu.ItemsMenu.HandlePositionChange | components/items-menu.tsx:132-150 | the new position; the preview is sent only while placed on a wall |
| ItemsMenu.ItemsMenu.HandleAddItem | components/items-menu.tsx:153-179 | as written: with no wall selected or nothing placed, nothing changes (line 154); otherwise count +1, item emitted, defaults reset, and a generated name repeats |
| ItemsMenu.ItemsMenu.HandleAddItemWithFreshName | components/items-menu.tsx:153-179 | corrected: the same early return with nothing changed, but after an add the reset name differs from the one just used |
| ItemsMenu.ItemsMenu.HandleWallChange | components/items-menu.tsx:182-188 | the wall is selected, not placed, preview cleared |
| ItemsMenu.ItemsMenu.HandleCancelPlacement | components/items-menu.tsx:191-196 | not placed, preview cleared, all else kept |
| ItemEditor.Before | components/item-editor.tsx:15 | the prefix before the first separator, which it does not contain |
| ItemEditor.After | components/item-editor.tsx:15 | the text after the first separator, or none exactly when the separator is absent |
| ItemEditor.ItemNumber | components/item-editor.tsx:15 | `id.split("-")[1] \|\| "1"`: a non-empty segment without a dash; "1" without a dash |
| ItemEditor.EditorNameShowsTheStamp | components/item-editor.tsx:14-17 | for the ids the page hands out, the name shows the stamp |
| ItemEditor.EditorItemName | components/item-editor.tsx:14-17 | the editor's generated name: the type's display name, a space and the id's number; InitialName states its shape |
| ItemEditor.InitialName | components/item-editor.tsx:14-34 | never empty; the item's name unless missing or empty, else a generated name of the form type name, a space, and a number without a dash |
| ItemEditor.DefaultsDifferOnlyForTheWindowWidth | components/item-editor.tsx:57-72 | the editor's defaults equal the menu's, except that the window is twice as wide |
| ItemEditor.EditorDefaults | components/item-editor.tsx:57-72 | the editor's defaults per type; DefaultsDifferOnlyForTheWindowWidth compares them with the menu's |
| ItemEditor.ClampPosition | components/item-editor.tsx:80-81 | unchanged while it fits, else `max(0, wallWidth - width/1000)` |
| ItemEditor.ClampKeepsTheItemInside | components/item-editor.tsx:79-84 | a non-negative position never moves right or below 0; an item not wider than the wall ends inside it |
| ItemEditor.GetItemTypeName | components/item-editor.tsx:281-292 | each type's code gets its display name |
| ItemEditor.UnknownCodeIsAnItem | components/item-editor.tsx:289-290 | every other code is "Item" |
| ItemEditor.ItemEditor.constructor | components/item-editor.tsx:29-34 | the local state copies the item |
| ItemEditor.ItemEditor.HandleWidthChange | components/item-editor.tsx:75-85 | width reported; the position is clamped and reported only when the item no longer fits |
| ItemEditor.ItemEditor.HandleItemTypeChange | components/item-editor.tsx:52-73 | type reported, then the type's defaults |
| ItemEditor.ItemEditor.HandleNameChange | components/item-editor.tsx:47-50 | the name set and reported |
| ItemEditor.ItemEditor.HandleHeightChange | components/item-editor.tsx:87-90 | the height set and reported |
| ItemEditor.ItemEditor.HandlePositionChange | components/item-editor.tsx:92-95 | the position set and reported |
| ItemEditor.ItemEditor.HandleElevationChange | components/item-editor.tsx:97-100 | the elevation set and reported |
| ItemEditor.ItemEditor.HandleDelete | components/item-editor.tsx:102-105 | delete, then close |
| StructureStore.MergeOverwritesPresentFields | components/structure-context.tsx:50-52 | the spread overwrites exactly the fields the patch carries |
| StructureStore.MergeIdentityAndIdempotence | components/structure-context.tsx:50-52 | an empty patch changes nothing; applying a patch twice is applying it once |
| StructureStore.MergeOpeningKeepsId | components/structure-context.tsx:71 | merging keeps the id; an empty patch changes nothing |
| StructureStore.MergeStructure | components/structure-context.tsx:50-52 | `{ ...prev, ...data }` on the structure; MergeOverwritesPresentFields and MergeIdentityAndIdempotence state what it does |
| StructureStore.MergeOpening | components/structure-context.tsx:71 | `{ ...opening, ...data }` on an opening, keeping its id; MergeOpeningKeepsId states what it does |
| StructureStore.UpdateOpenings | components/structure-context.tsx:68-73 | updateOpening's map over the openings; UpdateOpeningsKeepsIds states what it does |
| StructureStore.RemoveOpenings | components/structure-context.tsx:75-79 | removeOpening's filter over the openings; RemoveOpeningsRemovesExactlyTheId states what it does |
| StructureStore.UpdateOpeningsKeepsIds | components/structure-context.tsx:68-73 | same length, order and ids; only the matching openings are merged |
| StructureStore.RemoveOpeningsRemovesExactlyTheId | components/structure-context.tsx:75-79 | exactly the id is dropped, the rest kept in order |
| StructureStore.AddedOpeningRemovesCleanly | components/structure-context.tsx:54-79 | add, optionally update, then remove restores the list |
| StructureStore.UseStructure | components/structure-context.tsx:105-111 | the store inside a provider, else the error with its message |
| StructureStore.StructureProvider.constructor | components/structure-context.tsx:35-48 | 6 × 8 m, 3 m gutter, 15°, no openings, nothing selected |
| StructureStore.StructureProvider.UpdateStructure | components/structure-context.tsx:50-52 | the structure becomes the spread of the patch |
| StructureStore.StructureProvider.AddOpening | components/structure-context.tsx:54-66 | appends with id "opening-" + stamp and selects it; nothing else changes |
| StructureStore.StructureProvider.UpdateOpening | components/structure-context.tsx:68-73 | only the openings change, to the update-by-id |
| StructureStore.StructureProvider.RemoveOpening | components/structure-context.tsx:75-84 | only the openings change, to the filter; the selection is cleared exactly when it was that id |
| StructureStore.StructureProvider.SetSelectedWall | components/structure-context.tsx:47 | only the selected wall changes |
| StructureStore.StructureProvider.SetSelectedOpening | components/structure-context.tsx:48 | only the selected opening changes |
| StructureViewer.DefaultOpeningWidth | components/structure-viewer.tsx:121 | at most 1 m and strictly narrower than the wall |
| StructureViewer.DefaultOpeningHeight | components/structure-viewer.tsx:122 | at most 2 m and strictly lower than the wall |
| StructureViewer.RawDistanceFromLeft | components/structure-viewer.tsx:110-115 | as written: the click's distance from the negative end of the wall's axis (x + width/2 on front and back, z + length/2 on the sides) |
| StructureViewer.ClampedOffset | components/structure-viewer.tsx:125-141 | the opening stays inside the range; centred on the click when possible, else flush with the near edge |
| StructureViewer.WallClick | components/structure-viewer.tsx:94-144 | selects the wall; adds a door exactly when the wall has a size, fitting inside the wall |
| StructureViewer.ClickInsideIsTheCentre | components/structure-viewer.tsx:105-141 | a click far enough from the edges gives a door whose centre lies at the click's distance from the wall's negative end and at the click's height |
| StructureViewer.OpeningCenter | components/structure-viewer.tsx:221-255 | the drawn centre is at the opening's mid-height |
| StructureViewer.ViewerMirrorsBackAndRight | components/structure-viewer.tsx:227-255 | front and left agree with the page's rectangles; back and right are mirrored |
| StructureViewer.ClickedDoorMirroredOnBackAndRight | components/structure-viewer.tsx:105-255 | as written (the click at lines 105-115, the drawing at 221-255): the door added by a click is drawn under the pointer on the front and left walls, and at the mirror position on the back and right walls |
| StructureViewer.CorrectedWallClick | components/structure-viewer.tsx:105-141 | corrected: the click measured from the end each wall is drawn from; CorrectedClickIsDrawnUnderThePointer states what it achieves |
| StructureViewer.CorrectedClickIsDrawnUnderThePointer | components/structure-viewer.tsx:105-255 | corrected (the click at lines 105-141, the drawing at 221-255): measuring back and right clicks from the wall's drawn left end, a door is added and drawn centred under the pointer on every wall |
| StructureViewer.ClickedOpeningDrawnInsideTheWall | components/structure-viewer.tsx:94-255 | a clicked door is drawn wholly within its wall |

## Left out

- Rendering: meshes, box sizes, rotations, colours, materials, labels, and the beam cross-sections are not modelled.
- The ridge-post extension meshes (app/page.tsx:1402-1413) are not modelled: they are fixed meshes with no layout rule.
- The 2D elevation and top views, the PDF report, the save/load panel, printing and notifications are not modelled.
- Floating point, `Math.tan` and `Math.sqrt` are left out. The roof height and the rafter length are inputs related by `slope² = (width/2)² + roofHeight²`. Operations that divide by a span in the page require that span to be positive, because the page would produce NaN there.
- Date-based ids: `Date.now()` becomes a `stamp` parameter.
- React batching and deferred state updates are left out. Each handler is one atomic state change that reads the state as it was before the handler.
- The panel thickness prop is parsed with `parseInt` from a text like "60mm". The model takes the parsed thickness, in metres, as a `const` field.
- Wall ids are typed as `Wall`, not free strings. So the unknown-wall branches and the empty-string check of `!selectedWall` are not modelled. `StructureStore.StructureProvider.SetSelectedWall` keeps the free string the store holds.
- The editor's `useEffect` re-sync when its item prop changes is not modelled. Neither is its display-only maximum position or its unused length prop.
- RoofPurlins.ComputeRoofPurlins: the `numPurlins` and `numSpaces` props are ignored, as they are by the component.
- RoofPurlins.LinearPurlins: requires `numSpaces >= 1` and a positive width. The component would divide by zero otherwise.
- The backup page's column labels and its debug text are not modelled.
- WallPurlins.PurlinRun and WallPurlins.RenderedRun keep the page's band filter (openings starting in the band). The clipped run of `WallPurlins.ClippedTaperedRun` stands beside them and is not used by the rendering methods.
- WallPurlins.ExtraHeights and WallPurlins.WallHeights keep the page's fixed 2.1 m side purlin for low gutters. `WallPurlins.SideHeights` is the corrected list and stands beside them.
- StructureViewer.WallClick keeps the page's measurement from the negative end. `StructureViewer.CorrectedWallClick` is the corrected click and stands beside it.
- ItemEditor.ClampKeepsTheItemInside: "never moves right" is stated only from a non-negative position. From a negative position the clamp moves the item right, to 0.

## Findings

| source | as written | input that shows it | evidently intended | confidence | as-written member | corrected member |
|---|---|---|---|---|---|---|
| app/page.tsx:1576-1582 | the beam above a door is searched on a 0.9 + 1.5k m grid | a 2300 mm walk door at elevation 0 under a 3 m gutter gets its beam at 2.4 m. The wall purlins are at 0, 0.9, 2.1, 3.6 on the front and 0, 0.9, 2.1, 3.0 on the sides, so no purlin exists at 2.4 | the lowest wall purlin above the door (grid 2.1 + 1.5k, or the gutter) | not executed | DoorFrame.WalkDoorBeamMissesThePurlins | DoorFrame.FirstPurlinIsTheNextPurlin |
| app/page.tsx:1120-1162 (also 1218-1255) | the narrowed front/back run is computed inside the map over the base segments, so it is emitted once per base segment | 8 m front, 3 m gutter, 2 m roof, a 3 m wide door 4 m high centred: at 3.6 m the base run has two segments, and the narrowed run [-2.8, -1.5], [1.5, 2.8] is drawn twice | the narrowed run drawn once | not executed | WallPurlins.DuplicatedAboveGutter | WallPurlins.PurlinRunFitsTheGable |
| app/page.tsx:917-924 | the sides always get the fixed purlin at 2.1 m and then the gutter | a 2 m gutter, which the dimension menu allows, gives side heights 0, 0.9, 2.1, 2.0: a purlin 0.1 m above the wall's top, after the gutter purlin | only fixed heights below the gutter, then the gutter | not executed | WallPurlins.LowGutterSidePurlinAboveTheWall | WallPurlins.SideHeightsFitTheWall |
| components/structure-viewer.tsx:110-115 with 236-252 | a click is measured from the wall's negative end, but back and right openings are drawn from the positive end | a click on the back wall at x = 1 m adds a door drawn centred at x = -1 m | the door drawn under the pointer on every wall | not executed | StructureViewer.ClickedDoorMirroredOnBackAndRight | StructureViewer.CorrectedClickIsDrawnUnderThePointer |
| app/page.tsx:1146-1152 | in the gable band only openings whose start lies in the band are subtracted | a door from -4 m to -2 m, 4 m high, on an 8 m front with a 3 m gutter and a 2 m roof: the run at 3.6 m is [-2.8, 2.8], through the door | openings clipped to the band, giving [-2, 2.8] | not executed | WallPurlins.DoorReachingIntoTheGableIsIgnored | WallPurlins.ClippedTaperAvoidsTheDoors |
| components/items-menu.tsx:157-173 | after an add, the name is reset from the count before the increment | add a first sectional door named "Sectionaaldeur": the form is reset to "Sectionaaldeur" again, so the next door repeats the name | the reset name uses the incremented count ("Sectionaaldeur 2") | not executed | ItemsMenu.ItemsMenu.HandleAddItem | ItemsMenu.ItemsMenu.HandleAddItemWithFreshName |
