# Proofs about the encoding service

A Dafny model of the parts of this repository whose correctness is hardest to see by reading: the
raster tracer, the job orchestrator of the encoding worker, the choice of preview shots, the
resumable Drive upload, the two-half AnimeciX publish record, the merge of subtitle documents and
the subtitle reader and printer. Each module models one component, keeps its branches, constants
and error cases, and proves what the component is for. `dafny verify dfyconfig.toml` checks it all.

## How it is built

| modules | component |
|---|---|
| `Grid`, `Flood`, `Despeckle`, `Contour`, `Compact`, `Smooth`, `Histogram`, `Clustering`, `Seeding`, `Quantize`, `Pipeline` | the region pipeline of kagami-trace |
| `Clusters`, `Placement`, `Preview` | preview shot selection |
| `Jobs`, `QueueFacts`, `Effects`, `Rounds`, `Turns`, `Epochs`, `Links`, `Forwards`, `Owners`, `Stranding`, `Departures`, `ForwardLimits`, `Batches`, `Uncounted`, `Orchestrator` | the queue loop of the worker |
| `Upload` | the Drive chunk loop |
| `Acix` | the AnimeciX publish record |
| `Merge` | merging and splitting subtitle documents |
| `AssScript` | reading and printing subtitle scripts |
| `Wrappers`, `Sorting`, `Text` | shared datatypes, the stable sort, string operations |

The orchestrator appears twice. `Jobs` gives every step of the loop as a function on its state, and
a run is a sequence of such steps from the empty queue. `Orchestrator.Loop` is the object the code
has: its methods change the queue and the counters in place, with the loops of the source, and each
is proved to take exactly the step that `Jobs` defines. `Effects` says job by job what a step does
to the queue, without its control flow; `Rounds` does so for downloads, waits, batches and stalls, and
`Turns` for a whole progression pass. The methods promise these effects too. Statements about
whole runs are proved on the steps, and `Orchestrator.Loop.Handle` keeps the invariants behind them.

Conventions of the model:

- A log records what happened in order (messages sent, stage reports, links made, dispatches, batch
  bookkeeping). It exists so that properties of whole runs can be stated.
- Files, the database, the clock, network answers and worker reports are parameters of a step.
  Sends to a worker succeed; the encoder layer is a reboot counter that a send may raise first.
- `Jobs.Possible` states what the surroundings of the loop guarantee: job ids are never reused,
  nobody reports `Declined`, only probes are reported `Probed`, and only running encodes are called
  stalled. A run starts with an empty queue and any set of ids of earlier processes. That a probe id
  names a probe is not guaranteed: the front ends accept the id of any job. Only `Forwards` assumes
  it, and that the id is a known one, in `Forwards.KeysApart`.
- Colours, centroids and distances of the clustering are reals, and the distances of despeckling
  are exact integers, as they are in the source's floats.
- Where a comment in the source and the code disagree the model follows the code: a download that
  waits for an active transfer is set to `Queued`, and the common tail of `queue_download_job`
  turns it into `Downloading` at once.

## What turned out not to hold

- Despeckling can leave specks behind: two touching specks swap their labels
  (`Despeckle.TouchingSpecksSwap`). A speck is left exactly where the touching regions of the original
  that are prescribed one opaque label have together too little area (`Despeckle.SpeckLeftExactly`). None is left of a region
  that touches no small region of another label (`Despeckle.NoSpecksLeft`), and none of a speck that
  takes the label of a large region it borders (`Despeckle.LeaningVanishes`).
- Fixed forward keys do give one unforwarded encode per key (`Owners.OneEncodePerKey`), but not
  chains of length one. A forward key names the source, the file index and the settings, but not
  whether the result is kept. So a kept encode shares its key with an ordinary one, and pancodes of
  one file share theirs among themselves; neither may be looked up as a parent on submission, yet
  both offer themselves in the pass. Three short runs then leave a forwarded job without its parent,
  and it is never told: `ForwardLimits.ChainOfTwoOrphans`, `ForwardLimits.PancodeChainOrphans` and
  `ForwardLimits.KeptParentOrphans` start from the empty queue. Exactly which turns make a chain is
  said by `Stranding.ChainMadeExactly`; exactly which reports, cancellations, stalls and passes
  strand a job, read off the queue before them, by `Stranding.TerminalReportStrandsExactly`,
  `Stranding.CancelStrandsExactly`, `Stranding.StallStrandsExactly` and
  `Stranding.PassStrandsExactly`, and for all events at once by `Departures.StepStrandsExactly`.
  If only ordinary encodes share keys, which can be read off a job
  before it is queued, none of it happens (`Forwards`). This leaves out kept encodes next to
  ordinary ones, and pancodes or batch children of one file.
- A batch entry whose hand-off fails is counted at once and again when the download ends
  (`Batches.MissedEntryCountsTwice`). The counters exceed the accounted entries by exactly the
  number of failed hand-offs (`Batches.CountersCountEntries`).
- A batch child that is cancelled at once, or that leaves as the follower or the probe of another
  job, leaves without its batch being told, so the batch never accounts for its entry.
  `Uncounted.StepLosesExactly` says for every event exactly when this happens.
- A nested style reset that dangles in the first document can be captured by a style of the second
  (`Merge.DanglingResetCaptured`), exactly when the second has such a style in use
  (`Merge.NestedDanglingExactly`). A reference that dangles in the second document can be captured by
  a style of the first (`Merge.DanglingSecondaryCaptured`), exactly when the first has such a style
  in use (`Merge.SecondaryDanglingExactly`).
- A rejected cluster may lose its place to worse-ranked shots only (`Preview.WorseShotDisplaces`).
  It happens exactly to a postponed cluster that a worse cluster of the first pass is too close to,
  when a place is left for it and no better backfilled one is too close
  (`Preview.LosesToWorseExactly`), and never to a cluster outside the cooldown of all better ones
  (`Preview.NotCooledLosesToBetter`).

## Model

| member | source | states |
|---|---|---|
| Grid.NeighborsOf | kagami-trace/src/lib.rs:424-431 | the neighbour table of a pixel names exactly its grid neighbours, each once, and never leaves the image |
| Grid.ComponentsPartition | kagami-trace/src/contour.rs:97-105 | two 4-connected same-label regions are equal or disjoint, so regions partition the image |
| Flood.FloodComplete | kagami-trace/src/contour.rs:38-66 | an exhausted worklist holds exactly the connected region of its start, each pixel once, and the marks again cover whole regions |
| Despeckle.ChooseReplacement | kagami-trace/src/lib.rs:399-417 | the chosen label borders the region and beats every other bordering label by edges, then colour, then index; none only if none borders |
| Despeckle.FloodCounting | kagami-trace/src/lib.rs:375-398 | the fill finds the region and counts, for every label, the edges the region shares with it |
| Despeckle.Run | kagami-trace/src/lib.rs:358-422 | every pixel gets what the original grid alone prescribes: kept in large or transparent regions, else the best bordering label, or transparent when there is none |
| Despeckle.ResultDetermined | kagami-trace/src/lib.rs:358-422 | that prescription has one result, so the scan order cannot matter; transparent pixels stay transparent |
| Despeckle.ReplacementUnique | kagami-trace/src/lib.rs:399-417 | at most one label is the replacement of a region |
| Despeckle.FourTimesDistance | kagami-trace/src/lib.rs:433-439 | the integer colour distance is four times the distance with halved alpha, so it orders colours alike |
| Despeckle.NoSpecksLeft | kagami-trace/src/lib.rs:358-422 | no speck is left of a region that touches no small region of another label, whatever happens elsewhere |
| Despeckle.LeaningVanishes | kagami-trace/src/lib.rs:399-417 | a speck that takes the label of a large region it borders ends in no speck |
| Despeckle.SpeckLeftExactly | kagami-trace/src/lib.rs:358-422 | read off the original: a speck is left if and only if an opaque label is prescribed and the pixels joined to it by touching, or by one region, under one prescribed opaque label are fewer than the minimum area; they are whole regions, none of them large |
| Despeckle.TouchingSpecksSwap | kagami-trace/src/lib.rs:358-422 | a two-pixel image of two specks keeps two specks |
| Contour.FillMask | kagami-trace/src/contour.rs:67-80 | the mask over the box is set exactly at the region's pixels, and no write leaves it |
| Contour.FloodBox | kagami-trace/src/contour.rs:40-66 | the running minima and maxima end as the tight bounding box of the region found |
| Contour.TraceRegion | kagami-trace/src/contour.rs:34-85 | one region: its pixels, its tight box, its mask, and the marks it leaves |
| Contour.RegionsForLabels | kagami-trace/src/contour.rs:11-95 | every opaque pixel is in exactly one traced region of its layer, regions are whole connected components, and layer k traces as many pixels as bear label k |
| Compact.CompactLabels | kagami-trace/src/lib.rs:441-471 | renumbering keeps every pixel's colour and which pixels share a label; counts are exact, positive, ordered and sum to the opaque pixels |
| Compact.SortKeyOrder | kagami-trace/src/lib.rs:473-475 | the sort key compares red, then green, then blue, then alpha |
| Smooth.SmoothedBetween | kagami-trace/src/lib.rs:275-330 | a smoothed channel lies between the extremes of the pixels that contribute, so no cast truncates |
| Smooth.PassMovesLittle | kagami-trace/src/lib.rs:275-330 | one pass moves no channel by more than the colour limit |
| Smooth.WeightIsProduct | kagami-trace/src/lib.rs:305-315 | a weight is four, two or one by the place in the window, times the likeness of the colours in steps of a third of the squared limit |
| Smooth.PartIs | kagami-trace/src/lib.rs:285-320 | the part of one place is the value there times that weight, and nothing outside the image or when alpha or colour differ too much |
| Smooth.SmoothedIsWindowMean | kagami-trace/src/lib.rs:285-328 | an opaque pixel takes in every channel the nearest integer to the weighted mean over all nine places, where those outside the image or not heard count nothing |
| Smooth.SmoothPixel | kagami-trace/src/lib.rs:285-328 | the window loops compute the rounded weighted mean of the contributing pixels |
| Smooth.SmoothPass | kagami-trace/src/lib.rs:275-332 | one pass over the image gives every pixel its smoothed colour |
| Smooth.EdgeAwareSmooth | kagami-trace/src/lib.rs:260-334 | the result is as many passes as asked, one after the other; they leave the pixels at or below the alpha threshold alone, make none, and drift by at most one limit per pass |
| Histogram.ExactKeyCount | kagami-trace/src/quantize.rs:54-69 | exact bins are as many as distinct opaque colours |
| Histogram.ReducedKeysAreCells | kagami-trace/src/quantize.rs:54-69 | two colours share a reduced key if and only if red, green and blue agree in eighths and alpha in sixteenths |
| Histogram.ReducedKeyCount | kagami-trace/src/quantize.rs:54-69 | reduced bins are as many as occupied cells of that grid |
| Histogram.BinHoldsItsCell | kagami-trace/src/quantize.rs:71-107 | the bin of a colour adds up, count and channel by channel, exactly the opaque pixels of its colour or cell |
| Histogram.BuildHistogram | kagami-trace/src/quantize.rs:71-107 | the bins hold exactly the opaque pixels of their key; it gives up exactly when there are more keys than the limit |
| Histogram.TallyAdds | kagami-trace/src/quantize.rs:71-107 | sums over disjoint sets of keys add up, so bins conserve pixels and colour sums |
| Clustering.Nearest | kagami-trace/src/quantize.rs:297-308 | the first centroid at minimum distance |
| Clustering.DistanceByAxis | kagami-trace/src/quantize.rs:310-316 | a step along one axis costs its square, and along alpha 0.1225 of it |
| Clustering.NearestIsCheapest | kagami-trace/src/quantize.rs:167-181 | reassigning to nearest centroids never raises the potential |
| Clustering.CostSplit | kagami-trace/src/quantize.rs:182-203 | what a cluster pays at c is what it pays at m plus mass times squared distance plus a term that vanishes at the mean |
| Clustering.MeanSaves | kagami-trace/src/quantize.rs:182-203 | moving a centroid to the weighted mean saves exactly mass times squared distance moved |
| Clustering.ReassignPass | kagami-trace/src/quantize.rs:167-181 | every sample is assigned its nearest centroid, and the change flag is exact |
| Clustering.MovePass | kagami-trace/src/quantize.rs:182-203 | every non-empty centroid becomes the mean of its cluster and the potential falls by exactly the sum of the savings |
| Clustering.LloydPass | kagami-trace/src/quantize.rs:167-203 | neither half of a pass raises the potential, and no assignment to the old centroids is cheaper than the middle |
| Clustering.Lloyd | kagami-trace/src/quantize.rs:160-207 | one to ten passes, each a reassignment and a move to the means, going on as long as assignments change, then a reassignment; the potential falls along every half and ends below every assignment to the seeds |
| Seeding.ToChosenIsMinimum | kagami-trace/src/quantize.rs:268-293 | the running distance is the minimum distance to the chosen samples |
| Seeding.PicksDistinct | kagami-trace/src/quantize.rs:256-295 | no sample is picked twice |
| Seeding.InitialCentroids | kagami-trace/src/quantize.rs:256-295 | exactly the asked number of centroids, taken from distinct samples, each pick of maximum score among the unchosen |
| Quantize.SourceSpacePalette | kagami-trace/src/quantize.rs:220-254 | each non-empty cluster's colour is the rounded mean of its bins |
| Quantize.ClusterHoldsItsPixels | kagami-trace/src/quantize.rs:182-218 | the bins of a cluster tally exactly the source pixels whose keys got its label |
| Quantize.Quantize | kagami-trace/src/quantize.rs:109-218 | exact mode exactly when gradients are kept and at most 8192 opaque colours exist; as many keys as colours or occupied cells, shared exactly within one; palette and labels are read off the clustering of the bins: seeds by the picking rule, whole passes, a last reassignment; every used palette colour is in each channel the nearest integer to the mean of the pixels labelled with it |
| Quantize.BinsHoldTheirCells | kagami-trace/src/quantize.rs:71-135 | every opaque pixel lies in a bin that adds up exactly the opaque pixels of its colour or cell, and whose sample is their nearest-integer mean seen perceptually |
| Quantize.QuantizedOnce | kagami-trace/src/quantize.rs:109-218 | the same pixels, asked for the same, are quantized in one way only |
| Clustering.RunDetermined | kagami-trace/src/quantize.rs:160-207 | samples and seeds determine the passes |
| Seeding.SeedsDetermined | kagami-trace/src/quantize.rs:256-295 | the samples determine the seeds |
| Quantize.LabelsFromPixels | kagami-trace/src/lib.rs:336-356 | a pixel is unlabelled exactly when it is transparent, and else bears its key's label |
| Pipeline.LabelGrid | kagami-trace/src/lib.rs:59-172 | the grid follows from the pixels step by step: the quantization by clustering, its labels, despeckling as prescribed, compaction that keeps colours and equal labels |
| Pipeline.GridDetermined | kagami-trace/src/lib.rs:59-172 | two such grids of the same pixels have the same quantization and the same despeckled labels, and after compaction the same colours, transparent pixels and equal labels everywhere |
| Pipeline.TraceRgba | kagami-trace/src/lib.rs:59-172 | what is traced is exactly the opaque pixels of the grid of the smoothed source, in disjoint connected components, counts[k] of them in layer k; the palette is empty if and only if despeckling leaves no opaque pixel; nothing transparent is traced |
| Clusters.GroupEvents | src/pnworker/preview.rs:268-317 | the candidates are cut into groups in which each starts within the gap of what came before, and groups lie more than the gap apart |
| Clusters.ClustersAreComponents | src/pnworker/preview.rs:268-317 | two events share a cluster exactly when a chain of overlapping or near events links them |
| Clusters.ShotOnScreen | src/pnworker/preview.rs:319-354 | a cluster's shot falls inside some member's time on screen |
| Clusters.HeaviestIsBest | src/pnworker/preview.rs:320-335 | no member is heavier than the one a heavy cluster's shot is taken from |
| Clusters.ClosestIsBest | src/pnworker/preview.rs:337-354 | no midpoint is closer to the centre than the one snapped to |
| Placement.CandidatesAreTimed | src/pnworker/preview.rs:268-277 | exactly the events with a positive duration are candidates, each as often as it occurs |
| Placement.SummaryCounts | src/pnworker/preview.rs:288-312 | a cluster has the earliest start, the latest end and the most tags of its members, and counts them, those with fonts and those with drawings |
| Placement.ShotByRule | src/pnworker/preview.rs:319-354 | the shot is the middle of a heaviest member if anything is drawn or tagged, else the middle of the span if that is strictly inside a member, else the middle of the member closest to it |
| Clusters.TypesetClusters | src/pnworker/preview.rs:268-335 | every event with positive duration is in exactly one cluster, spans are minimum start and maximum end, and clusters are the components |
| Preview.DenseRanks | src/pnworker/preview.rs:379-389 | ranks start at one, rise by at most one, and are equal exactly for clusters of equal rank |
| Preview.Choose | src/pnworker/preview.rs:193-250 | the verdicts are those the ranking determines by the rules of both passes; selected clusters first, then backfilled ones, each in order of rank; the choice is greedy |
| Preview.Backfill | src/pnworker/preview.rs:233-250 | postponed clusters get their second chance in order of rank, against the selected and the better backfilled ones, while places are left |
| Preview.FinalDetermined | src/pnworker/preview.rs:193-250 | at most one list of verdicts follows the rules |
| Preview.SelectClusters | src/pnworker/preview.rs:174-266 | clusters stand with font lines first, then by drawings, lines, tags and duration, each falling, then by rising start; ranks are equal exactly for ties in all but the start; at most max shots, pairwise at least the gap apart, in time order, with verdicts by the rules |
| Preview.Maximal | src/pnworker/preview.rs:193-250 | with fewer than max shots, every rejected cluster is marked as too close and lies within the gap of an accepted one |
| Preview.SelectedIsCool | src/pnworker/preview.rs:193-232 | the shot of a selected cluster lies before the end of a better-ranked selected one, or after the end of its cooldown |
| Preview.BestIsSelected | src/pnworker/preview.rs:193-232 | the best-ranked cluster is selected whenever any shot may be |
| Preview.NotCooledLosesToBetter | src/pnworker/preview.rs:193-250 | a cluster in the cooldown of no better one is rejected only for a better selected one too close, or because all places went to better ones |
| Preview.LosesToWorseExactly | src/pnworker/preview.rs:233-250 | a cluster loses its place to worse ones only if and only if the better ones left it a place, its gap and a cooldown, a worse one of the first pass is too close, and its second chance finds a place and no better backfilled one too close; all read off the ranking |
| Preview.WorseShotDisplaces | src/pnworker/preview.rs:174-250 | three events whose clusters, typeset and ranked, are given verdicts by which the second loses its place to the third |
| Preview.ShotsMatchVerdicts | src/pnworker/preview.rs:250-266 | there are as many shots as selected and backfilled verdicts |
| Epochs.PendingIsCurrent | src/pnworker/core.rs:256-266 | after an epoch check every dispatched job without a report was sent in the present epoch |
| Epochs.StaleIsFreed | src/pnworker/core.rs:241-254 | a waiting job sent to an older layer is free to be dispatched again, so a reboot loses none |
| Epochs.RunKeeps | src/pnworker/core.rs:241-266 | the dispatch invariant holds in every state of every run |
| Epochs.CheckedRunIsCurrent | src/pnworker/core.rs:256-266 | on every run, after a check, a pending job's last message is of the present epoch |
| Epochs.RunOrders | src/pnworker/core.rs:2457-2464 | on every run live dispatch orders are distinct and below the next one |
| Epochs.SendsIncrease | src/pnworker/core.rs:695-701 | two messages for one job without a stage report between them carry strictly increasing epochs |
| Links.RunLinks | src/pnworker/forwarding.rs:17-41 | in every state of every run each queued job's recorded parent is the one it was linked to, and every link joined two unlinked jobs |
| Links.LinkedOnce | src/pnworker/core.rs:2300-2317 | a linked job is never linked again and never becomes a parent |
| Links.ForwardLinksFormForest | src/pnworker/forwarding.rs:17-41 | no chain of links returns to where it started |
| Links.ForwardParentIsTheLink | src/pnworker/forwarding.rs:36-41 | the recorded parent never changes once made |
| Forwards.RunTidy | src/pnworker/forwarding.rs:17-108 | with fixed keys shared by ordinary encodes only, and probe ids that name probes: one owner per key, parents queued and unforwarded, no finished job in the queue, in every state |
| Owners.RunOwned | src/pnworker/core.rs:381-397 | with fixed keys and nothing else assumed: unique ids, one unforwarded encode per key, no finished job in the queue, in every state of every run |
| Owners.OneEncodePerKey | src/pnworker/forwarding.rs:17-34 | on every run with fixed keys no two unforwarded forwardable encodes in the queue share a key |
| Owners.NobodyFinished | src/pnworker/core.rs:1727-1745 | on such runs nobody in the queue has a terminal stage |
| Stranding.ChainMadeExactly | src/pnworker/core.rs:2293-2317 | in a queue without chains, a turn of the pass makes one if and only if it forwards a job that has a follower |
| Stranding.TerminalReportStrandsExactly | src/pnworker/core.rs:1727-1745 | a terminal report leaves a job without its queued parent if and only if one that stays follows one that leaves: the job, its followers or its probe |
| Stranding.ShallowReportStrandsNobody | src/pnworker/forwarding.rs:63-108 | without chains, and with nobody following the probe, it strands nobody |
| Stranding.PassStrandsExactly | src/pnworker/core.rs:2071-2455 | the pass strands a job if and only if, before it, somebody follows a job that dies in it |
| Stranding.CancelStrandsExactly | src/pnworker/core.rs:1403-1454 | cancelling strands a job if and only if the job goes at once and one of its followers has a follower |
| Stranding.StallStrandsExactly | src/pnworker/core.rs:1508-1573 | the failure of a stalled job strands a job if and only if one of its followers has a follower |
| Departures.StepDeparts | src/pnworker/core.rs:77-156 | every event takes out exactly the jobs that the state before it says |
| Departures.StepStrandsExactly | src/pnworker/core.rs:77-156 | an event of any kind strands a job if and only if, before it, one that stays follows one that leaves |
| Forwards.ChainsHaveLengthOne | src/pnworker/core.rs:2113-2140 | on such runs a forwarded job's parent is queued and not forwarded, and nobody is forwarded to it |
| Forwards.TerminalReportClears | src/pnworker/forwarding.rs:63-108 | a terminal report takes the job and everybody forwarded to it out of the queue |
| Forwards.TerminalReportLeavesNobody | src/pnworker/core.rs:1727-1745 | on such runs a terminal report leaves nobody forwarded to that id, whether or not the job was still queued |
| ForwardLimits.ChainOfTwoOrphans | src/pnworker/core.rs:2293-2317 | a kept encode and two ordinary ones of one key reach a queue with a forwarded encode whose parent is gone |
| ForwardLimits.PancodeChainOrphans | src/pnworker/core.rs:2293-2395 | three pancodes of one key and a reboot between dispatch and report reach a queue with a forwarded pancode whose parent is gone |
| ForwardLimits.KeptParentOrphans | src/pnworker/core.rs:2396-2404 | a kept encode that took a follower is taken out without telling it |
| Batches.OneBatchChildInFlight | src/pnworker/core.rs:2079-2085 | in every reachable state at most one batch child, across all batches, is dispatched and downloaded or encoding |
| Batches.BatchChildrenYield | src/pnworker/batch.rs:286-295 | every batch child went out with no other encode waiting, or after two ordinary encodes since the previous one |
| Batches.RunCounts | src/pnworker/core.rs:1757-1944 | the batch records fit the log in every state of every run on which no file is reported after the download's end |
| Batches.CountersCountEntries | src/pnworker/batch.rs:51-62 | finished plus failed is the number of distinct accounted entries plus the failed hand-offs, and the former never exceeds the total |
| Batches.DoneMeansNoChildren | src/pnworker/core.rs:1879-1944 | with hand-offs succeeding, a batch is reported done only when none of its children is queued |
| Batches.MissedEntryCountsTwice | src/pnworker/core.rs:1779-1800 | one failed hand-off of a one-file batch reaches two failures |
| Uncounted.StepLosesExactly | src/pnworker/core.rs:1403-1454 | an event of any kind takes out a batch child without telling its batch if and only if the child leaves by it, but neither by its own terminal report nor by its own stall with the batch queued |
| Orchestrator.Loop.ResetEncodeDispatches | src/pnworker/core.rs:241-254 | exactly the waiting jobs of older epochs are freed |
| Orchestrator.Loop.CheckEncodeRebootEpoch | src/pnworker/core.rs:256-266 | after a reboot exactly the unreported jobs of older layers lose their dispatch and nothing else of them; whoever is then dispatched and unreported was sent in the present epoch |
| Orchestrator.Loop.FindQueuedParent | src/pnworker/forwarding.rs:17-34 | the first queued job that may be the parent, for forwardable jobs only |
| Orchestrator.Loop.SyncForwardedState | src/pnworker/forwarding.rs:117-142 | every job forwarded to the parent, and no other, takes the stage and the worker |
| Orchestrator.Loop.SyncForwardedJobs | src/pnworker/forwarding.rs:63-108 | the same, and a terminal stage removes them all |
| Orchestrator.Loop.UpdateParent | src/pnworker/core.rs:1851-1875 | a terminal stage moves exactly one counter of the child's batch by one, finished for an upload and failed else, with one log entry; no other job changes, nor anything else of the batch |
| Orchestrator.Loop.SpawnChild | src/pnworker/core.rs:1757-1824 | a landed file whose first entry is open gets one child at the end of the queue, named by the entry, or moves the failed counter by one; any other file changes nothing |
| Orchestrator.Loop.Settle | src/pnworker/batch.rs:51-62 | the first settling adds one failure for every entry without a child |
| Orchestrator.Loop.BatchParentThings | src/pnworker/core.rs:1879-1944 | a landed batch counts each entry without a child as failed, once; then exactly the batches with entries, all accounted for, leave, the rest stays in order, and the log says both |
| Orchestrator.Loop.HandleReport | src/pnworker/core.rs:1659-1745 | the reporter takes the stage and keeps its dispatch only while encoding, its followers take stage and worker, its batch counts once; exactly the reporter, its followers and its probe leave on a finished stage; nobody else changes |
| Orchestrator.Loop.WorkerMessage | src/pnworker/core.rs:1575-1753 | a message about a job that left changes nothing; a worker's name reaches the job and its followers only; a landed file or a report has its effect |
| Orchestrator.Loop.Cancel | src/pnworker/core.rs:1403-1454 | if and only if the asker owns the queued job and no worker holds it, the job and its followers leave, and the others stay in order and unchanged |
| Orchestrator.Loop.FailStalledJobs | src/pnworker/core.rs:1508-1573 | one reboot, then one job after the other leaves with its followers; its batch, if queued, counts one failure and one log entry; nobody else changes |
| Orchestrator.Loop.QueueJob | src/pnworker/core.rs:158-201 | the job is turned away exactly when git blocks it, more than four top-level jobs are queued, its preparation failed or its batch is empty; else it joins at the end: an ordinary encode follows the first queued job that may lead, with its stage and the followers' name of its worker, and any other gets the stage and worker of its kind and download plan |
| Orchestrator.Loop.EncodeTurn | src/pnworker/core.rs:2293-2396 | the job rests, follows the first offer of its keys, waits for a copy or goes, each exactly when it should; one that goes carries the epoch after the message and the next order, and offers its keys without displacing anybody's |
| Orchestrator.Loop.JobTurn | src/pnworker/core.rs:2136-2450 | the effect of one turn for every kind and stage of a job |
| Orchestrator.Loop.Progression | src/pnworker/core.rs:2071-2455 | all jobs take their turns in order, from offers and sources the queue makes, first job first; an encoded job that is not kept is then Uploading with `upl-pending`, its followers Uploading with `upl-forward`; landed subtitles, previews and backups go to their workers, encodes rest, follow, wait or go; exactly those whose turn is their last leave; nobody else changes and the order stays |
| Effects.TurnHasEffect | src/pnworker/core.rs:2136-2450 | the turn of a job has the effect its kind and stage call for, on the job and on what the pass hands on |
| Turns.PassHasEffect | src/pnworker/core.rs:2071-2455 | the turns chain from what the queue offers before the first, and the queue after the last is made of the turned jobs that stay, with the followers of uploads told |
| Turns.PassDecides | src/pnworker/core.rs:2397-2455 | so each job ends where its kind and stage say |
| Orchestrator.Loop.ProbeRound | src/pnworker/core.rs:1456-1506 | exactly a probed job of this id leaves |
| Orchestrator.Loop.DuplicateWaitRound | src/pnworker/core.rs:1954-2034 | only an unforwarded job that waits for a copy changes, by the outcome of the wait |
| Orchestrator.Loop.DownloadRound | src/pnworker/core.rs:2036-2069 | only an unforwarded job of four kinds that waits for its download starts it, by its plan |
| Orchestrator.Loop.Handle | src/pnworker/core.rs:77-156 | whatever happens, the object takes the step of the state machine and keeps links, epochs and batch turns in order |
| Upload.AcknowledgedIsStored | src/lumiere-broker/upload.rs:943-961 | reading the Range header of n stored bytes gives n |
| Upload.DriveServer.Put | src/lumiere-broker/upload.rs:756-765 | the server assumed: it keeps some prefix of a chunk that starts where the stored bytes end, and any answer may get lost |
| Upload.QueryDriveOffset | src/lumiere-broker/upload.rs:898-941 | a status request gives the stored length, or the metadata of a complete file, and each error has its answer: lost, refused, or one whose range or metadata cannot be read |
| Upload.UploadDriveChunks | src/lumiere-broker/upload.rs:724-890 | every chunk is the file slice its Content-Range names, full unless it is the last, and starts at the stored length; the stored bytes stay a prefix; success only with issued metadata and all bytes stored; each error names the answer that caused it, and the loop gives up only at the sixth failure in a row; it ends within a bound on chunks |
| Acix.ResentOnlyAfterUnpublish | src/pnworker/acix.rs:320-341 | a half is sent again after an accepted send only with an unpublish covering it in between |
| Acix.HalvesAgree | src/pnworker/acix.rs:347-475 | two published halves were sent with the same credits line and fansub |
| Acix.AcixPending.UpgradeLegacyState | src/pnworker/acix.rs:131-143 | upgrading keeps what each half's state means |
| Acix.AcixPending.ResetPublishState | src/pnworker/acix.rs:165-175 | exactly the covered halves become pending |
| Acix.AcixPending.ApplyOverrides | src/pnworker/acix.rs:177-212 | edits go through exactly when neither half is published and the credits can be edited |
| Acix.EditedFields | src/pnworker/acix.rs:177-212 | an edit gives every field the value asked for, or leaves it, and fails exactly when roles are edited that cannot be read |
| Acix.SummarySays | src/pnworker/acix.rs:145-158 | the status says how many halves are out, or else whether one failed |
| Acix.ExtraIsLine | src/pnworker/core.rs:2800-2809 | the credits line is the trimmed names of the credited roles in order with separators between them |
| Acix.Service.UnpublishAcix | src/pnworker/acix.rs:320-341 | resets the covered halves, leaves the publish data, and keeps record and sends in step |
| Acix.Service.SendHalf | src/pnworker/acix.rs:420-472 | a published half is not sent; another is sent with the present data and marked by the outcome |
| Acix.Service.ConfirmAcix | src/pnworker/acix.rs:347-475 | edits of a record one half of which is out, or of roles nobody can read, get their refusal and nothing is sent; else each field is what the edit says or what it was, a role edit changes its role and the line alone, and each half not yet out is sent once with these values and marked by the outcome, or none without client or title; success exactly when both halves become published |
| Acix.Service.Serve | src/pnworker/acix.rs:320-475 | over every sequence of calls a half is marked published exactly when its last accepted send, with the present credits line and fansub, has not been forgotten |
| Merge.PrunedResolves | src/bin/pnass.rs:578-581 | pruning leaves every used name its first match and drops every other name |
| Merge.RenamedResolves | src/bin/pnass.rs:377-402 | renamed styles resolve renamed names as the old ones did |
| Merge.MergeKeepsMeaning | src/bin/pnass.rs:556-576 | every reference of either document, base or nested, that resolved still resolves to the same style body; primary events are untouched and dangling primary base styles dangle |
| Merge.OnlyOverlapRenamed | src/bin/pnass.rs:556-576 | renamed are exactly the used styles of the second document whose name the first one keeps |
| Merge.PrimaryNameKept | src/bin/pnass.rs:561-576 | a primary name resolves to the very same style after the merge |
| Merge.SecondaryNameKept | src/bin/pnass.rs:377-402 | a secondary name's new name resolves to its renamed style |
| Merge.NestedDanglingExactly | src/bin/pnass.rs:544-554 | a dangling nested reset of the first document stays dangling exactly when the second uses no such style |
| Merge.DanglingResetCaptured | src/bin/pnass.rs:544-554 | and a pair of documents where it is captured |
| Merge.SecondaryDanglingExactly | src/bin/pnass.rs:544-576 | a reference of the second document that dangled keeps its name and resolves exactly when the first document uses such a style, and then to that style |
| Merge.DanglingSecondaryCaptured | src/bin/pnass.rs:544-576 | and a pair of documents where it does |
| Merge.SplitKeepsMeaning | src/bin/pnass.rs:457-495 | the two outputs interleave to the original events and every name they use means what it meant, or dangles as before |
| Merge.CollectNames | src/bin/pnass.rs:601-618 | the walker finds exactly the non-empty names, however deeply nested |
| Merge.RenameRefs | src/bin/pnass.rs:412-432 | the walker renames exactly the mapped names, however deeply nested |
| Merge.Subtitles.PruneUnusedStyles | src/bin/pnass.rs:578-581 | the styles left are those some event uses |
| Merge.Subtitles.RenameOverlappingStyles | src/bin/pnass.rs:377-402 | styles and references get the generated names of the overlapping ones |
| Merge.Subtitles.SplitSignEvents | src/bin/pnass.rs:457-495 | every event that leaves is a sign and none left behind is; none leaves, and nothing changes, exactly when no event is a sign; each part keeps exactly the styles its events use |
| Merge.PrepareMergeStyles | src/bin/pnass.rs:561-576 | both documents are pruned and the second renamed where names overlap |
| Merge.MergeInto | src/bin/pnass.rs:556-576 | preparing and appending gives the merged document |
| AssScript.TimeRoundTrip | src/libkagami/complex/types.rs:38-53 | a printed time parses back |
| AssScript.ClockOrder | src/libkagami/complex/types.rs:56-61 | clock times are ordered by hours, minutes, seconds and centiseconds |
| AssScript.TimesCarry | src/libkagami/complex/types.rs:56-61 | sixty seconds count as a minute and sixty minutes as an hour, as a file may have it |
| AssScript.TimeTextIs | src/libkagami/complex/types.rs:79-83 | a time is printed as its hours, two digits of minutes and seconds, and two of centiseconds |
| AssScript.EventRoundTrip | src/libkagami/core.rs:433-459 | a printed dialogue event parses back, with the commas of its text |
| AssScript.EventLineIs | src/libkagami/core.rs:115-128 | a dialogue line is the ten fields in their order with commas between them |
| AssScript.CommentLineReads | src/libkagami/core.rs:300-318 | among the events, a commented event is read as that comment |
| AssScript.CommentStampsExactly | src/libkagami/core.rs:134-137 | stamps come from exactly the comments whose trimmed name or effect is the word stamp in any case, with their times and text |
| AssScript.StampRoundTrip | src/libkagami/core.rs:318-336 | a printed stamp parses back |
| AssScript.ParsedEventGood | src/libkagami/core.rs:433-459 | whatever is parsed can be printed on one line and is not changed by trimming |
| AssScript.FinalStampsCorrect | src/libkagami/core.rs:342-353 | stamps are sorted by start, distinct by range, and cover exactly the ranges found |
| AssScript.MetaWins | src/libkagami/core.rs:342-353 | a stamp whose range a Meta stamp has is the first such Meta stamp |
| AssScript.LoadedIsPrintable | src/libkagami/core.rs:226-376 | what any text loads to is fit for printing |
| AssScript.PrintThenLoad | src/libkagami/core.rs:389-416 | printing and loading gives the same events and stamps |
| AssScript.LoadPrintLoad | src/libkagami/core.rs:226-416 | for every text: loading, printing and loading again changes neither dialogue events nor stamps |
| AssScript.ParsedValuePlain | src/libkagami/core.rs:260-275 | a value read from a line of the script info has no line break and no blank at its end, so it can be printed in a head |
| AssScript.PrintedHeadGood | src/libkagami/core.rs:24-81 | printed script info and style lines, keys with plain values, are skipped by the reader of events and stamps |
| AssScript.RetainFirst | src/libkagami/core.rs:349-352 | the first stamp of every range is kept |
| AssScript.LoadScript | src/libkagami/core.rs:226-376 | the line loop with its sections computes the loaded script |
| AssScript.PrintScript | src/libkagami/core.rs:389-416 | the printer's buffer is the printed script |

## Left out

- Float rounding: clustering, seeding and colour distances are over the reals or exact integers; the sRGB and Oklab conversions and the square root of the seeding score are abstract functions.
- Widths: the dispatch order and the cooldown sums saturate at the largest `u64` in the source and are unbounded here; counters and offsets stay far below that.
- Pixels are colour records rather than flat bytes, the four channel sums of a cluster are one record, and hash map order is replaced by sorted keys.
- VisionCortex tracing, simplification, curve fitting, SVG output and the float scaling of subtitles.
- Resizing and the checks of dimensions and options before the pipeline starts.
- Preview stamps, labels, weights and composed images; only the selection among clusters is modelled.
- Messages to users, embeds, presence, logs, warnings collected from the encoder, timers and expiry.
- The database, files and worker processes: their answers are parameters, and saving succeeds.
- Runs on which a send to a worker fails: the source drops the job there without telling followers or its batch.
- Jobs.Receive: a warning is recorded nowhere, because warnings decide nothing about the queue.
- Liveness of the queue: a waiting keycode job counts as waiting but its dispatch does not count towards a batch child's turn.
- The waiting rounds are modelled one job at a time, in any order, rather than as one sweep.
- Drive sessions, the choice of a Drive profile, checksums and deletion after a failed upload.
- Upload.UploadDriveChunks: a server whose stored length shrinks is excluded, because then the loop need not end.
- Acix.Service.ConfirmAcix: the title id may change between the two sends, as in the source; agreement is about the credits line and the fansub.
- Acix: reading the roles off an old credits line is an abstract function.
- Merge: generated style names are assumed distinct and unused; resolution scaling, layers and injection timings are not modelled, and override tags other than resets and transforms are opaque.
- AssScript.LoadPrintLoad: the script info and the styles are given as printed lines that `AssScript.GoodHead` lets the reader skip; `AssScript.PrintedHeadGood` proves this of keys with plain values, and that the source prints only such lines is read off its format strings. Their own round trip is not modelled. Override tags are not parsed; comments are not printed by the source and so do not come back.
