# Friday Cab allocation — a verified Dafny model

Friday Cab books students from seven hostel halls onto cabs for a Friday trip,
takes their payments, decides how many cabs to send to each hall and who rides
in which, and checks them in by QR code on the way there and back. This
project models the core of that system and proves what it promises.

- **Optimiser and packer** (`scripts/cab_dashboard.py`): the integer model
  handed to the CP-SAT solver (`CabModel`), the cab-by-cab plan built from its
  answer (`CabPlan`) and the input rules of the Optimize button (`CabInput`).
  Each row of the matrix sums to its region's demand, each column fills its
  cabs up to fewer than seven empty seats, and the swap weight is zero, forward
  or ten times backward. The greedy fill is proved to split each column
  exactly, never to leave a cab empty and to label a cab Direct exactly when
  all its riders are local.
- **Backend solver front ends** (`cabSolver.ts`, `solved.js`): the same linear
  program for `javascript-lp-solver`, built once (`LpModel`) and used by both
  `CabSolver` and `SolvedJs`, with the hall↔region tables, demand conversion
  and the formatting of the answer, including unused seats.
- **Allocation controller** (`allocation.controller.ts`): passkey generation,
  the suggestion of cabs from the solver's answer (`AllocationController`) and
  the validation and saving of an admin-submitted allocation
  (`AllocationSubmit`).
- **Demo store** (`store.js`): bookings, payments, demand summary and naive
  allocation over module-level lists (`Store`).
- **QR boarding** (`qr.controller.ts`): the decision sequence of a scan, which
  logs at most one journey per trip, student and direction, and the seat
  numbering of the cab-details view (`Qr`).
- **Payments** (`payment.service.ts`): initiate, verify and webhook as a state
  machine in which a payment leaves `pending` at most once (`Payment`).
- **Request validators** (`validation.middleware.ts`): trips, trip updates,
  UUIDs, profiles and user records (`Validation`).
- **Report audit trail** (`report-history.service.ts`): the change records of
  reports and adjustments (`ReportHistory`).
- **Guards and small utilities**: the webhook rate limiter and signature
  check (`WebhookLimiter`), the cron secret gate (`Cron`), e-mail subjects
  (`Emails`), the seat-position ↔ seat-id bijection (`SeatMap`), trip status
  and tab access (`TripStatus`), the breadcrumb cache (`BreadcrumbCache`),
  route-configuration checks (`RouteGuards`) and the phone formatter
  (`PhoneFormat`).

`Wrappers` (Option/Result), `Sequences` (filtering and searching) and `Text`
(trimming, digits, UUID layout) are shared helpers.

Where the source changes state step by step, the model does too: the
breadcrumb cache, the rate limiter, the store, the payment service, the QR
desk, the allocation tables and the report history are classes whose methods
are proved against pure specification functions, and the loops of the
optimiser's packer, the model builders, the passkey generator and the
validation loops are `for` and `while` loops with invariants. Databases are maps and sequences held in those
classes. The clock, `Math.random`, the date parser, the payment gateway and
the solvers are parameters.

The model follows the code wherever its behaviour is surprising. The
backend's supply constraint is `Σ_i x_ij ≤ 7·y_j`, weaker than the equality
of the Python model, and both are modelled as written. `runAllocation` draws
the students for each region from a fresh copy of the booking list and
checks passkeys only against the saved cabs. `RunAllocationAsWritten` models
that loop as written; `RunAllocation` models the corrected loop, which draws
each booking at most once and keeps passkeys distinct. The discrepancies are
listed under Findings.

## Model

| member | source | states |
|---|---|---|
| Cron.SuppliedSecret | backend/src/middleware/cron.middleware.ts:8 | the secret is the header when it is truthy, otherwise the query parameter |
| Cron.VerifyCronSecret | backend/src/middleware/cron.middleware.ts:7-28 | outside production with no secret configured every request passes; in production with none it is 500 "Server misconfiguration"; with one configured a request passes iff the supplied secret equals it, else 401 "Unauthorized" |
| Cron.ConfiguredSecretDecides | backend/src/middleware/cron.middleware.ts:8-27 | with a secret configured, a request carrying it passes whatever `NODE_ENV` says |
| Emails.Interpolated | backend/src/emails/index.ts:92-98 | a present value is printed as itself inside the template literal |
| Emails.EmailSubject | backend/src/emails/index.ts:89-104 | the four trip templates give their fixed prefix followed by the trip title, the announcement gives its prefix and the subject or the default text, and every other template the fallback subject |
| Emails.FallbackIffUnknown | backend/src/emails/index.ts:89-104 | the fallback subject is returned exactly for templates outside the template map |
| Emails.AvailableTemplatesShape | backend/src/emails/index.ts:55-110 | the template list has five distinct keys, and the first four are exactly the templates with a trip prefix |
| Emails.TripSubjectsDiffer | backend/src/emails/index.ts:91-98 | two different trip templates never give the same subject for the same data |
| PhoneFormat.FormatPhoneNumber | frontend/src/lib/utils.ts:18-24 | an absent or empty phone gives the fallback; any other phone gives "+91 ", its first five characters, a space and the rest |
| PhoneFormat.FormatRoundTrip | frontend/src/lib/utils.ts:23 | for a phone of at least five characters, removing the country code and the inserted space gives the phone back |
| PhoneFormat.ShortPhoneTrailingSpace | frontend/src/lib/utils.ts:23 | a phone shorter than five characters is printed whole followed by a trailing space |
| WebhookLimiter.RequireWebhookSignature | backend/src/middleware/webhook.middleware.ts:45-61 | a request passes iff its signature header is present and non-empty; otherwise it gets 401 "Missing webhook signature" |
| WebhookLimiter.ClientKey | backend/src/middleware/webhook.middleware.ts:76 | requests are counted under the client IP, else the socket address, and under "unknown" when both are missing |
| WebhookLimiter.Limit | backend/src/middleware/webhook.middleware.ts:81-99 | one request is either let through or refused with 429 "Too many requests"; a refusal changes nothing; no other key's record changes; the key has a record afterwards; every record stays between 1 and 100 |
| WebhookLimiter.LimitCounts | backend/src/middleware/webhook.middleware.ts:89-99 | within an open window a request passes iff the count is below 100, the reset time stays, and the count grows by exactly one for a passed request and not at all for a refused one |
| WebhookLimiter.OpenWindowBound | backend/src/middleware/webhook.middleware.ts:89-99 | while a window stays open at most 100 minus its count further requests get through |
| WebhookLimiter.WindowBound | backend/src/middleware/webhook.middleware.ts:76-99 | from the request that opens a window to its reset time, at most 100 requests of one key get through |
| WebhookLimiter.Unexpired | backend/src/middleware/webhook.middleware.ts:105-112 | the cleanup keeps exactly the records whose reset time is not before now, unchanged |
| WebhookLimiter.RateLimiter.Admit | backend/src/middleware/webhook.middleware.ts:71-100 | the limiter's map and decision are those of `Limit` on the client key, and the bound on every record is kept |
| WebhookLimiter.RateLimiter.Cleanup | backend/src/middleware/webhook.middleware.ts:105-112 | the cleanup pass leaves exactly `Unexpired` of the old map, and the bound is kept |
| BreadcrumbCache.Key | frontend/src/lib/breadcrumbCache.ts:16 | the key is the entity type, a colon and the entity id |
| BreadcrumbCache.KeysCollide | frontend/src/lib/breadcrumbCache.ts:16 | two different (type, id) pairs can have the same key |
| BreadcrumbCache.Cache.Has | frontend/src/lib/breadcrumbCache.ts:31-34 | a pair is present exactly when `get` finds a name for it |
| BreadcrumbCache.Cache.Get | frontend/src/lib/breadcrumbCache.ts:15-18 | a name is returned iff the pair is cached, and it is the cached name |
| BreadcrumbCache.Cache.Size | frontend/src/lib/breadcrumbCache.ts:54-56 | the size is zero iff the cache is empty |
| BreadcrumbCache.Cache.Set | frontend/src/lib/breadcrumbCache.ts:23-26 | afterwards the pair reads back the name, no other key changes, and the size grows by one iff the pair was new |
| BreadcrumbCache.Cache.Remove | frontend/src/lib/breadcrumbCache.ts:46-49 | afterwards the pair is absent, no other key changes, and the size drops by one iff it was cached |
| BreadcrumbCache.Cache.Clear | frontend/src/lib/breadcrumbCache.ts:39-41 | afterwards the cache is empty |
| BreadcrumbCache.CollidingSet | frontend/src/lib/breadcrumbCache.ts:23-26 | setting ("a", "b:c") also makes ("a:b", "c") read the new name |
| TripStatus.TripDetailStatus | frontend/src/pages/admin/trips/detail/utils.ts:15-38 | a trip is completed iff its end time has passed (inclusive), active with booking closed iff it has started and not ended and booking has closed, active with booking open iff it has started and booking is still open, and upcoming iff it has not started nor ended |
| TripStatus.CanAccessTab | frontend/src/pages/admin/trips/detail/utils.ts:43-71 | the demand tab opens for every status but upcoming; the allocation tab once booking has closed or the trip is completed; the journey tab under the same statuses and only when the trip has a positive allocation count |
| TripStatus.TabsNest | frontend/src/pages/admin/trips/detail/utils.ts:50-66 | an open journey tab implies an open allocation tab, and an open allocation tab implies an open demand tab |
| TripStatus.DefaultTab | frontend/src/pages/admin/trips/detail/utils.ts:76-87 | the default tab is always the demand tab, since no other tab opens without it |
| TripStatus.StatusMonotone | frontend/src/pages/admin/trips/detail/utils.ts:15-38 | as time passes a completed trip stays completed and a trip never returns to upcoming |
| RouteGuards.ProcessRoute | frontend/src/routes/guards/utils.ts:29-48 | the element is wrapped in a guard carrying the metadata exactly when both are present, the path is kept, and children are processed exactly when present |
| RouteGuards.ProcessRoutes | frontend/src/routes/guards/utils.ts:28-49 | one processed route per route, with the same paths in the same order |
| RouteGuards.ProcessRoutePreservesShape | frontend/src/routes/guards/utils.ts:28-49 | processing keeps the number, order, paths and nesting of the routes at every depth |
| RouteGuards.ProcessRoutesPreservesShape | frontend/src/routes/guards/utils.ts:28-49 | the same for every route of a list |
| RouteGuards.CheckMeta | frontend/src/routes/guards/utils.ts:61-82 | metadata fails iff the route is guest-only and requires authentication or admin, with the message naming the first conflicting flag; otherwise `requireAuth` is set whenever `requireAdmin` is |
| RouteGuards.FixRouteSucceeds | frontend/src/routes/guards/utils.ts:57-89 | validating one route throws iff some route in its subtree conflicts; otherwise every admin route in it requires authentication afterwards |
| RouteGuards.FixRoutesSucceed | frontend/src/routes/guards/utils.ts:57-89 | the same for a list of routes |
| RouteGuards.FixRouteRaises | frontend/src/routes/guards/utils.ts:76-81 | validation only ever sets `requireAuth`, and never adds, removes or reorders routes |
| RouteGuards.FixRoutesRaise | frontend/src/routes/guards/utils.ts:76-81 | the same for every route of a list |
| RouteGuards.FixRoutesStopsAtFirstConflict | frontend/src/routes/guards/utils.ts:58-88 | when a route conflicts, the routes before it have already been repaired and those after it are untouched |
| RouteGuards.ValidateRouteConfig | frontend/src/routes/guards/utils.ts:57-89 | the loop over the routes leaves the metadata and the error as the walk defines them |
| RouteGuards.ValidateRoute | frontend/src/routes/guards/utils.ts:58-88 | the body of the loop for one route, recursing into its children, computes the walk of that route |
| SeatMap.PositionToSeatId | frontend/src/utils/allocation.utils.ts:14-22 | a position names a seat iff it is between 1 and 7 |
| SeatMap.SeatIdToPosition | frontend/src/utils/allocation.utils.ts:27-81 | every seat id has a position between 1 and 7 that maps back to it |
| SeatMap.PositionSeatInverse | frontend/src/utils/allocation.utils.ts:14-35 | for positions 1 to 7 the two tables are inverse |
| SeatMap.SeatIdToPositionInjective | frontend/src/utils/allocation.utils.ts:27-35 | different seat ids have different positions |
| SeatMap.ParseInt | frontend/src/utils/allocation.utils.ts:50 | `parseInt` of a non-empty digit string is its decimal value |
| SeatMap.PositionOf | frontend/src/utils/allocation.utils.ts:47-50 | a numeric position is read as it is, and a missing or empty position as 0 |
| SeatMap.SeatOf | frontend/src/utils/allocation.utils.ts:47-53 | a student has a seat iff the position read is between 1 and 7; a student with no position has none |
| SeatMap.SeatIdFromPosition | frontend/src/utils/allocation.utils.ts:67-72 | `getSeatIdFromPosition` names the same seat as the fold does for that position |
| SeatMap.TextPositionAgrees | frontend/src/utils/allocation.utils.ts:47-70 | a position 1 to 7 written as text names the same seat as the number |
| SeatMap.MapStudentsToSeats | frontend/src/utils/allocation.utils.ts:42-60 | the seat map has no more entries than there are students; `SeatMapKeys` and `SeatMapLaterWins` say which seats it holds and whom |
| SeatMap.SeatMapKeys | frontend/src/utils/allocation.utils.ts:42-60 | a seat is in the seat map iff some student's position names it |
| SeatMap.SeatMapLaterWins | frontend/src/utils/allocation.utils.ts:53-55 | a seat holds the last student whose position names it |
| SeatMap.SeatMapSize | frontend/src/utils/allocation.utils.ts:42-60 | the seat map has at most seven entries |
| LpModel.AddVariable | backend/src/utils/cabSolver.ts:84-89 | adding a variable appends its column to the variables and its name to the integer set, which stays the set of all variable names |
| LpModel.BuildLp | backend/src/utils/cabSolver.ts:60-104 | the demand loop, the nested x loop with w(i, j) computed inline, and the y loop build exactly the model `LpOf`: seven demand rows `equal` to the counts, seven supply rows `min 0`, forty-nine x columns and seven y columns, all integer |
| LpModel.DemandValue | backend/src/utils/cabSolver.ts:70-86 | demand row i of the model evaluates to the sum of row i of the plan |
| LpModel.SupplyValue | backend/src/utils/cabSolver.ts:87-102 | supply row j evaluates to seven seats per cab of region j minus the students assigned there |
| LpModel.LpObjectiveSemantics | backend/src/utils/cabSolver.ts:78-99 | the minimised `totalCost` row is the dashboard's objective: 100 per cab plus w(i, j) per student moved from i to j |
| LpModel.ConstraintAt | backend/src/utils/cabSolver.ts:69-102 | the constraint map holds exactly the seven demand rows, each equal to its count, and the seven supply rows, each at least 0 |
| LpModel.VariableMember | backend/src/utils/cabSolver.ts:74-104 | the variables are exactly the columns x_i_j and y_j for i, j below 7 |
| LpModel.NonNegativeSemantics | backend/src/utils/cabSolver.ts:89-103 | the values are non-negative on every variable iff the plan and the cab counts they encode are |
| LpModel.RowsSemantics | backend/src/utils/cabSolver.ts:68-104 | every row is within its bound iff every student of every region is assigned and no region gets more students than seven times its cabs |
| LpModel.LpSemantics | backend/src/utils/cabSolver.ts:60-104 | values satisfy the model iff the plan they encode is an LP plan (non-negative, rows summing to the counts, columns within seven seats per cab) |
| LpModel.UnusedSeats | backend/src/utils/cabSolver.ts:132-135 | there is one unused-seat count per region |
| LpModel.UnusedSeatsNonNegative | backend/src/utils/cabSolver.ts:95-135 | on an LP plan no region has a negative number of unused seats |
| LpModel.CabPlanIsLpPlan | backend/src/utils/cabSolver.ts:53-136 | every plan of the dashboard's CP-SAT model is an LP plan with the same vacant seats |
| LpModel.SpareCabIsLpPlan | backend/src/utils/cabSolver.ts:93-104 | the converse fails: one student with two cabs in region 0 is an LP plan with thirteen unused seats, which no dashboard plan has |
| LpModel.DropSpareCab | backend/src/utils/cabSolver.ts:96-104 | removing a cab from a region with seven or more unused seats keeps an LP plan and lowers the objective by 100 |
| LpModel.ColumnAtMostTotal | backend/src/utils/cabSolver.ts:86-87 | a column of a plan that assigns every student at most once holds at most all the students |
| LpModel.OptimalLpPlanIsCabPlan | backend/src/utils/cabSolver.ts:56-107 | an LP plan that no other cab count beats is a plan of the dashboard's model, with its unused seats as vacancies |
| LpModel.CeilingBound | backend/src/utils/cabSolver.ts:95 | fewer than seven vacant seats over c ≥ 0 students means no more cabs than students unless there are none |
| LpModel.InfeasibleIffNegative | backend/src/utils/cabSolver.ts:107-111 | a solver keeping its contract reports the model infeasible exactly when some region's count is negative |
| LpModel.FormatOutput | backend/src/utils/cabSolver.ts:114-125 | zero-filled tables with one write per reported `x_i_j` and `y_j` key hold, in every cell, the value reported last for that variable (0 if none) |
| LpModel.FormatAllocation | backend/src/utils/cabSolver.ts:113-136 | the formatted answer is the solver's answer read back (the reported `x_i_j` and `y_j` values, `results.result` as the objective, and the unused seats they leave); it is an LP plan for the counts with its unused seats, and a plan of the dashboard's model when the solver's answer is optimal |
| LpModel.OptimumIsCabPlan | backend/src/utils/cabSolver.ts:107-136 | an optimal feasible answer, read back, is a plan of the dashboard's model |
| LpModel.LpFeasibleIff | backend/src/utils/cabSolver.ts:68-104 | the model has a solution iff no region's count is negative |
| CabSolver.HallRegionInverse | backend/src/utils/cabSolver.ts:29-47 | `HALL_TO_REGION` and `REGION_TO_HALL` are inverse bijections between the seven hall codes and regions 0 to 6 |
| CabSolver.HallToRegionInjective | backend/src/utils/cabSolver.ts:29-37 | no two hall codes share a region |
| CabSolver.SolveCabAllocation | backend/src/utils/cabSolver.ts:53-137 | it throws "No feasible solution found for cab allocation" iff some count is negative; otherwise it returns the solver's answer for the model of the counts, read back, which is an LP plan for the counts with its unused seats, and a dashboard plan when the solver's answer is optimal |
| CabSolver.ConvertHallDemandToRegions | backend/src/utils/cabSolver.ts:142-153 | seven counts, each the count of the last row naming a hall of that region, or 0 |
| CabSolver.UnknownHallIgnored | backend/src/utils/cabSolver.ts:146-149 | a row with an unknown hall code changes no count |
| CabSolver.AbsentRegionIsZero | backend/src/utils/cabSolver.ts:143 | a region no row names keeps 0 |
| CabSolver.LastRowWins | backend/src/utils/cabSolver.ts:145-150 | when a hall appears several times, the last row's count is the one kept |
| SolvedJs.SolveCabAllocationJs | backend/solved.js:17-101 | it returns null iff some count is negative; otherwise the solver's answer for the model of the counts, read back, which is an LP plan for the counts with its unused seats, and a dashboard plan when the solver's answer is optimal |
| CabModel.Weight | scripts/cab_dashboard.py:62-71 | w(i, j) is 0 exactly on the diagonal, j − i towards the gate and 10·(i − j) away from it |
| CabModel.WeightDependsOnOffset | scripts/cab_dashboard.py:62-71 | the weight depends only on the signed distance between the regions |
| CabModel.BackwardCostsTenfold | scripts/cab_dashboard.py:66-71 | a step against the flow costs ten times the same step with it |
| CabModel.DeclareVars | scripts/cab_dashboard.py:31-45 | the three `NewIntVar` loops declare X row by row in 0..students[i], then y in 0..total, then r in 0..6 |
| CabModel.AddConstraints | scripts/cab_dashboard.py:47-53 | the two `model.Add` loops add one row constraint per origin, then one column constraint per destination |
| CabModel.BuildObjective | scripts/cab_dashboard.py:55-76 | the objective terms are the vehicle cost of every y followed by w(i, j)·X[i, j] for every cell with a non-zero weight, in loop order |
| CabModel.BuildCpModel | scripts/cab_dashboard.py:29-76 | the whole construction gives the model `CabCpModel` of the counts |
| CabModel.Matrix | scripts/cab_dashboard.py:84-87 | the assignments read back hold the value of X[i, j] in cell (i, j) |
| CabModel.CabCounts | scripts/cab_dashboard.py:88 | the cab counts read back hold the value of y[j] |
| CabModel.Vacancies | scripts/cab_dashboard.py:89 | the unused seats read back hold the value of r[j] |
| CabModel.PlanValues | scripts/cab_dashboard.py:84-89 | every plan is the read-out of some values of the variables |
| CabModel.BoundsSemantics | scripts/cab_dashboard.py:31-45 | the values are within the declared domains iff each family is within its `NewIntVar` range |
| CabModel.RowsSemantics | scripts/cab_dashboard.py:48-49 | the row constraints hold iff every row of the plan sums to its region's count |
| CabModel.ColumnsSemantics | scripts/cab_dashboard.py:52-53 | the column constraints hold iff every column plus its vacant seats fills its cabs exactly |
| CabModel.ConstraintSemantics | scripts/cab_dashboard.py:47-53 | the added constraints hold exactly when rows and columns balance |
| CabModel.ReadOut | scripts/cab_dashboard.py:31-89 | domains plus balance on the variables is the same as the read-out being a cab plan |
| CabModel.ModelSemantics | scripts/cab_dashboard.py:29-53 | values satisfy the model iff the plan they encode is a cab plan |
| CabModel.ObjectiveSemantics | scripts/cab_dashboard.py:55-76 | the minimised expression equals 100·Σ y + Σ w(i, j)·X[i, j] of the read-out plan |
| CabModel.Diagonal | scripts/cab_dashboard.py:31-35 | the plan that keeps every student in their own region's cabs |
| CabModel.CeilingSplit | scripts/cab_dashboard.py:51-53 | ⌈c/7⌉ cabs leave between 0 and 6 vacant seats and are no more than c unless c is 0 |
| CabModel.ModelIsFeasible | scripts/cab_dashboard.py:29-76 | for non-negative counts the model has a solution |
| CabModel.NegativeCountInfeasible | scripts/cab_dashboard.py:35-49 | a negative count leaves the model without a solution |
| CabModel.NoPlanWithNegativeCount | scripts/cab_dashboard.py:35-49 | no cab plan exists for a negative count |
| CabModel.CabsAreCeiling | scripts/cab_dashboard.py:42-53 | in every plan, region j has exactly ⌈c/7⌉ cabs for the c students assigned there, and the vacant seats are what is left |
| CabModel.SolveCabAllocation | scripts/cab_dashboard.py:16-96 | a length other than 7 raises "students_per_region must have length 7"; otherwise the result is None iff the solver reports neither OPTIMAL nor FEASIBLE, it is None for a negative count, a returned plan holds the solver's values of `X`, `y` and `r`, is a cab plan, and has its cost as its objective value, and an OPTIMAL one costs no more than any cab plan |
| CabPlan.FillBounded | scripts/cab_dashboard.py:166-172 | each origin gives a cab between none and all of its waiting students |
| CabPlan.FillTotal | scripts/cab_dashboard.py:162-172 | a cab takes as many students as are waiting, up to its free seats |
| CabPlan.CabLoadBounded | scripts/cab_dashboard.py:166-172 | the load of one origin in one cab is between 0 and what was waiting |
| CabPlan.CabLoadTotal | scripts/cab_dashboard.py:162-174 | one cab is filled with min(waiting, 7) students |
| CabPlan.RemAfterShrinks | scripts/cab_dashboard.py:159-172 | `remaining` never goes negative, and after k cabs its total has dropped by 7·k or to 0 |
| CabPlan.LoadSumRemoves | scripts/cab_dashboard.py:159-172 | the cabs of a region carry from origin i exactly what left `remaining[i]` |
| CabPlan.PackingDeliversAll | scripts/cab_dashboard.py:159-172 | when a region's cabs have room for all students assigned to it, every one of them boards |
| CabPlan.CabOccupancy | scripts/cab_dashboard.py:159-174 | under the column equation Σ + r = 7c with r in 0..6, all cabs but the last of a region are full and the last carries 7 − r |
| CabPlan.OriginsMeaning | scripts/cab_dashboard.py:175 | `origin_regions` lists exactly the origins with a positive load, each once, in ascending order |
| CabPlan.KindMeaning | scripts/cab_dashboard.py:177-182 | a cab is direct iff only its own region boards it, empty iff nobody boards, and mixed otherwise |
| CabPlan.HeadingsSound | scripts/cab_dashboard.py:152-157 | every heading names a region with a non-zero cab count, with that count |
| CabPlan.HeadingsComplete | scripts/cab_dashboard.py:152-157 | every region with a non-zero cab count gets a heading |
| CabPlan.HeadingsAscending | scripts/cab_dashboard.py:152-157 | the headings come in ascending region order, so no region is named twice |
| CabPlan.PlanNumbering | scripts/cab_dashboard.py:150-195 | the cabs are numbered 1, 2, … in the order they are printed, across regions |
| CabPlan.PlanRegionsAscending | scripts/cab_dashboard.py:152-195 | the cabs are listed region by region in ascending order |
| CabPlan.PlanCount | scripts/cab_dashboard.py:153-161 | region j gets one cab per iteration of its loop, none when its count is 0 |
| CabPlan.PlanCarried | scripts/cab_dashboard.py:159-195 | between them the cabs of region j carry what their loads say |
| CabPlan.PlanDeliversAssignments | scripts/cab_dashboard.py:144-199 | for a plan of the model, region j gets exactly y[j] cabs and they carry exactly assignments[i][j] students of origin i |
| CabPlan.PlanOccupancy | scripts/cab_dashboard.py:174-182 | for a plan of the model every cab but the last of its region is full, the last carries 7 − r[j], and so the "Empty cab" verdict is never printed |
| CabPlan.FillCab | scripts/cab_dashboard.py:162-172 | the inner loop gives the greedy load of one cab and leaves `remaining` minus that load |
| CabPlan.Classify | scripts/cab_dashboard.py:175-182 | the verdict is direct iff only the cab's own region boards it and empty iff nobody does |
| CabPlan.PackRegion | scripts/cab_dashboard.py:159-195 | one region's loop emits its cabs with their greedy loads, numbered from the running index, and one line per cab |
| CabPlan.BuildCabPlan | scripts/cab_dashboard.py:144-199 | the block prints the headings of the regions with cabs, the cabs of each region in order, numbered across regions, and one line per cab |
| CabInput.ParseInt | scripts/cab_dashboard.py:236 | `int` accepts exactly an optional sign followed by decimal digits, with single underscores allowed between digits; a plain digit string reads as its decimal value |
| CabInput.ParseEntry | scripts/cab_dashboard.py:232-238 | an entry that is blank after Python's `strip()` is read as 0; otherwise it is accepted exactly when `int` accepts the stripped text with a non-negative value; anything else is an input error |
| CabInput.StripStartSpec | scripts/cab_dashboard.py:232 | stripping the front removes exactly the leading Python white space |
| CabInput.StripEndSpec | scripts/cab_dashboard.py:232 | stripping the end removes exactly the trailing Python white space |
| CabInput.UnderscoresSkipped | scripts/cab_dashboard.py:236 | the entry `1_000` reads as 1000 |
| CabInput.PythonWhitespace | scripts/cab_dashboard.py:232-236 | U+001C around an entry is stripped and U+FEFF is not, so the latter entry is an input error |
| CabInput.EntryRoundTrip | scripts/cab_dashboard.py:232-238 | every count written in decimal is read back as itself |
| CabInput.NegativeRejected | scripts/cab_dashboard.py:237-238 | a minus sign before a positive count is an input error |
| CabInput.LetterRejected | scripts/cab_dashboard.py:236-242 | a text that is not a number is an input error |
| CabInput.NoEmptyCab | scripts/cab_dashboard.py:177-180 | in the plan laid out for a solution, no cab line says "Empty cab" and every cab carries someone |
| CabInput.Parsed | scripts/cab_dashboard.py:230-239 | the counts read are one per entry, each the entry's value |
| CabInput.ParsedNonNegative | scripts/cab_dashboard.py:237-238 | every count read is non-negative |
| CabInput.OnOptimize | scripts/cab_dashboard.py:228-257 | the outcome is an input error iff some entry does not parse; "no students" exactly when every entry parses and the total is 0; a solver error only when the solver reports neither OPTIMAL nor FEASIBLE; a report shows the counts read, with a positive total, and a plan of the model laid out cab by cab |
| CabInput.ReadEntries | scripts/cab_dashboard.py:229-242 | the `try` block fails iff some entry does not parse, and otherwise returns the counts read |
| CabInput.Optimize | scripts/cab_dashboard.py:248-257 | for counts with a positive total, the outcome is a solver error only when the solver found nothing, and otherwise a report of those counts with a plan of the model |
| AllocationController.PasskeyOf | backend/src/controllers/allocation.controller.ts:22 | a drawn offset in [0, 9000) becomes a four-digit string without a leading zero whose value is 1000 plus the offset |
| AllocationController.PasskeyOfInjective | backend/src/controllers/allocation.controller.ts:22 | distinct offsets give distinct passkeys |
| AllocationController.PasskeyFromSpec | backend/src/controllers/allocation.controller.ts:18-37 | the retry loop succeeds exactly when some remaining attempt draws an unused passkey, and then returns the first such draw; otherwise it fails with the passkey error |
| AllocationController.PasskeySpec | backend/src/controllers/allocation.controller.ts:17-38 | within 100 attempts the generator returns the first drawn passkey not already used by the trip, a four-digit number in 1000..9999; it fails with "Failed to generate unique passkey" exactly when all 100 draws are taken |
| AllocationController.GenerateUniquePasskey | backend/src/controllers/allocation.controller.ts:17-38 | the while loop computes exactly the passkey specified above |
| AllocationController.HallOf | backend/src/controllers/allocation.controller.ts:110 | the hall named for each of the seven regions maps back to that region |
| AllocationController.FromHall | backend/src/controllers/allocation.controller.ts:118 | the filter keeps only students of the given hall and never grows the list |
| AllocationController.Take | backend/src/controllers/allocation.controller.ts:119 | splice(0, count) takes count students when that many exist, never more than the list holds |
| AllocationController.DrawnLists | backend/src/controllers/allocation.controller.ts:105-122 | one list of drawn students per region, seven in all |
| AllocationController.StudentsForRegion | backend/src/controllers/allocation.controller.ts:113-122 | the nested loop gathers, as written, the first count students of each origin hall from the full student list |
| AllocationController.Chunk | backend/src/controllers/allocation.controller.ts:127-128 | each cab receives at most seven students |
| AllocationController.RegionSlots | backend/src/controllers/allocation.controller.ts:125-151 | a region with numCabs cabs emits exactly numCabs cabs |
| AllocationController.CabTotalIsSum | backend/src/controllers/allocation.controller.ts:105-152 | the number of cabs emitted equals the sum of the solver's per-region cab counts |
| AllocationController.EmitNumbering | backend/src/controllers/allocation.controller.ts:102-152 | cabs are numbered 1, 2, 3 … in emission order and grouped by ascending region |
| AllocationController.EmitPrefix | backend/src/controllers/allocation.controller.ts:105-152 | the cabs of the first regions are a prefix of the full list |
| AllocationController.RegionBlock | backend/src/controllers/allocation.controller.ts:125-151 | the cabs of region j form one contiguous block, and its c-th cab holds the c-th chunk of seven of that region's students |
| AllocationController.EmitAfter | backend/src/controllers/allocation.controller.ts:105-152 | a cab emitted after region j's block belongs to region j or later |
| AllocationController.ChunksCover | backend/src/controllers/allocation.controller.ts:125-151 | the cabs of a region together seat the region's list in order, up to seven per cab |
| AllocationController.TempIdInjective | backend/src/controllers/allocation.controller.ts:134 | distinct counters give distinct temp_N identifiers |
| AllocationController.Attach | backend/src/controllers/allocation.controller.ts:125-151 | as written, each cab draws its passkey against the trip's stored passkeys only, and a successful run has one cab per slot |
| AllocationController.AttachFailurePersists | backend/src/controllers/allocation.controller.ts:130 | once a passkey draw throws, no later cab is emitted and the whole run fails with that error |
| AllocationController.AttachSucceeds | backend/src/controllers/allocation.controller.ts:125-151 | the run succeeds exactly when every cab's passkey draw succeeds |
| AllocationController.AttachValues | backend/src/controllers/allocation.controller.ts:132-150 | the k-th cab carries the k-th slot's number, region and students, with that cab's drawn passkey |
| AllocationController.AttachStudents | backend/src/controllers/allocation.controller.ts:141-149 | the seated students, cab by cab, are exactly the students of the slots in order, with seat positions 1, 2, … |
| AllocationController.DistributeRegion | backend/src/controllers/allocation.controller.ts:125-151 | the cab loop of one region extends the cab list by exactly that region's cabs, or stops with the passkey error |
| AllocationController.SuggestCabs | backend/src/controllers/allocation.controller.ts:102-152 | the region loop, as written, produces exactly the cabs of the emission specification over the drawn lists |
| AllocationController.DrawnStartsWith | backend/src/controllers/allocation.controller.ts:113-122 | as written, every region that takes students from hall 0 starts with the same first student of that hall |
| AllocationController.SeatedTwice | backend/src/controllers/allocation.controller.ts:125-151 | a student heading two region lists is seated in both regions |
| AllocationController.AsWrittenDrawsTwice | backend/src/controllers/allocation.controller.ts:113-122 | as written, when two regions both draw from the same hall the first student of that hall is seated at least twice |
| AllocationController.AsWrittenSeatsTwice | backend/src/controllers/allocation.controller.ts:102-152 | as written, a successful run can seat one booking twice, so the seated students are not a sub-multiset of the bookings |
| AllocationController.PasskeyFirstDraw | backend/src/controllers/allocation.controller.ts:21-32 | when the first draw is unused the generator returns it |
| AllocationController.AsWrittenSharesPasskeys | backend/src/controllers/allocation.controller.ts:125-151 | as written, two suggested cabs of one run can receive the same passkey, since the draws are checked only against stored cabs |
| AllocationController.Draw | backend/src/controllers/allocation.controller.ts:117-120 | corrected draw: takes students of one hall out of the pool so they cannot be drawn again |
| AllocationController.DrawSplits | backend/src/controllers/allocation.controller.ts:117-120 | the drawn and the remaining students together are exactly the pool |
| AllocationController.DrawTakesFirst | backend/src/controllers/allocation.controller.ts:117-120 | the corrected draw takes the same students as the filter-then-splice of the source |
| AllocationController.DrawRegion | backend/src/controllers/allocation.controller.ts:113-122 | drawing a region's students splits the pool without losing or inventing any student |
| AllocationController.FixedLists | backend/src/controllers/allocation.controller.ts:105-122 | the corrected per-region lists and the leftover pool are together exactly the bookings |
| AllocationController.FixedListsPrefix | backend/src/controllers/allocation.controller.ts:105-122 | the lists of the first j regions do not depend on later regions |
| AllocationController.EmitSeatsAtMost | backend/src/controllers/allocation.controller.ts:125-151 | the cabs seat no student more often than the region lists contain that student |
| AllocationController.FixedSeatsAtMost | backend/src/controllers/allocation.controller.ts:102-152 | corrected: every seated student is a booking, and no booking is seated more than once |
| AllocationController.AttachFixed | backend/src/controllers/allocation.controller.ts:125-151 | corrected passkey attachment: each draw also avoids the passkeys already handed out in this run, and a successful run has one cab per slot |
| AllocationController.AttachFixedFailurePersists | backend/src/controllers/allocation.controller.ts:130 | once a corrected passkey draw fails, the whole run fails with that error |
| AllocationController.PasskeyGeneratorFresh | backend/src/controllers/allocation.controller.ts:17-38 | a successful draw is a four-digit passkey outside the set it was checked against |
| AllocationController.AttachFixedPasskeys | backend/src/controllers/allocation.controller.ts:125-151 | corrected: every cab's passkey is four digits, unused by stored cabs and different from every other cab's passkey |
| AllocationController.FixedPasskeysDistinct | backend/src/controllers/allocation.controller.ts:125-151 | corrected: the suggested cabs of one run have pairwise distinct, unused four-digit passkeys |
| AllocationController.AttachFixedStudents | backend/src/controllers/allocation.controller.ts:141-149 | the corrected cabs seat exactly the slots' students in order |
| AllocationController.AttachFixedCarries | backend/src/controllers/allocation.controller.ts:131-150 | the k-th corrected cab is the k-th slot with its passkey |
| AllocationController.EmitSmall | backend/src/controllers/allocation.controller.ts:127-128 | no emitted cab holds more than seven students |
| AllocationController.SuggestionShape | backend/src/controllers/allocation.controller.ts:131-150 | each suggested cab has temp id temp_k, capacity 7, type Omni, empty number and driver fields, at most seven students and seat positions 1, 2, … |
| AllocationController.StudentsForRegionFixed | backend/src/controllers/allocation.controller.ts:113-122 | the corrected inner loop returns exactly the region's draw and the remaining pool |
| AllocationController.DistributeRegionFixed | backend/src/controllers/allocation.controller.ts:125-151 | the corrected cab loop extends the suggestion by exactly that region's cabs, or stops with the passkey error |
| AllocationController.SuggestCabsFixed | backend/src/controllers/allocation.controller.ts:102-152 | the corrected region loop produces exactly the corrected emission |
| AllocationController.RegionCounts | backend/src/controllers/allocation.controller.ts:79 | the hall demand becomes seven per-region counts |
| AllocationController.TotalStudentsIsRegionSum | backend/src/controllers/allocation.controller.ts:76-79 | with distinct, known halls, the reduce over hall counts equals the sum of the per-region counts given to the solver |
| AllocationController.RunAllocation | backend/src/controllers/allocation.controller.ts:43-167 | with the corrected emission loop: 400 without a trip id, 400 without bookings, 500 "Failed to run allocation algorithm" on any failure (a negative count among them); with non-negative counts the plan is the solver's answer for the region counts, read back, it delivers every region's demand and a suggestion is returned exactly when every cab of the plan gets a fresh passkey; the suggestion carries the total students, the solver cost, as many cabs as the plan asks for, no booking seated twice and distinct passkeys |
| AllocationController.RunAllocationAsWritten | backend/src/controllers/allocation.controller.ts:43-167 | the handler as written: the same 400 and 500 answers; with non-negative counts the plan is the solver's answer for the region counts, read back, it delivers every region's demand and a suggestion is returned exactly when the as-written passkey loop succeeds; its cabs are the regions' students drawn from the whole booking list, cab by cab, as many as the plan asks for |
| AllocationSubmit.CheckStudents | backend/src/controllers/allocation.controller.ts:359-368 | the inner loop appends the cab's student ids to those already assigned when it does not fail |
| AllocationSubmit.CheckStudentsSpec | backend/src/controllers/allocation.controller.ts:359-368 | the inner loop succeeds exactly when no student id repeats among those assigned so far and the cab's own |
| AllocationSubmit.CheckStudentsPrefixFails | backend/src/controllers/allocation.controller.ts:359-368 | once a student is found assigned twice the loop answers with that error, whatever students follow |
| AllocationSubmit.AllValidSnoc | backend/src/controllers/allocation.controller.ts:319-368 | one more cab keeps the rules exactly when the earlier cabs keep them and the new cab is complete, holds 1-7 students and repeats no cab number, passkey or student |
| AllocationSubmit.CheckCabsSpec | backend/src/controllers/allocation.controller.ts:318-369 | the validation loop accepts exactly the arrays in which every cab has its six fields and one to seven students, and no cab number, passkey or student occurs twice; on acceptance its collected arrays are the cab numbers, passkeys and student ids in order |
| AllocationSubmit.CheckCabsFailureAppend | backend/src/controllers/allocation.controller.ts:318-369 | once some cabs fail a check, appending more cabs does not change the response |
| AllocationSubmit.CheckCabsFailurePrefix | backend/src/controllers/allocation.controller.ts:318-369 | the first cabs that fail a check decide the response for the whole array; later cabs are not looked at |
| AllocationSubmit.CheckCabsExtend | backend/src/controllers/allocation.controller.ts:318-357 | after cabs that pass, the response for one more cab is that cab's own checks against the numbers, passkeys and students seen so far |
| AllocationSubmit.CheckCabOrder | backend/src/controllers/allocation.controller.ts:319-357 | one cab's checks answer in the loop's order: missing fields, then the student count, then a repeated cab number, then a repeated passkey |
| AllocationSubmit.FirstInvalidCab | backend/src/controllers/allocation.controller.ts:318-357 | after valid cabs, a cab missing a field answers with the fields error, then too few or too many students with "Each cab must have 1-7 students assigned", then a repeated cab number, then a repeated passkey, in that order |
| AllocationSubmit.Validate | backend/src/controllers/allocation.controller.ts:318-369 | the for loop computes exactly the specified validation result |
| AllocationSubmit.UnassignedSpec | backend/src/controllers/allocation.controller.ts:372-379 | no booked student is reported unassigned exactly when every booked student is among the assigned ids |
| AllocationSubmit.CabRowsMember | backend/src/controllers/allocation.controller.ts:389-397 | every inserted cab row belongs to the trip and carries a fresh id from the consecutive block |
| AllocationSubmit.AllocationRowsMember | backend/src/controllers/allocation.controller.ts:400-406 | every inserted allocation belongs to the trip and points at one of the newly inserted cabs |
| AllocationSubmit.SavedCabIds | backend/src/controllers/allocation.controller.ts:385-397 | after the delete and the inserts every cab id is below the next fresh id |
| AllocationSubmit.SavedCabIdsUnique | backend/src/controllers/allocation.controller.ts:385-397 | after the delete and the inserts each cab id still names exactly one cab |
| AllocationSubmit.SavedAllocationsReferenced | backend/src/controllers/allocation.controller.ts:385-406 | after the deletes and the inserts every allocation row points at a cab of its own trip |
| AllocationSubmit.SaveKeepsIntegrity | backend/src/controllers/allocation.controller.ts:381-411 | the transaction keeps cab ids unique and every allocation pointing at a cab of its own trip |
| AllocationSubmit.UsersOfAllocationRows | backend/src/controllers/allocation.controller.ts:400-406 | the inserted allocations seat exactly the submitted students, cab by cab |
| AllocationSubmit.AllocationRowsOfTrip | backend/src/controllers/allocation.controller.ts:400-406 | every inserted allocation row carries the trip id |
| AllocationSubmit.TripCabsAfterSave | backend/src/controllers/allocation.controller.ts:384-397 | after the save the trip's cabs are exactly the submitted ones |
| AllocationSubmit.TripStudentsAfterSave | backend/src/controllers/allocation.controller.ts:384-406 | after the save the trip's seated students are exactly the submitted assignments |
| AllocationSubmit.OtherCabsAfterSave | backend/src/controllers/allocation.controller.ts:385-386 | the cabs of other trips are untouched |
| AllocationSubmit.OtherStudentsAfterSave | backend/src/controllers/allocation.controller.ts:385-386 | the allocations of other trips are untouched |
| AllocationSubmit.SaveReplaces | backend/src/controllers/allocation.controller.ts:381-411 | the save replaces the trip's allocation and leaves every other trip as it was |
| AllocationSubmit.SaveSeatsEveryBookingOnce | backend/src/controllers/allocation.controller.ts:318-411 | after an accepted submission every booked student is seated exactly once in the trip |
| AllocationSubmit.AllocationTables.Save | backend/src/controllers/allocation.controller.ts:381-411 | deletes the trip's cabs and allocations, then inserts the submitted cabs with consecutive ids and their students |
| AllocationSubmit.AllocationTables.InsertCab | backend/src/controllers/allocation.controller.ts:389-406 | one cab row, capacity defaulting to 7, followed by one allocation row per student |
| AllocationSubmit.AllocationTables.SubmitAllocation | backend/src/controllers/allocation.controller.ts:292-428 | 400 without a trip id or cabs array; 400 with the validation loop's first error; 400 counting unassigned bookings; otherwise the tables are replaced as specified and 200 "Allocation saved successfully"; every rejection leaves the tables unchanged |
| Store.FindTrip | backend/src/data/store.js:48 | finds a trip with the given id, and finds none exactly when no trip has that id |
| Store.GetHalls | backend/src/data/store.js:46 | the halls of the trips, each once, and no other |
| Store.HydrateTripsFromEnv | backend/src/data/store.js:158-166 | with neither time set the trips are returned as they are; otherwise every trip keeps its other fields and takes each supplied (non-empty) time in place of its own |
| Store.BookingsForUser | backend/src/data/store.js:79 | exactly the bookings of that user |
| Store.BookingsForUserAppend | backend/src/data/store.js:73-79 | a new booking shows up at the end of its user's list and in no other user's |
| Store.FindBooking | backend/src/data/store.js:77 | the first booking with the given id, or none exactly when no booking has it |
| Store.MarkPaid | backend/src/data/store.js:95-97 | the found booking's status becomes "paid" and every other booking is unchanged; with no such booking nothing changes |
| Store.EntryIndex | backend/src/data/store.js:107-108 | the summary entry under the key hall-tripId, or none exactly when no entry has that key |
| Store.CountBookingShape | backend/src/data/store.js:106-110 | counting a booking increments its hall-trip entry or appends a new entry with one student, keeping the order of the others |
| Store.CountBookingTotal | backend/src/data/store.js:108-110 | counting a booking adds exactly one student to the summary |
| Store.SummaryTotal | backend/src/data/store.js:102-114 | the summary counts every booking once: its students add up to the number of bookings |
| Store.SummaryKeysDistinct | backend/src/data/store.js:102-114 | the summary has one entry per hall-trip key, each with at least one student |
| Store.SummaryCoversBookings | backend/src/data/store.js:102-114 | every booking's hall-trip key has an entry in the summary |
| Store.SummaryEntriesKnown | backend/src/data/store.js:102-114 | every summary entry names a known trip whose hall it carries |
| Store.BookingTrips | backend/src/data/store.js:106 | the trip of each booking, as found by id |
| Store.NeededCabs | backend/src/data/store.js:124 | the ceiling of students over capacity, and 1 when that is 0 |
| Store.SelectedSpec | backend/src/data/store.js:122-125 | the selected cabs are the first needed cabs of the entry's hall, fewer when the hall has fewer |
| Store.RowsSpec | backend/src/data/store.js:127-137 | one allocation row per selected cab, copying the cab and the trip |
| Store.AllAllocationsSnoc | backend/src/data/store.js:120-138 | the allocation rows are built entry after entry, in summary order |
| Store.EntryRowsCopyHallCabs | backend/src/data/store.js:120-138 | every row of an entry copies a cab of the entry's hall |
| Store.AllocationsUseHallCabs | backend/src/data/store.js:116-142 | every allocation copies a cab of its own trip's hall |
| Store.AppendRows | backend/src/data/store.js:127-137 | the forEach appends exactly the rows of the selected cabs |
| Store.Store.constructor | backend/src/data/store.js:5-44 | the store starts with the three seeded trips, the four seeded cabs and no bookings, payments or allocations |
| Store.Store.CreateBooking | backend/src/data/store.js:50-75 | "Unknown trip" for an unknown trip, "Hall does not match trip" for the wrong hall; otherwise a confirmed booking at the trip's fare is appended and returned |
| Store.Store.GetBookingsForUser | backend/src/data/store.js:79 | exactly the stored bookings of that user |
| Store.Store.RecordPayment | backend/src/data/store.js:81-100 | appends a succeeded razorpay-mock payment and marks the booking paid when it exists |
| Store.Count | backend/src/data/store.js:107-110 | one booking bumps the count of its hall-and-trip entry, or appends that entry with one student |
| Store.Store.SummarizeDemand | backend/src/data/store.js:102-114 | the loop computes the specified summary of the stored bookings |
| Store.Store.ComputeAllocations | backend/src/data/store.js:117-138 | the loops compute exactly the specified allocation rows |
| Store.Store.RunAllocation | backend/src/data/store.js:116-142 | replaces the allocations with the computed rows and returns them, leaving bookings and payments alone |
| Store.Store.ResetStore | backend/src/data/store.js:168-172 | empties bookings, payments and allocations |
| Qr.JourneyTypeAt | backend/src/controllers/qr.controller.ts:200-202 | the journey is a pickup exactly when the scan is before the trip's return time, a dropoff otherwise |
| Qr.StatusCode | backend/src/controllers/qr.controller.ts:124-290 | only a successful boarding answers 200 |
| Qr.JoinAllocation | backend/src/controllers/qr.controller.ts:158-174 | the joined row exists only for an existing allocation with its cab, and an unknown allocation id yields no row |
| Qr.Precheck | backend/src/controllers/qr.controller.ts:124-152 | the request passes the checks made before any table is read exactly when both fields are present, the id is a UUID and the passkey is four digits |
| Qr.Scan | backend/src/controllers/qr.controller.ts:124-152 | a request failing those checks is answered by them |
| Qr.PrechecksIgnoreTables | backend/src/controllers/qr.controller.ts:124-152 | a malformed request gets the same answer whatever the tables hold and never boards |
| Qr.BoardedMeans | backend/src/controllers/qr.controller.ts:158-290 | a boarding happens only for a well-formed request on a known allocation with a confirmed payment and no journey of that type yet, via a cab of the same trip whose passkey matches; a pickup's cab is the allocated cab; the journey records the scanning cab |
| Qr.DropoffAcceptsAnyTripCab | backend/src/controllers/qr.controller.ts:249-290 | on a dropoff any cab of the trip with the entered passkey boards the student, and the journey records that cab's number |
| Qr.ScanKeepsJourneysUnique | backend/src/controllers/qr.controller.ts:205-273 | a scan never makes two journeys for one trip, student and journey type |
| Qr.RescanIsAlreadyBoarded | backend/src/controllers/qr.controller.ts:205-224 | scanning again for the same journey type after a boarding answers "already boarded" with the first scan's time |
| Qr.BoardingDesk.constructor | backend/src/controllers/qr.controller.ts:117-118 | the desk starts on the given tables, with at most one journey per trip, student and type |
| Qr.BoardingDesk.ValidateQR | backend/src/controllers/qr.controller.ts:117-303 | answers as the decision sequence specifies and inserts exactly the boarded journey, or nothing |
| Qr.SeatStudentsNumbered | backend/src/controllers/qr.controller.ts:406-415 | the seated students keep the allocation order and are numbered 1, 2, … |
| Qr.GetCabDetails | backend/src/controllers/qr.controller.ts:308-423 | cab details are returned only for a UUID whose allocation's cab exists, and the cab is shown as the student view of that cab row, which has no passkey |
| Qr.FindCabIgnoresPasskeys | backend/src/controllers/qr.controller.ts:360-372 | looking a cab up by id finds the same student view whatever the cabs' passkeys are |
| Qr.CabDetailsHidePasskeys | backend/src/controllers/qr.controller.ts:360-372 | changing only the cabs' passkeys changes neither the kind of answer nor the cab shown to the student |
| Qr.CabDetailsSeats | backend/src/controllers/qr.controller.ts:386-415 | one seat per allocation of the cab, numbered 1, 2, … in creation order, pairwise distinct and, for at most seven students, all on the seat map |
| Qr.CabDetailsErrors | backend/src/controllers/qr.controller.ts:313-382 | 400 exactly for a malformed id; 404 exactly when no allocation has the id; 403 exactly when the student's payment for the trip is not confirmed; 404 exactly when the allocated cab is missing; otherwise the allocated cab's details |
| Payment.UpdatePaymentKeepsValid | backend/src/services/payment/payment.service.ts:228-233 | rewriting a payment row under its own id, trip and student keeps the tables consistent |
| Payment.AddPaymentKeepsValid | backend/src/services/payment/payment.service.ts:241-262 | inserting a payment under a fresh id keeps the tables consistent |
| Payment.PutBookingKeepsValid | backend/src/services/payment/payment.service.ts:450-472 | a booking row pointing at a payment of the same trip and student keeps the tables consistent |
| Payment.UpdateAdvances | backend/src/services/payment/payment.service.ts:228-233 | an update out of pending, or one that keeps a non-failed status, is a step the status machine allows |
| Payment.LatestPending | backend/src/services/payment/payment.service.ts:185-193 | the reused candidate is a pending payment of the same trip, student and hall |
| Payment.InitiateOutcome | backend/src/services/payment/payment.service.ts:139-335 | a checkout is returned exactly when the trip is in its booking window, the student has no confirmed booking, and either a pending payment is reused or the gateway creates an order; it is at the trip's fare; a refusal writes nothing; bookings and trips are never touched |
| Payment.InitiateReuses | backend/src/services/payment/payment.service.ts:195-222 | an unexpired pending payment with an order id for the same trip, student and hall is returned again and nothing is written |
| Payment.InitiateOpens | backend/src/services/payment/payment.service.ts:225-310 | otherwise, when the gateway creates an order, the stale pending payment, if any, fails as "Expired" and a new pending payment with the gateway order, expiring after 15 minutes, is added; no other payment changes |
| Payment.AddPendingAdvances | backend/src/services/payment/payment.service.ts:241-262 | adding a pending payment is a step the status machine allows |
| Payment.ExpireAndAddAdvances | backend/src/services/payment/payment.service.ts:225-262 | expiring a pending payment and adding a new one is a step the status machine allows |
| Payment.InitiateGatewayFails | backend/src/services/payment/payment.service.ts:273-326 | when no pending payment is reused and the gateway's order creation throws, its message is returned and the rollback leaves every table as it was |
| Payment.InitiateAdvances | backend/src/services/payment/payment.service.ts:139-335 | initiating a payment only moves statuses out of pending and never touches a failed payment |
| Payment.InitiateKeepsValid | backend/src/services/payment/payment.service.ts:139-335 | initiating a payment keeps the tables consistent |
| Payment.BookingOfPaymentUnique | backend/src/services/payment/payment.service.ts:364-371 | the booking found for a payment is the student's one row for the trip |
| Payment.VerifyNoWrite | backend/src/services/payment/payment.service.ts:349-385 | an unknown payment, a payment that is not pending or an order mismatch writes nothing; success then means the payment was already confirmed, with its existing booking id |
| Payment.VerifyRejects | backend/src/services/payment/payment.service.ts:388-407 | a failed signature check marks the pending payment failed with the gateway's reason and answers "Payment verification failed" |
| Payment.VerifyConfirms | backend/src/services/payment/payment.service.ts:410-476 | a verified signature confirms the payment with net amount = amount − fee − tax (missing counted as 0) and leaves exactly one booking row for the trip and student, pointing at this payment; its id is returned |
| Payment.VerifyAdvances | backend/src/services/payment/payment.service.ts:342-490 | verification only moves statuses out of pending and never touches a failed payment |
| Payment.VerifyKeepsValid | backend/src/services/payment/payment.service.ts:342-490 | verification keeps the tables consistent |
| Payment.VerifyIdempotent | backend/src/services/payment/payment.service.ts:362-373 | verifying again after a successful verification returns the same answer and writes nothing, whatever order, signature or verdict is sent |
| Payment.PaymentForOrder | backend/src/services/payment/payment.service.ts:522-530 | the payment found carries the event's order id |
| Payment.WebhookIgnores | backend/src/services/payment/payment.service.ts:503-530 | a rejected signature, another event or an unknown order writes nothing; only another event answers success |
| Payment.WebhookCaptured | backend/src/services/payment/payment.service.ts:532-614 | a captured event for a known order rewrites only that payment and never removes or changes an existing booking row |
| Payment.CaptureConfirmsPending | backend/src/services/payment/payment.service.ts:545-597 | a pending payment becomes confirmed with net amount = amount − fee − tax, and the student's booking row for the trip exists afterwards |
| Payment.CaptureCompletesConfirmed | backend/src/services/payment/payment.service.ts:598-611 | a confirmed payment keeps its status and bookings and only gains the fee, tax and net values it lacked |
| Payment.CaptureLeavesFailed | backend/src/services/payment/payment.service.ts:545-611 | a failed payment is not changed by the event |
| Payment.WebhookAdvances | backend/src/services/payment/payment.service.ts:498-626 | the webhook only moves statuses out of pending and never touches a failed payment |
| Payment.WebhookKeepsValid | backend/src/services/payment/payment.service.ts:498-626 | the webhook keeps the tables consistent |
| Payment.PaymentService.constructor | backend/src/services/payment/payment.service.ts:139-143 | the service starts with the given trips and no payments or bookings |
| Payment.PaymentService.InitiatePayment | backend/src/services/payment/payment.service.ts:139-335 | the answer and the new tables are those of the initiation specification, including the rollback of the inserted payment when the gateway fails, and the tables stay consistent |
| Payment.PaymentService.VerifyPayment | backend/src/services/payment/payment.service.ts:342-490 | the answer and the new tables are those of the verification specification, and the tables stay consistent |
| Payment.PaymentService.Confirm | backend/src/services/payment/payment.service.ts:410-476 | the confirmation writes: the payment confirmed and the booking row upserted |
| Payment.PaymentService.Capture | backend/src/services/payment/payment.service.ts:545-611 | the writes of a captured event on the found payment |
| Payment.PaymentService.ProcessWebhook | backend/src/services/payment/payment.service.ts:498-626 | the answer and the new tables are those of the webhook specification, and the tables stay consistent |
| Validation.JsString | backend/src/middleware/validation.middleware.ts:288 | String() of a string is the string itself |
| Validation.Respond | backend/src/middleware/validation.middleware.ts:113-123 | the request passes on exactly when no error was collected; otherwise 400 "Validation failed" with the collected messages in order |
| Validation.TimeOf | backend/src/middleware/validation.middleware.ts:65-66 | a number is a valid time exactly when it lies within the Date range of ±8.64e15 ms; an absent value is never a valid time |
| Validation.DateTextIsString | backend/src/middleware/validation.middleware.ts:41-42 | only a string value can pass the YYYY-MM-DD pattern |
| Validation.DecimalOfDigits | backend/src/middleware/validation.middleware.ts:105 | a run of decimal digits reads as its integer value |
| Validation.ParseFloatInteger | backend/src/middleware/validation.middleware.ts:105 | parseFloat of an integer's String() gives that integer back |
| Validation.ParseFloatNoDigit | backend/src/middleware/validation.middleware.ts:105-106 | text starting with anything but space, a digit, a sign, a point or "Infinity" is NaN, so it is rejected as not positive |
| Validation.ParseFloatNonNumbers | backend/src/middleware/validation.middleware.ts:105-106 | parseFloat of undefined, null or a boolean is NaN |
| Validation.ParseAmountAgrees | backend/src/middleware/validation.middleware.ts:105 | reading a number directly gives what parseFloat of its String() gives |
| Validation.Stamps | backend/src/middleware/validation.middleware.ts:53-59 | the five timestamps, in the order booking start, booking end, departure, prayer, end |
| Validation.StampErrorsEmpty | backend/src/middleware/validation.middleware.ts:61-70 | the timestamp loop reports nothing exactly when every timestamp is present and a valid date |
| Validation.TitleRule | backend/src/middleware/validation.middleware.ts:31-35 | the title passes exactly when it is a string with non-blank text of at most 255 characters; on update it may also be absent |
| Validation.DateRule | backend/src/middleware/validation.middleware.ts:38-50 | the date passes exactly when it matches YYYY-MM-DD and is a real date; on update it may also be absent |
| Validation.StampRule | backend/src/middleware/validation.middleware.ts:61-70 | a timestamp passes exactly when it is truthy and a valid date; on update, when absent or a valid date |
| Validation.AmountRule | backend/src/middleware/validation.middleware.ts:102-111 | the amount passes exactly when it is present and parses to a number in (0, 10000] |
| Validation.FieldErrorsEmpty | backend/src/middleware/validation.middleware.ts:30-70 | the field checks report nothing exactly when title, date and all five timestamps pass |
| Validation.TripDataAccepts | backend/src/middleware/validation.middleware.ts:12-124 | a new trip passes exactly when every field passes, booking start < booking end < departure < prayer < end, and the amount passes |
| Validation.OrderCheckedOnlyWhenClean | backend/src/middleware/validation.middleware.ts:72-99 | the time order is checked only when all five timestamps are present and nothing failed before; the amount is always checked |
| Validation.ValidateTripData | backend/src/middleware/validation.middleware.ts:12-124 | the middleware computes exactly the specified answer |
| Validation.CollectFieldErrors | backend/src/middleware/validation.middleware.ts:28-70 | the field checks collect exactly the specified messages, in order |
| Validation.CheckStamps | backend/src/middleware/validation.middleware.ts:61-70 | the for loop collects exactly the specified timestamp messages |
| Validation.CheckTitle | backend/src/middleware/validation.middleware.ts:31-35 | the title check's messages |
| Validation.CheckDate | backend/src/middleware/validation.middleware.ts:38-50 | the date check's messages |
| Validation.CheckAmount | backend/src/middleware/validation.middleware.ts:102-111 | the amount check's messages |
| Validation.CheckAmountRange | backend/src/middleware/validation.middleware.ts:205-212 | the update amount check's messages |
| Validation.UpdateStampErrorsEmpty | backend/src/middleware/validation.middleware.ts:196-203 | the update loop reports nothing exactly when every supplied timestamp is a valid date |
| Validation.TripUpdateAccepts | backend/src/middleware/validation.middleware.ts:130-227 | an update passes exactly when at least one field is truthy (or the amount is supplied) and every supplied field passes its check |
| Validation.UpdateIgnoresOrder | backend/src/middleware/validation.middleware.ts:214-215 | an update's answer does not depend on the order of the times, while creation refuses a trip whose times are reversed |
| Validation.ValidateTripUpdate | backend/src/middleware/validation.middleware.ts:130-227 | the middleware computes exactly the specified update answer |
| Validation.CollectUpdateFieldErrors | backend/src/middleware/validation.middleware.ts:166-212 | the update field checks collect exactly the specified messages, in order |
| Validation.CheckUpdateStamps | backend/src/middleware/validation.middleware.ts:196-203 | the update loop collects exactly the specified timestamp messages |
| Validation.CheckUpdateTitle | backend/src/middleware/validation.middleware.ts:167-173 | the update title check's messages |
| Validation.CheckUpdateDate | backend/src/middleware/validation.middleware.ts:175-185 | the update date check's messages |
| Validation.ValidateUuid | backend/src/middleware/validation.middleware.ts:240-251 | an id passes exactly when it is a UUID; otherwise 400 "Invalid ID format" |
| Validation.Lower | backend/src/middleware/validation.middleware.ts:241 | the case-insensitive flag: every letter is compared in lower case |
| Validation.UuidAccepts | backend/src/middleware/validation.middleware.ts:240-243 | case does not matter, and five hex groups joined by dashes pass exactly when their lengths are 8, 4, 4, 4 and 12 |
| Validation.NormalizedPhone | backend/src/middleware/validation.middleware.ts:288 | removing every non-digit leaves only digits |
| Validation.ProfileAccepts | backend/src/middleware/validation.middleware.ts:258-314 | a profile edit passes exactly when something is sent, a sent name is non-blank and at most 255 characters after trimming, a sent phone is cleared or has ten digits, and a sent notification flag is a boolean |
| Validation.PhoneNormalised | backend/src/middleware/validation.middleware.ts:284-295 | null or "" clears the phone; an accepted phone is rewritten to its ten digits |
| Validation.TrimIdempotent | backend/src/middleware/validation.middleware.ts:280 | trimming a trimmed name changes nothing |
| Validation.ProfileRewriteStable | backend/src/middleware/validation.middleware.ts:258-314 | an accepted, rewritten profile body passes again unchanged |
| Validation.ProfileRequest.constructor | backend/src/middleware/validation.middleware.ts:263 | the request holds the sent body |
| Validation.ProfileRequest.CheckName | backend/src/middleware/validation.middleware.ts:274-282 | the name check's messages, and the name trimmed when it passes |
| Validation.ProfileRequest.CheckPhone | backend/src/middleware/validation.middleware.ts:284-295 | the phone check's messages, and the phone cleared or normalised |
| Validation.ProfileRequest.ValidateProfileUpdate | backend/src/middleware/validation.middleware.ts:258-314 | the answer and the rewritten body are those of the profile specification |
| Validation.EmailAccepted | backend/src/middleware/validation.middleware.ts:334-335 | a plain address with a dotted domain passes the e-mail pattern |
| Validation.EmailRejected | backend/src/middleware/validation.middleware.ts:334-335 | a domain without a dot, or a space in the address, fails it |
| Validation.EmailFromParts | backend/src/middleware/validation.middleware.ts:334-335 | any non-empty user, domain and suffix without white space or `@` joined as user@domain.suffix pass the e-mail pattern |
| Validation.EmailNoSpace | backend/src/middleware/validation.middleware.ts:334-335 | an address with white space anywhere fails it |
| Validation.EmailNeedsDot | backend/src/middleware/validation.middleware.ts:334-335 | an address with no dot after an `@` fails it |
| Validation.EmailSingleAt | backend/src/middleware/validation.middleware.ts:334 | an accepted address has exactly one @ |
| Validation.ValidateUserCreation | backend/src/middleware/validation.middleware.ts:320-372 | every refusal is a 400 "Validation failed" listing at least one problem; `UserCreationAccepts` says when it passes |
| Validation.ValidateUserUpdate | backend/src/middleware/validation.middleware.ts:374-430 | every refusal is a 400, and it is the "at least one field" refusal exactly when no e-mail, name or phone number is sent; `UserUpdateAccepts` says when it passes |
| Validation.UserCreationAccepts | backend/src/middleware/validation.middleware.ts:320-372 | a new user passes exactly when the e-mail and name are valid, the phone is absent, cleared or ten digits, and is_admin, if sent, is a boolean |
| Validation.UserUpdateAccepts | backend/src/middleware/validation.middleware.ts:374-430 | a user edit passes exactly when something is sent and each sent field is valid |
| Validation.CreationImpliesUpdate | backend/src/middleware/validation.middleware.ts:320-430 | every body accepted for creation is accepted as an edit |
| ReportHistory.FieldDiff | backend/src/services/report-history.service.ts:55-61 | a field is recorded exactly when a value was provided and differs from the stored one, with the stored value as old and the provided one as new |
| ReportHistory.CreatedChanges | backend/src/services/report-history.service.ts:29-35 | creation always records the cab cost with no old value, and records the notes only when they are non-empty |
| ReportHistory.ReportDiffFields | backend/src/services/report-history.service.ts:55-61 | the update record names cab_cost or notes exactly when the request sent a new value for it, with the old and new values |
| ReportHistory.ReportDiffEmpty | backend/src/services/report-history.service.ts:63-66 | the update record is empty exactly when the update leaves the report as it was |
| ReportHistory.ReportDiffRoundTrip | backend/src/services/report-history.service.ts:55-61 | replaying the record's new values gives the updated report, and restoring its old values gives the report back |
| ReportHistory.ReportPatchIdempotent | backend/src/services/report-history.service.ts:55-66 | repeating the same update records nothing the second time |
| ReportHistory.AdjustmentDiffFields | backend/src/services/report-history.service.ts:125-135 | the adjustment record names category, description or amount exactly when a new value was sent for it, with the old and new values |
| ReportHistory.AdjustmentDiffEmpty | backend/src/services/report-history.service.ts:137-140 | the adjustment record is empty exactly when the update leaves the adjustment as it was |
| ReportHistory.AdjustmentDiffRevert | backend/src/services/report-history.service.ts:125-135 | restoring the record's old values gives the adjustment back |
| ReportHistory.SnapshotOf | backend/src/services/report-history.service.ts:93-101 | the snapshot keeps the adjustment's id, type, category, description and amount |
| ReportHistory.SnapshotRestores | backend/src/services/report-history.service.ts:163-172 | a removed adjustment can be rebuilt from its snapshot with its report and author |
| ReportHistory.ReportUpdatedRows | backend/src/services/report-history.service.ts:47-73 | an update writes at most one report_updated row, and none exactly when nothing changed |
| ReportHistory.AdjustmentUpdatedRows | backend/src/services/report-history.service.ts:113-147 | an adjustment update writes at most one adjustment_updated row carrying the adjustment id, and none exactly when nothing changed |
| ReportHistory.HistoryLog.LogReportCreated | backend/src/services/report-history.service.ts:24-42 | appends one report_created row with the creation record and no adjustment id |
| ReportHistory.HistoryLog.LogReportUpdated | backend/src/services/report-history.service.ts:47-73 | appends exactly the update rows: the record of the changed fields, or nothing |
| ReportHistory.HistoryLog.LogAdjustmentAdded | backend/src/services/report-history.service.ts:82-108 | appends one adjustment_added row with the snapshot and the adjustment id |
| ReportHistory.HistoryLog.LogAdjustmentUpdated | backend/src/services/report-history.service.ts:113-147 | appends exactly the adjustment update rows |
| ReportHistory.HistoryLog.LogAdjustmentRemoved | backend/src/services/report-history.service.ts:152-178 | appends one adjustment_removed row with the snapshot and no adjustment id |
| Text.TrimStartSpec | backend/src/middleware/validation.middleware.ts:275 | trimming the front removes exactly the leading white space |
| Text.TrimEndSpec | backend/src/middleware/validation.middleware.ts:275 | trimming the end removes exactly the trailing white space |
| Text.DigitsOf | backend/src/middleware/validation.middleware.ts:288 | removing every non-digit leaves only digits and never lengthens the text |
| Text.DigitsOfDigits | backend/src/middleware/validation.middleware.ts:288 | a text of digits is left as it is |
| Text.NatToStringRoundTrip | backend/src/controllers/allocation.controller.ts:22 | toString of a non-negative integer reads back as that integer |
| Text.FourDigitNumbers | backend/src/controllers/allocation.controller.ts:22 | every number from 1000 to 9999 prints as four digits without a leading zero |
| Text.UuidGroups | backend/src/middleware/validation.middleware.ts:240-241 | five dash-joined hexadecimal groups match the UUID pattern exactly when their lengths are 8, 4, 4, 4 and 12 |

## Left out

- Solvers: OR-Tools CP-SAT and `javascript-lp-solver` are foreign optimisation oracles. Their status and values are parameters that satisfy the model they were given. Optimality is not proved, and the float objective values (`ObjectiveValue()`, `results.result`) are not modelled.
- Dashboard user interface: the Tk widgets, `main`, message boxes, f-string padding and the `Objective value:{:.2f}` line are presentation only. The plan block is modelled as the data it prints.
- React pages and components, e-mail templates and their rendering, and the status helpers embedded in UI components are presentation and duplicate logic modelled here.
- Database and HTTP plumbing:
  - PostgreSQL tables are maps and sequences.
  - Transactions, `FOR UPDATE` row locks and the ROLLBACK with status 500 on a database error are not modelled. The rollback of `initiatePayment` when the gateway's order creation throws is modelled (`Payment.InitiateGatewayFails`).
  - Express request and response objects become inputs and result values.
  - Row ids and timestamps that the database assigns are parameters or counters.
- pg returns NUMERIC columns as strings. That coercion, which can make the `!==` comparisons of the report-history diff see a change where the numbers are equal, is not modelled: amounts are compared as numbers.
- Crypto and gateways: HMAC-SHA256 signature checks (RFC 2104), the Razorpay SDK and order creation are the gateway's verdicts and answers, passed as parameters. E-mail providers and JWT authentication are not part of this model.
- Concurrency and timers:
  - The `setInterval` of the webhook limiter is `RateLimiter.Cleanup`, called explicitly with the clock.
  - The e-mail queue and notification polling are not part of this model.
- Floating point: payment amounts are integer paise, so `Math.round(rupees * 100)` is not modelled. Report amounts and parsed trip fares are exact reals.
- CabInput.ParseInt: Python's `int` also accepts non-ASCII Unicode decimal digits (Arabic-Indic, full-width and so on); the model accepts only ASCII digits, so such entries are input errors here.
- RouteGuards.ValidateRouteConfig: routes and their `meta` are values and the repaired routes are returned, so the in-place `meta.requireAuth = true` is seen only through the returned routes; a `meta` object shared by several routes, or held elsewhere, whose repair the other holders would also see, is not modelled.
- Validation.ParseFloat: overflow to `Infinity`, underflow and binary rounding of `parseFloat` are not modelled.
- Validation.JsString: numbers of 1e21 or more, which JavaScript prints in exponent form, are printed in full.
- Validation inputs:
  - JSON numbers are integers.
  - Objects and arrays as field values are not modelled.
  - Lengths count characters, not UTF-16 code units.
  - `toLowerCase` is ASCII only.
- Dates: `Date.parse` of a string is the engine's and is a parameter (`Validation.DateParser`). Everywhere else times are integer milliseconds.
- Randomness: the passkey draws `Math.floor(Math.random() * 9000)` are a parameter constrained to 0..8999. The random booking ids, payment ids and QR codes of the demo store are parameters.
- ReportHistory.HistoryLog.LogAdjustmentUpdated: `logAdjustmentUpdated` takes the adjustment id as an argument of its own. The model takes it from the current adjustment, so a caller passing an id that differs from the adjustment's own is not modelled. The NaN cases of the `!==` comparisons are not modelled.
- `classifyScan` and `timelineForTrip` in store.js depend on trips.js and on date parsing, and trips.js is not part of this model. The getters `listAllocations`, `listPayments` and `listBookings` return the module lists unchanged and are not modelled.
- `getQRData` in qr.controller.ts builds the QR payload from the database, outside the boarding decision, and is not modelled.
- `getPaymentStatus` and `cleanupExpiredPayments` in payment.service.ts are a read and a bulk expiry update outside the state machine of initiate, verify and webhook. They are not modelled.
- `getAllocation` and `clearAllocation` in allocation.controller.ts are a read and a bulk delete and are not modelled.
- RouteGuards.ProcessRoutes: the React element a guard wraps is an abstract `Element` value, not a rendered component.
- The announcement truncation and category label helpers are presentation and are not part of this model.

## Findings

| source | as written | input that shows it | evidently intended | confidence | as-written member | corrected member |
|---|---|---|---|---|---|---|
| backend/src/controllers/allocation.controller.ts:113-122 | each destination re-filters the full `allStudents` list and splices a fresh copy, so no booking is ever used up | a booking from hall RK (region 0) with `assignments[0][0] > 0`, `assignments[0][1] > 0` and a cab at regions 0 and 1: it is drawn for both and seated in two cabs | each booking is drawn for at most one destination, so a student rides at most one cab | not executed | AllocationController.AsWrittenSeatsTwice | AllocationController.FixedSeatsAtMost |
| backend/src/controllers/allocation.controller.ts:125-151 | `generateUniquePasskey` checks a draw only against the cabs stored for the trip, not against the cabs suggested earlier in the same run | two suggested cabs whose first random draws are equal and not used by a stored cab: both get that passkey | the passkeys of one suggestion are pairwise distinct as well as unused | not executed | AllocationController.AsWrittenSharesPasskeys | AllocationController.FixedPasskeysDistinct |
